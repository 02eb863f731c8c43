/**
 Progress of passes over programs that each keep to their own kinds.

 Each program comes with a cause that can make it fail, a condition under which
 it is done, and a condition it needs and keeps.  If every program, run alone
 against a truthful server, fails only because of its cause and thereby removes
 it, and no run that may be cancelled brings a cause back, then passes over all
 of them fail at most once per cause and are quiet from the first success on.
 */
module Progress {
  import opened Options
  import opened Api
  import opened Interleaving

  /** tidy is what a part that is done has achieved for good, whatever others do later. */
  datatype Part = Part(
    prog: Prog, kinds: set<Kind>,
    needs: Cluster -> bool, cause: Cluster -> bool, done: Cluster -> bool, tidy: Cluster -> bool)

  /** What one run of a part alone on its kinds may do. */
  ghost predicate Progresses(
    p: Part, c: Cluster, mode: Mode, trace: seq<Event>, after: Cluster, err: Option<ApiError>) {
    && p.needs(after)
    && (p.cause(after) ==> p.cause(c))
    && (p.tidy(c) ==> p.tidy(after))
    && (err == None ==> p.done(after))
    && (mode.Truthful? ==>
          && (err == None ==> !p.cause(c))
          && (err.Some? ==> p.cause(c) && !p.cause(after))
          && (p.done(c) ==> after == c && Spares(p.prog, trace, Everywhere)))
  }

  ghost predicate AlwaysProgresses(p: Part) {
    forall c, mode: Mode, trace, after, err ::
      !mode.Faulty? && p.needs(c) && Runs(p.prog, c, mode, trace, after, err) ==>
        Progresses(p, c, mode, trace, after, err)
  }

  ghost predicate OnOwnKinds(p: Part) {
    forall c :: p.needs(Restrict(c, p.kinds)) == p.needs(c)
             && p.cause(Restrict(c, p.kinds)) == p.cause(c)
             && p.done(Restrict(c, p.kinds)) == p.done(c)
             && p.tidy(Restrict(c, p.kinds)) == p.tidy(c)
             && (p.done(c) ==> p.tidy(c))
  }

  ghost predicate Good(p: Part) {
    !Failing(p.prog) && OnOwnKinds(p) && AlwaysProgresses(p) && Tame(p.prog, p.kinds)
  }

  ghost predicate GoodParts(parts: seq<Part>) {
    (forall i :: 0 <= i < |parts| ==> Good(parts[i])) && Disjoint(KindsOf(parts))
  }

  function ProgsOf(parts: seq<Part>): seq<Prog> {
    seq(|parts|, i requires 0 <= i < |parts| => parts[i].prog)
  }

  function KindsOf(parts: seq<Part>): seq<set<Kind>> {
    seq(|parts|, i requires 0 <= i < |parts| => parts[i].kinds)
  }

  predicate Needs(parts: seq<Part>, c: Cluster) {
    forall i :: 0 <= i < |parts| ==> parts[i].needs(c)
  }

  predicate AllDone(parts: seq<Part>, c: Cluster) {
    forall i :: 0 <= i < |parts| ==> parts[i].done(c)
  }

  predicate AllTidy(parts: seq<Part>, c: Cluster) {
    forall i :: 0 <= i < |parts| ==> parts[i].tidy(c)
  }

  function Causes(parts: seq<Part>, c: Cluster): set<nat> {
    set i: nat | i < |parts| && parts[i].cause(c)
  }

  function StartOf(parts: seq<Part>, c: Cluster): PassState {
    PassState(c, ProgsOf(parts), false, false)
  }

  /** How a pass ended and whether it wrote nothing. */
  datatype Outcome = Outcome(failed: bool, quiet: bool)

  ghost function OutcomeOf(s: PassState, moves: seq<Move>, end: PassState): Outcome {
    Outcome(end.cancelled, PassSpares(s, moves, Everywhere))
  }

  /** One complete pass over the parts: an interleaving after which all programs have returned. */
  ghost predicate Ran(parts: seq<Part>, c: Cluster, moves: seq<Move>, end: PassState) {
    Pass(StartOf(parts, c), moves, end) && Finished(end)
  }

  ghost predicate OnePass(parts: seq<Part>, c: Cluster, after: Cluster, outcome: Outcome) {
    exists moves, end ::
      Ran(parts, c, moves, end) && after == end.cluster && outcome == OutcomeOf(StartOf(parts, c), moves, end)
  }

  lemma PartsKeep(parts: seq<Part>)
    requires GoodParts(parts)
    ensures AllKeep(ProgsOf(parts), KindsOf(parts)) && Disjoint(KindsOf(parts))
    ensures forall p :: p in ProgsOf(parts) ==> !Failing(p)
  {
    forall i | 0 <= i < |parts| ensures Tame(ProgsOf(parts)[i], KindsOf(parts)[i]) {
      assert Good(parts[i]);
    }
    forall p | p in ProgsOf(parts) ensures !Failing(p) {
      var i :| 0 <= i < |parts| && p == ProgsOf(parts)[i];
      assert Good(parts[i]);
    }
  }

  function Six(a: Part, b: Part, c: Part, d: Part, e: Part, f: Part): (parts: seq<Part>)
    ensures |parts| == 6
  {
    [a, b, c, d, e, f]
  }

  lemma SixGoodParts(a: Part, b: Part, c: Part, d: Part, e: Part, f: Part)
    requires Good(a) && Good(b) && Good(c) && Good(d) && Good(e) && Good(f)
    requires Disjoint([a.kinds, b.kinds, c.kinds, d.kinds, e.kinds, f.kinds])
    ensures GoodParts(Six(a, b, c, d, e, f))
  {
    var parts := Six(a, b, c, d, e, f);
    assert KindsOf(parts) == [a.kinds, b.kinds, c.kinds, d.kinds, e.kinds, f.kinds];
    forall i | 0 <= i < |parts| ensures Good(parts[i]) {
      assert parts[i] == a || parts[i] == b || parts[i] == c || parts[i] == d || parts[i] == e || parts[i] == f;
    }
  }

  lemma SixProgs(a: Part, b: Part, c: Part, d: Part, e: Part, f: Part)
    ensures ProgsOf(Six(a, b, c, d, e, f)) == [a.prog, b.prog, c.prog, d.prog, e.prog, f.prog]
  {
  }

  lemma SixNeeds(a: Part, b: Part, c: Part, d: Part, e: Part, f: Part, now: Cluster)
    requires a.needs(now) && b.needs(now) && c.needs(now) && d.needs(now) && e.needs(now) && f.needs(now)
    ensures Needs(Six(a, b, c, d, e, f), now)
  {
  }

  lemma SixDone(a: Part, b: Part, c: Part, d: Part, e: Part, f: Part, now: Cluster)
    requires AllDone(Six(a, b, c, d, e, f), now)
    ensures a.done(now) && b.done(now) && c.done(now) && d.done(now) && e.done(now) && f.done(now)
  {
    var parts := Six(a, b, c, d, e, f);
    assert parts[0] == a && parts[1] == b && parts[2] == c && parts[3] == d && parts[4] == e && parts[5] == f;
  }

  lemma SixAt(a: Part, b: Part, c: Part, d: Part, e: Part, f: Part, i: nat, now: Cluster)
    requires i < 6 && Six(a, b, c, d, e, f)[i].done(now)
    ensures (i == 0 ==> a.done(now)) && (i == 1 ==> b.done(now)) && (i == 2 ==> c.done(now))
    ensures (i == 3 ==> d.done(now)) && (i == 4 ==> e.done(now)) && (i == 5 ==> f.done(now))
  {
  }

  /** Parts that never have a cause do not count. */
  lemma ThreeCauses(a: Part, b: Part, c: Part, d: Part, e: Part, f: Part, now: Cluster)
    requires !a.cause(now) && !b.cause(now) && !d.cause(now)
    ensures |Causes(Six(a, b, c, d, e, f), now)| <= 3
  {
    Smaller(Causes(Six(a, b, c, d, e, f), now), {2, 4, 5});
  }

  /** A pass reports an error exactly when the context was cancelled, that is, when some program failed. */
  lemma FailedIff(parts: seq<Part>, c: Cluster, moves: seq<Move>, end: PassState)
    requires GoodParts(parts) && Ran(parts, c, moves, end)
    ensures end.cancelled <==> exists i :: 0 <= i < |end.procs| && Failing(end.procs[i])
  {
    var s := StartOf(parts, c);
    PartsKeep(parts);
    CancelledStays(s, moves, end);
    if end.cancelled {
      var who, _ := FirstToFail(s, moves, end, KindsOf(parts));
    } else {
      forall i | 0 <= i < |end.procs| ensures !Failing(end.procs[i]) {
        assert s.procs[i] in s.procs;
        NoFailureWithoutCancel(s, moves, end, i);
      }
    }
  }

  /** What the pass as a whole does to part i. */
  lemma PartRan(parts: seq<Part>, c: Cluster, moves: seq<Move>, end: PassState, i: nat)
    requires GoodParts(parts) && Needs(parts, c) && Ran(parts, c, moves, end) && i < |parts|
    ensures i < |end.procs| && parts[i].needs(end.cluster)
    ensures parts[i].cause(end.cluster) ==> parts[i].cause(c)
    ensures parts[i].tidy(c) ==> parts[i].tidy(end.cluster)
    ensures end.procs[i].err == None ==> parts[i].done(end.cluster)
    ensures !end.cancelled ==> end.procs[i].err == None
    ensures !end.cancelled && parts[i].done(c) ==>
      && Restrict(end.cluster, parts[i].kinds) == Restrict(c, parts[i].kinds)
      && Spares(parts[i].prog, Share(moves, i, parts[i].kinds), Everywhere)
  {
    var s, p := StartOf(parts, c), parts[i];
    PartsKeep(parts);
    ShareIsSolo(s, moves, end, KindsOf(parts), i);
    assert Good(p);
    var part, endPart, err := Restrict(c, p.kinds), Restrict(end.cluster, p.kinds), end.procs[i].err;
    var share := Share(moves, i, p.kinds);
    CancelledStays(s, moves, end);
    assert Runs(p.prog, part, ModeOf(end), share, endPart, err);
    assert p.needs(part) == p.needs(c);
    assert Progresses(p, part, ModeOf(end), share, endPart, err);
    assert p.done(endPart) == p.done(end.cluster);
    assert p.tidy(part) == p.tidy(c);
    if !end.cancelled {
      NoFailureWithoutCancel(s, moves, end, i);
    }
  }

  /** In every finished pass, failed or not, what returned nil is done. */
  lemma NilMeansDone(parts: seq<Part>, c: Cluster, moves: seq<Move>, end: PassState, i: nat)
    requires GoodParts(parts) && Needs(parts, c) && Ran(parts, c, moves, end)
    requires i < |parts| && i < |end.procs| && end.procs[i] == Ret(None)
    ensures parts[i].done(end.cluster)
  {
    PartRan(parts, c, moves, end, i);
  }

  /** The program that fails first had a cause, and its cause is gone afterwards. */
  lemma FirstErrorDischarges(parts: seq<Part>, c: Cluster, moves: seq<Move>, end: PassState)
    returns (who: nat)
    requires GoodParts(parts) && Needs(parts, c) && Ran(parts, c, moves, end) && end.cancelled
    ensures who in Causes(parts, c) && who !in Causes(parts, end.cluster) && !AllDone(parts, c)
  {
    PartsKeep(parts);
    var trace;
    who, trace := FirstToFail(StartOf(parts, c), moves, end, KindsOf(parts));
    var p := parts[who];
    assert Good(p);
    var part, endPart := Restrict(c, p.kinds), Restrict(end.cluster, p.kinds);
    assert p.needs(part) == p.needs(c);
    assert Progresses(p, part, Truthful, trace, endPart, end.procs[who].err);
    assert p.done(endPart) == p.done(end.cluster);
  }

  lemma CausesNeverReturn(parts: seq<Part>, c: Cluster, moves: seq<Move>, end: PassState)
    requires GoodParts(parts) && Needs(parts, c) && Ran(parts, c, moves, end)
    ensures Causes(parts, end.cluster) <= Causes(parts, c) && Needs(parts, end.cluster)
    ensures AllTidy(parts, c) ==> AllTidy(parts, end.cluster)
  {
    forall i: nat | i < |parts|
      ensures parts[i].needs(end.cluster) && (parts[i].cause(end.cluster) ==> parts[i].cause(c))
      ensures parts[i].tidy(c) ==> parts[i].tidy(end.cluster)
    {
      PartRan(parts, c, moves, end, i);
    }
  }

  /** A pass over parts that are all done writes nothing, and changes nothing. */
  lemma QuietWhenDone(parts: seq<Part>, c: Cluster, moves: seq<Move>, end: PassState)
    requires GoodParts(parts) && Needs(parts, c) && Ran(parts, c, moves, end) && !end.cancelled && AllDone(parts, c)
    ensures PassSpares(StartOf(parts, c), moves, Everywhere)
    ensures end.cluster == c
  {
    var s, kinds := StartOf(parts, c), KindsOf(parts);
    PartsKeep(parts);
    forall i: nat | i < |parts| ensures Spares(s.procs[i], Share(moves, i, kinds[i]), Everywhere) {
      PartRan(parts, c, moves, end, i);
    }
    SharesSpare(s, moves, end, kinds, Everywhere);
    forall k: Key ensures (k in c <==> k in end.cluster) && (k in c ==> end.cluster[k] == c[k]) {
      if i: nat :| i < |parts| && k.kind in kinds[i] {
        PartRan(parts, c, moves, end, i);
        SamePart(c, end.cluster, kinds[i], k);
      } else {
        KeyUntouched(s, moves, end, kinds, k);
      }
    }
  }

  lemma SamePart(a: Cluster, b: Cluster, kinds: set<Kind>, k: Key)
    requires Restrict(a, kinds) == Restrict(b, kinds) && k.kind in kinds
    ensures (k in a <==> k in b) && (k in a ==> b[k] == a[k])
  {
    assert k in a <==> k in Restrict(a, kinds);
    assert k in b <==> k in Restrict(b, kinds);
    assert k in a ==> Restrict(a, kinds)[k] == a[k];
    assert k in b ==> Restrict(b, kinds)[k] == b[k];
  }

  /** One pass: it fails and loses a cause, or succeeds and is done; where all is done already it does nothing. */
  lemma PassOutcome(parts: seq<Part>, c: Cluster, after: Cluster, outcome: Outcome)
    requires GoodParts(parts) && Needs(parts, c) && OnePass(parts, c, after, outcome)
    ensures Needs(parts, after) && Causes(parts, after) <= Causes(parts, c)
    ensures AllTidy(parts, c) || !outcome.failed ==> AllTidy(parts, after)
    ensures |Causes(parts, after)| + (if outcome.failed then 1 else 0) <= |Causes(parts, c)|
    ensures !outcome.failed ==> AllDone(parts, after)
    ensures AllDone(parts, c) ==> !outcome.failed && outcome.quiet && after == c
  {
    var moves, end :|
      Ran(parts, c, moves, end) && after == end.cluster && outcome == OutcomeOf(StartOf(parts, c), moves, end);
    CausesNeverReturn(parts, c, moves, end);
    if outcome.failed {
      var who := FirstErrorDischarges(parts, c, moves, end);
      Smaller(Causes(parts, after), Causes(parts, c) - {who});
    } else {
      Smaller(Causes(parts, after), Causes(parts, c));
      forall i: nat | i < |parts| ensures parts[i].done(after) && parts[i].tidy(after) {
        PartRan(parts, c, moves, end, i);
        assert Good(parts[i]);
      }
      if AllDone(parts, c) {
        QuietWhenDone(parts, c, moves, end);
      }
    }
  }

  lemma {:induction false} Smaller<T>(a: set<T>, b: set<T>)
    requires a <= b
    ensures |a| <= |b|
  {
    if a != {} {
      var x :| x in a;
      Smaller(a - {x}, b - {x});
    }
  }

  // ----- Whole runs -----

  /** Pass i leads from cluster i to cluster i + 1. */
  ghost predicate PassHistory(parts: seq<Part>, clusters: seq<Cluster>, outcomes: seq<Outcome>) {
    && |clusters| == |outcomes| + 1
    && forall i :: 0 <= i < |outcomes| ==> OnePass(parts, clusters[i], clusters[i + 1], outcomes[i])
  }

  function CountFailed(outcomes: seq<Outcome>): nat {
    if outcomes == [] then 0
    else CountFailed(outcomes[..|outcomes| - 1]) + if outcomes[|outcomes| - 1].failed then 1 else 0
  }

  /** Every failure uses up a cause. */
  lemma {:induction false} FailuresAreBounded(parts: seq<Part>, clusters: seq<Cluster>, outcomes: seq<Outcome>, n: nat)
    requires GoodParts(parts) && PassHistory(parts, clusters, outcomes) && Needs(parts, clusters[0]) && n <= |outcomes|
    ensures Needs(parts, clusters[n])
    ensures CountFailed(outcomes[..n]) + |Causes(parts, clusters[n])| <= |Causes(parts, clusters[0])|
    decreases n
  {
    if n > 0 {
      FailuresAreBounded(parts, clusters, outcomes, n - 1);
      assert outcomes[..n][..n - 1] == outcomes[..n - 1];
      PassOutcome(parts, clusters[n - 1], clusters[n], outcomes[n - 1]);
    }
  }

  /** If pass i succeeds then pass j after it succeeds too, writes nothing and leaves the cluster alone. */
  predicate QuietPair(clusters: seq<Cluster>, outcomes: seq<Outcome>, i: nat, j: nat)
    requires |clusters| == |outcomes| + 1 && i < j < |outcomes|
  {
    !outcomes[i].failed ==> !outcomes[j].failed && outcomes[j].quiet && clusters[j + 1] == clusters[i + 1]
  }

  /** After the first success every pass succeeds, writes nothing and leaves the cluster alone. */
  lemma StaysQuiet(parts: seq<Part>, clusters: seq<Cluster>, outcomes: seq<Outcome>, i: nat, j: nat)
    requires GoodParts(parts) && PassHistory(parts, clusters, outcomes) && Needs(parts, clusters[0])
    requires i <= j < |outcomes| && !outcomes[i].failed
    ensures AllDone(parts, clusters[i + 1]) && !outcomes[j].failed && clusters[j + 1] == clusters[i + 1]
    ensures i < j ==> outcomes[j].quiet
  {
    var done := DoneFlags(parts, clusters);
    forall t: nat | t < |outcomes| ensures QuietStep(clusters, outcomes, done, t) {
      PassAt(parts, clusters, outcomes, t);
    }
    QuietAlong(clusters, outcomes, done, i, j);
  }

  lemma {:induction false} DoneFlags(parts: seq<Part>, clusters: seq<Cluster>) returns (done: seq<bool>)
    ensures |done| == |clusters| && forall t :: 0 <= t < |done| ==> done[t] == AllDone(parts, clusters[t])
    decreases |clusters|
  {
    if clusters == [] {
      done := [];
    } else {
      done := DoneFlags(parts, clusters[1..]);
      done := [AllDone(parts, clusters[0])] + done;
    }
  }

  /** A success makes all done, and where all is done the pass succeeds and does nothing. */
  predicate QuietStep(clusters: seq<Cluster>, outcomes: seq<Outcome>, done: seq<bool>, t: nat)
    requires |clusters| == |done| == |outcomes| + 1 && t < |outcomes|
  {
    && (!outcomes[t].failed ==> done[t + 1])
    && (done[t] ==> !outcomes[t].failed && outcomes[t].quiet && clusters[t + 1] == clusters[t])
  }

  /** done[t] tells whether all was done at cluster t. */
  lemma {:induction false} QuietAlong(clusters: seq<Cluster>, outcomes: seq<Outcome>, done: seq<bool>, i: nat, j: nat)
    requires |clusters| == |done| == |outcomes| + 1 && i <= j < |outcomes| && !outcomes[i].failed
    requires forall t: nat :: t < |outcomes| ==> QuietStep(clusters, outcomes, done, t)
    ensures done[i + 1] && done[j + 1] && !outcomes[j].failed && clusters[j + 1] == clusters[i + 1]
    ensures i < j ==> outcomes[j].quiet
    decreases j
  {
    assert QuietStep(clusters, outcomes, done, j);
    if i < j {
      QuietAlong(clusters, outcomes, done, i, j - 1);
    }
  }

  lemma PassAt(parts: seq<Part>, clusters: seq<Cluster>, outcomes: seq<Outcome>, j: nat)
    requires GoodParts(parts) && PassHistory(parts, clusters, outcomes) && Needs(parts, clusters[0]) && j < |outcomes|
    ensures !outcomes[j].failed ==> AllDone(parts, clusters[j + 1])
    ensures AllDone(parts, clusters[j]) ==> !outcomes[j].failed && outcomes[j].quiet && clusters[j + 1] == clusters[j]
  {
    FailuresAreBounded(parts, clusters, outcomes, j);
    PassOutcome(parts, clusters[j], clusters[j + 1], outcomes[j]);
  }

  /** While no pass has succeeded every pass counts. */
  lemma {:induction false} AllFailed(outcomes: seq<Outcome>, n: nat)
    requires n <= |outcomes| && forall i :: 0 <= i < n ==> outcomes[i].failed
    ensures CountFailed(outcomes[..n]) == n
    decreases n
  {
    if n > 0 {
      AllFailed(outcomes, n - 1);
      assert outcomes[..n][..n - 1] == outcomes[..n - 1];
    }
  }

  lemma TotalFailures(parts: seq<Part>, clusters: seq<Cluster>, outcomes: seq<Outcome>, b: nat)
    requires GoodParts(parts) && PassHistory(parts, clusters, outcomes) && Needs(parts, clusters[0])
    requires |Causes(parts, clusters[0])| <= b
    ensures CountFailed(outcomes) <= b
  {
    FailuresAreBounded(parts, clusters, outcomes, |outcomes|);
    assert outcomes[..|outcomes|] == outcomes;
  }

  /** With b causes at the start, one of the first b + 1 passes succeeds. */
  lemma SuccessBy(parts: seq<Part>, clusters: seq<Cluster>, outcomes: seq<Outcome>, b: nat)
    requires GoodParts(parts) && PassHistory(parts, clusters, outcomes) && Needs(parts, clusters[0])
    requires |Causes(parts, clusters[0])| <= b < |outcomes|
    ensures !outcomes[b].failed
  {
    FailuresAreBounded(parts, clusters, outcomes, b + 1);
    if forall i :: 0 <= i < b + 1 ==> outcomes[i].failed {
      AllFailed(outcomes, b + 1);
    } else {
      var i :| 0 <= i < b + 1 && !outcomes[i].failed;
      StaysQuiet(parts, clusters, outcomes, i, b);
    }
  }
}
