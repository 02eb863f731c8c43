/**
 Several families of parts that take turns on one cluster.

 A part tolerates another that works on the same kinds when the other's runs take
 away nothing it needs, give it no cause and leave it tidy; it is respected by it
 when, in addition, what it has done stays done once the other is tidy.  Families
 that tolerate each other fail no more often together than alone, and families that
 respect each other settle together.
 */
module SharedCluster {
  import opened Api
  import opened Interleaving
  import opened Progress

  /** Whatever a run of p does, q does not lose by it. */
  ghost predicate Tolerates(q: Part, p: Part) {
    forall c, mode: Mode, trace, after, err :: !mode.Faulty? && Runs(p.prog, c, mode, trace, after, err) ==>
      Unharmed(q, c, after)
  }

  predicate Unharmed(q: Part, c: Cluster, after: Cluster) {
    && (q.needs(c) ==> q.needs(after))
    && (q.cause(after) ==> q.cause(c))
    && (q.tidy(c) ==> q.tidy(after))
  }

  /** Once p is tidy its runs leave alone what q has done. */
  ghost predicate Respects(p: Part, q: Part) {
    forall c, mode: Mode, trace, after, err :: !mode.Faulty? && Runs(p.prog, c, mode, trace, after, err) ==>
      (p.tidy(c) && q.done(c) ==> q.done(after))
  }

  type Family = seq<Part>

  ghost predicate Company(families: seq<Family>) {
    && (forall a :: 0 <= a < |families| ==> GoodParts(families[a]))
    && (forall a, b :: 0 <= a < |families| && 0 <= b < |families| && a != b ==> Tolerant(families[a], families[b]))
  }

  /** Part by part, q tolerates p and works on the same kinds. */
  ghost predicate Tolerant(q: Family, p: Family) {
    KindsOf(q) == KindsOf(p) && |q| == |p| && forall i :: 0 <= i < |q| ==> Tolerates(q[i], p[i])
  }

  lemma SixTolerant(
    q0: Part, q1: Part, q2: Part, q3: Part, q4: Part, q5: Part,
    p0: Part, p1: Part, p2: Part, p3: Part, p4: Part, p5: Part)
    requires q0.kinds == p0.kinds && q1.kinds == p1.kinds && q2.kinds == p2.kinds
    requires q3.kinds == p3.kinds && q4.kinds == p4.kinds && q5.kinds == p5.kinds
    requires Tolerates(q0, p0) && Tolerates(q1, p1) && Tolerates(q2, p2)
    requires Tolerates(q3, p3) && Tolerates(q4, p4) && Tolerates(q5, p5)
    ensures Tolerant(Six(q0, q1, q2, q3, q4, q5), Six(p0, p1, p2, p3, p4, p5))
  {
    var q, p := Six(q0, q1, q2, q3, q4, q5), Six(p0, p1, p2, p3, p4, p5);
    assert KindsOf(q) == KindsOf(p);
  }

  lemma SixRespectful(
    p0: Part, p1: Part, p2: Part, p3: Part, p4: Part, p5: Part,
    q0: Part, q1: Part, q2: Part, q3: Part, q4: Part, q5: Part)
    requires Respects(p0, q0) && Respects(p1, q1) && Respects(p2, q2)
    requires Respects(p3, q3) && Respects(p4, q4) && Respects(p5, q5)
    ensures Respectful(Six(p0, p1, p2, p3, p4, p5), Six(q0, q1, q2, q3, q4, q5))
  {
  }

  ghost predicate Considerate(families: seq<Family>) {
    forall a, b :: 0 <= a < |families| && 0 <= b < |families| && a != b ==> Respectful(families[a], families[b])
  }

  ghost predicate Respectful(p: Family, q: Family) {
    |p| == |q| && forall i :: 0 <= i < |p| ==> Respects(p[i], q[i])
  }

  // ----- A pass of one family, seen by another -----

  lemma BystanderPart(p: Family, q: Family, c: Cluster, moves: seq<Move>, end: PassState, i: nat)
    requires GoodParts(p) && GoodParts(q) && Tolerant(q, p) && Ran(p, c, moves, end) && i < |p|
    ensures Unharmed(q[i], c, end.cluster)
    ensures Respects(p[i], q[i]) && p[i].tidy(c) && q[i].done(c) ==> q[i].done(end.cluster)
  {
    var s := StartOf(p, c);
    PartsKeep(p);
    ShareIsSolo(s, moves, end, KindsOf(p), i);
    CancelledStays(s, moves, end);
    assert Good(p[i]) && Good(q[i]) && Tolerates(q[i], p[i]);
    assert KindsOf(q)[i] == KindsOf(p)[i];
    var part, endPart := Restrict(c, p[i].kinds), Restrict(end.cluster, p[i].kinds);
    assert Runs(p[i].prog, part, ModeOf(end), Share(moves, i, p[i].kinds), endPart, end.procs[i].err);
    assert Unharmed(q[i], part, endPart);
    assert q[i].needs(part) == q[i].needs(c) && q[i].needs(endPart) == q[i].needs(end.cluster);
    assert p[i].tidy(part) == p[i].tidy(c);
  }

  lemma BystanderPass(p: Family, q: Family, c: Cluster, after: Cluster, outcome: Outcome)
    requires GoodParts(p) && GoodParts(q) && Tolerant(q, p) && OnePass(p, c, after, outcome)
    ensures Needs(q, c) ==> Needs(q, after)
    ensures Causes(q, after) <= Causes(q, c)
    ensures AllTidy(q, c) ==> AllTidy(q, after)
    ensures Respectful(p, q) && AllTidy(p, c) && AllDone(q, c) ==> AllDone(q, after)
  {
    var moves, end :|
      Ran(p, c, moves, end) && after == end.cluster && outcome == OutcomeOf(StartOf(p, c), moves, end);
    forall i: nat | i < |p|
      ensures Unharmed(q[i], c, after)
      ensures Respects(p[i], q[i]) && p[i].tidy(c) && q[i].done(c) ==> q[i].done(after)
    {
      BystanderPart(p, q, c, moves, end, i);
    }
  }

  // ----- Histories -----

  /** In turn i the family turns[i] makes a pass from cluster i to cluster i + 1. */
  ghost predicate Turns(families: seq<Family>, turns: seq<nat>, clusters: seq<Cluster>, outcomes: seq<Outcome>) {
    && |clusters| == |turns| + 1 == |outcomes| + 1
    && forall i :: 0 <= i < |turns| ==>
        turns[i] < |families| && OnePass(families[turns[i]], clusters[i], clusters[i + 1], outcomes[i])
  }

  /** How often family b failed in the first n turns. */
  function FailuresOf(b: nat, turns: seq<nat>, outcomes: seq<Outcome>, n: nat): nat
    requires |turns| == |outcomes| && n <= |turns|
  {
    if n == 0 then 0
    else FailuresOf(b, turns, outcomes, n - 1) + if turns[n - 1] == b && outcomes[n - 1].failed then 1 else 0
  }

  ghost predicate AllNeeds(families: seq<Family>, c: Cluster) {
    forall b :: 0 <= b < |families| ==> Needs(families[b], c)
  }

  /** What turn i does to family b. */
  lemma TurnEffect(
    families: seq<Family>, turns: seq<nat>, clusters: seq<Cluster>, outcomes: seq<Outcome>, i: nat, b: nat)
    requires Company(families) && Turns(families, turns, clusters, outcomes) && i < |turns| && b < |families|
    requires AllNeeds(families, clusters[i])
    ensures Needs(families[b], clusters[i + 1])
    ensures |Causes(families[b], clusters[i + 1])| + (if turns[i] == b && outcomes[i].failed then 1 else 0)
         <= |Causes(families[b], clusters[i])|
    ensures AllTidy(families[b], clusters[i]) ==> AllTidy(families[b], clusters[i + 1])
  {
    var a := turns[i];
    assert GoodParts(families[a]) && GoodParts(families[b]);
    if a == b {
      PassOutcome(families[b], clusters[i], clusters[i + 1], outcomes[i]);
    } else {
      assert Tolerant(families[b], families[a]);
      BystanderPass(families[a], families[b], clusters[i], clusters[i + 1], outcomes[i]);
      Smaller(Causes(families[b], clusters[i + 1]), Causes(families[b], clusters[i]));
    }
  }

  lemma {:induction false} NeedsStay(
    families: seq<Family>, turns: seq<nat>, clusters: seq<Cluster>, outcomes: seq<Outcome>, i: nat)
    requires Company(families) && Turns(families, turns, clusters, outcomes) && i < |clusters|
    requires AllNeeds(families, clusters[0])
    ensures AllNeeds(families, clusters[i])
    decreases i
  {
    if i > 0 {
      NeedsStay(families, turns, clusters, outcomes, i - 1);
      forall b: nat | b < |families| ensures Needs(families[b], clusters[i]) {
        TurnEffect(families, turns, clusters, outcomes, i - 1, b);
      }
    }
  }

  lemma TurnAt(
    families: seq<Family>, turns: seq<nat>, clusters: seq<Cluster>, outcomes: seq<Outcome>, i: nat, b: nat)
    requires Company(families) && Turns(families, turns, clusters, outcomes) && i < |turns| && b < |families|
    requires AllNeeds(families, clusters[0])
    ensures |Causes(families[b], clusters[i + 1])| + (if turns[i] == b && outcomes[i].failed then 1 else 0)
         <= |Causes(families[b], clusters[i])|
    ensures AllTidy(families[b], clusters[i]) ==> AllTidy(families[b], clusters[i + 1])
  {
    NeedsStay(families, turns, clusters, outcomes, i);
    TurnEffect(families, turns, clusters, outcomes, i, b);
  }

  /** However the passes of the families alternate, each fails at most once per cause it had at the start. */
  lemma EachFailsAsIfAlone(
    families: seq<Family>, turns: seq<nat>, clusters: seq<Cluster>, outcomes: seq<Outcome>, b: nat)
    requires Company(families) && Turns(families, turns, clusters, outcomes) && b < |families|
    requires AllNeeds(families, clusters[0])
    ensures FailuresOf(b, turns, outcomes, |turns|) <= |Causes(families[b], clusters[0])|
  {
    var counts := CauseCounts(families[b], clusters);
    forall i: nat | i < |turns| ensures Spends(counts, turns, outcomes, b, i) {
      TurnAt(families, turns, clusters, outcomes, i, b);
    }
    SpentAtMost(counts, turns, outcomes, b, |turns|);
  }

  lemma {:induction false} CauseCounts(family: Family, clusters: seq<Cluster>) returns (counts: seq<nat>)
    ensures |counts| == |clusters| && forall i :: 0 <= i < |counts| ==> counts[i] == |Causes(family, clusters[i])|
    decreases |clusters|
  {
    if clusters == [] {
      counts := [];
    } else {
      counts := CauseCounts(family, clusters[1..]);
      counts := [|Causes(family, clusters[0])|] + counts;
    }
  }

  /** Turn i uses up a cause if family b fails in it, and never adds one. */
  predicate Spends(counts: seq<nat>, turns: seq<nat>, outcomes: seq<Outcome>, b: nat, i: nat)
    requires |counts| == |turns| + 1 == |outcomes| + 1 && i < |turns|
  {
    counts[i + 1] + (if turns[i] == b && outcomes[i].failed then 1 else 0) <= counts[i]
  }

  lemma {:induction false} SpentAtMost(counts: seq<nat>, turns: seq<nat>, outcomes: seq<Outcome>, b: nat, n: nat)
    requires |counts| == |turns| + 1 == |outcomes| + 1 && n <= |turns|
    requires forall i: nat :: i < |turns| ==> Spends(counts, turns, outcomes, b, i)
    ensures FailuresOf(b, turns, outcomes, n) + counts[n] <= counts[0]
    decreases n
  {
    if n > 0 {
      SpentAtMost(counts, turns, outcomes, b, n - 1);
      assert Spends(counts, turns, outcomes, b, n - 1);
    }
  }

  // ----- Settling together -----

  /** Family b makes a pass that succeeds in the turns from i up to j. */
  ghost predicate SucceedsWithin(b: nat, turns: seq<nat>, outcomes: seq<Outcome>, i: nat, j: nat)
    requires |turns| == |outcomes|
  {
    exists s :: i <= s < j && s < |turns| && turns[s] == b && !outcomes[s].failed
  }

  /** How many of the first n turns are family b's. */
  function TurnsTaken(b: nat, turns: seq<nat>, n: nat): nat
    requires n <= |turns|
  {
    if n == 0 then 0 else TurnsTaken(b, turns, n - 1) + if turns[n - 1] == b then 1 else 0
  }

  /** Who takes more turns between i and j than it fails in has succeeded in between. */
  lemma {:induction false} MoreTurnsThanFailures(b: nat, turns: seq<nat>, outcomes: seq<Outcome>, i: nat, j: nat)
    requires |turns| == |outcomes| && i <= j <= |turns|
    ensures FailuresOf(b, turns, outcomes, i) <= FailuresOf(b, turns, outcomes, j)
    ensures TurnsTaken(b, turns, j) - TurnsTaken(b, turns, i)
              > FailuresOf(b, turns, outcomes, j) - FailuresOf(b, turns, outcomes, i)
            ==> SucceedsWithin(b, turns, outcomes, i, j)
    decreases j
  {
    if i < j {
      MoreTurnsThanFailures(b, turns, outcomes, i, j - 1);
      if turns[j - 1] == b && !outcomes[j - 1].failed {
        assert SucceedsWithin(b, turns, outcomes, i, j);
      }
    }
  }

  predicate Carries(f: Cluster -> bool, clusters: seq<Cluster>, k: nat)
    requires k + 1 < |clusters|
  {
    f(clusters[k]) ==> f(clusters[k + 1])
  }

  lemma {:induction false} Persists(f: Cluster -> bool, clusters: seq<Cluster>, i: nat, j: nat)
    requires i <= j < |clusters| && f(clusters[i])
    requires forall k: nat :: i <= k < j ==> Carries(f, clusters, k)
    ensures f(clusters[j])
    decreases j
  {
    if i < j {
      Persists(f, clusters, i, j - 1);
      assert Carries(f, clusters, j - 1);
    }
  }

  lemma TidyStays(
    families: seq<Family>, turns: seq<nat>, clusters: seq<Cluster>, outcomes: seq<Outcome>, b: nat, i: nat, j: nat)
    requires Company(families) && Turns(families, turns, clusters, outcomes) && b < |families| && i <= j < |clusters|
    requires AllNeeds(families, clusters[0]) && AllTidy(families[b], clusters[i])
    ensures AllTidy(families[b], clusters[j])
  {
    var tidy := c => AllTidy(families[b], c);
    forall k: nat | i <= k < j ensures Carries(tidy, clusters, k) {
      TurnAt(families, turns, clusters, outcomes, k, b);
    }
    Persists(tidy, clusters, i, j);
  }

  lemma TidyAfterSuccess(
    families: seq<Family>, turns: seq<nat>, clusters: seq<Cluster>, outcomes: seq<Outcome>, b: nat, t: nat, j: nat)
    requires Company(families) && Turns(families, turns, clusters, outcomes) && b < |families| && t <= j < |clusters|
    requires AllNeeds(families, clusters[0]) && SucceedsWithin(b, turns, outcomes, 0, t)
    ensures AllTidy(families[b], clusters[j])
  {
    var s: nat :| s < t && s < |turns| && turns[s] == b && !outcomes[s].failed;
    NeedsStay(families, turns, clusters, outcomes, s);
    PassOutcome(families[b], clusters[s], clusters[s + 1], outcomes[s]);
    TidyStays(families, turns, clusters, outcomes, b, s + 1, j);
  }

  /** With the family whose turn it is tidy, what family b has done stays done. */
  lemma DoneTurn(
    families: seq<Family>, turns: seq<nat>, clusters: seq<Cluster>, outcomes: seq<Outcome>, b: nat, i: nat)
    requires Company(families) && Considerate(families) && Turns(families, turns, clusters, outcomes)
    requires b < |families| && i < |turns| && AllNeeds(families, clusters[0])
    requires AllTidy(families[turns[i]], clusters[i]) && AllDone(families[b], clusters[i])
    ensures AllDone(families[b], clusters[i + 1])
    ensures turns[i] == b ==> !outcomes[i].failed && outcomes[i].quiet && clusters[i + 1] == clusters[i]
  {
    NeedsStay(families, turns, clusters, outcomes, i);
    var a := turns[i];
    if a == b {
      PassOutcome(families[b], clusters[i], clusters[i + 1], outcomes[i]);
    } else {
      assert Tolerant(families[b], families[a]) && Respectful(families[a], families[b]);
      BystanderPass(families[a], families[b], clusters[i], clusters[i + 1], outcomes[i]);
    }
  }

  ghost predicate TidyFrom(families: seq<Family>, clusters: seq<Cluster>, i: nat) {
    forall a: nat, k: nat :: a < |families| && i <= k < |clusters| ==> AllTidy(families[a], clusters[k])
  }

  lemma DoneStays(
    families: seq<Family>, turns: seq<nat>, clusters: seq<Cluster>, outcomes: seq<Outcome>, b: nat, i: nat, j: nat)
    requires Company(families) && Considerate(families) && Turns(families, turns, clusters, outcomes)
    requires b < |families| && i <= j < |clusters| && AllNeeds(families, clusters[0])
    requires TidyFrom(families, clusters, i) && AllDone(families[b], clusters[i])
    ensures AllDone(families[b], clusters[j])
  {
    var done := c => AllDone(families[b], c);
    forall k: nat | i <= k < j ensures Carries(done, clusters, k) {
      if done(clusters[k]) {
        assert AllTidy(families[turns[k]], clusters[k]);
        DoneTurn(families, turns, clusters, outcomes, b, k);
      }
    }
    Persists(done, clusters, i, j);
  }

  /** Every family has succeeded before t and again before u. */
  ghost predicate TwoRounds(families: seq<Family>, turns: seq<nat>, outcomes: seq<Outcome>, t: nat, u: nat)
    requires |turns| == |outcomes|
  {
    forall b: nat :: b < |families| ==>
      SucceedsWithin(b, turns, outcomes, 0, t) && SucceedsWithin(b, turns, outcomes, t, u)
  }

  lemma TidyAfterRound(
    families: seq<Family>, turns: seq<nat>, clusters: seq<Cluster>, outcomes: seq<Outcome>, t: nat, u: nat)
    requires Company(families) && Turns(families, turns, clusters, outcomes) && AllNeeds(families, clusters[0])
    requires TwoRounds(families, turns, outcomes, t, u)
    ensures TidyFrom(families, clusters, t)
  {
    forall a: nat, k: nat | a < |families| && t <= k < |clusters| ensures AllTidy(families[a], clusters[k]) {
      TidyAfterSuccess(families, turns, clusters, outcomes, a, t, k);
    }
  }

  lemma DoneAfterTwoRounds(
    families: seq<Family>, turns: seq<nat>, clusters: seq<Cluster>, outcomes: seq<Outcome>, t: nat, u: nat, b: nat,
    j: nat)
    requires Company(families) && Considerate(families) && Turns(families, turns, clusters, outcomes)
    requires AllNeeds(families, clusters[0]) && t <= u <= j < |clusters| && b < |families|
    requires TwoRounds(families, turns, outcomes, t, u)
    ensures AllDone(families[b], clusters[j])
  {
    TidyAfterRound(families, turns, clusters, outcomes, t, u);
    assert SucceedsWithin(b, turns, outcomes, t, u);
    var s: nat :| t <= s < u && s < |turns| && turns[s] == b && !outcomes[s].failed;
    NeedsStay(families, turns, clusters, outcomes, s);
    PassOutcome(families[b], clusters[s], clusters[s + 1], outcomes[s]);
    assert TidyFrom(families, clusters, s + 1);
    DoneStays(families, turns, clusters, outcomes, b, s + 1, j);
  }

  /** A turn after two rounds of successes. */
  lemma QuietTurn(
    families: seq<Family>, turns: seq<nat>, clusters: seq<Cluster>, outcomes: seq<Outcome>, t: nat, u: nat, j: nat)
    requires Company(families) && Considerate(families) && Turns(families, turns, clusters, outcomes)
    requires AllNeeds(families, clusters[0]) && t <= u <= j < |turns|
    requires TwoRounds(families, turns, outcomes, t, u)
    ensures !outcomes[j].failed && outcomes[j].quiet && clusters[j + 1] == clusters[j]
  {
    TidyAfterRound(families, turns, clusters, outcomes, t, u);
    DoneAfterTwoRounds(families, turns, clusters, outcomes, t, u, turns[j], j);
    assert AllTidy(families[turns[j]], clusters[j]);
    DoneTurn(families, turns, clusters, outcomes, turns[j], j);
  }

  /** After two rounds of successes no pass fails, writes or changes anything. */
  lemma SettleTogether(
    families: seq<Family>, turns: seq<nat>, clusters: seq<Cluster>, outcomes: seq<Outcome>, t: nat, u: nat, j: nat)
    requires Company(families) && Considerate(families) && Turns(families, turns, clusters, outcomes)
    requires AllNeeds(families, clusters[0]) && t <= u <= j < |turns|
    requires TwoRounds(families, turns, outcomes, t, u)
    ensures !outcomes[j].failed && outcomes[j].quiet && clusters[j + 1] == clusters[u]
  {
    var same := c => c == clusters[u];
    forall k: nat | u <= k < j + 1 ensures Carries(same, clusters, k) {
      QuietTurn(families, turns, clusters, outcomes, t, u, k);
    }
    Persists(same, clusters, u, j + 1);
    QuietTurn(families, turns, clusters, outcomes, t, u, j);
  }
}
