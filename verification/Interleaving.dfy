/**
 RunReconciles: several programs at once against one server.

 A pass is any interleaving of the calls of its programs.  When one of them
 returns an error the shared context is cancelled, and from then on any call may
 come back cancelled.  Programs that keep to disjoint kinds of objects cannot
 see each other: what a pass does to the kinds of one program is a run of that
 program alone.
 */
module Interleaving {
  import opened Options
  import opened KeyOrder
  import opened Api

  /** On a faulty server any call may fail with any error, whether or not the context was cancelled. */
  datatype PassState = PassState(cluster: Cluster, procs: seq<Prog>, cancelled: bool, faulty: bool)

  datatype Move = Move(who: nat, resp: Response, after: Cluster)

  function ModeOf(s: PassState): Mode {
    if s.faulty then Faulty else if s.cancelled then Cancelling else Truthful
  }

  ghost predicate Enabled(s: PassState, m: Move) {
    && m.who < |s.procs| && s.procs[m.who].Call?
    && Serves(s.cluster, s.procs[m.who].req, m.resp, m.after, ModeOf(s))
  }

  function Failing(p: Prog): bool {
    p.Ret? && p.err.Some?
  }

  function Next(s: PassState, m: Move): PassState
    requires m.who < |s.procs| && s.procs[m.who].Call?
  {
    var p := s.procs[m.who].k(m.resp);
    PassState(m.after, s.procs[m.who := p], s.cancelled || Failing(p), s.faulty)
  }

  ghost predicate Pass(s: PassState, moves: seq<Move>, end: PassState)
    decreases |moves|
  {
    if moves == [] then s == end
    else Enabled(s, moves[0]) && Pass(Next(s, moves[0]), moves[1..], end)
  }

  ghost predicate Finished(s: PassState) {
    forall i :: 0 <= i < |s.procs| ==> s.procs[i].Ret?
  }

  /** A pass is never stuck: the server has an answer for every call. */
  lemma NeverStuck(s: PassState)
    requires !Finished(s)
    ensures exists m :: Enabled(s, m)
  {
    var i :| 0 <= i < |s.procs| && s.procs[i].Call?;
    var resp, after := TruthfulAnswer(s.cluster, s.procs[i].req);
    assert Enabled(s, Move(i, resp, after));
  }

  lemma TruthfulAnswer(c: Cluster, req: Request) returns (resp: Response, after: Cluster)
    ensures Answers(c, req, resp, after)
  {
    after := c;
    match req
    case Get(key) => resp := if key in c then Found(c[key]) else Err(NotFound);
    case Create(key, obj) =>
      DeepDerivative.DerivesReflexive(obj.spec);
      if key in c { resp := Err(Failed); } else { resp, after := Done, c[key := obj]; }
    case Update(key, obj) =>
      DeepDerivative.DerivesReflexive(obj.spec);
      if key !in c { resp := Err(NotFound); }
      else if Rejects(key.kind, c[key], obj) { resp := Err(SelectorImmutable); }
      else { resp, after := Done, c[key := obj]; }
    case Delete(key) =>
      if key in c { resp, after := Done, c - {key}; } else { resp := Err(NotFound); }
    case List(kind, namespace, bundle) =>
      var keys := ListOf(Matching(c, kind, namespace, bundle));
      resp := Listed(keys);
  }

  // ----- Programs that keep to some kinds -----

  function KindOfRequest(req: Request): Kind {
    match req
    case Get(key) => key.kind
    case Create(key, _) => key.kind
    case Update(key, _) => key.kind
    case Delete(key) => key.kind
    case List(kind, _, _) => kind
  }

  /** A list answer holds keys of the kind that was asked for. */
  predicate Fits(req: Request, resp: Response) {
    req.List? && resp.Listed? ==> forall k :: k in resp.keys ==> k.kind == req.kind
  }

  /** p stays within kinds and comes to an end, whatever fitting answers it gets. */
  least predicate Tame(p: Prog, kinds: set<Kind>) {
    p.Ret? || (KindOfRequest(p.req) in kinds && forall r :: Fits(p.req, r) ==> Tame(p.k(r), kinds))
  }

  /** A tame program run alone ends, from every cluster. */
  least lemma TameEnds(p: Prog, kinds: set<Kind>, c: Cluster)
    requires Tame(p, kinds)
    ensures exists trace, after, err :: Runs(p, c, Truthful, trace, after, err)
  {
    if p.Ret? {
      assert Runs(p, c, Truthful, [], c, p.err);
    } else {
      var resp, mid := TruthfulAnswer(c, p.req);
      AnswerIsLocal(c, p.req, resp, mid, kinds);
      TameEnds(p.k(resp), kinds, mid);
      var rest, after, err :| Runs(p.k(resp), mid, Truthful, rest, after, err);
      var trace := [Event(resp, mid)] + rest;
      assert trace[1..] == rest;
      assert Runs(p, c, Truthful, trace, after, err);
    }
  }

  function Restrict(c: Cluster, kinds: set<Kind>): Cluster {
    map k | k in c && k.kind in kinds :: c[k]
  }

  ghost predicate SameOutside(c: Cluster, after: Cluster, kinds: set<Kind>) {
    forall k: Key :: k.kind !in kinds ==> (k in c <==> k in after) && (k in c ==> c[k] == after[k])
  }

  /** The two halves of a call by a program that keeps to kinds: a call on its part, and no effect elsewhere. */
  lemma CallIsLocal(c: Cluster, req: Request, resp: Response, after: Cluster, mode: Mode, kinds: set<Kind>)
    requires Serves(c, req, resp, after, mode) && KindOfRequest(req) in kinds
    ensures Serves(Restrict(c, kinds), req, resp, Restrict(after, kinds), mode)
    ensures Fits(req, resp)
    ensures SameOutside(c, after, kinds)
  {
    if Answers(c, req, resp, after) {
      AnswerIsLocal(c, req, resp, after, kinds);
    }
    if Answers(c, req, Done, after) {
      AnswerIsLocal(c, req, Done, after, kinds);
    }
  }

  lemma AnswerIsLocal(c: Cluster, req: Request, resp: Response, after: Cluster, kinds: set<Kind>)
    requires Answers(c, req, resp, after) && KindOfRequest(req) in kinds
    ensures Answers(Restrict(c, kinds), req, resp, Restrict(after, kinds))
    ensures Fits(req, resp)
    ensures SameOutside(c, after, kinds)
  {
    var cr, ar := Restrict(c, kinds), Restrict(after, kinds);
    match req
    case Get(_) =>
    case Create(key, obj) =>
      if key !in c { assert ar == cr[key := ar[key]]; }
    case Update(key, obj) =>
      if key in c && !Rejects(key.kind, c[key], obj) { assert ar == cr[key := ar[key]]; }
    case Delete(key) =>
      if key in c { assert ar == cr - {key}; }
    case List(kind, namespace, bundle) =>
      assert Matching(cr, kind, namespace, bundle) == Matching(c, kind, namespace, bundle);
  }

  lemma OtherPartUnchanged(c: Cluster, after: Cluster, kinds: set<Kind>, others: set<Kind>)
    requires kinds !! others
    requires SameOutside(c, after, kinds)
    ensures Restrict(after, others) == Restrict(c, others)
  {
  }

  ghost predicate Disjoint(kinds: seq<set<Kind>>) {
    forall i, j :: 0 <= i < j < |kinds| ==> kinds[i] !! kinds[j]
  }

  ghost predicate AllKeep(procs: seq<Prog>, kinds: seq<set<Kind>>) {
    |procs| == |kinds| && forall i :: 0 <= i < |procs| ==> Tame(procs[i], kinds[i])
  }

  lemma MoveKeeps(s: PassState, m: Move, kinds: seq<set<Kind>>)
    requires Enabled(s, m) && AllKeep(s.procs, kinds)
    ensures AllKeep(Next(s, m).procs, kinds)
  {
    assert Tame(s.procs[m.who], kinds[m.who]);
    CallIsLocal(s.cluster, s.procs[m.who].req, m.resp, m.after, ModeOf(s), kinds[m.who]);
  }

  /** Process i's share of the moves. */
  function Share(moves: seq<Move>, i: nat, kinds: set<Kind>): seq<Event> {
    if moves == [] then []
    else if moves[0].who == i then [Event(moves[0].resp, Restrict(moves[0].after, kinds))] + Share(moves[1..], i, kinds)
    else Share(moves[1..], i, kinds)
  }

  lemma ServesMore(c: Cluster, req: Request, resp: Response, after: Cluster, s: PassState, end: PassState)
    requires Serves(c, req, resp, after, ModeOf(s)) && (s.cancelled ==> end.cancelled) && end.faulty == s.faulty
    ensures Serves(c, req, resp, after, ModeOf(end))
  {
  }

  lemma {:induction false} CancelledStays(s: PassState, moves: seq<Move>, end: PassState)
    requires Pass(s, moves, end)
    ensures |end.procs| == |s.procs| && (s.cancelled ==> end.cancelled) && end.faulty == s.faulty
    decreases |moves|
  {
    if moves != [] {
      CancelledStays(Next(s, moves[0]), moves[1..], end);
    }
  }

  /** What a pass does to the kinds of process i is a run of process i alone. */
  lemma {:induction false} ShareIsSolo(s: PassState, moves: seq<Move>, end: PassState, kinds: seq<set<Kind>>, i: nat)
    requires Pass(s, moves, end) && AllKeep(s.procs, kinds) && Disjoint(kinds) && i < |s.procs|
    ensures |end.procs| == |s.procs|
    ensures Reaches(s.procs[i], Restrict(s.cluster, kinds[i]), ModeOf(end), Share(moves, i, kinds[i]),
                    end.procs[i], Restrict(end.cluster, kinds[i]))
    decreases |moves|
  {
    if moves != [] {
      var m, next := moves[0], Next(s, moves[0]);
      MoveKeeps(s, m, kinds);
      ShareIsSolo(next, moves[1..], end, kinds, i);
      CancelledStays(s, moves, end);
      ServesMore(s.cluster, s.procs[m.who].req, m.resp, m.after, s, end);
      assert Tame(s.procs[m.who], kinds[m.who]);
      CallIsLocal(s.cluster, s.procs[m.who].req, m.resp, m.after, ModeOf(end), kinds[m.who]);
      var share := Share(moves, i, kinds[i]);
      if m.who == i {
        assert share[0] == Event(m.resp, Restrict(m.after, kinds[i])) && share[1..] == Share(moves[1..], i, kinds[i]);
      } else {
        OtherPartUnchanged(s.cluster, m.after, kinds[m.who], kinds[i]);
      }
    }
  }

  /** Objects of kinds that no process keeps to are never touched. */
  lemma {:induction false} RestUntouched(
    s: PassState, moves: seq<Move>, end: PassState, kinds: seq<set<Kind>>, others: set<Kind>)
    requires Pass(s, moves, end) && AllKeep(s.procs, kinds)
    requires forall i :: 0 <= i < |kinds| ==> kinds[i] !! others
    ensures Restrict(end.cluster, others) == Restrict(s.cluster, others)
    decreases |moves|
  {
    if moves != [] {
      var m := moves[0];
      MoveKeeps(s, m, kinds);
      assert Tame(s.procs[m.who], kinds[m.who]);
      CallIsLocal(s.cluster, s.procs[m.who].req, m.resp, m.after, ModeOf(s), kinds[m.who]);
      OtherPartUnchanged(s.cluster, m.after, kinds[m.who], others);
      RestUntouched(Next(s, m), moves[1..], end, kinds, others);
    }
  }

  /** errgroup: the process whose error cancels the context has run against a truthful server, alone on its kinds. */
  lemma {:induction false} FirstToFail(s: PassState, moves: seq<Move>, end: PassState, kinds: seq<set<Kind>>)
    returns (who: nat, trace: seq<Event>)
    requires Pass(s, moves, end) && AllKeep(s.procs, kinds) && Disjoint(kinds)
    requires !s.cancelled && end.cancelled && !s.faulty
    ensures who < |s.procs| && who < |end.procs| && Failing(end.procs[who])
    ensures Runs(s.procs[who], Restrict(s.cluster, kinds[who]), Truthful, trace,
                 Restrict(end.cluster, kinds[who]), end.procs[who].err)
    decreases |moves|
  {
    var m, next := moves[0], Next(s, moves[0]);
    MoveKeeps(s, m, kinds);
    assert Tame(s.procs[m.who], kinds[m.who]);
    CallIsLocal(s.cluster, s.procs[m.who].req, m.resp, m.after, Truthful, kinds[m.who]);
    if next.cancelled {
      who := m.who;
      trace := [Event(m.resp, Restrict(m.after, kinds[who]))];
      ShareIsSolo(next, moves[1..], end, kinds, who);
      var p := next.procs[who];
      RetReaches(p, Restrict(m.after, kinds[who]), ModeOf(end), Share(moves[1..], who, kinds[who]),
                 end.procs[who], Restrict(end.cluster, kinds[who]));
      assert trace[1..] == [];
    } else {
      who, trace := FirstToFail(next, moves[1..], end, kinds);
      if who == m.who {
        var longer := [Event(m.resp, Restrict(m.after, kinds[who]))] + trace;
        assert longer[1..] == trace;
        trace := longer;
      } else {
        OtherPartUnchanged(s.cluster, m.after, kinds[m.who], kinds[who]);
      }
    }
  }

  lemma RetReaches(p: Prog, c: Cluster, mode: Mode, trace: seq<Event>, q: Prog, after: Cluster)
    requires p.Ret? && Reaches(p, c, mode, trace, q, after)
    ensures q == p && after == c
  {
  }

  // ----- Serializability -----

  /** The part of c with the given kinds replaced. */
  function Patch(c: Cluster, kinds: set<Kind>, part: Cluster): Cluster {
    (map k | k in c && k.kind !in kinds :: c[k]) + part
  }

  /** order lists the numbers below n, each once. */
  ghost predicate IsOrder(order: seq<nat>, n: nat) {
    Distinct(order) && forall j: nat :: j in order <==> j < n
  }

  /** The programs numbered by order, one after the other, each on the whole cluster, all of them without an error. */
  ghost predicate InTurn(procs: seq<Prog>, order: seq<nat>, c: Cluster, after: Cluster)
    decreases |order|
  {
    if order == [] then c == after
    else
      && order[0] < |procs|
      && exists mid, trace ::
          Runs(procs[order[0]], c, Truthful, trace, mid, None) && InTurn(procs, order[1..], mid, after)
  }

  ghost predicate Confined(c: Cluster, kinds: set<Kind>) {
    forall k: Key :: k in c ==> k.kind in kinds
  }

  lemma AnswerLifts(c: Cluster, req: Request, resp: Response, part: Cluster, kinds: set<Kind>)
    requires KindOfRequest(req) in kinds
    requires Answers(Restrict(c, kinds), req, resp, part)
    ensures Confined(part, kinds)
    ensures Answers(c, req, resp, Patch(c, kinds, part))
    ensures Restrict(Patch(c, kinds, part), kinds) == part
  {
    match req
    case Get(_) => NothingLifts(c, kinds);
    case Create(key, _) => WriteLifts(c, part, kinds, key);
    case Update(key, _) => WriteLifts(c, part, kinds, key);
    case Delete(key) => WriteLifts(c, part, kinds, key);
    case List(kind, namespace, bundle) =>
      NothingLifts(c, kinds);
      assert Matching(Restrict(c, kinds), kind, namespace, bundle) == Matching(c, kind, namespace, bundle);
  }

  lemma NothingLifts(c: Cluster, kinds: set<Kind>)
    ensures Patch(c, kinds, Restrict(c, kinds)) == c
  {
  }

  /** What one call may do to key within its kinds, it does to key in the whole cluster. */
  lemma WriteLifts(c: Cluster, part: Cluster, kinds: set<Kind>, key: Key)
    requires key.kind in kinds
    requires part == Restrict(c, kinds) || (key in part && part == Restrict(c, kinds)[key := part[key]])
          || part == Restrict(c, kinds) - {key}
    ensures Confined(part, kinds) && Restrict(Patch(c, kinds, part), kinds) == part
    ensures part == Restrict(c, kinds) ==> Patch(c, kinds, part) == c
    ensures key in part && part == Restrict(c, kinds)[key := part[key]] ==> Patch(c, kinds, part) == c[key := part[key]]
    ensures part == Restrict(c, kinds) - {key} ==> Patch(c, kinds, part) == c - {key}
    ensures key in Restrict(c, kinds) <==> key in c
    ensures key in c ==> Restrict(c, kinds)[key] == c[key]
  {
    NothingLifts(c, kinds);
  }

  /** A run on a program's own kinds is a run on the whole cluster. */
  lemma {:induction false} RunLifts(
    p: Prog, c: Cluster, kinds: set<Kind>, trace: seq<Event>, part: Cluster, err: Option<ApiError>)
    returns (lifted: seq<Event>)
    requires Tame(p, kinds)
    requires Runs(p, Restrict(c, kinds), Truthful, trace, part, err)
    ensures Runs(p, c, Truthful, lifted, Patch(c, kinds, part), err)
    decreases |trace|
  {
    if trace == [] {
      assert Patch(c, kinds, part) == c;
      lifted := [];
    } else {
      var resp, mid := trace[0].resp, trace[0].after;
      LiftFirst(p, c, kinds, resp, mid);
      var rest := RunLifts(p.k(resp), Patch(c, kinds, mid), kinds, trace[1..], part, err);
      PatchTwice(c, kinds, mid, part);
      lifted := [Event(resp, Patch(c, kinds, mid))] + rest;
      assert lifted[1..] == rest;
    }
  }

  lemma LiftFirst(p: Prog, c: Cluster, kinds: set<Kind>, resp: Response, mid: Cluster)
    requires Tame(p, kinds) && p.Call?
    requires Answers(Restrict(c, kinds), p.req, resp, mid)
    ensures Answers(c, p.req, resp, Patch(c, kinds, mid))
    ensures Restrict(Patch(c, kinds, mid), kinds) == mid && Confined(mid, kinds)
    ensures Tame(p.k(resp), kinds)
  {
    AnswerLifts(c, p.req, resp, mid, kinds);
    AnswerIsLocal(c, p.req, resp, Patch(c, kinds, mid), kinds);
  }

  lemma PatchTwice(c: Cluster, kinds: set<Kind>, mid: Cluster, part: Cluster)
    requires Confined(mid, kinds)
    ensures Patch(Patch(c, kinds, mid), kinds, part) == Patch(c, kinds, part)
  {
  }

  /** The cluster after the programs of order have run in turn, when a pass took it to after. */
  function PatchAll(c: Cluster, after: Cluster, kinds: seq<set<Kind>>, order: seq<nat>): Cluster
    requires forall j :: j in order ==> j < |kinds|
    decreases |order|
  {
    if order == [] then c
    else
      assert order[0] in order && forall j :: j in order[1..] ==> j in order;
      PatchAll(Patch(c, kinds[order[0]], Restrict(after, kinds[order[0]])), after, kinds, order[1..])
  }

  lemma {:induction false} TurnsFrom(
    s: PassState, moves: seq<Move>, end: PassState, kinds: seq<set<Kind>>, order: seq<nat>, c: Cluster)
    requires Pass(s, moves, end) && AllKeep(s.procs, kinds) && Disjoint(kinds)
    requires !end.cancelled && !s.faulty && Finished(end) && |end.procs| == |s.procs|
    requires forall p :: p in s.procs ==> !Failing(p)
    requires Distinct(order) && forall j :: j in order ==> j < |kinds|
    requires forall j :: j in order ==> Restrict(c, kinds[j]) == Restrict(s.cluster, kinds[j])
    ensures InTurn(s.procs, order, c, PatchAll(c, end.cluster, kinds, order))
    decreases |order|
  {
    if order != [] {
      var i := order[0];
      assert i in order && forall j :: j in order[1..] ==> j in order;
      var part := Restrict(end.cluster, kinds[i]);
      var trace := TurnOf(s, moves, end, kinds, i, c);
      var next := Patch(c, kinds[i], part);
      forall j | j in order[1..]
        ensures j in order && Restrict(next, kinds[j]) == Restrict(s.cluster, kinds[j])
      {
        assert j != i;
        PatchElsewhere(c, kinds[i], kinds[j], part);
      }
      TurnsFrom(s, moves, end, kinds, order[1..], next);
    }
  }

  /** One program's turn on the whole cluster. */
  lemma TurnOf(s: PassState, moves: seq<Move>, end: PassState, kinds: seq<set<Kind>>, i: nat, c: Cluster)
    returns (trace: seq<Event>)
    requires Pass(s, moves, end) && AllKeep(s.procs, kinds) && Disjoint(kinds) && i < |kinds|
    requires !end.cancelled && !s.faulty && Finished(end) && |end.procs| == |s.procs|
    requires forall p :: p in s.procs ==> !Failing(p)
    requires Restrict(c, kinds[i]) == Restrict(s.cluster, kinds[i])
    ensures Runs(s.procs[i], c, Truthful, trace, Patch(c, kinds[i], Restrict(end.cluster, kinds[i])), None)
  {
    CancelledStays(s, moves, end);
    ShareIsSolo(s, moves, end, kinds, i);
    assert s.procs[i] in s.procs;
    NoFailureWithoutCancel(s, moves, end, i);
    trace := RunLifts(s.procs[i], c, kinds[i], Share(moves, i, kinds[i]), Restrict(end.cluster, kinds[i]), None);
  }

  lemma PatchElsewhere(c: Cluster, kinds: set<Kind>, others: set<Kind>, part: Cluster)
    requires kinds !! others && Confined(part, kinds)
    ensures Restrict(Patch(c, kinds, part), others) == Restrict(c, others)
  {
  }

  lemma {:induction false} NoFailureWithoutCancel(s: PassState, moves: seq<Move>, end: PassState, i: nat)
    requires Pass(s, moves, end) && !end.cancelled && i < |end.procs| && |end.procs| == |s.procs|
    requires !Failing(s.procs[i])
    ensures !Failing(end.procs[i])
    decreases |moves|
  {
    if moves != [] {
      CancelledStays(Next(s, moves[0]), moves[1..], end);
      NoFailureWithoutCancel(Next(s, moves[0]), moves[1..], end, i);
    }
  }

  lemma {:induction false} PatchesMeet(c: Cluster, after: Cluster, kinds: seq<set<Kind>>, order: seq<nat>, k: Key)
    requires forall j :: j in order ==> j < |kinds|
    ensures var final := PatchAll(c, after, kinds, order);
      if exists j :: j in order && k.kind in kinds[j]
      then (k in final <==> k in after) && (k in final ==> final[k] == after[k])
      else (k in final <==> k in c) && (k in final ==> final[k] == c[k])
    decreases |order|
  {
    if order != [] {
      assert order[0] in order;
      assert forall j :: j in order <==> j == order[0] || j in order[1..];
      PatchesMeet(Patch(c, kinds[order[0]], Restrict(after, kinds[order[0]])), after, kinds, order[1..], k);
    }
  }

  /**
   Confluence.  Whatever the interleaving of an error-free pass, running the
   programs one after the other, in whatever order, reaches the same cluster.
   */
  lemma ErrorFreePassIsSerial(
    s: PassState, moves: seq<Move>, end: PassState, kinds: seq<set<Kind>>, order: seq<nat>)
    requires Pass(s, moves, end) && AllKeep(s.procs, kinds) && Disjoint(kinds)
    requires Finished(end) && !end.cancelled && !s.faulty
    requires forall p :: p in s.procs ==> !Failing(p)
    requires IsOrder(order, |s.procs|)
    ensures InTurn(s.procs, order, s.cluster, end.cluster)
  {
    CancelledStays(s, moves, end);
    TurnsFrom(s, moves, end, kinds, order, s.cluster);
    var final := PatchAll(s.cluster, end.cluster, kinds, order);
    forall k: Key ensures (k in final <==> k in end.cluster) && (k in final ==> final[k] == end.cluster[k]) {
      PatchesMeet(s.cluster, end.cluster, kinds, order, k);
      if forall j :: 0 <= j < |kinds| ==> k.kind !in kinds[j] {
        KeyUntouched(s, moves, end, kinds, k);
      } else {
        var j: nat :| j < |kinds| && k.kind in kinds[j];
        assert j in order;
      }
    }
    assert final == end.cluster;
  }

  lemma KeyUntouched(s: PassState, moves: seq<Move>, end: PassState, kinds: seq<set<Kind>>, k: Key)
    requires Pass(s, moves, end) && AllKeep(s.procs, kinds)
    requires forall j :: 0 <= j < |kinds| ==> k.kind !in kinds[j]
    ensures (k in s.cluster <==> k in end.cluster) && (k in s.cluster ==> end.cluster[k] == s.cluster[k])
  {
    RestUntouched(s, moves, end, kinds, {k.kind});
    assert k in end.cluster <==> k in Restrict(end.cluster, {k.kind});
    assert k in s.cluster <==> k in Restrict(s.cluster, {k.kind});
    assert k in s.cluster ==> Restrict(s.cluster, {k.kind})[k] == s.cluster[k];
    assert k in end.cluster ==> Restrict(end.cluster, {k.kind})[k] == end.cluster[k];
  }

  // ----- Calls that write nothing -----

  /** No call of the pass is a Create, Update or Delete within scope. */
  ghost predicate PassSpares(s: PassState, moves: seq<Move>, scope: Scope)
    decreases |moves|
  {
    moves == [] || (
      && moves[0].who < |s.procs| && s.procs[moves[0].who].Call?
      && !Writes(s.procs[moves[0].who].req, scope)
      && PassSpares(Next(s, moves[0]), moves[1..], scope))
  }

  /** When each process alone writes nothing within scope, neither does the pass. */
  lemma {:induction false} SharesSpare(
    s: PassState, moves: seq<Move>, end: PassState, kinds: seq<set<Kind>>, scope: Scope)
    requires Pass(s, moves, end) && |kinds| == |s.procs|
    requires forall i :: 0 <= i < |s.procs| ==> Spares(s.procs[i], Share(moves, i, kinds[i]), scope)
    ensures PassSpares(s, moves, scope)
    decreases |moves|
  {
    if moves != [] {
      var m, next := moves[0], Next(s, moves[0]);
      forall i | 0 <= i < |s.procs| ensures Spares(next.procs[i], Share(moves[1..], i, kinds[i]), scope) {
        var share := Share(moves, i, kinds[i]);
        assert Spares(s.procs[i], share, scope);
        if i == m.who {
          assert share[0] == Event(m.resp, Restrict(m.after, kinds[i])) && share[1..] == Share(moves[1..], i, kinds[i]);
        }
      }
      assert Spares(s.procs[m.who], Share(moves, m.who, kinds[m.who]), scope);
      SharesSpare(next, moves[1..], end, kinds, scope);
    }
  }

  /** A program that keeps to other kinds does not write k. */
  lemma {:induction false} OtherKindsSpare(
    p: Prog, kinds: set<Kind>, c: Cluster, mode: Mode, trace: seq<Event>, q: Prog, after: Cluster, k: Key)
    requires Tame(p, kinds) && k.kind !in kinds && Reaches(p, c, mode, trace, q, after)
    ensures Spares(p, trace, At(k))
    decreases |trace|
  {
    if trace != [] {
      CallIsLocal(c, p.req, trace[0].resp, trace[0].after, mode, kinds);
      OtherKindsSpare(p.k(trace[0].resp), kinds, trace[0].after, mode, trace[1..], q, after, k);
    }
  }

  /** Only process i can write an object of its kinds. */
  lemma OnlyOwnerWrites(s: PassState, moves: seq<Move>, end: PassState, kinds: seq<set<Kind>>, i: nat, k: Key)
    requires Pass(s, moves, end) && AllKeep(s.procs, kinds) && Disjoint(kinds)
    requires i < |s.procs| && k.kind in kinds[i] && Spares(s.procs[i], Share(moves, i, kinds[i]), At(k))
    ensures PassSpares(s, moves, At(k))
  {
    forall j: nat | j < |s.procs| ensures Spares(s.procs[j], Share(moves, j, kinds[j]), At(k)) {
      if j != i {
        ShareIsSolo(s, moves, end, kinds, j);
        assert k.kind !in kinds[j] by { assert if i < j then kinds[i] !! kinds[j] else kinds[j] !! kinds[i]; }
        OtherKindsSpare(s.procs[j], kinds[j], Restrict(s.cluster, kinds[j]), ModeOf(end), Share(moves, j, kinds[j]),
                        end.procs[j], Restrict(end.cluster, kinds[j]), k);
      }
    }
    SharesSpare(s, moves, end, kinds, At(k));
  }

  // ----- Passes exist -----

  lemma {:induction false} PassConcat(s: PassState, a: seq<Move>, mid: PassState, b: seq<Move>, end: PassState)
    requires Pass(s, a, mid) && Pass(mid, b, end)
    ensures Pass(s, a + b, end)
    decreases |a|
  {
    if a == [] {
      assert a + b == b;
    } else {
      assert (a + b)[1..] == a[1..] + b;
      PassConcat(Next(s, a[0]), a[1..], mid, b, end);
    }
  }

  /** A process may run to its end before any other moves; after a cancellation its calls may fail on the way. */
  lemma {:induction false} RunToEnd(
    s: PassState, i: nat, mode: Mode, trace: seq<Event>, after: Cluster, err: Option<ApiError>)
    returns (moves: seq<Move>, end: PassState)
    requires i < |s.procs| && Runs(s.procs[i], s.cluster, mode, trace, after, err)
    requires mode.Truthful? || (mode.Cancelling? && s.cancelled)
    ensures Pass(s, moves, end) && end.cluster == after && end.procs == s.procs[i := Ret(err)]
    ensures end.faulty == s.faulty && (s.cancelled ==> end.cancelled)
    ensures err.Some? && s.procs[i].Call? ==> end.cancelled
    decreases |trace|
  {
    if trace == [] {
      moves, end := [], s;
    } else {
      var m := Move(i, trace[0].resp, trace[0].after);
      var rest;
      assert Enabled(s, m);
      rest, end := RunToEnd(Next(s, m), i, mode, trace[1..], after, err);
      moves := [m] + rest;
      assert moves[1..] == rest;
    }
  }

  /** From every state some pass finishes. */
  lemma {:induction false} PassFinishes(s: PassState, kinds: seq<set<Kind>>, i: nat)
    returns (moves: seq<Move>, end: PassState)
    requires AllKeep(s.procs, kinds) && i <= |s.procs| && forall j :: 0 <= j < i ==> s.procs[j].Ret?
    ensures Pass(s, moves, end) && Finished(end)
    decreases |s.procs| - i
  {
    if i == |s.procs| {
      moves, end := [], s;
    } else {
      assert Tame(s.procs[i], kinds[i]);
      TameEnds(s.procs[i], kinds[i], s.cluster);
      var trace, after, err :| Runs(s.procs[i], s.cluster, Truthful, trace, after, err);
      var first, mid := RunToEnd(s, i, Truthful, trace, after, err);
      var rest;
      rest, end := PassFinishes(mid, kinds, i + 1);
      moves := first + rest;
      PassConcat(s, first, mid, rest, end);
    }
  }

  /** Once the context is cancelled every call of a tame program may fail without effect until it has returned. */
  least lemma TameAborts(p: Prog, kinds: set<Kind>, c: Cluster)
    requires Tame(p, kinds)
    ensures exists trace, err :: Runs(p, c, Cancelling, trace, c, err)
  {
    if p.Ret? {
      assert Runs(p, c, Cancelling, [], c, p.err);
    } else {
      TameAborts(p.k(Err(Failed)), kinds, c);
      var rest, err :| Runs(p.k(Err(Failed)), c, Cancelling, rest, c, err);
      var trace := [Event(Err(Failed), c)] + rest;
      assert trace[1..] == rest;
      assert Runs(p, c, Cancelling, trace, c, err);
    }
  }

  /** A cancelled pass may end without another effect. */
  lemma {:induction false} PassAborts(s: PassState, kinds: seq<set<Kind>>, i: nat)
    returns (moves: seq<Move>, end: PassState)
    requires AllKeep(s.procs, kinds) && i <= |s.procs| && s.cancelled && forall j :: 0 <= j < i ==> s.procs[j].Ret?
    ensures Pass(s, moves, end) && Finished(end) && end.cluster == s.cluster && end.cancelled
    decreases |s.procs| - i
  {
    if i == |s.procs| {
      moves, end := [], s;
    } else {
      assert Tame(s.procs[i], kinds[i]);
      TameAborts(s.procs[i], kinds[i], s.cluster);
      var trace, err :| Runs(s.procs[i], s.cluster, Cancelling, trace, s.cluster, err);
      var first, mid := RunToEnd(s, i, Cancelling, trace, s.cluster, err);
      var rest;
      rest, end := PassAborts(mid, kinds, i + 1);
      moves := first + rest;
      PassConcat(s, first, mid, rest, end);
    }
  }

  /** A tame program leaves other kinds alone. */
  lemma {:induction false} TameOutside(
    p: Prog, kinds: set<Kind>, c: Cluster, mode: Mode, trace: seq<Event>, q: Prog, after: Cluster)
    requires Tame(p, kinds) && Reaches(p, c, mode, trace, q, after)
    ensures SameOutside(c, after, kinds)
    decreases |trace|
  {
    if trace != [] {
      CallIsLocal(c, p.req, trace[0].resp, trace[0].after, mode, kinds);
      TameOutside(p.k(trace[0].resp), kinds, trace[0].after, mode, trace[1..], q, after);
    }
  }

  // ----- No pass goes on for ever -----

  /** States st(0), st(1), ... led to by moves mv(0), mv(1), ... without end. */
  ghost predicate Endless(st: nat -> PassState, mv: nat -> Move) {
    forall n: nat :: Enabled(st(n), mv(n)) && st(n + 1) == Next(st(n), mv(n))
  }

  lemma {:induction false} KeepAlong(st: nat -> PassState, mv: nat -> Move, kinds: seq<set<Kind>>, n: nat)
    requires Endless(st, mv) && AllKeep(st(0).procs, kinds)
    ensures AllKeep(st(n).procs, kinds)
    decreases n
  {
    if n > 0 {
      KeepAlong(st, mv, kinds, n - 1);
      assert Enabled(st(n - 1), mv(n - 1));
      MoveKeeps(st(n - 1), mv(n - 1), kinds);
    }
  }

  /** The first move of process i from n on, and the process has not changed before it. */
  lemma {:induction false} FirstMoveOf(st: nat -> PassState, mv: nat -> Move, i: nat, n: nat, last: nat)
    returns (k: nat)
    requires Endless(st, mv) && n <= last && mv(last).who == i && i < |st(n).procs|
    ensures n <= k && mv(k).who == i && i < |st(k).procs| && st(k).procs[i] == st(n).procs[i]
    decreases last - n
  {
    k := n;
    if mv(n).who != i {
      assert Enabled(st(n), mv(n)) && st(n + 1) == Next(st(n), mv(n));
      k := FirstMoveOf(st, mv, i, n + 1, last);
    }
  }

  ghost predicate StillFrom(mv: nat -> Move, i: nat, m: nat) {
    forall k: nat :: k >= m ==> mv(k).who != i
  }

  /** Process i moves only finitely often. */
  least lemma StopsMoving(
    p: Prog, kind: set<Kind>, st: nat -> PassState, mv: nat -> Move, i: nat, n: nat)
    requires Tame(p, kind) && Endless(st, mv) && i < |st(n).procs| && st(n).procs[i] == p
    ensures exists m: nat :: StillFrom(mv, i, m)
  {
    if exists last: nat :: n <= last && mv(last).who == i {
      var last: nat :| n <= last && mv(last).who == i;
      var k := FirstMoveOf(st, mv, i, n, last);
      assert Enabled(st(k), mv(k)) && st(k + 1) == Next(st(k), mv(k));
      CallIsLocal(st(k).cluster, p.req, mv(k).resp, mv(k).after, ModeOf(st(k)), kind);
      StopsMoving(p.k(mv(k).resp), kind, st, mv, i, k + 1);
    } else {
      assert StillFrom(mv, i, n);
    }
  }

  lemma {:induction false} AllStop(st: nat -> PassState, mv: nat -> Move, kinds: seq<set<Kind>>, n: nat)
    returns (m: nat)
    requires Endless(st, mv) && AllKeep(st(0).procs, kinds) && n <= |kinds|
    ensures forall k: nat :: k >= m ==> mv(k).who >= n
  {
    if n == 0 {
      m := 0;
    } else {
      var before := AllStop(st, mv, kinds, n - 1);
      assert Tame(st(0).procs[n - 1], kinds[n - 1]);
      StopsMoving(st(0).procs[n - 1], kinds[n - 1], st, mv, n - 1, 0);
      var stop: nat :| StillFrom(mv, n - 1, stop);
      m := before + stop;
    }
  }

  lemma MoverInRange(st: nat -> PassState, mv: nat -> Move, kinds: seq<set<Kind>>, m: nat)
    requires Endless(st, mv) && AllKeep(st(0).procs, kinds)
    ensures mv(m).who < |kinds|
  {
    KeepAlong(st, mv, kinds, m);
    assert Enabled(st(m), mv(m));
  }

  /** Whatever the server answers, no pass of tame programs goes on for ever. */
  lemma NoEndlessPass(st: nat -> PassState, mv: nat -> Move, kinds: seq<set<Kind>>)
    requires AllKeep(st(0).procs, kinds)
    ensures !Endless(st, mv)
  {
    if Endless(st, mv) {
      var m := AllStop(st, mv, kinds, |kinds|);
      MoverInRange(st, mv, kinds, m);
    }
  }
}
