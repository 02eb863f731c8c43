/**
 Processes that take mutexes, start children and wait for them.

 A process keeps to the lock discipline when it takes mutexes in increasing rank,
 above those its parent holds while waiting for it, and has released everything
 at its end.  Any number of such processes never deadlock, and the mutexes of one
 object's parts are never contended, because the object's own mutex is held by the
 parent all the while.
 */
module LockOrder {
  datatype Mutex = Named(resource: string, fullName: string) | Registry | StateTable

  const BASE := "appBundleBase"
  const BUNDLE := "appBundle"

  function Rank(l: Mutex): nat {
    match l
    case Named(resource, _) => if resource == BASE then 0 else if resource == BUNDLE then 1 else 2
    case _ => 3
  }

  /** A mutex for one part of what a bundle owns. */
  predicate IsPart(l: Mutex) {
    l.Named? && l.resource != BASE && l.resource != BUNDLE
  }

  /** Fork starts the children and then waits for all of them; a process in Wait has done the first half. */
  datatype Script =
    | Done
    | Acquire(l: Mutex, next: Script)
    | Release(l: Mutex, next: Script)
    | Fork(children: seq<Script>, next: Script)
    | Wait(next: Script)

  predicate Above(l: Mutex, held: set<Mutex>) {
    forall h :: h in held ==> Rank(h) < Rank(l)
  }

  /** The mutexes a script takes itself. */
  function Takes(script: Script): set<Mutex> {
    match script
    case Done => {}
    case Acquire(l, next) => {l} + Takes(next)
    case Release(_, next) => Takes(next)
    case Fork(_, next) => Takes(next)
    case Wait(next) => Takes(next)
  }

  /** held by the process itself, inherited from the parent that waits for it. */
  ghost predicate Disciplined(script: Script, held: set<Mutex>, inherited: set<Mutex>)
    decreases script
  {
    match script
    case Done => held == {}
    case Acquire(l, next) =>
      && Above(l, held + inherited)
      && (IsPart(l) ==> Named(BUNDLE, l.fullName) in inherited)
      && Disciplined(next, held + {l}, inherited)
    case Release(l, next) => l in held && Disciplined(next, held - {l}, inherited)
    case Fork(children, next) =>
      && inherited == {}
      && (forall i :: 0 <= i < |children| ==> Disciplined(children[i], {}, held))
      && (forall i, j :: 0 <= i < j < |children| ==> NoSharedPart(Takes(children[i]), Takes(children[j])))
      && Disciplined(next, held, inherited)
    case Wait(_) => false
  }

  ghost predicate DisciplinedProc(p: Proc) {
    if p.script.Wait? then p.inherited == {} && Disciplined(p.script.next, p.held, {})
    else Disciplined(p.script, p.held, p.inherited)
  }

  lemma NeverWaiting(script: Script, held: set<Mutex>, inherited: set<Mutex>)
    requires Disciplined(script, held, inherited)
    ensures !script.Wait?
  {
  }

  /** The process a plain step leaves behind is as disciplined as before and no longer waits. */
  lemma PlainStepProc(s: State, i: nat)
    requires Enabled(s, i) && !s[i].script.Fork? && DisciplinedProc(s[i])
    ensures var p := Step(s, i)[i]; DisciplinedProc(p) && !p.script.Wait?
  {
    var p := Step(s, i)[i];
    assert Disciplined(p.script, p.held, p.inherited);
    NeverWaiting(p.script, p.held, p.inherited);
  }

  predicate NoSharedPart(a: set<Mutex>, b: set<Mutex>) {
    forall l :: l in a && l in b ==> !IsPart(l)
  }

  // ----- Runs -----

  /** While it waits, the children of a process are those numbered from lo up to hi. */
  datatype Proc = Proc(script: Script, held: set<Mutex>, inherited: set<Mutex>, lo: nat, hi: nat)

  type State = seq<Proc>

  predicate Free(s: State, l: Mutex) {
    forall j :: 0 <= j < |s| ==> l !in s[j].held
  }

  predicate ChildrenDone(s: State, p: Proc) {
    forall c :: p.lo <= c < p.hi && c < |s| ==> s[c].script.Done?
  }

  predicate Enabled(s: State, i: nat) {
    i < |s| &&
    match s[i].script
    case Done => false
    case Acquire(l, _) => Free(s, l)
    case Release(_, _) => true
    case Fork(_, _) => true
    case Wait(_) => ChildrenDone(s, s[i])
  }

  function Started(children: seq<Script>, inherited: set<Mutex>): State {
    seq(|children|, c requires 0 <= c < |children| => Proc(children[c], {}, inherited, 0, 0))
  }

  function Step(s: State, i: nat): State
    requires Enabled(s, i)
  {
    var p := s[i];
    match p.script
    case Acquire(l, next) => s[i := p.(script := next, held := p.held + {l})]
    case Release(l, next) => s[i := p.(script := next, held := p.held - {l})]
    case Fork(children, next) =>
      s[i := p.(script := Wait(next), lo := |s|, hi := |s| + |children|)] + Started(children, p.held)
    case Wait(next) => s[i := p.(script := next)]
  }

  ghost predicate Run(s: State, moves: seq<nat>, end: State)
    decreases |moves|
  {
    if moves == [] then s == end
    else Enabled(s, moves[0]) && Run(Step(s, moves[0]), moves[1..], end)
  }

  predicate AllDone(s: State) {
    forall i :: 0 <= i < |s| ==> s[i].script.Done?
  }

  /** Reconciles that have not begun: any number of them, to be scheduled at any time. */
  function Fresh(scripts: seq<Script>): State {
    Started(scripts, {})
  }

  // ----- What every step keeps -----

  /** What p may still hold or take. */
  function Touches(p: Proc): set<Mutex> {
    p.held + Takes(p.script)
  }

  predicate SharePart(s: State, c: nat, d: nat, l: Mutex) {
    c < |s| && d < |s| && l in Touches(s[c]) && l in Touches(s[d]) && IsPart(l)
  }

  predicate IsChild(s: State, i: nat, c: nat) {
    i < |s| && s[i].script.Wait? && s[i].lo <= c < s[i].hi
  }

  ghost predicate EachDisciplined(s: State) {
    forall i :: 0 <= i < |s| ==> DisciplinedProc(s[i])
  }

  /** No two processes hold the same mutex. */
  ghost predicate Exclusive(s: State) {
    forall i, j, l :: 0 <= i < |s| && 0 <= j < |s| && l in s[i].held && l in s[j].held ==> i == j
  }

  /** No process holds two mutexes of one rank. */
  ghost predicate OnePerRank(s: State) {
    forall i, a, b :: 0 <= i < |s| && a in s[i].held && b in s[i].held && Rank(a) == Rank(b) ==> a == b
  }

  ghost predicate Family(s: State) {
    && (forall i: nat, c: nat :: IsChild(s, i, c) ==> i < c < |s| && s[c].inherited == s[i].held)
    && (forall c :: 0 <= c < |s| && s[c].inherited != {} && !s[c].script.Done? ==> exists i: nat :: IsChild(s, i, c))
  }

  /** Parts are touched only under the bundle's mutex, and no two children of one parent touch the same part. */
  ghost predicate PartsGuarded(s: State) {
    && (forall i, l :: 0 <= i < |s| && l in Touches(s[i]) && IsPart(l) ==> Named(BUNDLE, l.fullName) in s[i].inherited)
    && (forall i: nat, c: nat, d: nat, l :: IsChild(s, i, c) && IsChild(s, i, d) && SharePart(s, c, d, l) ==> c == d)
  }

  ghost predicate Inv(s: State) {
    EachDisciplined(s) && Exclusive(s) && OnePerRank(s) && Family(s) && PartsGuarded(s)
  }

  lemma {:induction false} TakesGuarded(script: Script, held: set<Mutex>, inherited: set<Mutex>, l: Mutex)
    requires Disciplined(script, held, inherited) && l in Takes(script) && IsPart(l)
    ensures Named(BUNDLE, l.fullName) in inherited
  {
    match script
    case Acquire(m, next) => if l != m { TakesGuarded(next, held + {m}, inherited, l); }
    case Release(m, next) => TakesGuarded(next, held - {m}, inherited, l);
    case Fork(_, next) => TakesGuarded(next, held, inherited, l);
  }

  /** A process without a parent takes no part's mutex. */
  lemma {:induction false} RootTakesNoPart(script: Script, held: set<Mutex>)
    requires Disciplined(script, held, {})
    ensures forall l :: l in Takes(script) ==> !IsPart(l)
  {
    match script
    case Done =>
    case Acquire(m, next) => RootTakesNoPart(next, held + {m});
    case Release(m, next) => RootTakesNoPart(next, held - {m});
    case Fork(_, next) => RootTakesNoPart(next, held);
  }

  lemma FreshInv(scripts: seq<Script>)
    requires forall i :: 0 <= i < |scripts| ==> Disciplined(scripts[i], {}, {})
    ensures Inv(Fresh(scripts))
  {
    var s := Fresh(scripts);
    forall i, l | 0 <= i < |s| && l in Touches(s[i]) ensures !IsPart(l) {
      RootTakesNoPart(scripts[i], {});
    }
    forall i | 0 <= i < |s| ensures DisciplinedProc(s[i]) {
      NeverWaiting(scripts[i], {}, {});
    }
  }

  /** A process that only takes or releases a mutex, or stops waiting. */
  lemma PlainStepInv(s: State, i: nat)
    requires Inv(s) && Enabled(s, i) && !s[i].script.Fork?
    ensures Inv(Step(s, i))
  {
    var t := Step(s, i);
    assert DisciplinedProc(s[i]);
    PlainStepMutexes(s, i);
    PlainStepFamily(s, i);
    PlainStepParts(s, i);
  }

  lemma PlainStepMutexes(s: State, i: nat)
    requires Inv(s) && Enabled(s, i) && !s[i].script.Fork?
    ensures EachDisciplined(Step(s, i)) && Exclusive(Step(s, i)) && OnePerRank(Step(s, i))
  {
    assert DisciplinedProc(s[i]);
    PlainStepProc(s, i);
  }

  lemma PlainStepFamily(s: State, i: nat)
    requires Inv(s) && Enabled(s, i) && !s[i].script.Fork?
    ensures Family(Step(s, i))
  {
    var t := Step(s, i);
    assert DisciplinedProc(s[i]);
    PlainStepProc(s, i);
    forall j: nat, c: nat | IsChild(t, j, c) ensures j < c < |t| && t[c].inherited == t[j].held {
      assert IsChild(s, j, c);
    }
    forall c | 0 <= c < |t| && t[c].inherited != {} && !t[c].script.Done? ensures exists j: nat :: IsChild(t, j, c) {
      var j: nat :| IsChild(s, j, c);
      assert IsChild(t, j, c);
    }
  }

  lemma PlainStepParts(s: State, i: nat)
    requires Inv(s) && Enabled(s, i) && !s[i].script.Fork?
    ensures PartsGuarded(Step(s, i))
  {
    var t := Step(s, i);
    assert DisciplinedProc(s[i]);
    PlainStepProc(s, i);
    forall j | 0 <= j < |t| ensures Touches(t[j]) <= Touches(s[j]) && t[j].inherited == s[j].inherited {
    }
    forall j: nat, c: nat, d: nat, l | IsChild(t, j, c) && IsChild(t, j, d) && SharePart(t, c, d, l) ensures c == d {
      assert IsChild(s, j, c) && IsChild(s, j, d) && SharePart(s, c, d, l);
    }
  }

  lemma ForkStepInv(s: State, i: nat)
    requires Inv(s) && Enabled(s, i) && s[i].script.Fork?
    ensures Inv(Step(s, i))
  {
    var t := Step(s, i);
    assert DisciplinedProc(s[i]);
    forall j | 0 <= j < |t| ensures DisciplinedProc(t[j]) {
      if j >= |s| {
        var child := s[i].script.children[j - |s|];
        assert t[j] == Proc(child, {}, s[i].held, 0, 0) && Disciplined(child, {}, s[i].held);
        NeverWaiting(child, {}, s[i].held);
      } else {
        assert j != i ==> t[j] == s[j];
      }
    }
    ForkStepFamily(s, i);
    ForkStepParts(s, i);
  }

  lemma ForkStepFamily(s: State, i: nat)
    requires Inv(s) && Enabled(s, i) && s[i].script.Fork?
    ensures Family(Step(s, i))
  {
    var t := Step(s, i);
    assert DisciplinedProc(s[i]);
    forall j: nat, c: nat | IsChild(t, j, c) ensures j < c < |t| && t[c].inherited == t[j].held {
      if j != i { assert IsChild(s, j, c); }
    }
    forall c | 0 <= c < |t| && t[c].inherited != {} && !t[c].script.Done? ensures exists j: nat :: IsChild(t, j, c) {
      if c < |s| {
        var j: nat :| IsChild(s, j, c);
        assert IsChild(t, j, c);
      } else {
        assert IsChild(t, i, c);
      }
    }
  }

  lemma ForkStepParts(s: State, i: nat)
    requires Inv(s) && Enabled(s, i) && s[i].script.Fork?
    ensures PartsGuarded(Step(s, i))
  {
    var t := Step(s, i);
    var children := s[i].script.children;
    assert DisciplinedProc(s[i]);
    assert forall j :: 0 <= j < |s| ==> Touches(t[j]) == Touches(s[j]);
    assert forall j :: |s| <= j < |t| ==> Touches(t[j]) == Takes(children[j - |s|]);
    forall j, l | 0 <= j < |t| && l in Touches(t[j]) && IsPart(l) ensures Named(BUNDLE, l.fullName) in t[j].inherited {
      if j >= |s| { TakesGuarded(children[j - |s|], {}, t[j].inherited, l); }
    }
    forall j: nat, c: nat, d: nat, l | IsChild(t, j, c) && IsChild(t, j, d) && SharePart(t, c, d, l) ensures c == d {
      if j == i {
        SharedChild(children, c - |s|, d - |s|, l);
      } else {
        assert IsChild(s, j, c) && IsChild(s, j, d) && SharePart(s, c, d, l);
      }
    }
  }

  lemma SharedChild(children: seq<Script>, i: nat, j: nat, l: Mutex)
    requires forall i, j :: 0 <= i < j < |children| ==> NoSharedPart(Takes(children[i]), Takes(children[j]))
    requires i < |children| && j < |children| && l in Takes(children[i]) && l in Takes(children[j]) && IsPart(l)
    ensures i == j
  {
  }

  lemma {:induction false} RunKeepsInv(s: State, moves: seq<nat>, end: State)
    requires Inv(s) && Run(s, moves, end)
    ensures Inv(end)
    decreases |moves|
  {
    if moves != [] {
      if s[moves[0]].script.Fork? { ForkStepInv(s, moves[0]); } else { PlainStepInv(s, moves[0]); }
      RunKeepsInv(Step(s, moves[0]), moves[1..], end);
    }
  }

  // ----- Deadlock freedom -----

  /** Whatever process i does next, it wants nothing of a rank below bar. */
  predicate Bar(p: Proc, bar: nat) {
    bar == 0 || exists h :: h in p.held + p.inherited && Rank(h) + 1 >= bar
  }

  /** From a process that is not done, follow what it waits for: the chain climbs in rank and ends
      at one that can move. */
  lemma {:induction false} SomeoneCanMove(s: State, i: nat, bar: nat)
    returns (who: nat)
    requires Inv(s) && i < |s| && !s[i].script.Done? && bar <= 4 && Bar(s[i], bar)
    ensures Enabled(s, who)
    decreases 4 - bar, |s| - i
  {
    who := i;
    assert DisciplinedProc(s[i]);
    if s[i].script.Wait? && !ChildrenDone(s, s[i]) {
      var c :| s[i].lo <= c < s[i].hi && c < |s| && !s[c].script.Done?;
      assert IsChild(s, i, c);
      who := SomeoneCanMove(s, c, bar);
    } else if s[i].script.Acquire? && !Free(s, s[i].script.l) {
      var l := s[i].script.l;
      var j :| 0 <= j < |s| && l in s[j].held;
      assert Rank(l) >= bar;
      assert DisciplinedProc(s[j]);
      assert l in s[j].held + s[j].inherited;
      who := SomeoneCanMove(s, j, Rank(l) + 1);
    }
  }

  /** No deadlock, in any state that any number of disciplined reconciles can reach. */
  lemma NoDeadlock(scripts: seq<Script>, moves: seq<nat>, end: State)
    requires forall i :: 0 <= i < |scripts| ==> Disciplined(scripts[i], {}, {})
    requires Run(Fresh(scripts), moves, end)
    ensures AllDone(end) || exists who :: Enabled(end, who)
    ensures AllDone(end) ==> forall l :: Free(end, l)
  {
    FreshInv(scripts);
    RunKeepsInv(Fresh(scripts), moves, end);
    if !AllDone(end) {
      var i :| 0 <= i < |end| && !end[i].script.Done?;
      var who := SomeoneCanMove(end, i, 0);
    } else {
      assert forall i :: 0 <= i < |end| ==> DisciplinedProc(end[i]);
    }
  }

  // ----- Contention -----

  /** Whoever is about to take a part's mutex finds it free. */
  lemma PartsAreNeverContended(scripts: seq<Script>, moves: seq<nat>, end: State, i: nat)
    requires forall j :: 0 <= j < |scripts| ==> Disciplined(scripts[j], {}, {})
    requires Run(Fresh(scripts), moves, end)
    requires i < |end| && end[i].script.Acquire? && IsPart(end[i].script.l)
    ensures Free(end, end[i].script.l)
  {
    FreshInv(scripts);
    RunKeepsInv(Fresh(scripts), moves, end);
    var l := end[i].script.l;
    assert DisciplinedProc(end[i]);
    forall j | 0 <= j < |end| ensures l !in end[j].held {
      if l in end[j].held {
        OneProcessPerPart(end, i, j, l);
      }
    }
  }

  lemma OneProcessPerPart(s: State, i: nat, j: nat, l: Mutex)
    requires Inv(s) && SharePart(s, i, j, l) && !s[i].script.Done? && !s[j].script.Done?
    ensures i == j
  {
    var p: nat :| IsChild(s, p, i);
    var q: nat :| IsChild(s, q, j);
    var bundle := Named(BUNDLE, l.fullName);
    assert bundle in s[p].held && bundle in s[q].held;
  }

  // ----- Every run ends -----

  function Size(script: Script): nat {
    match script
    case Done => 0
    case Acquire(_, next) => 1 + Size(next)
    case Release(_, next) => 1 + Size(next)
    case Fork(children, next) => 2 + Sizes(children) + Size(next)
    case Wait(next) => 1 + Size(next)
  }

  function Sizes(scripts: seq<Script>): nat {
    if scripts == [] then 0 else Size(scripts[0]) + Sizes(scripts[1..])
  }

  function Scripts(s: State): seq<Script> {
    seq(|s|, i requires 0 <= i < |s| => s[i].script)
  }

  lemma {:induction false} SizesConcat(a: seq<Script>, b: seq<Script>)
    ensures Sizes(a + b) == Sizes(a) + Sizes(b)
    decreases |a|
  {
    if a == [] {
      assert a + b == b;
    } else {
      SizesConcat(a[1..], b);
      assert (a + b)[1..] == a[1..] + b;
    }
  }

  lemma SizesUpdate(a: seq<Script>, i: nat, x: Script)
    requires i < |a|
    ensures Sizes(a[i := x]) + Size(a[i]) == Sizes(a) + Size(x)
  {
    SizesConcat(a[..i], [a[i]] + a[i + 1..]);
    SizesConcat(a[..i], [x] + a[i + 1..]);
    assert a == a[..i] + ([a[i]] + a[i + 1..]);
    assert a[i := x] == a[..i] + ([x] + a[i + 1..]);
    assert ([a[i]] + a[i + 1..])[1..] == a[i + 1..] == ([x] + a[i + 1..])[1..];
  }

  lemma StepShrinks(s: State, i: nat)
    requires Enabled(s, i)
    ensures Sizes(Scripts(Step(s, i))) + 1 == Sizes(Scripts(s))
  {
    var a, p := Scripts(s), s[i].script;
    var x := if p.Fork? then Wait(p.next) else p.next;
    var b := if p.Fork? then p.children else [];
    SizesUpdate(a, i, x);
    SizesConcat(a[i := x], b);
    assert Scripts(Step(s, i)) == a[i := x] + b;
  }

  /** A run has exactly as many steps as there was work in what it has done: none goes on for ever. */
  lemma {:induction false} RunsAreBounded(s: State, moves: seq<nat>, end: State)
    requires Run(s, moves, end)
    ensures |moves| + Sizes(Scripts(end)) == Sizes(Scripts(s))
    decreases |moves|
  {
    if moves != [] {
      StepShrinks(s, moves[0]);
      RunsAreBounded(Step(s, moves[0]), moves[1..], end);
    }
  }
}
