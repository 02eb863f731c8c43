/** The mutexes that the two controllers and the six reconcilers take, on every path through them. */
module LockScripts {
  import opened LockOrder
  import MutexRegistry

  datatype LockAct = Take(l: Mutex) | Give(l: Mutex)

  function Straight(acts: seq<LockAct>, next: Script): Script {
    if acts == [] then next
    else match acts[0]
      case Take(l) => Acquire(l, Straight(acts[1..], next))
      case Give(l) => Release(l, Straight(acts[1..], next))
  }

  function Of(resource: string, name: string, namespace: string): Mutex {
    Named(resource, MutexRegistry.FullName(name, namespace))
  }

  /** getMutex and Lock: the registry is only held while the mutex is looked up. */
  function TakeNamed(l: Mutex): seq<LockAct> {
    [Take(Registry), Give(Registry), Take(l)]
  }

  /** One call into the state cache. */
  const CACHE_CALL: seq<LockAct> := [Take(StateTable), Give(StateTable)]

  // ----- The six reconcilers -----

  const PARTS: seq<string> := ["volume", "service", "deployment", "ingresses", "configmap", "extsec"]

  /** Lock first, unlock at the end on every path. */
  function PartScript(resource: string, name: string, namespace: string): Script {
    var l := Of(resource, name, namespace);
    Straight(TakeNamed(l) + [Give(l)], Done)
  }

  function PartScripts(name: string, namespace: string): seq<Script> {
    seq(|PARTS|, i requires 0 <= i < |PARTS| => PartScript(PARTS[i], name, namespace))
  }

  // ----- The two controllers -----

  /** How far a reconcile gets before it returns. */
  datatype Progress =
    | NoObject                    // the object could not be read
    | NoHash                      // registering its state failed
    | FirstSeen(goesOn: bool)     // registered just now, so its state is not looked up
    | Known(goesOn: bool)         // registered before

  function CacheCalls(progress: Progress): seq<LockAct> {
    match progress
    case NoObject => []
    case NoHash => CACHE_CALL
    case FirstSeen(_) => CACHE_CALL
    case Known(_) => CACHE_CALL + CACHE_CALL
  }

  predicate GoesOn(progress: Progress) {
    (progress.FirstSeen? || progress.Known?) && progress.goesOn
  }

  /** The AppBundle reconcile: the bundle's mutex is held until all six reconcilers have returned. */
  function BundleScript(name: string, namespace: string, progress: Progress): Script {
    var l := Of(BUNDLE, name, namespace);
    var end := Release(l, Done);
    Straight(TakeNamed(l) + CacheCalls(progress),
             if GoesOn(progress) then Fork(PartScripts(name, namespace), end) else end)
  }

  datatype BundleName = BundleName(name: string, namespace: string)

  /** One listed bundle that names the base: its mutex is given back before the next one is taken,
      and before any return. */
  function Visit(ab: BundleName): seq<LockAct> {
    var l := Of(BUNDLE, ab.name, ab.namespace);
    TakeNamed(l) + CACHE_CALL + [Give(l)]
  }

  function Visits(visited: seq<BundleName>): seq<LockAct> {
    if visited == [] then [] else Visit(visited[0]) + Visits(visited[1..])
  }

  /** The AppBundleBase reconcile that visits the given bundles before it ends or returns early. */
  function BaseScript(name: string, namespace: string, progress: Progress, visited: seq<BundleName>): Script {
    var l := Of(BASE, name, namespace);
    Straight(TakeNamed(l) + CacheCalls(progress) + Visits(if GoesOn(progress) then visited else []),
             Release(l, Done))
  }

  datatype Job =
    | BundleJob(name: string, namespace: string, progress: Progress)
    | BaseJob(name: string, namespace: string, progress: Progress, visited: seq<BundleName>)

  function ScriptOf(job: Job): Script {
    match job
    case BundleJob(name, namespace, progress) => BundleScript(name, namespace, progress)
    case BaseJob(name, namespace, progress, visited) => BaseScript(name, namespace, progress, visited)
  }

  function ScriptsOf(jobs: seq<Job>): seq<Script> {
    seq(|jobs|, i requires 0 <= i < |jobs| => ScriptOf(jobs[i]))
  }

  // ----- They keep the discipline -----

  lemma {:induction false} StraightConcat(a: seq<LockAct>, b: seq<LockAct>, next: Script)
    ensures Straight(a + b, next) == Straight(a, Straight(b, next))
    decreases |a|
  {
    if a == [] {
      assert a + b == b;
    } else {
      assert (a + b)[1..] == a[1..] + b;
      StraightConcat(a[1..], b, next);
    }
  }

  function Prepend(act: LockAct, next: Script): Script {
    match act
    case Take(l) => Acquire(l, next)
    case Give(l) => Release(l, next)
  }

  lemma StraightCons(act: LockAct, rest: seq<LockAct>, next: Script)
    ensures Straight([act] + rest, next) == Prepend(act, Straight(rest, next))
  {
    assert ([act] + rest)[1..] == rest;
  }

  lemma StraightTwo(a: LockAct, b: LockAct, next: Script)
    ensures Straight([a, b], next) == Prepend(a, Prepend(b, next))
  {
    StraightCons(a, [b], next);
    StraightCons(b, [], next);
    assert [a] + [b] == [a, b] && [b] + [] == [b];
  }

  lemma StraightThree(a: LockAct, b: LockAct, c: LockAct, next: Script)
    ensures Straight([a, b, c], next) == Prepend(a, Prepend(b, Prepend(c, next)))
  {
    StraightCons(a, [b, c], next);
    StraightTwo(b, c, next);
    assert [a] + [b, c] == [a, b, c];
  }

  lemma StraightTakeNamed(l: Mutex, next: Script)
    ensures Straight(TakeNamed(l), next) == Acquire(Registry, Release(Registry, Acquire(l, next)))
  {
    StraightThree(Take(Registry), Give(Registry), Take(l), next);
  }

  /** Looking a mutex up and taking it. */
  lemma TakeNamedDisciplined(l: Mutex, next: Script, held: set<Mutex>, inherited: set<Mutex>)
    requires Above(l, held + inherited) && Rank(l) < 3
    requires IsPart(l) ==> Named(BUNDLE, l.fullName) in inherited
    requires Disciplined(next, held + {l}, inherited)
    ensures Disciplined(Straight(TakeNamed(l), next), held, inherited)
  {
    StraightTakeNamed(l, next);
    assert held + {Registry} - {Registry} == held;
    assert Disciplined(Acquire(l, next), held, inherited);
    assert Disciplined(Release(Registry, Acquire(l, next)), held + {Registry}, inherited);
  }

  lemma CacheCallDisciplined(next: Script, held: set<Mutex>, inherited: set<Mutex>)
    requires forall h :: h in held + inherited ==> Rank(h) < 3
    requires Disciplined(next, held, inherited)
    ensures Disciplined(Straight(CACHE_CALL, next), held, inherited)
  {
    StraightTwo(Take(StateTable), Give(StateTable), next);
    assert held + {StateTable} - {StateTable} == held;
    assert Disciplined(Release(StateTable, next), held + {StateTable}, inherited);
  }

  lemma GiveDisciplined(l: Mutex, next: Script, held: set<Mutex>, inherited: set<Mutex>)
    requires l !in held && Disciplined(next, held, inherited)
    ensures Disciplined(Straight([Give(l)], next), held + {l}, inherited)
  {
    assert held + {l} - {l} == held;
    StraightCons(Give(l), [], next);
    assert [Give(l)] + [] == [Give(l)];
  }

  lemma CacheCallsDisciplined(progress: Progress, next: Script, held: set<Mutex>)
    requires (forall h :: h in held ==> Rank(h) < 3) && Disciplined(next, held, {})
    ensures Disciplined(Straight(CacheCalls(progress), next), held, {})
  {
    if progress != NoObject {
      CacheCallDisciplined(next, held, {});
      if progress.Known? {
        CacheCallDisciplined(Straight(CACHE_CALL, next), held, {});
        StraightConcat(CACHE_CALL, CACHE_CALL, next);
      }
    }
  }

  lemma PartDisciplined(resource: string, name: string, namespace: string)
    requires resource != BASE && resource != BUNDLE
    ensures Disciplined(PartScript(resource, name, namespace), {}, {Of(BUNDLE, name, namespace)})
    ensures Takes(PartScript(resource, name, namespace)) == {Registry, Of(resource, name, namespace)}
  {
    var l, up := Of(resource, name, namespace), {Of(BUNDLE, name, namespace)};
    var end := Straight([Give(l)], Done);
    GiveDisciplined(l, Done, {}, up);
    TakeNamedDisciplined(l, end, {}, up);
    StraightConcat(TakeNamed(l), [Give(l)], Done);
    StraightTakeNamed(l, end);
    StraightCons(Give(l), [], Done);
    assert [Give(l)] + [] == [Give(l)] && end == Release(l, Done);
    assert Takes(end) == {} && Takes(Acquire(l, end)) == {l} + Takes(end) == {l};
    assert Takes(PartScript(resource, name, namespace)) == {Registry} + Takes(Release(Registry, Acquire(l, end)));
  }

  lemma PartsAreDistinct()
    ensures forall i :: 0 <= i < |PARTS| ==> PARTS[i] != BASE && PARTS[i] != BUNDLE
    ensures forall i, j :: 0 <= i < j < |PARTS| ==> PARTS[i] != PARTS[j]
  {
    assert PARTS[0][0] == 'v' && PARTS[1][0] == 's' && PARTS[2][0] == 'd' && PARTS[3][0] == 'i';
    assert PARTS[4][0] == 'c' && PARTS[5][0] == 'e' && BASE[0] == 'a' && BUNDLE[0] == 'a';
  }

  lemma BundleDisciplined(name: string, namespace: string, progress: Progress)
    ensures Disciplined(BundleScript(name, namespace, progress), {}, {})
  {
    var l := Of(BUNDLE, name, namespace);
    var end, children := Release(l, Done), PartScripts(name, namespace);
    PartsAreDistinct();
    forall i | 0 <= i < |children|
      ensures Disciplined(children[i], {}, {l}) && Takes(children[i]) == {Registry, Of(PARTS[i], name, namespace)}
    {
      PartDisciplined(PARTS[i], name, namespace);
    }
    var rest := if GoesOn(progress) then Fork(children, end) else end;
    assert Disciplined(Done, {l} - {l}, {});
    assert Disciplined(end, {l}, {});
    CacheCallsDisciplined(progress, rest, {l});
    assert {} + {l} == {l};
    TakeNamedDisciplined(l, Straight(CacheCalls(progress), rest), {}, {});
    StraightConcat(TakeNamed(l), CacheCalls(progress), rest);
  }

  /** The mutexes a reconcile of the bundle takes, itself and in its six children. */
  lemma BundleTakes(name: string, namespace: string, progress: Progress)
    ensures var own := {Registry, Named("appBundle", name + "-" + namespace)};
      Takes(BundleScript(name, namespace, progress)) == if progress.NoObject? then own else own + {StateTable}
    ensures var parts := ["volume", "service", "deployment", "ingresses", "configmap", "extsec"];
      forall i :: 0 <= i < 6 ==>
        Takes(PartScripts(name, namespace)[i]) == {Registry, Named(parts[i], name + "-" + namespace)}
  {
    var l, end := Of(BUNDLE, name, namespace), Release(Of(BUNDLE, name, namespace), Done);
    assert l.fullName == name + "-" + namespace;
    var rest := if GoesOn(progress) then Fork(PartScripts(name, namespace), end) else end;
    assert Takes(Done) == {} && Takes(end) == Takes(Done);
    assert Takes(Fork(PartScripts(name, namespace), end)) == Takes(end);
    StraightConcat(TakeNamed(l), CacheCalls(progress), rest);
    CacheCallsTake(progress, rest);
    TakeNamedTakes(l, Straight(CacheCalls(progress), rest));
    PartsAreDistinct();
    forall i | 0 <= i < 6 ensures Takes(PartScripts(name, namespace)[i]) == {Registry, Of(PARTS[i], name, namespace)} {
      PartDisciplined(PARTS[i], name, namespace);
    }
  }

  lemma CacheCallsTake(progress: Progress, next: Script)
    ensures Takes(Straight(CacheCalls(progress), next)) == Takes(next) + if progress.NoObject? then {} else {StateTable}
  {
    CacheCallTakes(next);
    if progress.Known? {
      StraightConcat(CACHE_CALL, CACHE_CALL, next);
      CacheCallTakes(Straight(CACHE_CALL, next));
    }
  }

  lemma CacheCallTakes(next: Script)
    ensures Takes(Straight(CACHE_CALL, next)) == Takes(next) + {StateTable}
  {
    StraightTwo(Take(StateTable), Give(StateTable), next);
    assert Takes(Release(StateTable, next)) == Takes(next);
  }

  lemma TakeNamedTakes(l: Mutex, next: Script)
    ensures Takes(Straight(TakeNamed(l), next)) == {Registry, l} + Takes(next)
  {
    StraightTakeNamed(l, next);
    assert Takes(Release(Registry, Acquire(l, next))) == Takes(Acquire(l, next)) == {l} + Takes(next);
  }

  lemma VisitDisciplined(ab: BundleName, next: Script, base: Mutex)
    requires Rank(base) == 0 && Disciplined(next, {base}, {})
    ensures Disciplined(Straight(Visit(ab), next), {base}, {})
  {
    var l := Of(BUNDLE, ab.name, ab.namespace);
    var end := Straight([Give(l)], next);
    GiveDisciplined(l, next, {base}, {});
    CacheCallDisciplined(end, {base} + {l}, {});
    TakeNamedDisciplined(l, Straight(CACHE_CALL, end), {base}, {});
    StraightConcat(CACHE_CALL, [Give(l)], next);
    StraightConcat(TakeNamed(l), CACHE_CALL + [Give(l)], next);
    assert TakeNamed(l) + (CACHE_CALL + [Give(l)]) == Visit(ab);
  }

  lemma {:induction false} VisitsDisciplined(visited: seq<BundleName>, next: Script, base: Mutex)
    requires Rank(base) == 0 && Disciplined(next, {base}, {})
    ensures Disciplined(Straight(Visits(visited), next), {base}, {})
    decreases |visited|
  {
    if visited != [] {
      VisitsDisciplined(visited[1..], next, base);
      VisitDisciplined(visited[0], Straight(Visits(visited[1..]), next), base);
      StraightConcat(Visit(visited[0]), Visits(visited[1..]), next);
    }
  }

  lemma BaseDisciplined(name: string, namespace: string, progress: Progress, visited: seq<BundleName>)
    ensures Disciplined(BaseScript(name, namespace, progress, visited), {}, {})
  {
    var l, end := Of(BASE, name, namespace), Release(Of(BASE, name, namespace), Done);
    var visits := Visits(if GoesOn(progress) then visited else []);
    assert Disciplined(Done, {l} - {l}, {});
    VisitsDisciplined(if GoesOn(progress) then visited else [], end, l);
    CacheCallsDisciplined(progress, Straight(visits, end), {l});
    assert {} + {l} == {l};
    TakeNamedDisciplined(l, Straight(CacheCalls(progress), Straight(visits, end)), {}, {});
    StraightConcat(CacheCalls(progress), visits, end);
    StraightConcat(TakeNamed(l), CacheCalls(progress) + visits, end);
    assert TakeNamed(l) + (CacheCalls(progress) + visits) == TakeNamed(l) + CacheCalls(progress) + visits;
  }

  lemma JobsDisciplined(jobs: seq<Job>)
    ensures forall i :: 0 <= i < |jobs| ==> Disciplined(ScriptsOf(jobs)[i], {}, {})
  {
    forall i | 0 <= i < |jobs| ensures Disciplined(ScriptsOf(jobs)[i], {}, {}) {
      match jobs[i]
      case BundleJob(name, namespace, progress) => BundleDisciplined(name, namespace, progress);
      case BaseJob(name, namespace, progress, visited) => BaseDisciplined(name, namespace, progress, visited);
    }
  }

  /**
   Any number of bundle and base reconciles, interleaved in any way, never
   deadlock: until all have returned one of them can move, and no run goes on for
   ever; at the end every mutex is free.
   */
  lemma ReconcilesNeverDeadlock(jobs: seq<Job>, moves: seq<nat>, end: State)
    requires Run(Fresh(ScriptsOf(jobs)), moves, end)
    ensures AllDone(end) || exists who :: Enabled(end, who)
    ensures AllDone(end) ==> forall l :: Free(end, l)
    ensures |moves| <= Sizes(ScriptsOf(jobs))
  {
    JobsDisciplined(jobs);
    NoDeadlock(ScriptsOf(jobs), moves, end);
    RunsAreBounded(Fresh(ScriptsOf(jobs)), moves, end);
    assert Scripts(Fresh(ScriptsOf(jobs))) == ScriptsOf(jobs);
  }

  /**
   The mutex each of the six reconcilers takes is always free when it asks for it,
   although bundles of different namespaces may share it.
   */
  lemma PartMutexesAreNeverContended(jobs: seq<Job>, moves: seq<nat>, end: State, i: nat)
    requires Run(Fresh(ScriptsOf(jobs)), moves, end)
    requires i < |end| && end[i].script.Acquire? && IsPart(end[i].script.l)
    ensures Free(end, end[i].script.l)
  {
    JobsDisciplined(jobs);
    PartsAreNeverContended(ScriptsOf(jobs), moves, end, i);
  }

  /** A reconcile never holds two bundle mutexes at once, nor two of any other rank. */
  lemma NeverTwoBundleMutexes(jobs: seq<Job>, moves: seq<nat>, end: State, i: nat, a: Mutex, b: Mutex)
    requires Run(Fresh(ScriptsOf(jobs)), moves, end)
    requires i < |end| && a in end[i].held && b in end[i].held && Rank(a) == Rank(b)
    ensures a == b
  {
    JobsDisciplined(jobs);
    FreshInv(ScriptsOf(jobs));
    RunKeepsInv(Fresh(ScriptsOf(jobs)), moves, end);
  }
}
