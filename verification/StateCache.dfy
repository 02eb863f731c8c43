/**
 The in-memory cache of what was last reconciled.

 The cache is a table of shared state objects.  Its history of registrations,
 updates and invalidations determines what it holds; what an answer of
 StateNeedsUpdating means is stated about that history.
 */
module StateCache {
  import opened Options

  /** Times are nanoseconds since the epoch. */
  const SECOND := 1_000_000_000

  /** Time.Unix: whole seconds, rounded down. */
  function Unix(t: int): int {
    t / SECOND
  }

  /** What the cache asks of a bundle or base; no hash means that hashing its spec fails. */
  datatype App = App(name: string, namespace: string, specHash: Option<string>, lastReconciliation: Option<string>) {
    function ID(): string {
      Id(name, namespace)
    }
  }

  function Id(name: string, namespace: string): string {
    name + "_" + namespace
  }

  predicate NoUnderscore(s: string) {
    '_' !in s
  }

  /** Names and namespaces have no underscore (section 2.1 of RFC 1123), so an ID determines both. */
  lemma IdIsInjective(n1: string, s1: string, n2: string, s2: string)
    requires NoUnderscore(n1) && NoUnderscore(n2)
    ensures Id(n1, s1) == Id(n2, s2) <==> n1 == n2 && s1 == s2
  {
    if Id(n1, s1) == Id(n2, s2) {
      UnderscoreNotBefore(n1, s1, n2, s2);
      UnderscoreNotBefore(n2, s2, n1, s1);
      assert Id(n1, s1)[..|n1|] == n1 && Id(n2, s2)[..|n2|] == n2;
      assert Id(n1, s1)[|n1| + 1..] == s1 && Id(n2, s2)[|n2| + 1..] == s2;
    }
  }

  lemma UnderscoreNotBefore(n1: string, s1: string, n2: string, s2: string)
    requires NoUnderscore(n1) && Id(n1, s1) == Id(n2, s2)
    ensures |n1| <= |n2|
  {
    assert Id(n2, s2)[|n2|] == '_';
    assert forall k :: 0 <= k < |n1| ==> Id(n1, s1)[k] == n1[k] && n1[k] in n1;
  }

  /** A base is cluster-scoped: its namespace is empty and its ID is no bundle's. */
  lemma BaseIdIsNoBundleId(base: string, name: string, namespace: string)
    requires NoUnderscore(base) && NoUnderscore(name) && namespace != ""
    ensures Id(base, "") != Id(name, namespace)
  {
    IdIsInjective(base, "", name, namespace);
  }

  // ----- Histories -----

  datatype Entry = Entry(hash: string, last: int)

  datatype Event =
    | Register(id: string, hash: string)
    | Update(id: string, hash: string, now: int)
    | Invalidate(id: string)

  function Apply(v: map<string, Entry>, e: Event): map<string, Entry> {
    match e
    case Register(id, hash) => if id in v then v else v[id := Entry(hash, 0)]
    case Update(id, hash, now) => if id in v then v[id := Entry(hash, now)] else v
    case Invalidate(id) => if id in v then v[id := Entry("", v[id].last)] else v
  }

  function Replay(history: seq<Event>): map<string, Entry> {
    if history == [] then map[] else Apply(Replay(history[..|history| - 1]), history[|history| - 1])
  }

  lemma ReplayOne(history: seq<Event>, e: Event)
    ensures Replay(history + [e]) == Apply(Replay(history), e)
  {
    assert (history + [e])[..|history|] == history;
  }

  predicate NeedsUpdating(entry: Entry, currentHash: string, reconciledBefore: bool, now: int) {
    entry.hash != currentHash || !reconciledBefore || Unix(now) - Unix(entry.last) > 30
  }

  predicate FirstRegistration(history: seq<Event>, k: nat, id: string) {
    k < |history| && history[k].Register? && history[k].id == id
    && forall j :: 0 <= j < k && history[j].Register? ==> history[j].id != id
  }

  predicate RegisteredBefore(history: seq<Event>, k: nat, id: string) {
    exists j :: 0 <= j < k && j < |history| && history[j].Register? && history[j].id == id
  }

  /** Event k decided the hash of id: the first registration, or an update or invalidation after it. */
  predicate SetsHash(history: seq<Event>, k: nat, id: string) {
    k < |history| && history[k].id == id &&
    (FirstRegistration(history, k, id) || (!history[k].Register? && RegisteredBefore(history, k, id)))
  }

  function HashSet(e: Event): string {
    if e.Invalidate? then "" else e.hash
  }

  /** Event k is the last that decided the hash of id. */
  predicate LastToSetHash(history: seq<Event>, k: nat, id: string) {
    SetsHash(history, k, id) && forall j :: k < j < |history| ==> !SetsHash(history, j, id)
  }

  /** The time of the last update of id, if there was one since it was registered; otherwise the epoch. */
  function LastUpdate(history: seq<Event>, id: string): int {
    if history == [] then 0
    else
      var n := |history| - 1;
      var e := history[n];
      if e.Update? && e.id == id && RegisteredBefore(history, n, id) then e.now else LastUpdate(history[..n], id)
  }

  lemma {:induction false} InTableIff(history: seq<Event>, id: string)
    ensures id in Replay(history) <==> RegisteredBefore(history, |history|, id)
    decreases |history|
  {
    if history != [] {
      var n := |history| - 1;
      InTableIff(history[..n], id);
      PrefixRegistered(history, n, n, id);
      var e := history[n];
      if e.Register? && e.id == id {
        assert RegisteredBefore(history, |history|, id);
      } else if RegisteredBefore(history, |history|, id) {
        var j :| 0 <= j < |history| && history[j].Register? && history[j].id == id;
        assert j < n;
      }
    }
  }

  lemma PrefixRegistered(history: seq<Event>, n: nat, k: nat, id: string)
    requires k <= n <= |history|
    ensures RegisteredBefore(history[..n], k, id) <==> RegisteredBefore(history, k, id)
  {
    if RegisteredBefore(history, k, id) {
      var j :| 0 <= j < k && j < |history| && history[j].Register? && history[j].id == id;
      assert history[..n][j] == history[j];
    }
  }

  lemma PrefixSetsHash(history: seq<Event>, n: nat, k: nat, id: string)
    requires k < n <= |history|
    ensures SetsHash(history[..n], k, id) <==> SetsHash(history, k, id)
  {
    PrefixRegistered(history, n, k, id);
  }

  /** What the table holds for id is what the last event that decided it says. */
  lemma {:induction false} TableMeaning(history: seq<Event>, id: string)
    returns (k: nat)
    requires id in Replay(history)
    ensures LastToSetHash(history, k, id) && Replay(history)[id] == Entry(HashSet(history[k]), LastUpdate(history, id))
    decreases |history|
  {
    var n, e := |history| - 1, history[|history| - 1];
    InTableIff(history[..n], id);
    PrefixRegistered(history, n, n, id);
    if id !in Replay(history[..n]) {
      k := n;
      assert e == Register(id, e.hash);
      NeverUpdatedBefore(history[..n], id);
    } else if e.id == id && !e.Register? {
      k := n;
      var before := TableMeaning(history[..n], id);
    } else {
      k := TableMeaning(history[..n], id);
      PrefixSetsHash(history, n, k, id);
      forall j | k < j < |history| ensures !SetsHash(history, j, id) {
        if j < n { PrefixSetsHash(history, n, j, id); }
      }
    }
  }

  lemma {:induction false} NeverUpdatedBefore(history: seq<Event>, id: string)
    requires !RegisteredBefore(history, |history|, id)
    ensures LastUpdate(history, id) == 0
    decreases |history|
  {
    if history != [] {
      var n := |history| - 1;
      PrefixRegistered(history, n, n, id);
      NeverUpdatedBefore(history[..n], id);
    }
  }

  lemma LastToSetHashIsUnique(history: seq<Event>, j: nat, k: nat, id: string)
    requires LastToSetHash(history, j, id) && LastToSetHash(history, k, id)
    ensures j == k
  {
  }

  /**
   No update is needed exactly when the last event that decided the hash was a
   registration or update with today's hash (so there was no invalidation since),
   the object has been reconciled before, and at most 30 whole seconds lie between.
   */
  lemma NoUpdateIff(history: seq<Event>, id: string, currentHash: string, reconciledBefore: bool, now: int)
    requires id in Replay(history) && currentHash != ""
    ensures !NeedsUpdating(Replay(history)[id], currentHash, reconciledBefore, now)
       <==> reconciledBefore && Unix(now) - Unix(LastUpdate(history, id)) <= 30
            && exists k: nat ::
                 LastToSetHash(history, k, id) && !history[k].Invalidate? && history[k].hash == currentHash
  {
    var last := TableMeaning(history, id);
    if k: nat :| LastToSetHash(history, k, id) && !history[k].Invalidate? && history[k].hash == currentHash {
      LastToSetHashIsUnique(history, k, last, id);
    }
  }

  /** Whole-second truncation: a "no" means less than 31 seconds, a "yes" for time alone more than 30. */
  lemma TimeWindow(entry: Entry, currentHash: string, now: int)
    ensures !NeedsUpdating(entry, currentHash, true, now) ==> now - entry.last < 31 * SECOND
    ensures NeedsUpdating(entry, currentHash, true, now) && entry.hash == currentHash ==> now - entry.last > 30 * SECOND
  {
    var a, b := now / SECOND, entry.last / SECOND;
    assert a * SECOND <= now < (a + 1) * SECOND && b * SECOND <= entry.last < (b + 1) * SECOND;
  }

  predicate NeverUpdated(history: seq<Event>, id: string) {
    forall j :: 0 <= j < |history| && history[j].Update? ==> history[j].id != id
  }

  /** What is never passed to UpdateState needs updating at every time that is more than 30 seconds after the epoch. */
  lemma {:induction false} NeverUpdatedAlwaysNeeds(
    history: seq<Event>, id: string, currentHash: string, reconciledBefore: bool, now: int)
    requires id in Replay(history) && NeverUpdated(history, id) && Unix(now) > 30
    ensures NeedsUpdating(Replay(history)[id], currentHash, reconciledBefore, now)
  {
    var k := TableMeaning(history, id);
    NoUpdateNoTime(history, id);
  }

  lemma {:induction false} NoUpdateNoTime(history: seq<Event>, id: string)
    requires NeverUpdated(history, id)
    ensures LastUpdate(history, id) == 0
    decreases |history|
  {
    if history != [] {
      NoUpdateNoTime(history[..|history| - 1], id);
    }
  }

  /** An invalidated entry needs updating until it is updated, whatever happens to others and
      however often it is registered. */
  lemma {:induction false} InvalidStaysInvalid(history: seq<Event>, more: seq<Event>, id: string)
    requires id in Replay(history) && Replay(history)[id].hash == "" && NeverUpdated(more, id)
    ensures id in Replay(history + more) && Replay(history + more)[id].hash == ""
    decreases |more|
  {
    if more == [] {
      assert history + more == history;
    } else {
      var n := |more| - 1;
      InvalidStaysInvalid(history, more[..n], id);
      assert history + more == (history + more[..n]) + [more[n]];
      ReplayOne(history + more[..n], more[n]);
    }
  }

  // ----- The cache -----

  datatype RegisterResult = Registered | AlreadyRegistered | NoHash

  datatype CacheError = StateNotRegistered | HashFailed

  class AppBundleState {
    var specHash: string
    var lastReconciliation: int
    var nextBackoffInSec: int

    constructor (specHash: string)
      ensures this.specHash == specHash && lastReconciliation == 0 && nextBackoffInSec == 10
    {
      this.specHash, lastReconciliation, nextBackoffInSec := specHash, 0, 10;
    }
  }

  /** Every ID in before keeps its object. */
  ghost predicate SameObjects(before: map<string, AppBundleState>, after: map<string, AppBundleState>) {
    forall id :: id in before ==> id in after && after[id] == before[id]
  }

  class Cache {
    var state: map<string, AppBundleState>
    ghost var history: seq<Event>

    ghost function View(): map<string, Entry>
      reads this, state.Values
    {
      map id | id in state :: Entry(state[id].specHash, state[id].lastReconciliation)
    }

    /** Distinct IDs own distinct objects, and the objects hold what the history says. */
    ghost predicate Valid()
      reads this, state.Values
    {
      && (forall a, b :: a in state && b in state && state[a] == state[b] ==> a == b)
      && View() == Replay(history)
    }

    constructor ()
      ensures Valid() && state == map[] && history == []
    {
      state, history := map[], [];
    }

    method RegisterStateIfNotAlreadyRegistered(app: App) returns (r: RegisterResult)
      requires Valid()
      modifies this
      ensures Valid() && SameObjects(old(state), state)
      ensures r == if app.ID() in old(state) then AlreadyRegistered else if app.specHash == None then NoHash
        else Registered
      ensures r == Registered ==> app.ID() in state && fresh(state[app.ID()])
      ensures r == Registered ==>
        View() == old(View())[app.ID() := Entry(app.specHash.value, 0)]
        && history == old(history) + [Register(app.ID(), app.specHash.value)]
      ensures r != Registered ==> state == old(state) && View() == old(View()) && history == old(history)
    {
      if app.ID() in state {
        return AlreadyRegistered;
      }
      if app.specHash == None {
        return NoHash;
      }
      var s := new AppBundleState(app.specHash.value);
      state := state[app.ID() := s];
      history := history + [Register(app.ID(), app.specHash.value)];
      ReplayOne(old(history), Register(app.ID(), app.specHash.value));
      assert View() == old(View())[app.ID() := Entry(app.specHash.value, 0)];
      return Registered;
    }

    method UpdateState(app: App, now: int) returns (error: Option<CacheError>)
      requires Valid()
      modifies this, state.Values
      ensures Valid() && state == old(state)
      ensures error == if app.ID() !in state then Some(StateNotRegistered)
                       else if app.specHash == None then Some(HashFailed) else None
      ensures error == None ==>
        View() == old(View())[app.ID() := Entry(app.specHash.value, now)]
        && history == old(history) + [Update(app.ID(), app.specHash.value, now)]
      ensures error != None ==> View() == old(View()) && history == old(history)
    {
      if app.ID() !in state {
        return Some(StateNotRegistered);
      }
      if app.specHash == None {
        return Some(HashFailed);
      }
      var val := state[app.ID()];
      val.specHash := app.specHash.value;
      val.lastReconciliation := now;
      state := state[app.ID() := val];
      history := history + [Update(app.ID(), app.specHash.value, now)];
      ReplayOne(old(history), Update(app.ID(), app.specHash.value, now));
      assert state == old(state);
      assert View() == old(View())[app.ID() := Entry(app.specHash.value, now)];
      return None;
    }

    /** The object itself, not a copy: whoever gets it shares it with the cache. */
    method GetState(app: App) returns (r: Option<AppBundleState>)
      ensures r == if app.ID() in state then Some(state[app.ID()]) else None
    {
      if app.ID() !in state {
        return None;
      }
      return Some(state[app.ID()]);
    }

    method StateNeedsUpdating(app: App, alreadyRegistered: bool, now: int) returns (r: Result<bool, CacheError>)
      requires Valid()
      ensures !alreadyRegistered ==> r == Ok(true)
      ensures alreadyRegistered && app.ID() !in Replay(history) ==> r == Failure(StateNotRegistered)
      ensures alreadyRegistered && app.ID() in Replay(history) ==>
        r == if app.specHash == None then Failure(HashFailed)
             else Ok(NeedsUpdating(Replay(history)[app.ID()], app.specHash.value, app.lastReconciliation != None, now))
    {
      if !alreadyRegistered {
        return Ok(true);
      }
      var s := GetState(app);
      if s == None {
        return Failure(StateNotRegistered);
      }
      if app.specHash == None {
        return Failure(HashFailed);
      }
      var anyRecon := app.lastReconciliation != None;
      assert View()[app.ID()] == Entry(s.value.specHash, s.value.lastReconciliation);
      if s.value.specHash != app.specHash.value || !anyRecon || Unix(now) - Unix(s.value.lastReconciliation) > 30 {
        return Ok(true);
      }
      return Ok(false);
    }

    /** The write the base controller does through the object it got. */
    method ResetHash(id: string, stateAb: AppBundleState)
      requires Valid() && id in state && state[id] == stateAb
      modifies stateAb, this`history
      ensures Valid() && state == old(state)
      ensures View() == old(View())[id := Entry("", old(View())[id].last)]
      ensures history == old(history) + [Invalidate(id)]
    {
      stateAb.specHash := "";
      history := history + [Invalidate(id)];
      ReplayOne(old(history), Invalidate(id));
      assert View() == old(View())[id := Entry("", old(View())[id].last)];
    }
  }
}
