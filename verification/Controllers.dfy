/** What both controllers do before their real work: take the object's mutex and ask the cache. */
module Controllers {
  import opened Options
  import opened LockScripts
  import opened StateCache

  datatype Decision = Fails | Skips | Proceeds

  /** The answer in terms of what the cache held when the reconcile began. */
  function Decide(v: map<string, Entry>, app: App, now: int): Decision {
    if app.specHash == None then Fails
    else if app.ID() !in v || NeedsUpdating(v[app.ID()], app.specHash.value, app.lastReconciliation != None, now)
      then Proceeds
    else Skips
  }

  /** kind is BASE or BUNDLE; found tells whether the object could be read. */
  method BeginReconcile(cache: Cache, kind: string, app: App, found: bool, now: int)
    returns (decision: Decision, progress: Progress, acts: seq<LockAct>)
    requires cache.Valid()
    modifies cache
    ensures cache.Valid() && SameObjects(old(cache.state), cache.state)
    ensures decision == if found then Decide(old(cache.View()), app, now) else Fails
    ensures decision != Fails ==> app.ID() in cache.state
    ensures forall id :: id in old(cache.View()) ==> id in cache.View() && cache.View()[id] == old(cache.View())[id]
    ensures acts == TakeNamed(Of(kind, app.name, app.namespace)) + CacheCalls(progress)
    ensures GoesOn(progress) <==> decision == Proceeds
  {
    acts := TakeNamed(Of(kind, app.name, app.namespace));
    if !found {
      return Fails, NoObject, acts;
    }
    var registered := cache.RegisterStateIfNotAlreadyRegistered(app);
    acts := acts + CACHE_CALL;
    if registered == RegisterResult.NoHash {
      return Fails, Progress.NoHash, acts;
    }
    var alreadyRegistered := registered == AlreadyRegistered;
    assert alreadyRegistered ==> app.ID() in cache.View();
    var needed := cache.StateNeedsUpdating(app, alreadyRegistered, now);
    if !alreadyRegistered {
      return Proceeds, FirstSeen(true), acts;
    }
    acts := acts + CACHE_CALL;
    if needed.Failure? {
      return Fails, Known(false), acts;
    }
    return if needed.value then Proceeds else Skips, Known(needed.value), acts;
  }
}
