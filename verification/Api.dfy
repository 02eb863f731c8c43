/**
 The API server, its atomic calls, and programs that make such calls.

 A reconciler is a program: it ends with an error or nil, or makes one call and
 goes on with the response.  Interleavings of several programs are interleavings
 of their calls.
 */
module Api {
  import opened Options
  import opened KeyOrder
  import opened Bundle
  import opened DeepDerivative
  import opened DeploymentEncoding

  datatype Kind = ClaimKind | ServiceKind | DeploymentKind | IngressKind | ConfigMapKind | ExternalSecretKind | PodKind

  datatype Key = Key(kind: Kind, namespace: string, name: string)

  datatype Obj = Obj(labels: map<string, string>, spec: Value)

  type Cluster = map<Key, Obj>

  /** The error classes the controller tells apart. */
  datatype ApiError = NotFound | SelectorImmutable | Failed

  datatype Request =
    | Get(key: Key)
    | Create(key: Key, obj: Obj)
    | Update(key: Key, obj: Obj)
    | Delete(key: Key)
    | List(kind: Kind, namespace: Option<string>, bundle: string)

  datatype Response = Found(obj: Obj) | Listed(keys: seq<Key>) | Done | Err(error: ApiError)

  // ----- The server -----

  /** The server may default fields of what it is sent; labels it keeps as they are. */
  predicate Admits(sent: Obj, stored: Obj) {
    sent.labels == stored.labels && Derives(sent.spec, stored.spec)
  }

  /** A Deployment's selector cannot be changed by an update. */
  predicate Rejects(kind: Kind, current: Obj, sent: Obj) {
    kind == DeploymentKind && Field(current.spec, SELECTOR_FIELD) != Field(sent.spec, SELECTOR_FIELD)
  }

  predicate HasBundleLabel(obj: Obj, bundle: string) {
    APP_BUNDLE_SELECTOR in obj.labels && obj.labels[APP_BUNDLE_SELECTOR] == bundle
  }

  function Matching(c: Cluster, kind: Kind, namespace: Option<string>, bundle: string): set<Key> {
    set k | k in c && k.kind == kind && (namespace == None || k.namespace == namespace.value)
      && HasBundleLabel(c[k], bundle)
  }

  predicate Stores(c: Cluster, key: Key, sent: Obj, after: Cluster) {
    key in after && Admits(sent, after[key]) && after == c[key := after[key]]
  }

  predicate Answers(c: Cluster, req: Request, resp: Response, after: Cluster) {
    match req
    case Get(key) => after == c && resp == if key in c then Found(c[key]) else Err(NotFound)
    case Create(key, obj) =>
      if key in c then after == c && resp == Err(Failed) else resp == Done && Stores(c, key, obj, after)
    case Update(key, obj) =>
      if key !in c then after == c && resp == Err(NotFound)
      else if Rejects(key.kind, c[key], obj) then after == c && resp == Err(SelectorImmutable)
      else resp == Done && Stores(c, key, obj, after)
    case Delete(key) =>
      if key in c then after == c - {key} && resp == Done else after == c && resp == Err(NotFound)
    case List(kind, namespace, bundle) =>
      after == c && resp.Listed? && Enumerates(resp.keys, Matching(c, kind, namespace, bundle))
  }

  /**
   How far the server can be trusted: always; except that any call may come back
   cancelled, as after a sibling's error; or not at all.
   */
  datatype Mode = Truthful | Cancelling | Faulty

  predicate MayFail(mode: Mode, resp: Response) {
    resp.Err? && (mode.Faulty? || (mode.Cancelling? && resp.error == Failed))
  }

  /** A call that may fail does so with the error of its mode; it has done nothing, or it has taken
      effect and its reply is lost. */
  predicate Serves(c: Cluster, req: Request, resp: Response, after: Cluster, mode: Mode) {
    || Answers(c, req, resp, after)
    || (MayFail(mode, resp) && (after == c || Answers(c, req, Done, after)))
  }

  // ----- Programs -----

  datatype Prog = Ret(err: Option<ApiError>) | Call(req: Request, k: Response -> Prog)

  datatype Event = Event(resp: Response, after: Cluster)

  /** The calls of p answered by trace, alone on the server, lead to the program q. */
  ghost predicate Reaches(p: Prog, c: Cluster, mode: Mode, trace: seq<Event>, q: Prog, after: Cluster)
    decreases |trace|
  {
    if trace == [] then p == q && c == after
    else
      && p.Call?
      && Serves(c, p.req, trace[0].resp, trace[0].after, mode)
      && Reaches(p.k(trace[0].resp), trace[0].after, mode, trace[1..], q, after)
  }

  /** A complete run of p alone on the server. */
  ghost predicate Runs(p: Prog, c: Cluster, mode: Mode, trace: seq<Event>, after: Cluster, err: Option<ApiError>) {
    Reaches(p, c, mode, trace, Ret(err), after)
  }

  /** The key a call may write. */
  function WrittenKey(req: Request): Option<Key> {
    match req
    case Create(key, _) => Some(key)
    case Update(key, _) => Some(key)
    case Delete(key) => Some(key)
    case _ => None
  }

  datatype Scope = Everywhere | At(key: Key)

  predicate Writes(req: Request, scope: Scope) {
    WrittenKey(req).Some? && (scope.Everywhere? || WrittenKey(req).value == scope.key)
  }

  /** No call that p makes when it is answered by trace is a Create, Update or Delete within scope. */
  ghost predicate Spares(p: Prog, trace: seq<Event>, scope: Scope)
    decreases |trace|
  {
    trace == [] || (p.Call? && !Writes(p.req, scope) && Spares(p.k(trace[0].resp), trace[1..], scope))
  }

  /** What p does before it has become q, with rest of the trace left, writes at most key. */
  ghost predicate SparesBut(p: Prog, trace: seq<Event>, q: Prog, rest: seq<Event>, key: Key) {
    forall scope :: Spares(q, rest, scope) && !Writes(Delete(key), scope) ==> Spares(p, trace, scope)
  }

  /** It writes nothing. */
  ghost predicate SparesAll(p: Prog, trace: seq<Event>, q: Prog, rest: seq<Event>) {
    forall scope :: Spares(q, rest, scope) ==> Spares(p, trace, scope)
  }

  lemma {:induction false} ReachesSnoc(
    p: Prog, c: Cluster, mode: Mode, trace: seq<Event>, q: Prog, mid: Cluster, resp: Response, after: Cluster)
    requires Reaches(p, c, mode, trace, q, mid)
    requires q.Call? && Serves(mid, q.req, resp, after, mode)
    ensures Reaches(p, c, mode, trace + [Event(resp, after)], q.k(resp), after)
    decreases |trace|
  {
    var longer := trace + [Event(resp, after)];
    if trace == [] {
      assert longer[1..] == [];
    } else {
      ReachesSnoc(p.k(trace[0].resp), trace[0].after, mode, trace[1..], q, mid, resp, after);
      assert longer[1..] == trace[1..] + [Event(resp, after)];
    }
  }

  /** The first call of a run. */
  lemma FirstCall(p: Prog, c: Cluster, mode: Mode, trace: seq<Event>, after: Cluster, err: Option<ApiError>)
    returns (resp: Response, mid: Cluster, rest: seq<Event>)
    requires Runs(p, c, mode, trace, after, err) && p.Call?
    ensures Serves(c, p.req, resp, mid, mode)
    ensures Runs(p.k(resp), mid, mode, rest, after, err)
    ensures |rest| < |trace|
    ensures forall scope :: Spares(p, trace, scope) <==> !Writes(p.req, scope) && Spares(p.k(resp), rest, scope)
  {
    resp, mid, rest := trace[0].resp, trace[0].after, trace[1..];
  }

  lemma RunCons(
    p: Prog, c: Cluster, mode: Mode, resp: Response, mid: Cluster, rest: seq<Event>, after: Cluster,
    err: Option<ApiError>)
    returns (trace: seq<Event>)
    requires p.Call? && Serves(c, p.req, resp, mid, mode) && Runs(p.k(resp), mid, mode, rest, after, err)
    ensures Runs(p, c, mode, trace, after, err)
  {
    trace := [Event(resp, mid)] + rest;
    assert trace[1..] == rest;
  }

  lemma ReturnedRun(
    err: Option<ApiError>, c: Cluster, mode: Mode, trace: seq<Event>, after: Cluster, e: Option<ApiError>)
    requires Runs(Ret(err), c, mode, trace, after, e)
    ensures after == c && e == err && trace == []
    ensures forall scope :: Spares(Ret(err), trace, scope)
  {
  }
}
