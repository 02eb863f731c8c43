/** CreateExpectedIngress and the names of the ingresses a bundle wants. */
module IngressCompiler {
  import opened Options
  import opened KeyOrder
  import opened KeyLoops
  import opened Bundle
  import opened DeepDerivative
  import opened DeploymentCompiler
  import opened ServiceCompiler

  datatype Ingress = Ingress(host: string, serviceName: string, servicePort: int, tlsHost: string, tlsSecret: string)

  predicate WantsIngress(r: Route) {
    r.ingress.Some?
  }

  /** The pointers CreateExpectedIngress follows without a nil test. */
  predicate IngressDereferenceable(r: Route) {
    r.ingress.Some? ==> r.port.Some? && r.ingress.value.domain.Some? && r.ingress.value.auth.Some?
  }

  function IngressName(ab: AppBundle, key: string): string {
    Dashed(ab.name, key)
  }

  lemma IngressNameInjective(ab: AppBundle, j: string, k: string)
    requires IngressName(ab, j) == IngressName(ab, k)
    ensures j == k
  {
    assert IngressName(ab, j)[|ab.name| + 1..] == j && IngressName(ab, k)[|ab.name| + 1..] == k;
  }

  function ExpectedIngress(ab: AppBundle, name: string, route: Route): Ingress
    requires WantsIngress(route) && IngressDereferenceable(route)
  {
    var domain := route.ingress.value.domain.value;
    Ingress(domain, ab.name, ToInt32(route.port.value), domain, name + "-" + ab.namespace + "-ingress-tls")
  }

  function EncodeIngress(i: Ingress): Value {
    var backend := Struct([Ptr(Some(Struct([Str(i.serviceName), Struct([Str(""), Num(i.servicePort)])]))), Ptr(None)]);
    var path := Struct([Str("/"), Ptr(Some(Str("Prefix"))), backend]);
    Struct([
      Slice([Struct([Str(i.host), Ptr(Some(Struct([Slice([path])])))])]),
      Slice([Struct([Slice([Str(i.tlsHost)]), Str(i.tlsSecret)])])])
  }

  const ZERO_INGRESS := Struct([Slice([]), Slice([])])

  /** An ingress that is not there never looks up to date. */
  lemma NoIngressNeverMatches(i: Ingress)
    ensures !Derives(EncodeIngress(i), ZERO_INGRESS)
  {
    assert !Derives(EncodeIngress(i).fields[0], ZERO_INGRESS.fields[0]);
  }

  /** The keys that want an ingress, in the order of keys. */
  function IngressKeys(routes: map<string, Route>, keys: seq<string>): (r: seq<string>)
    requires forall k :: k in keys ==> k in routes
    ensures forall k :: k in r <==> k in keys && WantsIngress(routes[k])
  {
    if keys == [] then []
    else if WantsIngress(routes[keys[0]]) then [keys[0]] + IngressKeys(routes, keys[1..])
    else IngressKeys(routes, keys[1..])
  }

  ghost function WantedKeys(ab: AppBundle): (r: seq<string>)
    ensures forall k :: k in r <==> k in Entries(ab.spec.routes) && Entries(ab.spec.routes)[k].ingress.Some?
  {
    IngressKeys(Entries(ab.spec.routes), SortedKeys(Entries(ab.spec.routes).Keys))
  }

  function NamesOf(ab: AppBundle, keys: seq<string>): (names: seq<string>)
    ensures |names| == |keys|
  {
    seq(|keys|, i requires 0 <= i < |keys| => IngressName(ab, keys[i]))
  }

  lemma NamesOfSnoc(ab: AppBundle, keys: seq<string>, key: string)
    ensures NamesOf(ab, keys + [key]) == NamesOf(ab, keys) + [IngressName(ab, key)]
  {
  }

  /** The loop that collects the expected names. */
  method CollectIngressKeys(ab: AppBundle) returns (keys: seq<string>, names: seq<string>)
    ensures keys == WantedKeys(ab) && names == NamesOf(ab, keys)
  {
    var routes := Entries(ab.spec.routes);
    var sorted := GetSortedKeys(routes);
    keys, names := [], [];
    assert sorted[0..] == sorted;
    for i := 0 to |sorted|
      invariant forall k :: k in sorted[i..] ==> k in routes.Keys
      invariant keys + IngressKeys(routes, sorted[i..]) == WantedKeys(ab)
      invariant names == NamesOf(ab, keys)
    {
      assert sorted[i] in routes.Keys;
      assert sorted[i..][1..] == sorted[i + 1..];
      if WantsIngress(routes[sorted[i]]) {
        assert keys + ([sorted[i]] + IngressKeys(routes, sorted[i + 1..]))
            == (keys + [sorted[i]]) + IngressKeys(routes, sorted[i + 1..]);
        NamesOfSnoc(ab, keys, sorted[i]);
        keys := keys + [sorted[i]];
        names := names + [IngressName(ab, sorted[i])];
      }
    }
  }

  /** Every ingress points at a port of the bundle's own Service: the one of the same route. */
  lemma BackendPortExists(ab: AppBundle, key: string)
    requires key in Entries(ab.spec.routes)
    requires var route := Entries(ab.spec.routes)[key]; WantsIngress(route) && IngressDereferenceable(route)
    ensures var ingress := ExpectedIngress(ab, IngressName(ab, key), Entries(ab.spec.routes)[key]);
      && ingress.serviceName == ab.name
      && exists p :: p in ServicePorts(ab) && p.name == key && p.port == ingress.servicePort
  {
    var port := ServicePortOf(key, Entries(ab.spec.routes)[key]);
    MapSortedAt(Entries(ab.spec.routes), ServicePortOf, port);
  }
}
