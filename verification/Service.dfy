/**
 CreateExpectedService.  Fields the API server generates cannot be expected, so
 they are read from the current Service and merged into the expected one before
 the two are compared.
 */
module ServiceCompiler {
  import opened Options
  import opened KeyLoops
  import opened Bundle
  import opened BaseInheritance
  import opened DeepDerivative
  import opened DeploymentCompiler

  datatype ServicePort = ServicePort(name: string, port: int, targetPort: int, protocol: string)

  datatype GeneratedServiceSpecData = GeneratedServiceSpecData(
    clusterIP: Value,
    clusterIPs: Value,
    sessionAffinity: Value,
    ipFamilies: Value,
    ipFamilyPolicy: Value,
    internalTrafficPolicy: Value)

  /** Field order: ports, type, selector, then the six generated fields. */
  function GetGeneratedServiceSpecData(spec: Value): GeneratedServiceSpecData {
    GeneratedServiceSpecData(
      Field(spec, 3), Field(spec, 4), Field(spec, 5), Field(spec, 6), Field(spec, 7), Field(spec, 8))
  }

  function ServicePortOf(key: string, route: Route): ServicePort {
    var port := if route.port.Some? then ToInt32(route.port.value) else 0;
    ServicePort(key, port,
      if route.targetPort.Some? then ToInt32(route.targetPort.value) else port,
      if route.protocol.Some? then route.protocol.value else "TCP")
  }

  ghost function ServicePorts(ab: AppBundle): seq<ServicePort> {
    MapSorted(Entries(ab.spec.routes), ServicePortOf)
  }

  function EncodePort(p: ServicePort): Value {
    Struct([Str(p.name), Str(p.protocol), Num(p.port), Num(p.targetPort)])
  }

  function EncodePorts(ports: seq<ServicePort>): Value {
    Slice(seq(|ports|, i requires 0 <= i < |ports| => EncodePort(ports[i])))
  }

  /** MergeIntoServiceSpec on top of the fields the bundle decides. */
  function ServiceSpec(
    ports: seq<ServicePort>, serviceType: string, selector: map<string, string>, data: GeneratedServiceSpecData): Value
  {
    Struct([
      EncodePorts(ports), Str(serviceType), StringMap(selector),
      data.clusterIP, data.clusterIPs, data.sessionAffinity,
      data.ipFamilies, data.ipFamilyPolicy, data.internalTrafficPolicy])
  }

  function ServiceTypeOf(ab: AppBundle): string {
    if ab.spec.serviceType.Some? then ab.spec.serviceType.value else "ClusterIP"
  }

  ghost function ExpectedServiceSpec(ab: AppBundle, data: GeneratedServiceSpecData): Value {
    ServiceSpec(ServicePorts(ab), ServiceTypeOf(ab), MatchLabels(ab), data)
  }

  /** The one write the compilers make to the shared bundle's spec. */
  function WithServiceType(ab: AppBundle): AppBundle {
    ab.(spec := ab.spec.(serviceType := Some(ServiceTypeOf(ab))))
  }

  method CreateExpectedService(ab: ResolvableBundle, data: GeneratedServiceSpecData)
    returns (labels: map<string, string>, spec: Value)
    requires forall k :: k in Entries(ab.bundle.spec.routes) ==> Entries(ab.bundle.spec.routes)[k].port.Some?
    modifies ab
    ensures ab.bundle == WithServiceType(old(ab.bundle))
    ensures labels == DefaultLabels(old(ab.bundle))
    ensures spec == ExpectedServiceSpec(old(ab.bundle), data)
  {
    var ports := AppendPerKey(Entries(ab.bundle.spec.routes), ServicePortOf);
    if ab.bundle.spec.serviceType == None {
      ab.bundle := ab.bundle.(spec := ab.bundle.spec.(serviceType := Some("ClusterIP")));
    }
    labels := SetDefaultAppBundleLabels(ab.bundle, map[]);
    assert map[] + DefaultLabels(ab.bundle) == DefaultLabels(ab.bundle);
    spec := ServiceSpec(ports, ab.bundle.spec.serviceType.value, MatchLabels(ab.bundle), data);
  }

  const ZERO_SERVICE := Struct([
    Slice([]), Str(""), Map(map[]), Str(""), Slice([]), Str(""), Slice([]), Ptr(None), Ptr(None)])

  /**
   The fixed point: once what was sent derives from what the server stored, the
   spec expected on the next pass, with the generated fields of the stored one
   merged in, derives from it too.
   */
  lemma StoredServiceIsFixedPoint(ab: AppBundle, sent: GeneratedServiceSpecData, stored: Value)
    requires Derives(ExpectedServiceSpec(ab, sent), stored)
    ensures Derives(ExpectedServiceSpec(ab, GetGeneratedServiceSpecData(stored)), stored)
  {
    var before := ExpectedServiceSpec(ab, sent);
    var after := ExpectedServiceSpec(ab, GetGeneratedServiceSpecData(stored));
    assert |stored.fields| == 9;
    forall i | 0 <= i < 9 ensures Derives(after.fields[i], stored.fields[i]) {
      if i < 3 {
        assert after.fields[i] == before.fields[i];
      } else {
        assert after.fields[i] == stored.fields[i];
        DerivesReflexive(stored.fields[i]);
      }
    }
  }

  /** A Service that is not there never looks up to date. */
  lemma NoServiceNeverMatches(ab: AppBundle)
    ensures !Derives(ExpectedServiceSpec(ab, GetGeneratedServiceSpecData(ZERO_SERVICE)), ZERO_SERVICE)
  {
    var spec := ExpectedServiceSpec(ab, GetGeneratedServiceSpecData(ZERO_SERVICE));
    assert APP_BUNDLE_SELECTOR in spec.fields[2].entries;
    assert !Derives(spec.fields[2], ZERO_SERVICE.fields[2]);
  }
}
