/** The registry of named mutexes. */
module MutexRegistry {
  import opened Bundle

  class MutexObject {
    constructor () {}
  }

  type Table = map<string, map<string, MutexObject>>

  function FullName(name: string, namespace: string): string {
    Dashed(name, namespace)
  }

  /** Exactly when two objects share one. */
  lemma FullNameEqualIff(n1: string, ns1: string, n2: string, ns2: string)
    ensures FullName(n1, ns1) == FullName(n2, ns2)
       <==> (n1 == n2 && ns1 == ns2) || Shifted(n1, ns1, n2, ns2) || Shifted(n2, ns2, n1, ns1)
  {
    DashedEqualIff(n1, ns1, n2, ns2);
  }

  /** Different objects can share a full name. */
  lemma FullNameIsNotInjective()
    ensures FullName("web", "prod-eu") == FullName("web-prod", "eu")
  {
    assert FullName("web", "prod-eu") == "web-prod-eu" == FullName("web-prod", "eu");
  }

  /** Within one namespace it tells names apart. */
  lemma FullNameWithinNamespace(a: string, b: string, namespace: string)
    ensures FullName(a, namespace) == FullName(b, namespace) <==> a == b
  {
    if FullName(a, namespace) == FullName(b, namespace) {
      assert |a| == |b|;
      assert FullName(a, namespace)[..|a|] == a && FullName(b, namespace)[..|b|] == b;
    }
  }

  predicate Known(m: Table, resource: string, full: string) {
    resource in m && full in m[resource]
  }

  ghost predicate DistinctMutexes(m: Table) {
    forall r1, f1, r2, f2 :: Known(m, r1, f1) && Known(m, r2, f2) && m[r1][f1] == m[r2][f2] ==> r1 == r2 && f1 == f2
  }

  ghost predicate Extends(before: Table, after: Table) {
    forall r, f :: Known(before, r, f) ==> Known(after, r, f) && after[r][f] == before[r][f]
  }

  datatype MutexCall = MutexCall(resource: string, name: string, namespace: string, result: MutexObject)

  /** One call of getMutex, as its contract has it. */
  ghost predicate CallStep(before: Table, call: MutexCall, after: Table) {
    var full := FullName(call.name, call.namespace);
    && DistinctMutexes(after) && Extends(before, after)
    && Known(after, call.resource, full) && after[call.resource][full] == call.result
  }

  /** A run of calls: call k leads from table k to table k + 1. */
  ghost predicate CallRun(tables: seq<Table>, calls: seq<MutexCall>) {
    |tables| == |calls| + 1 && forall k :: 0 <= k < |calls| ==> CallStep(tables[k], calls[k], tables[k + 1])
  }

  lemma {:induction false} RunExtends(tables: seq<Table>, calls: seq<MutexCall>, i: nat, j: nat)
    requires CallRun(tables, calls) && i <= j < |tables|
    ensures Extends(tables[i], tables[j])
    decreases j
  {
    if i < j {
      RunExtends(tables, calls, i, j - 1);
      assert CallStep(tables[j - 1], calls[j - 1], tables[j]);
    }
  }

  /** In every run two calls return the same mutex exactly when type and full name are equal. */
  lemma SameMutexIff(tables: seq<Table>, calls: seq<MutexCall>, i: nat, j: nat)
    requires CallRun(tables, calls) && i <= j < |calls|
    ensures calls[i].result == calls[j].result
       <==> calls[i].resource == calls[j].resource
            && FullName(calls[i].name, calls[i].namespace) == FullName(calls[j].name, calls[j].namespace)
  {
    assert CallStep(tables[i], calls[i], tables[i + 1]) && CallStep(tables[j], calls[j], tables[j + 1]);
    RunExtends(tables, calls, i + 1, j + 1);
    assert Known(tables[j + 1], calls[i].resource, FullName(calls[i].name, calls[i].namespace));
  }

  /** Entering a mutex that nobody has yet. */
  lemma AddedDistinct(
    start: Table, before: Table, after: Table, resource: string, full: string, mu: MutexObject)
    requires DistinctMutexes(start) && (before == start || (resource !in start && before == start[resource := map[]]))
    requires resource in before && full !in before[resource]
    requires after == before[resource := before[resource][full := mu]]
    requires forall r, f :: Known(start, r, f) ==> start[r][f] != mu
    ensures DistinctMutexes(after) && Extends(start, after)
    ensures forall r, f :: Known(after, r, f) ==> Known(start, r, f) || (r == resource && f == full)
  {
    forall r, f | Known(after, r, f) && !(r == resource && f == full)
      ensures Known(start, r, f) && after[r][f] == start[r][f]
    {
    }
  }

  class ResourceMutexes {
    var m: Table

    ghost predicate Valid()
      reads this
    {
      DistinctMutexes(m)
    }

    constructor ()
      ensures Valid() && m == map[]
    {
      m := map[];
    }

    method GetMutex(resource: string, name: string, namespace: string) returns (mu: MutexObject)
      requires Valid()
      modifies this
      ensures Valid() && CallStep(old(m), MutexCall(resource, name, namespace, mu), m)
      ensures Known(m, resource, FullName(name, namespace)) && m[resource][FullName(name, namespace)] == mu
      ensures if Known(old(m), resource, FullName(name, namespace)) then m == old(m) else fresh(mu)
      ensures forall r, f :: Known(m, r, f) ==> Known(old(m), r, f) || (r == resource && f == FullName(name, namespace))
    {
      var fullName := FullName(name, namespace);
      if resource !in m {
        m := m[resource := map[]];
      }
      if fullName in m[resource] {
        return m[resource][fullName];
      }
      ghost var before := m;
      mu := new MutexObject();
      m := m[resource := m[resource][fullName := mu]];
      AddedDistinct(old(m), before, m, resource, fullName, mu);
    }
  }
}
