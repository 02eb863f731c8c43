/**
 equality.Semantic.DeepDerivative as a one-way relation on value trees.

 An unset string, pointer, slice or map on the left is ignored; a slice on the
 left must be a prefix, element by element, of the slice on the right; a map on
 the left must be a sub-map; structs are compared field by field and everything
 else (numbers, booleans) must be equal.  The reconcilers stop writing when
 "expected derives from actual" holds, so this relation, not equality, is the
 fixed point of the controller.
 */
module DeepDerivative {
  import opened Options

  datatype Value =
    | Str(s: string)
    | Num(n: int)
    | Flag(b: bool)
    | Ptr(target: Option<Value>)
    | Slice(elems: seq<Value>)
    | Map(entries: map<string, Value>)
    | Struct(fields: seq<Value>)

  predicate Derives(expected: Value, actual: Value)
    decreases expected
  {
    match expected
    case Str(s) => actual.Str? && (s == "" || s == actual.s)
    case Num(_) => expected == actual
    case Flag(_) => expected == actual
    case Ptr(None) => actual.Ptr?
    case Ptr(Some(v)) => actual.Ptr? && actual.target.Some? && Derives(v, actual.target.value)
    case Slice(es) =>
      && actual.Slice?
      && |es| <= |actual.elems|
      && forall i :: 0 <= i < |es| ==> Derives(es[i], actual.elems[i])
    case Map(m) =>
      && actual.Map?
      && forall k :: k in m ==> k in actual.entries && Derives(m[k], actual.entries[k])
    case Struct(fs) =>
      && actual.Struct?
      && |fs| == |actual.fields|
      && forall i :: 0 <= i < |fs| ==> Derives(fs[i], actual.fields[i])
  }

  lemma {:induction false} DerivesReflexive(v: Value)
    ensures Derives(v, v)
    decreases v
  {
    match v
    case Ptr(Some(t)) => DerivesReflexive(t);
    case Slice(es) => forall i | 0 <= i < |es| ensures Derives(es[i], es[i]) { DerivesReflexive(es[i]); }
    case Map(m) => forall k | k in m ensures Derives(m[k], m[k]) { DerivesReflexive(m[k]); }
    case Struct(fs) => forall i | 0 <= i < |fs| ensures Derives(fs[i], fs[i]) { DerivesReflexive(fs[i]); }
    case _ =>
  }

  /**
   Transitivity is what makes a label-only update safe: it sends back the spec
   that was read, and whatever the server stores for it still derives from what
   the controller expected.
   */
  lemma {:induction false} DerivesTransitive(a: Value, b: Value, c: Value)
    requires Derives(a, b) && Derives(b, c)
    ensures Derives(a, c)
    decreases a
  {
    match a
    case Ptr(Some(v)) => DerivesTransitive(v, b.target.value, c.target.value);
    case Slice(es) =>
      forall i | 0 <= i < |es| ensures Derives(es[i], c.elems[i]) {
        DerivesTransitive(es[i], b.elems[i], c.elems[i]);
      }
    case Map(m) =>
      forall k | k in m ensures k in c.entries && Derives(m[k], c.entries[k]) {
        DerivesTransitive(m[k], b.entries[k], c.entries[k]);
      }
    case Struct(fs) =>
      forall i | 0 <= i < |fs| ensures Derives(fs[i], c.fields[i]) {
        DerivesTransitive(fs[i], b.fields[i], c.fields[i]);
      }
    case _ =>
  }

  /** A map of strings as a value, the shape of labels and ConfigMap data. */
  function StringMap(m: map<string, string>): Value {
    Map(map k | k in m :: Str(m[k]))
  }

  /** The shape of GetGeneratedServiceSpecData and of a Deployment's selector: one field of a struct. */
  function Field(v: Value, i: nat): Value {
    if v.Struct? && i < |v.fields| then v.fields[i] else Ptr(None)
  }

  /** Derivation both ways is equality, so Derives is a partial order. */
  lemma {:induction false} DerivesAntisymmetric(a: Value, b: Value)
    requires Derives(a, b) && Derives(b, a)
    ensures a == b
    decreases a
  {
    match a
    case Ptr(Some(v)) => DerivesAntisymmetric(v, b.target.value);
    case Slice(es) =>
      forall i | 0 <= i < |es| ensures es[i] == b.elems[i] { DerivesAntisymmetric(es[i], b.elems[i]); }
    case Map(m) =>
      assert m.Keys == b.entries.Keys;
      forall k | k in m ensures m[k] == b.entries[k] { DerivesAntisymmetric(m[k], b.entries[k]); }
    case Struct(fs) =>
      forall i | 0 <= i < |fs| ensures fs[i] == b.fields[i] { DerivesAntisymmetric(fs[i], b.fields[i]); }
    case _ =>
  }

  /** Child i of a struct or slice, or what a pointer points to. */
  function Child(v: Value, i: nat): Value {
    match v
    case Struct(fs) => if i < |fs| then fs[i] else v
    case Slice(es) => if i < |es| then es[i] else v
    case Ptr(Some(t)) => t
    case _ => v
  }

  lemma DerivesChild(a: Value, b: Value, i: nat)
    requires Derives(a, b)
    requires (a.Struct? && i < |a.fields|) || (a.Slice? && i < |a.elems|) || (a.Ptr? && a.target.Some?)
    ensures Derives(Child(a, i), Child(b, i))
  {
  }
}
