/**
 Go slices with their backing arrays.

 append writes into the backing array when there is spare capacity and copies
 to a new one otherwise, so two slices grown from the same prefix may share the
 slot after it.  How much a full slice grows is left to the runtime: grow maps
 the old capacity to the new one and is only known to make room.
 */
module GoSlices {

  /** A slice header.  A nil slice has an empty backing array. */
  datatype GoSlice<!T> = GoSlice(backing: array<T>, len: nat)

  ghost predicate WellFormed<T>(s: GoSlice<T>) {
    s.len <= s.backing.Length
  }

  ghost function Contents<T>(s: GoSlice<T>): seq<T>
    requires WellFormed(s)
    reads s.backing
  {
    s.backing[..s.len]
  }

  ghost predicate Grows(grow: nat -> nat) {
    forall c: nat :: grow(c) > c
  }

  method Append<T>(s: GoSlice<T>, x: T, grow: nat -> nat) returns (r: GoSlice<T>)
    requires WellFormed(s) && Grows(grow)
    modifies s.backing
    ensures WellFormed(r) && Contents(r) == old(Contents(s)) + [x]
    ensures s.len < s.backing.Length ==>
      r == GoSlice(s.backing, s.len + 1) && s.backing[..] == old(s.backing[..])[s.len := x]
    ensures s.len == s.backing.Length ==>
      && r.len == s.len + 1 && fresh(r.backing) && r.backing.Length == grow(s.backing.Length)
      && s.backing[..] == old(s.backing[..])
  {
    if s.len < s.backing.Length {
      s.backing[s.len] := x;
      return GoSlice(s.backing, s.len + 1);
    }
    var capacity := grow(s.backing.Length);
    var backing := new T[capacity](_ => x);
    for i := 0 to s.len
      invariant backing[..i] == s.backing[..i]
      invariant s.backing[..] == old(s.backing[..])
      invariant forall j :: i <= j < capacity ==> backing[j] == x
    {
      backing[i] := s.backing[i];
    }
    assert backing[..s.len + 1] == backing[..s.len] + [x];
    return GoSlice(backing, s.len + 1);
  }

  /** The capacity of a slice grown from nil by n appends. */
  function Capacity(n: nat, grow: nat -> nat): nat {
    if n == 0 then 0
    else
      var c := Capacity(n - 1, grow);
      if n - 1 < c then c else grow(c)
  }
}
