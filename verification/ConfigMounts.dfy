/**
 The config loop of CreateExpectedDeployment, with its shared backing arrays.

 Configs are visited in key order.  A config mounted directly is appended to the
 main container's mounts.  A copy-over config instead gets an init container
 whose mounts are "the main mounts so far, plus a temporary one", built by an
 append whose result is not stored back.  When that append finds spare capacity
 it writes the slot that the next append writes again.
 */
module ConfigMounts {
  import opened GoSlices

  datatype VolumeMount = VolumeMount(name: string, mountPath: string, subPath: string, readOnly: bool)

  /** One config as the loop sees it: the mount it appends and where the result goes. */
  datatype Step = Step(key: string, mount: VolumeMount, copyOver: bool)

  datatype Init = Init(key: string, mounts: seq<VolumeMount>)

  /** The main mounts after the first n steps. */
  function MainMounts(base: seq<VolumeMount>, steps: seq<Step>, n: nat): seq<VolumeMount>
    requires n <= |steps|
  {
    if n == 0 then base
    else if steps[n - 1].copyOver then MainMounts(base, steps, n - 1)
    else MainMounts(base, steps, n - 1) + [steps[n - 1].mount]
  }

  /** Did the append of copy-over step i find the main slice full? */
  predicate AtCapacity(base: seq<VolumeMount>, steps: seq<Step>, i: nat, grow: nat -> nat)
    requires i < |steps|
  {
    var len := |MainMounts(base, steps, i)|;
    len == Capacity(len, grow)
  }

  /** No step strictly between i and n is mounted directly: the slot after the main mounts is still open. */
  predicate Open(steps: seq<Step>, i: nat, n: nat)
    requires i < n <= |steps|
  {
    forall j :: i < j < n ==> steps[j].copyOver
  }

  /** The last step before n to write the slot that step i wrote. */
  function Writer(steps: seq<Step>, i: nat, n: nat): (w: nat)
    requires i < n <= |steps|
    ensures i <= w < n
    decreases n
  {
    if n == i + 1 then i
    else if Open(steps, i, n - 1) then n - 1
    else Writer(steps, i, n - 1)
  }

  /** The mounts of step i's init container as they stand after n steps. */
  function InitMounts(base: seq<VolumeMount>, steps: seq<Step>, i: nat, n: nat, grow: nat -> nat): seq<VolumeMount>
    requires i < n <= |steps|
  {
    MainMounts(base, steps, i) +
    [if AtCapacity(base, steps, i, grow) then steps[i].mount else steps[Writer(steps, i, n)].mount]
  }

  /** The steps that make an init container, in order. */
  function CopyOverSteps(steps: seq<Step>, n: nat): (indices: seq<nat>)
    requires n <= |steps|
    ensures forall t :: 0 <= t < |indices| ==> indices[t] < n && steps[indices[t]].copyOver
  {
    if n == 0 then []
    else if steps[n - 1].copyOver then CopyOverSteps(steps, n - 1) + [n - 1]
    else CopyOverSteps(steps, n - 1)
  }

  /** The init containers of the finished pod spec. */
  function Inits(base: seq<VolumeMount>, steps: seq<Step>, grow: nat -> nat): seq<Init> {
    var indices := CopyOverSteps(steps, |steps|);
    seq(|indices|, t requires 0 <= t < |indices| =>
      Init(steps[indices[t]].key, InitMounts(base, steps, indices[t], |steps|, grow)))
  }

  // ----- What the aliasing does -----

  /** Writer is the first directly mounted step after i, or the last step when there is none. */
  lemma {:induction false} WriterIsFirstDirect(steps: seq<Step>, i: nat, n: nat)
    requires i < n <= |steps|
    ensures var w := Writer(steps, i, n);
      && (forall j :: i < j < w ==> steps[j].copyOver)
      && (w < n - 1 ==> w > i && !steps[w].copyOver)
      && (w == i ==> n == i + 1)
    decreases n
  {
    if n > i + 1 {
      WriterIsFirstDirect(steps, i, n - 1);
    }
  }

  ghost predicate DistinctMounts(steps: seq<Step>) {
    forall i, j :: 0 <= i < j < |steps| ==> steps[i].mount != steps[j].mount
  }

  /**
   A copy-over config's init container keeps its own temporary mount exactly when
   the append found the slice full or the config is the last one in key order.
   */
  lemma KeepsOwnMountIff(base: seq<VolumeMount>, steps: seq<Step>, i: nat, grow: nat -> nat)
    requires i < |steps| && steps[i].copyOver && DistinctMounts(steps)
    ensures var mounts := InitMounts(base, steps, i, |steps|, grow);
      && mounts != [] && mounts[..|mounts| - 1] == MainMounts(base, steps, i)
      && (mounts[|mounts| - 1] == steps[i].mount <==> AtCapacity(base, steps, i, grow) || i == |steps| - 1)
  {
    WriterIsFirstDirect(steps, i, |steps|);
  }

  /** Whatever slot is overwritten, every mount is one of the base mounts or one of the steps' mounts. */
  lemma {:induction false} MountsComeFromSteps(base: seq<VolumeMount>, steps: seq<Step>, n: nat, m: VolumeMount)
    requires n <= |steps| && m in MainMounts(base, steps, n)
    ensures m in base || exists j :: 0 <= j < n && !steps[j].copyOver && m == steps[j].mount
  {
    if n > 0 {
      if !steps[n - 1].copyOver && m == steps[n - 1].mount {
      } else {
        MountsComeFromSteps(base, steps, n - 1, m);
      }
    }
  }

  lemma InitMountsComeFromSteps(base: seq<VolumeMount>, steps: seq<Step>, i: nat, grow: nat -> nat, m: VolumeMount)
    requires i < |steps| && m in InitMounts(base, steps, i, |steps|, grow)
    ensures m in base || exists j :: 0 <= j < |steps| && m == steps[j].mount
  {
    if m in MainMounts(base, steps, i) {
      MountsComeFromSteps(base, steps, i, m);
    } else {
      assert m == steps[i].mount || m == steps[Writer(steps, i, |steps|)].mount;
    }
  }

  /** An init container under construction: which step made it and the slice it holds. */
  datatype Pending = Pending(step: nat, slice: GoSlice<VolumeMount>)

  method AppendAll(mounts: seq<VolumeMount>, grow: nat -> nat) returns (s: GoSlice<VolumeMount>)
    requires Grows(grow)
    ensures WellFormed(s) && fresh(s.backing) && Contents(s) == mounts
    ensures s.backing.Length == Capacity(|mounts|, grow)
  {
    var empty := new VolumeMount[0];
    s := GoSlice(empty, 0);
    for i := 0 to |mounts|
      invariant WellFormed(s) && fresh(s.backing) && Contents(s) == mounts[..i]
      invariant s.backing.Length == Capacity(i, grow)
    {
      s := Append(s, mounts[i], grow);
      assert mounts[..i + 1] == mounts[..i] + [mounts[i]];
    }
    assert mounts[..|mounts|] == mounts;
  }

  ghost predicate InitInvariant(
    base: seq<VolumeMount>, steps: seq<Step>, n: nat, grow: nat -> nat, main: GoSlice<VolumeMount>, p: Pending)
    reads p.slice.backing
  {
    && p.step < n <= |steps| && steps[p.step].copyOver
    && WellFormed(p.slice)
    && Contents(p.slice) == InitMounts(base, steps, p.step, n, grow)
    && SharesOpenSlot(p, main) == (!AtCapacity(base, steps, p.step, grow) && Open(steps, p.step, n))
    && (p.slice.backing == main.backing ==> p.slice.len <= main.len + 1)
  }

  /** The init container's last mount is in the slot the next append to main may write. */
  predicate SharesOpenSlot(p: Pending, main: GoSlice<VolumeMount>) {
    p.slice.backing == main.backing && p.slice.len == main.len + 1
  }

  /** One more step rewrites exactly the open slots that are not at capacity. */
  lemma NextStep(base: seq<VolumeMount>, steps: seq<Step>, i: nat, n: nat, grow: nat -> nat)
    requires i < n < |steps|
    ensures Open(steps, i, n + 1) == (Open(steps, i, n) && steps[n].copyOver)
    ensures InitMounts(base, steps, i, n + 1, grow) ==
      if !AtCapacity(base, steps, i, grow) && Open(steps, i, n)
      then MainMounts(base, steps, i) + [steps[n].mount]
      else InitMounts(base, steps, i, n, grow)
  {
  }

  lemma {:induction false} OpenMainUnchanged(base: seq<VolumeMount>, steps: seq<Step>, i: nat, n: nat)
    requires i < n <= |steps| && steps[i].copyOver && Open(steps, i, n)
    ensures MainMounts(base, steps, n) == MainMounts(base, steps, i)
    decreases n
  {
    if n > i + 1 {
      OpenMainUnchanged(base, steps, i, n - 1);
    }
  }

  /** What the append of step n does to an earlier init container. */
  method AppendStep(
    base: seq<VolumeMount>, steps: seq<Step>, n: nat, grow: nat -> nat,
    main: GoSlice<VolumeMount>, ghost pending: seq<Pending>)
    returns (appended: GoSlice<VolumeMount>, next: GoSlice<VolumeMount>)
    requires Grows(grow) && n < |steps|
    requires WellFormed(main) && Contents(main) == MainMounts(base, steps, n)
    requires main.backing.Length == Capacity(main.len, grow)
    requires forall p :: p in pending ==> InitInvariant(base, steps, n, grow, main, p)
    modifies main.backing
    ensures WellFormed(next) && Contents(next) == MainMounts(base, steps, n + 1)
    ensures next.backing.Length == Capacity(next.len, grow)
    ensures next.backing == main.backing || fresh(next.backing)
    ensures appended.backing == main.backing || fresh(appended.backing)
    ensures next == if steps[n].copyOver then main else appended
    ensures forall p :: p in pending ==> InitInvariant(base, steps, n + 1, grow, next, p)
    ensures steps[n].copyOver ==> InitInvariant(base, steps, n + 1, grow, next, Pending(n, appended))
  {
    appended := Append(main, steps[n].mount, grow);
    next := if steps[n].copyOver then main else appended;
    assert main.backing[..main.len] == old(main.backing[..main.len]);
    forall p | p in pending ensures InitInvariant(base, steps, n + 1, grow, next, p) {
      NextStep(base, steps, p.step, n, grow);
      assert old(InitInvariant(base, steps, n, grow, main, p));
      if !AtCapacity(base, steps, p.step, grow) && Open(steps, p.step, n) {
        OpenMainUnchanged(base, steps, p.step, n);
      }
    }
  }

  /** The loop itself, on arrays; the result is read after the last append. */
  method MountConfigs(base: seq<VolumeMount>, steps: seq<Step>, grow: nat -> nat)
    returns (main: seq<VolumeMount>, inits: seq<Init>)
    requires Grows(grow)
    ensures main == MainMounts(base, steps, |steps|)
    ensures inits == Inits(base, steps, grow)
  {
    var volumeMounts := AppendAll(base, grow);
    var pending: seq<Pending> := [];
    for n := 0 to |steps|
      invariant WellFormed(volumeMounts) && fresh(volumeMounts.backing)
      invariant Contents(volumeMounts) == MainMounts(base, steps, n)
      invariant volumeMounts.backing.Length == Capacity(volumeMounts.len, grow)
      invariant forall p :: p in pending ==> InitInvariant(base, steps, n, grow, volumeMounts, p)
      invariant |pending| == |CopyOverSteps(steps, n)|
      invariant forall t :: 0 <= t < |pending| ==> pending[t].step == CopyOverSteps(steps, n)[t]
    {
      var appended, next := AppendStep(base, steps, n, grow, volumeMounts, pending);
      if steps[n].copyOver {
        pending := pending + [Pending(n, appended)];
      }
      volumeMounts := next;
    }
    main := volumeMounts.backing[..volumeMounts.len];
    inits := ReadInits(base, steps, grow, volumeMounts, pending);
  }

  /** The init containers as they are marshalled, after all appends. */
  method ReadInits(
    base: seq<VolumeMount>, steps: seq<Step>, ghost grow: nat -> nat, ghost main: GoSlice<VolumeMount>,
    pending: seq<Pending>)
    returns (inits: seq<Init>)
    requires forall p :: p in pending ==> InitInvariant(base, steps, |steps|, grow, main, p)
    requires |pending| == |CopyOverSteps(steps, |steps|)|
    requires forall t :: 0 <= t < |pending| ==> pending[t].step == CopyOverSteps(steps, |steps|)[t]
    ensures inits == Inits(base, steps, grow)
  {
    inits := [];
    for t := 0 to |pending|
      invariant inits == Inits(base, steps, grow)[..t]
    {
      var p := pending[t];
      assert InitInvariant(base, steps, |steps|, grow, main, p);
      inits := inits + [Init(steps[p.step].key, p.slice.backing[..p.slice.len])];
    }
  }
}
