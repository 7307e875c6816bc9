/**
 The garbage-collector hierarchy of the eager-deletion runtime: the base
 constructor's threshold clamp, the per-variant `ClearCallback`/`Wait`
 policies, the process-wide eager-deletion configuration and the factory
 that picks a variant for a place.

 A collector is a value. The closures it is handed are identified by
 `Callback` numbers; `ran` is the log of closures that have been invoked,
 in invocation order, and `pending` is the FIFO of closures handed to a
 device-context stream queue or a callback manager and not yet run.
 */
module GarbageCollection {
  import opened Platform

  /** One constructor per concrete collector class. */
  datatype Variant =
    | CPUGarbageCollector
    | XPUGarbageCollector
    | IPUGarbageCollector
    | UnsafeFastGPUGarbageCollector
    | DefaultStreamGarbageCollector
    | StreamGarbageCollector
    | CUDAPinnedGarbageCollector
    | NPUDefaultStreamGarbageCollector
    | NPUUnsafeFastGarbageCollector
    | MLUDefaultStreamGarbageCollector
    | MLUUnsafeFastGarbageCollector
    | MLUStreamGarbageCollector
    | CustomDefaultStreamGarbageCollector
    | CustomDeviceUnsafeFastGarbageCollector
    | CustomStreamGarbageCollector

  /** How a variant's `ClearCallback` treats the closure it is given. */
  datatype ClearPolicy =
    | Inline              // invoke the closure before returning
    | DeviceContextQueue  // `AddStreamCallback` on the place's device context
    | OwnCallbackManager  // `AddCallback` on the collector's own stream manager

  function Policy(v: Variant): (p: ClearPolicy) {
    match v
    case CPUGarbageCollector => Inline
    case XPUGarbageCollector => Inline
    case IPUGarbageCollector => Inline
    case UnsafeFastGPUGarbageCollector => Inline
    case CUDAPinnedGarbageCollector => Inline
    case NPUUnsafeFastGarbageCollector => Inline
    case MLUUnsafeFastGarbageCollector => Inline
    case CustomDeviceUnsafeFastGarbageCollector => Inline
    case DefaultStreamGarbageCollector => DeviceContextQueue
    case NPUDefaultStreamGarbageCollector => DeviceContextQueue
    case MLUDefaultStreamGarbageCollector => DeviceContextQueue
    case CustomDefaultStreamGarbageCollector => DeviceContextQueue
    case StreamGarbageCollector => OwnCallbackManager
    case MLUStreamGarbageCollector => OwnCallbackManager
    case CustomStreamGarbageCollector => OwnCallbackManager
  }

  /** The variants that skip waiting for the device on a backend that has a
      stream-ordered alternative. */
  predicate IsUnsafeFast(v: Variant) {
    v in {UnsafeFastGPUGarbageCollector, NPUUnsafeFastGarbageCollector,
          MLUUnsafeFastGarbageCollector, CustomDeviceUnsafeFastGarbageCollector}
  }

  /** The kind of place each variant's constructor takes. */
  function VariantPlace(v: Variant): (kind: PlaceKind) {
    match v
    case CPUGarbageCollector => CPUPlace
    case XPUGarbageCollector => XPUPlace
    case IPUGarbageCollector => IPUPlace
    case UnsafeFastGPUGarbageCollector => GPUPlace
    case DefaultStreamGarbageCollector => GPUPlace
    case StreamGarbageCollector => GPUPlace
    case CUDAPinnedGarbageCollector => CUDAPinnedPlace
    case NPUDefaultStreamGarbageCollector => NPUPlace
    case NPUUnsafeFastGarbageCollector => NPUPlace
    case MLUDefaultStreamGarbageCollector => MLUPlace
    case MLUUnsafeFastGarbageCollector => MLUPlace
    case MLUStreamGarbageCollector => MLUPlace
    case CustomDefaultStreamGarbageCollector => CustomPlace
    case CustomDeviceUnsafeFastGarbageCollector => CustomPlace
    case CustomStreamGarbageCollector => CustomPlace
  }

  /** Whether the `#ifdef` around a variant's definition admits it. */
  predicate Compiled(v: Variant, build: BuildConfig) {
    match VariantPlace(v)
    case CPUPlace => true
    case XPUPlace => build.withXpu
    case IPUPlace => build.withIpu
    case GPUPlace => build.WithGpu()
    case CUDAPinnedPlace => build.WithGpu()
    case NPUPlace => build.withAscendCl
    case MLUPlace => build.withMlu
    case CustomPlace => build.withCustomDevice
    case OtherPlace => false
  }

  type Callback = nat

  datatype Collector = Collector(
    variant: Variant,
    place: Place,
    maxMemorySize: u64,      // the batching threshold, after the clamp
    hasMutex: bool,          // whether the constructor allocated `mutex_`
    pending: seq<Callback>,  // handed to a stream queue, not yet run
    ran: seq<Callback>       // invoked so far, in order
  )

  /** What every constructed collector keeps: a threshold of at least one,
      a mutex exactly in batching mode, and nothing left queued by a
      variant that runs its closures inline. */
  predicate Valid(c: Collector) {
    && c.maxMemorySize >= 1
    && (c.hasMutex <==> c.maxMemorySize > 1)
    && (Policy(c.variant) == Inline ==> c.pending == [])
  }

  /** The base-class constructor, shared by every variant. */
  function NewCollector(v: Variant, place: Place, maxMemorySize: u64): (c: Collector)
    ensures c.variant == v && c.place == place
    ensures c.maxMemorySize >= 1
    ensures maxMemorySize >= 1 ==> c.maxMemorySize == maxMemorySize
    ensures maxMemorySize == 0 ==> c.maxMemorySize == 1
    ensures c.hasMutex <==> maxMemorySize > 1
    ensures c.pending == [] && c.ran == []
    ensures Valid(c)
  {
    var threshold := if maxMemorySize < 1 then 1 else maxMemorySize;
    Collector(v, place, threshold, threshold > 1, [], [])
  }

  /** `ClearCallback`: inline variants run the closure now; the others only
      append it to their stream queue. */
  function ClearCallback(c: Collector, cb: Callback): (d: Collector)
    ensures d.variant == c.variant && d.place == c.place
    ensures d.maxMemorySize == c.maxMemorySize && d.hasMutex == c.hasMutex
    ensures Policy(c.variant) == Inline ==> d.ran == c.ran + [cb] && d.pending == c.pending
    ensures Policy(c.variant) != Inline ==> d.ran == c.ran && d.pending == c.pending + [cb]
    ensures Valid(c) ==> Valid(d)
    ensures multiset(d.ran + d.pending) == multiset(c.ran + c.pending) + multiset{cb}
  {
    if Policy(c.variant) == Inline then
      c.(ran := c.ran + [cb])
    else
      c.(pending := c.pending + [cb])
  }

  /** One step of the device's callback thread: once the stream work enqueued
      before it has finished, the oldest queued closure runs, whether or not
      anyone calls `Wait`. */
  function DeviceRunsNext(c: Collector): (d: Collector)
    requires c.pending != []
    ensures d.variant == c.variant && d.place == c.place
    ensures d.maxMemorySize == c.maxMemorySize && d.hasMutex == c.hasMutex
    ensures d.ran == c.ran + [c.pending[0]] && d.pending == c.pending[1..]
    ensures d.ran + d.pending == c.ran + c.pending
    ensures Valid(c) ==> Valid(d)
  {
    c.(pending := c.pending[1..], ran := c.ran + [c.pending[0]])
  }

  /** `Wait`: the stream variants block until their queue has drained, running
      the queued closures one at a time in FIFO order; the inline variants
      inherit the base class's empty `Wait`. */
  method Wait(c: Collector) returns (d: Collector)
    ensures d.variant == c.variant && d.place == c.place
    ensures d.maxMemorySize == c.maxMemorySize && d.hasMutex == c.hasMutex
    ensures Policy(c.variant) == Inline ==> d == c
    ensures Policy(c.variant) != Inline ==> d.pending == [] && d.ran == c.ran + c.pending
    ensures Valid(c) ==> Valid(d)
  {
    d := c;
    if Policy(c.variant) == Inline {
      return;
    }
    var i := 0;
    while i < |c.pending|
      invariant 0 <= i <= |c.pending|
      invariant d == c.(pending := c.pending[i..], ran := c.ran + c.pending[..i])
    {
      assert c.pending[..i + 1] == c.pending[..i] + [c.pending[i]];
      d := DeviceRunsNext(d);
      i := i + 1;
    }
  }

  /** Hands every closure of `cbs` to `ClearCallback`, then calls `Wait`:
      afterwards every closure handed over, earlier or now, has run exactly
      once, in the order it was handed over, whatever the variant. */
  method ClearAllThenWait(c: Collector, cbs: seq<Callback>) returns (d: Collector)
    requires Valid(c)
    ensures Valid(d)
    ensures d.variant == c.variant && d.maxMemorySize == c.maxMemorySize
    ensures d.pending == []
    ensures d.ran == c.ran + c.pending + cbs
  {
    var e := c;
    var i := 0;
    while i < |cbs|
      invariant 0 <= i <= |cbs|
      invariant Valid(e)
      invariant e.variant == c.variant && e.place == c.place
      invariant e.maxMemorySize == c.maxMemorySize && e.hasMutex == c.hasMutex
      invariant e.ran + e.pending == c.ran + c.pending + cbs[..i]
    {
      assert cbs[..i + 1] == cbs[..i] + [cbs[i]];
      var next := ClearCallback(e, cbs[i]);
      assert next.ran + next.pending == (e.ran + e.pending) + [cbs[i]];
      e := next;
      i := i + 1;
    }
    assert cbs[..i] == cbs;
    d := Wait(e);
  }

  /** As `ClearAllThenWait`, but after the i-th `ClearCallback` the device's
      callback thread runs up to `progress[i]` of the queued closures on its
      own. However the device's progress interleaves with the hand-overs, the
      log after `Wait` is the same: every closure exactly once, in hand-over
      order. */
  method ClearWithDeviceProgressThenWait(c: Collector, cbs: seq<Callback>, progress: seq<nat>)
    returns (d: Collector)
    requires Valid(c)
    requires |progress| == |cbs|
    ensures Valid(d)
    ensures d.variant == c.variant && d.maxMemorySize == c.maxMemorySize
    ensures d.pending == []
    ensures d.ran == c.ran + c.pending + cbs
  {
    var e := c;
    var i := 0;
    while i < |cbs|
      invariant 0 <= i <= |cbs|
      invariant Valid(e)
      invariant e.variant == c.variant && e.place == c.place
      invariant e.maxMemorySize == c.maxMemorySize && e.hasMutex == c.hasMutex
      invariant e.ran + e.pending == c.ran + c.pending + cbs[..i]
    {
      assert cbs[..i + 1] == cbs[..i] + [cbs[i]];
      var next := ClearCallback(e, cbs[i]);
      assert next.ran + next.pending == (e.ran + e.pending) + [cbs[i]];
      e := next;
      var steps := 0;
      while steps < progress[i] && e.pending != []
        invariant steps <= progress[i]
        invariant Valid(e)
        invariant e.variant == c.variant && e.place == c.place
        invariant e.maxMemorySize == c.maxMemorySize && e.hasMutex == c.hasMutex
        invariant e.ran + e.pending == c.ran + c.pending + cbs[..i + 1]
        decreases progress[i] - steps
      {
        e := DeviceRunsNext(e);
        steps := steps + 1;
      }
      i := i + 1;
    }
    assert cbs[..i] == cbs;
    d := Wait(e);
  }

  /* ---------------- process-wide eager-deletion configuration ---------------- */

  /** The three flags behind the configuration surface. The `double` flags are
      modelled as exact reals. */
  datatype EagerDeletionFlags = EagerDeletionFlags(
    eagerDeleteTensorGb: real,
    memoryFractionOfEagerDeletion: real,
    fastEagerDeletionMode: bool
  )

  const BytesPerGb: nat := 0x4000_0000  // 1 << 30

  /** The threshold in bytes: -1 when disabled, otherwise the gigabyte count
      scaled to bytes and truncated towards zero. */
  function GetEagerDeletionThreshold(flags: EagerDeletionFlags): (r: int)
    ensures r == -1 <==> flags.eagerDeleteTensorGb < 0.0
    ensures flags.eagerDeleteTensorGb >= 0.0 ==>
              && r >= 0
              && r as real <= flags.eagerDeleteTensorGb * BytesPerGb as real
              && flags.eagerDeleteTensorGb * BytesPerGb as real < (r + 1) as real
  {
    if flags.eagerDeleteTensorGb < 0.0 then -1
    else (flags.eagerDeleteTensorGb * BytesPerGb as real).Floor
  }

  /** Reports the fast-eager-deletion flag. */
  function IsFastEagerDeletionModeEnabled(flags: EagerDeletionFlags): (on: bool)
    ensures on == flags.fastEagerDeletionMode
  {
    flags.fastEagerDeletionMode
  }

  /** Reports the memory-fraction flag. */
  function GetEagerDeletionMemoryFraction(flags: EagerDeletionFlags): (fraction: real)
    ensures fraction == flags.memoryFractionOfEagerDeletion
  {
    flags.memoryFractionOfEagerDeletion
  }

  /** The setter overwrites all three flags; the getters then read back what
      was set. */
  function SetEagerDeletionMode(threshold: real, fraction: real, fastMode: bool): (flags: EagerDeletionFlags)
    ensures IsFastEagerDeletionModeEnabled(flags) == fastMode
    ensures GetEagerDeletionMemoryFraction(flags) == fraction
    ensures GetEagerDeletionThreshold(flags) == -1 <==> threshold < 0.0
    ensures threshold >= 0.0 ==> GetEagerDeletionThreshold(flags) >= 0
  {
    EagerDeletionFlags(threshold, fraction, fastMode)
  }

  /* ---------------------------- the factory ---------------------------- */

  /** The place kinds `CreateGarbageCollector` has a branch for. */
  predicate HasFactoryBranch(kind: PlaceKind) {
    kind in {GPUPlace, CPUPlace, XPUPlace, IPUPlace, NPUPlace, MLUPlace, CustomPlace}
  }

  /** Whether the factory branch for a place kind finds its backend compiled
      in. Kinds without a branch have none, so this is false for them even
      where `Compiled` admits a variant of that kind (the CUDA-pinned
      collector in a GPU build). */
  predicate BackendCompiled(kind: PlaceKind, build: BuildConfig) {
    match kind
    case CPUPlace => true
    case GPUPlace => build.WithGpu()
    case XPUPlace => build.withXpu
    case IPUPlace => build.withIpu
    case NPUPlace => build.withAscendCl
    case MLUPlace => build.withMlu
    case CustomPlace => build.withCustomDevice
    case CUDAPinnedPlace => false
    case OtherPlace => false
  }

  /** The place kinds whose branch chooses between an unsafe-fast and a
      stream-ordered collector by the fast-mode flag. */
  predicate OffersFastMode(kind: PlaceKind) {
    kind in {GPUPlace, NPUPlace, MLUPlace, CustomPlace}
  }

  const NoGpuGc := "No GPU gc found in CPU/XPU paddle"
  const NoXpuGc := "No XPU gc found in CPU/GPU paddle"
  const NoIpuGc := "No IPU gc found in CPU/IPU paddle"
  const NpuNeedsFastMode := "Please set FLAGS_fast_eager_deletion_mode=true to use GarbageCollector on NPU."
  const NoNpuGc := "No NPU gc found in CPU/NPU paddle"
  const NoMluGc := "No MLU gc found in CPU/MLU paddle"
  const NoCustomGc := "No CustomDevice gc found"

  /** `CreateGarbageCollector`. `Success(None)` is the null pointer returned for
      a place no branch matches; `Failure` is the `Unimplemented` exception. */
  function CreateGarbageCollector(place: Place, maxMemorySize: u64, build: BuildConfig,
                                  flags: EagerDeletionFlags): (r: Result<Option<Collector>>)
    ensures r.Failure? ==> r.error.Unimplemented?
    ensures r == Success(None) <==> !HasFactoryBranch(place.kind)
    ensures r.Failure? <==>
              && HasFactoryBranch(place.kind)
              && (|| !BackendCompiled(place.kind, build)
                  || (place.kind == NPUPlace && !IsFastEagerDeletionModeEnabled(flags)))
    ensures r.Success? && r.value.Some? ==>
              var c := r.value.value;
              && c == NewCollector(c.variant, place, maxMemorySize)
              && VariantPlace(c.variant) == place.kind
              && Compiled(c.variant, build)
              && Policy(c.variant) != OwnCallbackManager
              && (IsUnsafeFast(c.variant) <==>
                    OffersFastMode(place.kind) && IsFastEagerDeletionModeEnabled(flags))
  {
    var fast := IsFastEagerDeletionModeEnabled(flags);
    match place.kind
    case GPUPlace =>
      if build.WithGpu() then
        if fast then Success(Some(NewCollector(UnsafeFastGPUGarbageCollector, place, maxMemorySize)))
        else Success(Some(NewCollector(DefaultStreamGarbageCollector, place, maxMemorySize)))
      else Failure(Unimplemented(NoGpuGc))
    case CPUPlace =>
      Success(Some(NewCollector(CPUGarbageCollector, place, maxMemorySize)))
    case XPUPlace =>
      if build.withXpu then Success(Some(NewCollector(XPUGarbageCollector, place, maxMemorySize)))
      else Failure(Unimplemented(NoXpuGc))
    case IPUPlace =>
      if build.withIpu then Success(Some(NewCollector(IPUGarbageCollector, place, maxMemorySize)))
      else Failure(Unimplemented(NoIpuGc))
    case NPUPlace =>
      // The default-stream construction that follows the throw in the
      // source can never be reached, so it has no counterpart here.
      if build.withAscendCl then
        if fast then Success(Some(NewCollector(NPUUnsafeFastGarbageCollector, place, maxMemorySize)))
        else Failure(Unimplemented(NpuNeedsFastMode))
      else Failure(Unimplemented(NoNpuGc))
    case MLUPlace =>
      if build.withMlu then
        if fast then Success(Some(NewCollector(MLUUnsafeFastGarbageCollector, place, maxMemorySize)))
        else Success(Some(NewCollector(MLUDefaultStreamGarbageCollector, place, maxMemorySize)))
      else Failure(Unimplemented(NoMluGc))
    case CustomPlace =>
      if build.withCustomDevice then
        if fast then Success(Some(NewCollector(CustomDeviceUnsafeFastGarbageCollector, place, maxMemorySize)))
        else Success(Some(NewCollector(CustomDefaultStreamGarbageCollector, place, maxMemorySize)))
      else Failure(Unimplemented(NoCustomGc))
    case CUDAPinnedPlace => Success(None)
    case OtherPlace => Success(None)
  }

  /** The factory's choice is pinned down by the reference predicates alone:
      two outcomes that both meet them are the same collector. Together with
      the factory's contract this says the factory picks the one variant of
      the place that the build compiles, that is unsafe-fast exactly in fast
      mode, and that owns no callback manager. */
  lemma FactoryChoiceIsUnique(place: Place, fast: bool, v: Variant, w: Variant)
    requires VariantPlace(v) == place.kind && VariantPlace(w) == place.kind
    requires Policy(v) != OwnCallbackManager && Policy(w) != OwnCallbackManager
    requires IsUnsafeFast(v) <==> OffersFastMode(place.kind) && fast
    requires IsUnsafeFast(w) <==> OffersFastMode(place.kind) && fast
    requires v != NPUDefaultStreamGarbageCollector && w != NPUDefaultStreamGarbageCollector
    ensures v == w
  {
  }

  /** The NPU default-stream collector is never produced, on any build and
      in any mode. */
  lemma NpuDefaultStreamNeverCreated(place: Place, maxMemorySize: u64, build: BuildConfig,
                                     flags: EagerDeletionFlags)
    ensures var r := CreateGarbageCollector(place, maxMemorySize, build, flags);
            r.Success? && r.value.Some? ==> r.value.value.variant != NPUDefaultStreamGarbageCollector
  {
  }

  /** The configuration setter drives the factory: fast mode set through it
      makes a GPU place in a GPU build get the unsafe-fast collector, and the
      stream-ordered one otherwise. */
  lemma GpuFactoryFollowsSetter(place: Place, maxMemorySize: u64, build: BuildConfig,
                                threshold: real, fraction: real, fastMode: bool)
    requires place.kind == GPUPlace && build.WithGpu()
    ensures var flags := SetEagerDeletionMode(threshold, fraction, fastMode);
            var r := CreateGarbageCollector(place, maxMemorySize, build, flags);
            && r.Success? && r.value.Some?
            && r.value.value.variant == (if fastMode then UnsafeFastGPUGarbageCollector
                                         else DefaultStreamGarbageCollector)
            && Policy(r.value.value.variant) == (if fastMode then Inline else DeviceContextQueue)
  {
  }
}
