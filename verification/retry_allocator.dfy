/**
 `RetryAllocator`: a decorator over a thread-safe allocator. Its visible
 contract is the constructor's two checks, the constant thread-safety
 report and the pure delegation of `GetTotalMemInfo` and `Release`.
 */
module RetryAllocation {
  import opened Platform
  import opened Allocation

  /** The decorator's state: the wrapped allocator and the retry timeout, a
      `std::chrono::milliseconds` whose count is a signed 64-bit integer. */
  datatype RetryAllocator<S> = RetryAllocator(underlying: S, retryTime: i64)

  const NullUnderlying := "Underlying allocator of RetryAllocator is NULL"
  const UnderlyingNotThreadSafe := "Underlying allocator of RetryAllocator is not thread-safe"

  /** The constructor. `None` is a null `shared_ptr`; it is rejected before
      the thread-safety check is reached. The `size_t` timeout is narrowed
      to the signed count of `std::chrono::milliseconds`, so a value of 2^63
      or more turns into a negative timeout. */
  function NewRetryAllocator<S>(base: Allocator<S>, allocator: Option<S>, retryMs: u64)
    : (r: Result<RetryAllocator<S>>)
    ensures allocator.None? ==> r.Failure? && r.error.InvalidArgument?
    ensures allocator.Some? && !base.isAllocThreadSafe(allocator.value) ==>
              r.Failure? && r.error.PreconditionNotMet?
    ensures r.Success? <==> allocator.Some? && base.isAllocThreadSafe(allocator.value)
    ensures r.Success? ==> r.value.underlying == allocator.value
    ensures r.Success? && retryMs < TwoTo63 ==> r.value.retryTime == retryMs
    ensures r.Success? && retryMs >= TwoTo63 ==> r.value.retryTime < 0
  {
    match allocator
    case None => Failure(InvalidArgument(NullUnderlying))
    case Some(a) =>
      if !base.isAllocThreadSafe(a) then Failure(PreconditionNotMet(UnderlyingNotThreadSafe))
      else Success(RetryAllocator(a, ToSigned64(retryMs)))
  }

  /** Every retry allocator reports itself thread-safe. */
  function IsAllocThreadSafe<S>(a: RetryAllocator<S>): (safe: bool)
    ensures safe
  {
    true
  }

  /** `GetTotalMemInfo` answers with the wrapped allocator's figures. */
  function GetTotalMemInfo<S>(base: Allocator<S>, a: RetryAllocator<S>): (m: MemInfo)
    ensures m == base.getTotalMemInfo(a.underlying)
  {
    base.getTotalMemInfo(a.underlying)
  }

  /** `ReleaseImpl` forwards to the wrapped allocator; the decorator's own
      state (the timeout) is left as it was. */
  function ReleaseImpl<S>(base: Allocator<S>, a: RetryAllocator<S>, place: Place)
    : (r: (RetryAllocator<S>, u64))
    ensures r.0.retryTime == a.retryTime
    ensures r.0.underlying == base.release(a.underlying, place).0
    ensures r.1 == base.release(a.underlying, place).1
  {
    var (u, released) := base.release(a.underlying, place);
    (a.(underlying := u), released)
  }

  /** A retry allocator seen through the allocator interface. Its `FreeImpl`
      is not part of this model and is supplied by the caller. */
  function AsAllocator<S>(base: Allocator<S>, freeImpl: (RetryAllocator<S>, Ptr) -> RetryAllocator<S>)
    : (r: Allocator<RetryAllocator<S>>)
  {
    Allocator(
      a => IsAllocThreadSafe(a),
      a => GetTotalMemInfo(base, a),
      freeImpl,
      (a, place) => ReleaseImpl(base, a, place))
  }

  /** Because the decorator always reports thread safety, a constructed retry
      allocator meets the constructor's checks itself and can be wrapped
      again; the outer one then reports exactly the inner one's figures and
      releases exactly what the innermost allocator releases. */
  lemma WrappingTwiceIsTransparent<S>(base: Allocator<S>,
                                      freeImpl: (RetryAllocator<S>, Ptr) -> RetryAllocator<S>,
                                      inner: RetryAllocator<S>, retryMs: u64, place: Place)
    ensures var outer := NewRetryAllocator(AsAllocator(base, freeImpl), Some(inner), retryMs);
            && outer.Success?
            && GetTotalMemInfo(AsAllocator(base, freeImpl), outer.value)
               == base.getTotalMemInfo(inner.underlying)
            && ReleaseImpl(AsAllocator(base, freeImpl), outer.value, place).1
               == base.release(inner.underlying, place).1
  {
  }
}
