/**
 Shared vocabulary of the memory-reclamation layer: machine integers, device
 places, the build's compiled-in backends, and the error kinds the runtime
 raises (`platform::errors::*`).
 */
module Platform {

  /** `size_t` / `uint64_t` on a 64-bit build. */
  const TwoTo64: nat := 0x1_0000_0000_0000_0000
  type u64 = x: nat | x < TwoTo64

  /** A signed 64-bit count, such as the `int64_t` inside `std::chrono::milliseconds`. */
  const TwoTo63: int := 0x8000_0000_0000_0000
  type i64 = x: int | -TwoTo63 <= x < TwoTo63

  /** The two's-complement value of an unsigned 64-bit pattern: the result of
      converting a `size_t` to a signed 64-bit integer. */
  function ToSigned64(x: u64): (r: i64)
    ensures x < TwoTo63 ==> r == x
    ensures x >= TwoTo63 ==> r < 0 && r == x - TwoTo64
  {
    if x < TwoTo63 then x else x - TwoTo64
  }

  /** `unsigned int` (a bin enumeration). */
  type u32 = x: nat | x < 0x1_0000_0000

  /** Unsigned wrap-around of a `size_t` computation. */
  function Wrap64(x: int): (r: u64)
    ensures 0 <= x < TwoTo64 ==> r == x
    ensures (r - x) % TwoTo64 == 0
  {
    x % TwoTo64
  }

  /** The device kinds a `platform::Place` can denote. `OtherPlace` stands for
      every kind the collector factory has no branch for (pinned host memory,
      an undefined place, ...). */
  datatype PlaceKind =
    | CPUPlace
    | GPUPlace
    | CUDAPinnedPlace
    | XPUPlace
    | IPUPlace
    | NPUPlace
    | MLUPlace
    | CustomPlace
    | OtherPlace

  datatype Place = Place(kind: PlaceKind, device: nat)

  /** The backends compiled into the build: one boolean per `#ifdef`. */
  datatype BuildConfig = BuildConfig(
    withCuda: bool,          // PADDLE_WITH_CUDA
    withHip: bool,           // PADDLE_WITH_HIP
    withXpu: bool,           // PADDLE_WITH_XPU
    withIpu: bool,           // PADDLE_WITH_IPU
    withAscendCl: bool,      // PADDLE_WITH_ASCEND_CL
    withMlu: bool,           // PADDLE_WITH_MLU
    withCustomDevice: bool   // PADDLE_WITH_CUSTOM_DEVICE
  )
  {
    /** `defined(PADDLE_WITH_CUDA) || defined(PADDLE_WITH_HIP)` */
    predicate WithGpu() {
      withCuda || withHip
    }
  }

  /** The error kinds thrown by `PADDLE_THROW` / `PADDLE_ENFORCE_*`. */
  datatype Error =
    | Unimplemented(message: string)
    | InvalidArgument(message: string)
    | PreconditionNotMet(message: string)

  datatype Option<+T> = None | Some(value: T)

  /** A value, or the error the source would throw instead of returning. */
  datatype Result<+T> = Success(value: T) | Failure(error: Error)
}
