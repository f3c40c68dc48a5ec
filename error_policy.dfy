/**
 * The device error policy: how blas_dev_call turns the outcome of a backend call
 * into "carry on", "abort the process" or "throw blas::Error", and the uniform
 * errors of helpers that have no implementation for the compiled-in backend.
 */
module ErrorPolicy {
  import opened Wrappers
  import opened DeviceTypes

  /** The preprocessor symbols that select the policy. */
  datatype BuildFlags = BuildFlags(errorNdebug: bool, errorAssert: bool, ndebug: bool)

  datatype Policy = NoCheck | AbortOnError | ThrowOnError

  /** Which of the three blas_dev_call definitions a build compiles. */
  function PolicyOf(f: BuildFlags): (p: Policy)
    ensures p == NoCheck <==> f.errorNdebug || (f.errorAssert && f.ndebug)
    ensures p == AbortOnError <==> !f.errorNdebug && f.errorAssert && !f.ndebug
    ensures p == ThrowOnError <==> !f.errorNdebug && !f.errorAssert
  {
    if f.errorNdebug || (f.errorAssert && f.ndebug) then NoCheck
    else if f.errorAssert then AbortOnError
    else ThrowOnError
  }

  /** The status types of the backends that report errors as return codes. */
  datatype StatusType = CudaError | CublasStatus | HipError | RocblasStatus

  /** A status code returned by a backend call, tagged with its type. */
  datatype DeviceStatus = DeviceStatus(statusType: StatusType, code: int)

  /**
   * The success value of each status type: cudaSuccess, CUBLAS_STATUS_SUCCESS,
   * hipSuccess and rocblas_status_success are all 0 in the vendor headers.
   */
  function SuccessCode(t: StatusType): int
  {
    0
  }

  /** is_device_error: exactly the success status of a type is not an error. */
  function IsDeviceError(s: DeviceStatus): (r: bool)
    ensures !r <==> s == DeviceStatus(s.statusType, SuccessCode(s.statusType))
  {
    s.code != SuccessCode(s.statusType)
  }

  /** How a backend call that signals failure by throwing (oneMKL / SYCL) came back. */
  datatype CallOutcome =
    | Returned
    | SyclException(what: string)
    | StdException(what: string)
    | OtherException

  /** The message blas_dev_call reports for a thrown outcome. */
  function WhatOf(o: CallOutcome): string
    requires o != Returned
  {
    match o
    case SyclException(w) => w
    case StdException(w) => w
    case OtherException => "unknown exception"
  }

  /** What happens to the caller after blas_dev_call. */
  datatype Verdict =
    | Proceed                                 // the caller continues
    | Abort(func: string, message: string)    // abort_if prints the call site and message, then aborts
    | Throw(error: BlasError)                 // throw_if raises blas::Error(message, func)
    | Rethrow(outcome: CallOutcome)           // the backend's own exception escapes unchanged

  predicate Stops(v: Verdict)
  {
    !v.Proceed?
  }

  /**
   * blas_dev_call around a call that returns a status `s`, on the CUDA and ROCm
   * backends; `errorString` is device_error_string(s) and `func` is __func__.
   */
  function DevCallStatus(p: Policy, s: DeviceStatus, errorString: string, func: string): (v: Verdict)
    ensures p == NoCheck ==> v == Proceed
    ensures p != NoCheck ==> (Stops(v) <==> IsDeviceError(s))
    ensures p == AbortOnError && IsDeviceError(s) ==> v == Abort(func, errorString)
    ensures p == ThrowOnError && IsDeviceError(s) ==> v == Throw(BlasError(errorString, func))
  {
    match p
    case NoCheck => Proceed
    case AbortOnError => if IsDeviceError(s) then Abort(func, errorString) else Proceed
    case ThrowOnError => if IsDeviceError(s) then Throw(BlasError(errorString, func)) else Proceed
  }

  /**
   * blas_dev_call around a call that throws on failure, on the oneMKL backend.
   * Without checking the macro is the bare call, so an exception escapes as it is.
   */
  function DevCallSycl(p: Policy, o: CallOutcome, func: string): (v: Verdict)
    ensures Stops(v) <==> o != Returned
    ensures o != Returned && p == NoCheck ==> v == Rethrow(o)
    ensures o != Returned && p == AbortOnError ==> v == Abort(func, WhatOf(o))
    ensures o != Returned && p == ThrowOnError ==> v == Throw(BlasError(WhatOf(o), func))
  {
    if o == Returned then Proceed
    else match p
      case NoCheck => Rethrow(o)
      case AbortOnError => Abort(func, WhatOf(o))
      case ThrowOnError => Throw(BlasError(WhatOf(o), func))
  }

  /**
   * The abort and throw policies fail on exactly the same calls and report the
   * same call site and message; only the way of reporting differs.
   */
  lemma CheckingPoliciesAgree(s: DeviceStatus, o: CallOutcome, errorString: string, func: string)
    ensures Stops(DevCallStatus(AbortOnError, s, errorString, func))
        <==> Stops(DevCallStatus(ThrowOnError, s, errorString, func))
    ensures Stops(DevCallSycl(AbortOnError, o, func)) <==> Stops(DevCallSycl(ThrowOnError, o, func))
    ensures DevCallSycl(AbortOnError, o, func).Abort? ==>
      DevCallSycl(ThrowOnError, o, func).error
        == BlasError(DevCallSycl(AbortOnError, o, func).message, DevCallSycl(AbortOnError, o, func).func)
  {
  }

  /** The device helpers of the header that are templates over the element type. */
  datatype Helper =
    | DeviceMalloc | DeviceMallocOnQueue | DeviceMallocPinned | DeviceMallocPinnedOnQueue
    | DeviceSetMatrix | DeviceGetMatrix | DeviceSetVector | DeviceGetVector
    | DeviceMemset | DeviceMemcpy | DeviceMemcpy2D

  /** __func__ inside each helper. */
  function HelperName(h: Helper): string
  {
    match h
    case DeviceMalloc => "device_malloc"
    case DeviceMallocOnQueue => "device_malloc"
    case DeviceMallocPinned => "device_malloc_pinned"
    case DeviceMallocPinnedOnQueue => "device_malloc_pinned"
    case DeviceSetMatrix => "device_setmatrix"
    case DeviceGetMatrix => "device_getmatrix"
    case DeviceSetVector => "device_setvector"
    case DeviceGetVector => "device_getvector"
    case DeviceMemset => "device_memset"
    case DeviceMemcpy => "device_memcpy"
    case DeviceMemcpy2D => "device_memcpy_2d"
  }

  const NotAvailable := "device BLAS not available"
  const UnsupportedOnSycl := "unsupported function for sycl backend"

  /**
   * The error a helper throws before any backend call because the build has no
   * implementation of it: every helper without a backend, and the two
   * allocations that take no queue on oneMKL. The policy plays no part.
   */
  function ConfigurationError(b: Backend, h: Helper): (r: Option<BlasError>)
    ensures b == NoBackend ==> r == Some(BlasError(NotAvailable, HelperName(h)))
    ensures b == OneMkl ==>
      (r.Some? <==> h == DeviceMalloc || h == DeviceMallocPinned)
      && (r.Some? ==> r.value == BlasError(UnsupportedOnSycl, HelperName(h)))
    ensures b == Cublas || b == Rocblas ==> r == None
  {
    match b
    case NoBackend => Some(BlasError(NotAvailable, HelperName(h)))
    case OneMkl =>
      if h == DeviceMalloc || h == DeviceMallocPinned then Some(BlasError(UnsupportedOnSycl, HelperName(h)))
      else None
    case _ => None
  }
}
