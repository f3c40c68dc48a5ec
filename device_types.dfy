/** Backends a build can select, and the MemcpyKind enumeration with its per-backend conversions. */
module DeviceTypes {
  import opened Wrappers

  /** The single vendor backend compiled in (or none). */
  datatype Backend = Cublas | Rocblas | OneMkl | NoBackend

  /** blas::MemcpyKind, an enum class over the integer type device_blas_int. */
  datatype MemcpyKind = HostToHost | HostToDevice | DeviceToHost | DeviceToDevice | Default

  /** The underlying value the source assigns to each enumerator. */
  function Value(k: MemcpyKind): (v: int)
    ensures 0 <= v <= 4
    ensures KindOf(v) == Some(k)
  {
    match k
    case HostToHost => 0
    case HostToDevice => 1
    case DeviceToHost => 2
    case DeviceToDevice => 3
    case Default => 4
  }

  /** The enumerator, if any, that carries the underlying value `v`. */
  function KindOf(v: int): (r: Option<MemcpyKind>)
    ensures r.Some? <==> 0 <= v <= 4
  {
    if v == 0 then Some(HostToHost)
    else if v == 1 then Some(HostToDevice)
    else if v == 2 then Some(DeviceToHost)
    else if v == 3 then Some(DeviceToDevice)
    else if v == 4 then Some(Default)
    else None
  }

  /** cudaMemcpyKind constants. */
  datatype CudaMemcpyKind =
    | CudaMemcpyHostToHost | CudaMemcpyHostToDevice | CudaMemcpyDeviceToHost
    | CudaMemcpyDeviceToDevice | CudaMemcpyDefault

  /** hipMemcpyKind constants. */
  datatype HipMemcpyKind =
    | HipMemcpyHostToHost | HipMemcpyHostToDevice | HipMemcpyDeviceToHost
    | HipMemcpyDeviceToDevice | HipMemcpyDefault

  /** The direction a CUDA constant names, in MemcpyKind terms; the inverse of the memcpy2cuda cases. */
  function CudaDirection(c: CudaMemcpyKind): MemcpyKind
  {
    match c
    case CudaMemcpyHostToHost => HostToHost
    case CudaMemcpyHostToDevice => HostToDevice
    case CudaMemcpyDeviceToHost => DeviceToHost
    case CudaMemcpyDeviceToDevice => DeviceToDevice
    case CudaMemcpyDefault => Default
  }

  /** The direction a HIP constant names, in MemcpyKind terms; the inverse of the memcpy2hip cases. */
  function HipDirection(c: HipMemcpyKind): MemcpyKind
  {
    match c
    case HipMemcpyHostToHost => HostToHost
    case HipMemcpyHostToDevice => HostToDevice
    case HipMemcpyDeviceToHost => DeviceToHost
    case HipMemcpyDeviceToDevice => DeviceToDevice
    case HipMemcpyDefault => Default
  }

  /** memcpy2cuda, applied to the underlying value of its MemcpyKind argument. */
  function MemcpyToCuda(v: int): (r: Result<CudaMemcpyKind>)
    ensures r.Ok? <==> 0 <= v <= 4
    ensures r.Ok? ==> CudaDirection(r.value) == KindOf(v).value
    ensures r.Err? ==> r.error == BlasError("unknown memcpy direction", "")
  {
    match KindOf(v)
    case Some(HostToHost) => Ok(CudaMemcpyHostToHost)
    case Some(HostToDevice) => Ok(CudaMemcpyHostToDevice)
    case Some(DeviceToHost) => Ok(CudaMemcpyDeviceToHost)
    case Some(DeviceToDevice) => Ok(CudaMemcpyDeviceToDevice)
    case Some(Default) => Ok(CudaMemcpyDefault)
    case None => Err(BlasError("unknown memcpy direction", ""))
  }

  /** memcpy2hip, applied to the underlying value of its MemcpyKind argument. */
  function MemcpyToHip(v: int): (r: Result<HipMemcpyKind>)
    ensures r.Ok? <==> 0 <= v <= 4
    ensures r.Ok? ==> HipDirection(r.value) == KindOf(v).value
    ensures r.Err? ==> r.error == BlasError("unknown memcpy direction", "")
  {
    match KindOf(v)
    case Some(HostToHost) => Ok(HipMemcpyHostToHost)
    case Some(HostToDevice) => Ok(HipMemcpyHostToDevice)
    case Some(DeviceToHost) => Ok(HipMemcpyDeviceToHost)
    case Some(DeviceToDevice) => Ok(HipMemcpyDeviceToDevice)
    case Some(Default) => Ok(HipMemcpyDefault)
    case None => Err(BlasError("unknown memcpy direction", ""))
  }

  /** memcpy2sycl: the SYCL queue's memcpy takes no direction, so every kind maps to 0. */
  function MemcpyToSycl(k: MemcpyKind): (r: int)
    ensures r == 0
  {
    0
  }

  /** memcpy2cuda is one-to-one on the five enumerators and reaches every CUDA constant. */
  lemma MemcpyToCudaBijective(k1: MemcpyKind, k2: MemcpyKind, c: CudaMemcpyKind)
    ensures MemcpyToCuda(Value(k1)) == MemcpyToCuda(Value(k2)) ==> k1 == k2
    ensures MemcpyToCuda(Value(CudaDirection(c))) == Ok(c)
  {
  }

  /** memcpy2hip is one-to-one on the five enumerators and reaches every HIP constant. */
  lemma MemcpyToHipBijective(k1: MemcpyKind, k2: MemcpyKind, c: HipMemcpyKind)
    ensures MemcpyToHip(Value(k1)) == MemcpyToHip(Value(k2)) ==> k1 == k2
    ensures MemcpyToHip(Value(HipDirection(c))) == Ok(c)
  {
  }
}
