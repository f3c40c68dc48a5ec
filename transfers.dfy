/**
 * Host/device data movement: the strided matrix and vector copies, the plain
 * and 2D memcpy, and memset. Each backend call is recorded as an issued
 * operation; on oneMKL a strided copy becomes a list of plain memcpys.
 */
module Transfers {
  import opened Wrappers
  import opened Arithmetic
  import opened DeviceTypes
  import opened ErrorPolicy

  /** A host or device pointer, as an opaque handle; offsets are counted in elements. */
  type Ptr = int

  /** One backend call, with sizes in elements (the source multiplies by sizeof(T)). */
  datatype Issued =
    /** queue.stream().memcpy(dst + dstOffset, src + srcOffset, count * sizeof(T)) */
    | Memcpy(dst: Ptr, dstOffset: int, src: Ptr, srcOffset: int, count: int)
    /** cublas{Set,Get}MatrixAsync, rocblas_{set,get}_matrix_async */
    | VendorMatrixCopy(m: int, n: int, dst: Ptr, ldDst: int, src: Ptr, ldSrc: int)
    /** cublas{Set,Get}VectorAsync, rocblas_{set,get}_vector_async */
    | VendorVectorCopy(n: int, dst: Ptr, incDst: int, src: Ptr, incSrc: int)
    /** cudaMemcpy2DAsync, hipMemcpy2DAsync: `height` rows of `width` elements */
    | Vendor2DCopy(dst: Ptr, dstPitch: int, src: Ptr, srcPitch: int, width: int, height: int, kind: MemcpyKind)
    /** cudaMemcpyAsync, hipMemcpyAsync */
    | VendorMemcpy(dst: Ptr, src: Ptr, count: int, kind: MemcpyKind)
    /** cudaMemsetAsync, hipMemsetAsync, queue.stream().memset */
    | Memset(ptr: Ptr, value: int, count: int)

  /** Offset of element (i, j) of a column-major block with leading dimension `ld`. */
  function Addr(ld: int, i: int, j: int): int
  {
    j * ld + i
  }

  /** Element `d` of the destination and element `s` of the source are entry (i, j) of an m-by-n block. */
  ghost predicate InBlock(m: int, n: int, ldDst: int, ldSrc: int, d: int, s: int)
  {
    exists i, j :: 0 <= i < m && 0 <= j < n && d == Addr(ldDst, i, j) && s == Addr(ldSrc, i, j)
  }

  /** The plain memcpy `c` writes source element `s` into destination element `d`. */
  predicate CopyMoves(c: Issued, dst: Ptr, d: int, src: Ptr, s: int)
  {
    && c.Memcpy? && c.dst == dst && c.src == src
    && 0 <= d - c.dstOffset < c.count && s - c.srcOffset == d - c.dstOffset
  }

  /** Some memcpy of the list writes `src[s]` into `dst[d]`. */
  ghost predicate Moves(cs: seq<Issued>, dst: Ptr, d: int, src: Ptr, s: int)
  {
    exists k :: 0 <= k < |cs| && CopyMoves(cs[k], dst, d, src, s)
  }

  /** The number of elements the memcpys of a list transfer. */
  function Volume(cs: seq<Issued>): int
  {
    if cs == [] then 0 else (if cs[0].Memcpy? then cs[0].count else 0) + Volume(cs[1..])
  }

  /** The plain memcpys by which oneMKL moves an m-by-n block between two column-major buffers. */
  function MatrixPlan(m: nat, n: nat, dst: Ptr, ldDst: int, src: Ptr, ldSrc: int): (r: seq<Issued>)
    ensures |r| == if ldDst == m && ldSrc == m then 1 else n
    ensures forall k :: 0 <= k < |r| ==> r[k].Memcpy? && r[k].dst == dst && r[k].src == src
  {
    if ldSrc == m && ldDst == m then [Memcpy(dst, 0, src, 0, m * n)]
    else seq(n, ic requires 0 <= ic < n => Memcpy(dst, ic * ldDst, src, ic * ldSrc, m))
  }

  /** The plain memcpys by which oneMKL moves an n-vector between two strided buffers. */
  function VectorPlan(n: nat, dst: Ptr, incDst: int, src: Ptr, incSrc: int): (r: seq<Issued>)
    ensures |r| == if incSrc == incDst && incSrc == 1 then 1 else n
    ensures forall k :: 0 <= k < |r| ==> r[k].Memcpy? && r[k].dst == dst && r[k].src == src
  {
    if incSrc == incDst && incSrc == 1 then [Memcpy(dst, 0, src, 0, (n - 1) * incSrc + 1)]
    else seq(n, ie requires 0 <= ie < n => Memcpy(dst, ie * incDst, src, ie * incSrc, 1))
  }

  /** Offset t of one contiguous run of m * n elements is entry (t % m, t / m) of the block. */
  lemma ContiguousEntry(m: nat, n: nat, t: int)
    requires 0 <= t < m * n
    ensures InBlock(m, n, m, m, t, t)
  {
    var i, j := t % m, t / m;
    assert t == j * m + i;
    MulCancel(j, n, m);
    assert t == Addr(m, i, j);
  }

  /** Entry (i, j) of a block with leading dimension m lies in the first m * n elements. */
  lemma ContiguousOffset(m: nat, n: nat, i: int, j: int)
    requires 0 <= i < m && 0 <= j < n
    ensures 0 <= Addr(m, i, j) < m * n
  {
    MulMonotone(j + 1, n, m);
    MulMonotone(0, j, m);
  }

  /**
   * The plan moves exactly the m-by-n block: element (i, j) of the source
   * reaches element (i, j) of the destination, and nothing else is written.
   */
  lemma {:induction false} MatrixPlanCoverage(m: nat, n: nat, dst: Ptr, ldDst: int, src: Ptr, ldSrc: int, d: int, s: int)
    ensures Moves(MatrixPlan(m, n, dst, ldDst, src, ldSrc), dst, d, src, s) <==> InBlock(m, n, ldDst, ldSrc, d, s)
  {
    var plan := MatrixPlan(m, n, dst, ldDst, src, ldSrc);
    if ldSrc == m && ldDst == m {
      assert plan == [Memcpy(dst, 0, src, 0, m * n)];
      if Moves(plan, dst, d, src, s) {
        assert CopyMoves(plan[0], dst, d, src, s);
        ContiguousEntry(m, n, d);
      }
      if InBlock(m, n, ldDst, ldSrc, d, s) {
        var i, j :| 0 <= i < m && 0 <= j < n && d == Addr(ldDst, i, j) && s == Addr(ldSrc, i, j);
        ContiguousOffset(m, n, i, j);
        assert CopyMoves(plan[0], dst, d, src, s);
      }
    } else {
      if Moves(plan, dst, d, src, s) {
        var k :| 0 <= k < |plan| && CopyMoves(plan[k], dst, d, src, s);
        var t := d - plan[k].dstOffset;
        assert plan[k] == Memcpy(dst, k * ldDst, src, k * ldSrc, m);
        assert d == Addr(ldDst, t, k) && s == Addr(ldSrc, t, k);
      }
      if InBlock(m, n, ldDst, ldSrc, d, s) {
        var i, j :| 0 <= i < m && 0 <= j < n && d == Addr(ldDst, i, j) && s == Addr(ldSrc, i, j);
        assert CopyMoves(plan[j], dst, d, src, s);
      }
    }
  }

  /** A list of memcpys of `m` elements each transfers |cs| * m elements. */
  lemma {:induction false} VolumeOfUniform(cs: seq<Issued>, m: int)
    requires forall k :: 0 <= k < |cs| ==> cs[k].Memcpy? && cs[k].count == m
    ensures Volume(cs) == |cs| * m
  {
    if cs != [] {
      VolumeOfUniform(cs[1..], m);
    }
  }

  /** Either way the plan transfers m * n elements in all. */
  lemma MatrixPlanVolume(m: nat, n: nat, dst: Ptr, ldDst: int, src: Ptr, ldSrc: int)
    ensures Volume(MatrixPlan(m, n, dst, ldDst, src, ldSrc)) == m * n
  {
    var plan := MatrixPlan(m, n, dst, ldDst, src, ldSrc);
    if !(ldSrc == m && ldDst == m) {
      VolumeOfUniform(plan, m);
    }
  }

  /** The vector plan is the matrix plan of a 1-by-n block whose leading dimensions are the increments. */
  lemma VectorPlanIsMatrixPlan(n: nat, dst: Ptr, incDst: int, src: Ptr, incSrc: int)
    ensures VectorPlan(n, dst, incDst, src, incSrc) == MatrixPlan(1, n, dst, incDst, src, incSrc)
  {
  }

  /**
   * The vector plan moves element ie * incSrc of the source to element
   * ie * incDst of the destination for every ie < n, nothing else, n elements in all.
   */
  lemma VectorPlanCoverage(n: nat, dst: Ptr, incDst: int, src: Ptr, incSrc: int, d: int, s: int)
    ensures Moves(VectorPlan(n, dst, incDst, src, incSrc), dst, d, src, s)
        <==> exists ie :: 0 <= ie < n && d == Addr(incDst, 0, ie) && s == Addr(incSrc, 0, ie)
    ensures Volume(VectorPlan(n, dst, incDst, src, incSrc)) == n
  {
    VectorPlanIsMatrixPlan(n, dst, incDst, src, incSrc);
    MatrixPlanCoverage(1, n, dst, incDst, src, incSrc, d, s);
    MatrixPlanVolume(1, n, dst, incDst, src, incSrc);
    if InBlock(1, n, incDst, incSrc, d, s) {
      var i, j :| 0 <= i < 1 && 0 <= j < n && d == Addr(incDst, i, j) && s == Addr(incSrc, i, j);
      assert i == 0;
    }
  }

  /** The for-loop over columns of the oneMKL branches of device_setmatrix and device_getmatrix. */
  method MemcpyMatrix(m: nat, n: nat, dst: Ptr, ldDst: int, src: Ptr, ldSrc: int) returns (issued: seq<Issued>)
    ensures issued == MatrixPlan(m, n, dst, ldDst, src, ldSrc)
  {
    if ldSrc == m && ldDst == m {
      issued := [Memcpy(dst, 0, src, 0, m * n)];
    } else {
      issued := [];
      for ic := 0 to n
        invariant |issued| == ic
        invariant forall k :: 0 <= k < ic ==> issued[k] == Memcpy(dst, k * ldDst, src, k * ldSrc, m)
      {
        issued := issued + [Memcpy(dst, ic * ldDst, src, ic * ldSrc, m)];
      }
    }
  }

  /** The for-loop over elements of the oneMKL branches of device_setvector and device_getvector. */
  method MemcpyVector(n: nat, dst: Ptr, incDst: int, src: Ptr, incSrc: int) returns (issued: seq<Issued>)
    ensures issued == VectorPlan(n, dst, incDst, src, incSrc)
  {
    if incSrc == incDst && incSrc == 1 {
      issued := [Memcpy(dst, 0, src, 0, (n - 1) * incSrc + 1)];
    } else {
      issued := [];
      for ie := 0 to n
        invariant |issued| == ie
        invariant forall k :: 0 <= k < ie ==> issued[k] == Memcpy(dst, k * incDst, src, k * incSrc, 1)
      {
        issued := issued + [Memcpy(dst, ie * incDst, src, ie * incSrc, 1)];
      }
    }
  }

  /** device_setmatrix: host (ldh) to device (ldd). */
  method DeviceSetMatrix(backend: Backend, m: nat, n: nat, hostPtr: Ptr, ldh: int, devPtr: Ptr, ldd: int)
    returns (r: Result<seq<Issued>>)
    ensures backend == NoBackend ==> r == Err(BlasError(NotAvailable, "device_setmatrix"))
    ensures backend == Cublas || backend == Rocblas ==> r == Ok([VendorMatrixCopy(m, n, devPtr, ldd, hostPtr, ldh)])
    ensures backend == OneMkl ==> r == Ok(MatrixPlan(m, n, devPtr, ldd, hostPtr, ldh))
  {
    match backend
    case NoBackend =>
      r := Err(ConfigurationError(backend, Helper.DeviceSetMatrix).value);
    case OneMkl =>
      var issued := MemcpyMatrix(m, n, devPtr, ldd, hostPtr, ldh);
      r := Ok(issued);
    case _ =>
      r := Ok([VendorMatrixCopy(m, n, devPtr, ldd, hostPtr, ldh)]);
  }

  /** device_getmatrix: device (ldd) to host (ldh). */
  method DeviceGetMatrix(backend: Backend, m: nat, n: nat, devPtr: Ptr, ldd: int, hostPtr: Ptr, ldh: int)
    returns (r: Result<seq<Issued>>)
    ensures backend == NoBackend ==> r == Err(BlasError(NotAvailable, "device_getmatrix"))
    ensures backend == Cublas || backend == Rocblas ==> r == Ok([VendorMatrixCopy(m, n, hostPtr, ldh, devPtr, ldd)])
    ensures backend == OneMkl ==> r == Ok(MatrixPlan(m, n, hostPtr, ldh, devPtr, ldd))
  {
    match backend
    case NoBackend =>
      r := Err(ConfigurationError(backend, Helper.DeviceGetMatrix).value);
    case OneMkl =>
      var issued := MemcpyMatrix(m, n, hostPtr, ldh, devPtr, ldd);
      r := Ok(issued);
    case _ =>
      r := Ok([VendorMatrixCopy(m, n, hostPtr, ldh, devPtr, ldd)]);
  }

  /** device_setvector: host (inch) to device (incd). */
  method DeviceSetVector(backend: Backend, n: nat, hostPtr: Ptr, inch: int, devPtr: Ptr, incd: int)
    returns (r: Result<seq<Issued>>)
    ensures backend == NoBackend ==> r == Err(BlasError(NotAvailable, "device_setvector"))
    ensures backend == Cublas || backend == Rocblas ==> r == Ok([VendorVectorCopy(n, devPtr, incd, hostPtr, inch)])
    ensures backend == OneMkl ==> r == Ok(VectorPlan(n, devPtr, incd, hostPtr, inch))
  {
    match backend
    case NoBackend =>
      r := Err(ConfigurationError(backend, Helper.DeviceSetVector).value);
    case OneMkl =>
      var issued := MemcpyVector(n, devPtr, incd, hostPtr, inch);
      r := Ok(issued);
    case _ =>
      r := Ok([VendorVectorCopy(n, devPtr, incd, hostPtr, inch)]);
  }

  /** device_getvector: device (incd) to host (inch). */
  method DeviceGetVector(backend: Backend, n: nat, devPtr: Ptr, incd: int, hostPtr: Ptr, inch: int)
    returns (r: Result<seq<Issued>>)
    ensures backend == NoBackend ==> r == Err(BlasError(NotAvailable, "device_getvector"))
    ensures backend == Cublas || backend == Rocblas ==> r == Ok([VendorVectorCopy(n, hostPtr, inch, devPtr, incd)])
    ensures backend == OneMkl ==> r == Ok(VectorPlan(n, hostPtr, inch, devPtr, incd))
  {
    match backend
    case NoBackend =>
      r := Err(ConfigurationError(backend, Helper.DeviceGetVector).value);
    case OneMkl =>
      var issued := MemcpyVector(n, hostPtr, inch, devPtr, incd);
      r := Ok(issued);
    case _ =>
      r := Ok([VendorVectorCopy(n, hostPtr, inch, devPtr, incd)]);
  }

  /** device_memset: one memset of `count` elements on every backend. */
  function DeviceMemset(backend: Backend, ptr: Ptr, value: int, count: int): (r: Result<seq<Issued>>)
    ensures r.Err? <==> backend == NoBackend
    ensures r.Err? ==> r.error == BlasError(NotAvailable, "device_memset")
    ensures r.Ok? ==> r.value == [Memset(ptr, value, count)]
  {
    if backend == NoBackend then Err(ConfigurationError(backend, Helper.DeviceMemset).value)
    else Ok([Memset(ptr, value, count)])
  }

  /**
   * device_memcpy: one copy of `count` elements into `dst`; CUDA and ROCm first
   * convert the kind (its underlying value `kindValue`), oneMKL ignores it.
   */
  function DeviceMemcpy(backend: Backend, dst: Ptr, src: Ptr, count: int, kindValue: int): (r: Result<seq<Issued>>)
    ensures backend == NoBackend ==> r == Err(BlasError(NotAvailable, "device_memcpy"))
    ensures backend == OneMkl ==> r == Ok([Memcpy(dst, 0, src, 0, count)])
    ensures backend == Cublas || backend == Rocblas ==>
      (r.Ok? <==> 0 <= kindValue <= 4)
      && (r.Ok? ==> r.value == [VendorMemcpy(dst, src, count, KindOf(kindValue).value)])
      && (r.Err? ==> r.error == BlasError("unknown memcpy direction", ""))
  {
    match backend
    case NoBackend => Err(ConfigurationError(backend, Helper.DeviceMemcpy).value)
    case OneMkl => Ok([Memcpy(dst, 0, src, 0, count)])
    case Cublas =>
      (match MemcpyToCuda(kindValue)
       case Ok(c) => Ok([VendorMemcpy(dst, src, count, CudaDirection(c))])
       case Err(e) => Err(e))
    case Rocblas =>
      (match MemcpyToHip(kindValue)
       case Ok(c) => Ok([VendorMemcpy(dst, src, count, HipDirection(c))])
       case Err(e) => Err(e))
  }

  /** What cudaMemcpy2DAsync promises: dst[r * dstPitch + c] = src[r * srcPitch + c] for c < width, r < height. */
  ghost predicate Vendor2DMoves(c: Issued, dst: Ptr, d: int, src: Ptr, s: int)
    requires c.Vendor2DCopy?
  {
    c.dst == dst && c.src == src && InBlock(c.width, c.height, c.dstPitch, c.srcPitch, d, s)
  }

  const UnsupportedMovement := "unsupported data movement for sycl backend"

  /**
   * The oneMKL branch of device_memcpy_2d as written: both accepted kinds call
   * device_setmatrix(height, width, dev_ptr, dev_pitch, host_ptr, host_pitch),
   * which puts dev_ptr in setmatrix's host (source) slot and host_ptr in its
   * device (destination) slot.
   */
  function SyclMemcpy2D(devPtr: Ptr, devPitch: int, hostPtr: Ptr, hostPitch: int, width: nat, height: nat, kindValue: int)
    : (r: Result<seq<Issued>>)
    ensures r.Ok? <==> kindValue == Value(HostToDevice) || kindValue == Value(DeviceToHost)
    ensures r.Err? ==> r.error == BlasError(UnsupportedMovement, "device_memcpy_2d")
    ensures r.Ok? ==> forall k :: 0 <= k < |r.value| ==> r.value[k].Memcpy? && r.value[k].dst == hostPtr
  {
    if kindValue == Value(HostToDevice) || kindValue == Value(DeviceToHost) then
      Ok(MatrixPlan(height, width, hostPtr, hostPitch, devPtr, devPitch))
    else
      Err(BlasError(UnsupportedMovement, "device_memcpy_2d"))
  }

  /**
   * The oneMKL branch as the CUDA and HIP branches behave: `height` runs of
   * `width` elements copied from host_ptr into dev_ptr.
   */
  function SyclMemcpy2DIntended(devPtr: Ptr, devPitch: int, hostPtr: Ptr, hostPitch: int, width: nat, height: nat, kindValue: int)
    : (r: Result<seq<Issued>>)
    ensures r.Ok? <==> kindValue == Value(HostToDevice) || kindValue == Value(DeviceToHost)
    ensures r.Err? ==> r.error == BlasError(UnsupportedMovement, "device_memcpy_2d")
  {
    if kindValue == Value(HostToDevice) || kindValue == Value(DeviceToHost) then
      Ok(MatrixPlan(width, height, devPtr, devPitch, hostPtr, hostPitch))
    else
      Err(BlasError(UnsupportedMovement, "device_memcpy_2d"))
  }

  /** The corrected oneMKL branch moves exactly what the CUDA/HIP 2D copy moves. */
  lemma SyclMemcpy2DIntendedMatchesVendor(devPtr: Ptr, devPitch: int, hostPtr: Ptr, hostPitch: int,
                                          width: nat, height: nat, kind: MemcpyKind, d: int, s: int)
    requires kind == HostToDevice || kind == DeviceToHost
    ensures SyclMemcpy2DIntended(devPtr, devPitch, hostPtr, hostPitch, width, height, Value(kind)).Ok?
    ensures Moves(SyclMemcpy2DIntended(devPtr, devPitch, hostPtr, hostPitch, width, height, Value(kind)).value,
                  devPtr, d, hostPtr, s)
        <==> Vendor2DMoves(Vendor2DCopy(devPtr, devPitch, hostPtr, hostPitch, width, height, kind), devPtr, d, hostPtr, s)
  {
    MatrixPlanCoverage(width, height, devPtr, devPitch, hostPtr, hostPitch, d, s);
  }

  /**
   * As written, a 1-by-1 HostToDevice copy writes into host_ptr and reads
   * dev_ptr, while the CUDA branch writes into dev_ptr.
   */
  lemma SyclMemcpy2DReversedExample()
    ensures SyclMemcpy2D(1, 1, 2, 1, 1, 1, Value(HostToDevice)) == Ok([Memcpy(2, 0, 1, 0, 1)])
    ensures !Moves(SyclMemcpy2D(1, 1, 2, 1, 1, 1, Value(HostToDevice)).value, 1, 0, 2, 0)
    ensures Vendor2DMoves(Vendor2DCopy(1, 1, 2, 1, 1, 1, HostToDevice), 1, 0, 2, 0)
  {
    assert MatrixPlan(1, 1, 2, 1, 1, 1) == [Memcpy(2, 0, 1, 0, 1)];
    assert InBlock(1, 1, 1, 1, 0, 0) by {
      assert 0 == Addr(1, 0, 0);
    }
  }

  /**
   * As written, a 2-wide, 1-high HostToDevice copy with pitch 2 between
   * dev_ptr (handle 1) and host_ptr (handle 2) moves element 2, while the CUDA
   * branch moves elements 0 and 1 and leaves element 2 of both buffers alone.
   */
  lemma SyclMemcpy2DShapeExample()
    ensures SyclMemcpy2D(1, 2, 2, 2, 2, 1, Value(HostToDevice)) == Ok([Memcpy(2, 0, 1, 0, 1), Memcpy(2, 2, 1, 2, 1)])
    ensures Moves(SyclMemcpy2D(1, 2, 2, 2, 2, 1, Value(HostToDevice)).value, 2, 2, 1, 2)
    ensures Vendor2DMoves(Vendor2DCopy(1, 2, 2, 2, 2, 1, HostToDevice), 1, 1, 2, 1)
    ensures !Vendor2DMoves(Vendor2DCopy(1, 2, 2, 2, 2, 1, HostToDevice), 1, 2, 2, 2)
  {
    var plan := [Memcpy(2, 0, 1, 0, 1), Memcpy(2, 2, 1, 2, 1)];
    assert SyclMemcpy2D(1, 2, 2, 2, 2, 1, Value(HostToDevice)) == Ok(plan) by {
      assert MatrixPlan(1, 2, 2, 2, 1, 2)[0] == plan[0];
      assert MatrixPlan(1, 2, 2, 2, 1, 2)[1] == plan[1];
      assert MatrixPlan(1, 2, 2, 2, 1, 2) == plan;
    }
    assert Moves(plan, 2, 2, 1, 2) by {
      assert CopyMoves(plan[1], 2, 2, 1, 2);
    }
    VendorShapeExample();
  }

  /** The CUDA 2D copy of 1 row of 2 elements moves element 1 and not element 2. */
  lemma VendorShapeExample()
    ensures Vendor2DMoves(Vendor2DCopy(1, 2, 2, 2, 2, 1, HostToDevice), 1, 1, 2, 1)
    ensures !Vendor2DMoves(Vendor2DCopy(1, 2, 2, 2, 2, 1, HostToDevice), 1, 2, 2, 2)
  {
    assert InBlock(2, 1, 2, 2, 1, 1) by {
      assert 1 == Addr(2, 1, 0);
    }
  }

  /**
   * device_memcpy_2d, with the oneMKL branch corrected to copy `height` runs of
   * `width` elements from host_ptr into dev_ptr, as the CUDA and HIP branches
   * do (SyclMemcpy2D is that branch as written). The overload without a kind
   * passes Default.
   */
  method DeviceMemcpy2D(backend: Backend, devPtr: Ptr, devPitch: int, hostPtr: Ptr, hostPitch: int,
                        width: nat, height: nat, kindValue: int)
    returns (r: Result<seq<Issued>>)
    ensures backend == NoBackend ==> r == Err(BlasError(NotAvailable, "device_memcpy_2d"))
    ensures backend == OneMkl ==> r == SyclMemcpy2DIntended(devPtr, devPitch, hostPtr, hostPitch, width, height, kindValue)
    ensures backend == Cublas || backend == Rocblas ==>
      (r.Ok? <==> 0 <= kindValue <= 4)
      && (r.Ok? ==> r.value == [Vendor2DCopy(devPtr, devPitch, hostPtr, hostPitch, width, height, KindOf(kindValue).value)])
      && (r.Err? ==> r.error == BlasError("unknown memcpy direction", ""))
  {
    match backend
    case NoBackend =>
      r := Err(ConfigurationError(backend, Helper.DeviceMemcpy2D).value);
    case OneMkl =>
      if kindValue == Value(HostToDevice) {
        r := DeviceSetMatrix(OneMkl, width, height, hostPtr, hostPitch, devPtr, devPitch);
      } else if kindValue == Value(DeviceToHost) {
        r := DeviceSetMatrix(OneMkl, width, height, hostPtr, hostPitch, devPtr, devPitch);
      } else {
        r := Err(BlasError(UnsupportedMovement, "device_memcpy_2d"));
      }
    case Cublas =>
      match MemcpyToCuda(kindValue) {
        case Ok(c) => r := Ok([Vendor2DCopy(devPtr, devPitch, hostPtr, hostPitch, width, height, CudaDirection(c))]);
        case Err(e) => r := Err(e);
      }
    case Rocblas =>
      match MemcpyToHip(kindValue) {
        case Ok(c) => r := Ok([Vendor2DCopy(devPtr, devPitch, hostPtr, hostPitch, width, height, HipDirection(c))]);
        case Err(e) => r := Err(e);
      }
  }
}
