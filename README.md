# blaspp device layer and batched trmm dispatcher, in Dafny

This project models the sequential logic of blaspp's device layer
(`include/blas/device.hh`) and of its batched triangular-multiply dispatcher
(`src/device_batch_trmm.cc`). Calls into the vendor runtimes are treated as
uninterpreted, recorded events. These include CUDA/cuBLAS, HIP/rocBLAS,
SYCL/oneMKL and the forwarded `blas::trmm`.

- `wrappers.dfy` (`Wrappers`): `Option`, `Result` and `BlasError`, the latter
  standing for `blas::Error(message, func)`.
- `arithmetic.dfy` (`Arithmetic`): small nonlinear-arithmetic lemmas used by
  the proofs.
- `device_types.dfy` (`DeviceTypes`): the compiled-in backend, `MemcpyKind`
  and its conversions `memcpy2cuda`, `memcpy2hip` and `memcpy2sycl`.
- `error_policy.dfy` (`ErrorPolicy`): `is_device_error` and the three build
  variants of `blas_dev_call` (no check, abort, throw). Also the errors a
  helper raises when the build has no implementation for it.
- `queue.dfy` (`DeviceQueue`): `blas::Queue` as a class. Its fields are
  `work_`, `lwork_`, `num_active_streams_` and `current_stream_index_`.
  - `work_resize` only grows the byte workspace, calling `sync()` before the
    old buffer is freed.
  - `fork`, `revolve` and `join` are a two-mode state machine with a
    round-robin cursor over `DEV_QUEUE_FORK_SIZE` = 10 parallel streams.
  - The queue knows the compiled-in backend. On CUDA and ROCm `stream()` is
    the stream the cursor designates; on oneMKL it is always the default
    queue.
- `transfers.dfy` (`Transfers`): set/get matrix and vector, memset, memcpy and
  memcpy_2d, as lists of issued backend calls.
  - On oneMKL a strided copy is split into plain memcpys. The split is
    produced by a `for` loop proved equal to a plan function.
  - The plan is proved to move exactly the m-by-n block.
- `batch_trmm.dfy` (`BatchTrmm`): `blas::batch::trmm`.
  - It validates its arguments fail-fast and runs the optional per-item check.
  - It then issues one forwarded call per item, spreading the items over the
    queue's streams.
  - A forwarded call may throw. The exception then leaves the dispatcher
    with no revolve and no join, so a forking backend leaves the queue forked.
  - What it does is recorded as an event trace. Lemmas give the count, order
    and stream of every event.
  - The four overloads differ only in the scalar type, which becomes the type
    parameter `S`.

The memcpy kind is modelled by its underlying integer value. This keeps the
`default: throw` branch of the conversions reachable, since an enum class can
hold a value that is none of its enumerators. `size_t` arithmetic in
`work_resize` is modulo 2^64.

## Model

| member | source | states |
|---|---|---|
| DeviceTypes.Value | include/blas/device.hh:55-61 | each enumerator's underlying value is in 0..4, and that value maps back to the same enumerator |
| DeviceTypes.KindOf | include/blas/device.hh:55-61 | an integer names an enumerator iff it lies in 0..4 |
| DeviceTypes.MemcpyToCuda | include/blas/device.hh:64-76 | succeeds iff the value is one of the five enumerators, returning the CUDA constant of the same direction; otherwise "unknown memcpy direction" |
| DeviceTypes.MemcpyToHip | include/blas/device.hh:77-89 | the same for the HIP constants |
| DeviceTypes.MemcpyToSycl | include/blas/device.hh:90-95 | every kind maps to 0 |
| DeviceTypes.MemcpyToCudaBijective | include/blas/device.hh:66-76 | memcpy2cuda is one-to-one on the enumerators and reaches every CUDA constant |
| DeviceTypes.MemcpyToHipBijective | include/blas/device.hh:79-89 | memcpy2hip is one-to-one on the enumerators and reaches every HIP constant |
| ErrorPolicy.PolicyOf | include/blas/device.hh:274-340 | each of the three blas_dev_call variants is selected by exactly its preprocessor condition |
| ErrorPolicy.IsDeviceError | include/blas/device.hh:226-258 | a status is an error iff it differs from its type's success value, for cuda, cublas, hip and rocblas statuses alike |
| ErrorPolicy.DevCallStatus | include/blas/device.hh:274-340 | no check: always proceeds. Otherwise it stops iff the status is an error. Abort carries `__func__` and the error string; throw raises blas::Error(error string, `__func__`) |
| ErrorPolicy.DevCallSycl | include/blas/device.hh:283-299 | the oneMKL variants: stops iff the call threw. The message is the exception's what(), or "unknown exception". Without checking, the exception escapes unchanged |
| ErrorPolicy.CheckingPoliciesAgree | include/blas/device.hh:280-338 | the abort and throw policies fail on the same calls with the same message and call site |
| ErrorPolicy.ConfigurationError | include/blas/device.hh:378-384 | without a backend, every helper raises "device BLAS not available" with its own name. On oneMKL only the two queue-less allocations raise "unsupported function for sycl backend". CUDA and ROCm raise nothing |
| DeviceQueue.StreamOf | include/blas/device.hh:139-147 | CUDA and ROCm: the default stream iff not forked, otherwise the pool stream under the cursor, below 10. oneMKL and a build without backend: always the default stream |
| DeviceQueue.ForkStep | include/blas/device.hh:130-131 | fork: from the default mode to all 10 parallel streams with the cursor on stream 0; a no-op when already forked |
| DeviceQueue.RevolveStep | include/blas/device.hh:136-137 | revolve: the next-in-line stream, wrapping to 0 after the last active one; a no-op in the default mode |
| DeviceQueue.JoinStep | include/blas/device.hh:133-134 | join: back to the single default stream from any state |
| DeviceQueue.RevolveNCursor | include/blas/device.hh:136-137 | k revolves advance the cursor by k modulo the number of active streams, and do nothing in the default mode |
| DeviceQueue.ForkedStreamOfItem | include/blas/device.hh:101 | CUDA and ROCm: after fork from the default mode, the k-th revolve lands on parallel stream k mod 10. oneMKL and no backend: still the default stream |
| DeviceQueue.ForkJoinRoundTrip | include/blas/device.hh:130-134 | any number of fork/join rounds returns to the initial state, where revolve is a no-op |
| DeviceQueue.RequestedBytes | include/blas/device.hh:817 | the requested byte count is below 2^64, and equals n*sizeof(T) when that product fits |
| DeviceQueue.ElementCapacity | include/blas/device.hh:125 | work_size is the number of whole elements that fit in lwork_ bytes |
| DeviceQueue.GrownCapacityMonotone | include/blas/device.hh:815-826 | the capacity never shrinks. It is the maximum of the old capacity and the request. A repeated request changes nothing |
| DeviceQueue.WorkSizeSufficient | include/blas/device.hh:808-826 | after work_resize<T>(n), work_size<T>() >= n whenever n*sizeof(T) fits in size_t |
| DeviceQueue.WorkResizeWraps | include/blas/device.hh:817 | work_resize<double>(2^61) asks for 0 bytes, so the workspace stays empty |
| DeviceQueue.Queue.CurrentStream | include/blas/device.hh:139-147 | CUDA and ROCm: stream() is the parallel stream under the cursor when forked, the default stream otherwise. oneMKL: always the default stream |
| DeviceQueue.Queue.WorkSize | include/blas/device.hh:124-125 | work_size<T>() whole elements fit in lwork_ and one more does not |
| DeviceQueue.Queue.constructor | include/blas/device.hh:108-109 | a new queue for the compiled-in backend is in the default mode with an empty workspace |
| DeviceQueue.Queue.Sync | include/blas/device.hh:116 | records one sync |
| DeviceQueue.Queue.WorkResize | include/blas/device.hh:815-826 | lwork_ becomes the maximum of the old value and the request. When no growth is needed nothing changes (no sync, free or allocation) and nothing is thrown. Otherwise it syncs, frees the old buffer only if non-null, raises lwork_ to the requested bytes, then allocates exactly that. Without a backend the allocation throws "device BLAS not available" from device_malloc (device.hh:410-411), leaving work_ null with lwork_ raised. The stream state is untouched |
| DeviceQueue.Queue.Fork | include/blas/device.hh:130-131 | the new stream state is ForkStep of the old |
| DeviceQueue.Queue.Revolve | include/blas/device.hh:136-137 | the new stream state is RevolveStep of the old |
| DeviceQueue.Queue.Join | include/blas/device.hh:133-134 | the new stream state is JoinStep of the old |
| Transfers.MatrixPlan | include/blas/device.hh:495-511 | one copy when both leading dimensions equal m, otherwise n copies; all are memcpys from the source buffer into the destination buffer |
| Transfers.VectorPlan | include/blas/device.hh:607-621 | one copy when both increments are 1, otherwise n copies; all are memcpys from source to destination |
| Transfers.MatrixPlanCoverage | include/blas/device.hh:495-511 | the plan moves source element s into destination element d iff they are entry (i, j) of the m-by-n block under the two leading dimensions |
| Transfers.MatrixPlanVolume | include/blas/device.hh:495-511 | either way m*n elements are transferred |
| Transfers.VectorPlanIsMatrixPlan | include/blas/device.hh:607-621 | the vector split is the matrix split of a 1-by-n block with the increments as leading dimensions |
| Transfers.VectorPlanCoverage | include/blas/device.hh:607-621 | the vector plan moves element ie*inc_src to ie*inc_dst for each ie < n and nothing else, n elements in all |
| Transfers.MemcpyMatrix | include/blas/device.hh:495-511 | the loop over columns issues exactly the matrix plan |
| Transfers.MemcpyVector | include/blas/device.hh:607-621 | the loop over elements issues exactly the vector plan |
| Transfers.DeviceSetMatrix | include/blas/device.hh:468-520 | no backend: "device BLAS not available". CUDA/ROCm: one vendor set-matrix call. oneMKL: the matrix plan from host to device |
| Transfers.DeviceGetMatrix | include/blas/device.hh:524-576 | the same, from device to host |
| Transfers.DeviceSetVector | include/blas/device.hh:580-629 | no backend: the error. CUDA/ROCm: one vendor set-vector call. oneMKL: the vector plan from host to device |
| Transfers.DeviceGetVector | include/blas/device.hh:633-682 | the same, from device to host |
| Transfers.DeviceMemset | include/blas/device.hh:686-710 | fails iff there is no backend; otherwise exactly one memset of the given element count |
| Transfers.DeviceMemcpy | include/blas/device.hh:714-739 | oneMKL: one memcpy whatever the kind. CUDA/ROCm: one copy in the converted direction, failing iff the kind is not an enumerator. No backend: the error |
| Transfers.SyclMemcpy2D | include/blas/device.hh:777-787 | as written: only HostToDevice and DeviceToHost are accepted, otherwise "unsupported data movement for sycl backend". Every copy of an accepted kind writes into host_ptr |
| Transfers.SyclMemcpy2DIntended | include/blas/device.hh:777-787 | the corrected branch accepts the same kinds with the same error |
| Transfers.SyclMemcpy2DIntendedMatchesVendor | include/blas/device.hh:763-775 | the corrected oneMKL branch moves exactly the elements cudaMemcpy2DAsync / hipMemcpy2DAsync move: height rows of width elements from host_ptr into dev_ptr |
| Transfers.SyclMemcpy2DReversedExample | include/blas/device.hh:782-785 | as written, a 1-by-1 HostToDevice copy writes into host_ptr where the CUDA branch writes into dev_ptr |
| Transfers.SyclMemcpy2DShapeExample | include/blas/device.hh:778-783 | as written, a copy 2 wide and 1 high with pitch 2 between two distinct buffers moves element 2, which the CUDA branch does not touch |
| Transfers.VendorShapeExample | include/blas/device.hh:763-768 | the CUDA 2D copy of one row of 2 elements moves element 1 and not element 2 |
| Transfers.DeviceMemcpy2D | include/blas/device.hh:757-792 | no backend: the error. CUDA/ROCm: one 2D copy in the converted direction, failing with "unknown memcpy direction" iff the kind is not an enumerator. oneMKL: the corrected branch |
| BatchTrmm.Extract | src/device_batch_trmm.cc:53-63 | a one-element vector is broadcast, otherwise item i gets element i (an assumption about blas::batch::extract) |
| BatchTrmm.Validate | src/device_batch_trmm.cc:27-29 | no error iff the layout is ColMajor or RowMajor and info has size 0, 1 or batch. A bad layout is reported first, then a bad info size |
| BatchTrmm.StartState | src/device_batch_trmm.cc:50-51 | the stream state before item 0 is valid |
| BatchTrmm.ItemEvents | src/device_batch_trmm.cc:52-70 | the item events hold two events per item when forking, one otherwise |
| BatchTrmm.DispatchTrace | src/device_batch_trmm.cc:30-72 | the trace length: the prologue, an optional fork, the item events and an optional join |
| BatchTrmm.AbortedTrace | src/device_batch_trmm.cc:30-69 | when item k's call throws: the prologue, the optional fork, two events per earlier item when forking (one otherwise), then item k's call |
| BatchTrmm.Trmm | src/device_batch_trmm.cc:13-73 | an invalid layout or info size returns the error with no event, info untouched and the queue unchanged. Otherwise info holds trmm_check's output iff it is non-empty, and it throws iff some item's forwarded call throws. Without a throw the events are exactly DispatchTrace and the queue ends in the default mode when forking, unchanged otherwise. With a throw at item k the events are AbortedTrace and the queue is left revolved k times past the fork when forking, unchanged otherwise |
| BatchTrmm.IssuePrologue | src/device_batch_trmm.cc:30-51 | the check event when info is non-empty, set_device except on oneMKL, then fork unless the backend is rocBLAS; the queue is left in StartState |
| BatchTrmm.IssueItems | src/device_batch_trmm.cc:52-70 | the item loop issues exactly the item events and leaves the queue revolved once per item when forking. When item k throws it stops right after item k's call, with the queue revolved k times |
| BatchTrmm.CountAppend | src/device_batch_trmm.cc:50-72 | event counts add up over concatenated traces |
| BatchTrmm.ItemEventsAt | src/device_batch_trmm.cc:52-70 | item i's call sits at position 2i (forking) or i, with its extracted arguments and the current stream. When forking a revolve follows each call |
| BatchTrmm.ItemEventsCount | src/device_batch_trmm.cc:52-70 | the item events hold one call per item, one revolve per item when forking, and nothing else |
| BatchTrmm.DispatchCallsInOrder | src/device_batch_trmm.cc:52-67 | exactly batch forwarded trmm calls, in increasing index order, call i with every parameter extracted at i |
| BatchTrmm.DispatchCallCount | src/device_batch_trmm.cc:52-67 | a dispatch that does not throw makes exactly batch forwarded calls |
| BatchTrmm.DispatchQueueOpCounts | src/device_batch_trmm.cc:30-72 | fork and join once each when forking, never otherwise. Revolve batch times when forking, never otherwise. The check runs once iff info is non-empty. set_device runs once except on oneMKL |
| BatchTrmm.DispatchQueueOpOrder | src/device_batch_trmm.cc:30-72 | the check first, then set_device. When forking: fork right before item 0, a revolve right after every call, join last |
| BatchTrmm.DispatchStreams | src/device_batch_trmm.cc:39-72 | cuBLAS forking from the default mode: item i runs on parallel stream i mod 10. cuBLAS from a forked queue: the round robin continues from its cursor. rocBLAS: every item on the caller's current stream. oneMKL and no backend: every item on the default stream |
| BatchTrmm.AbortedDispatchLeavesForked | src/device_batch_trmm.cc:50-72 | a throw at item k means k + 1 calls and no join; a forking backend leaves the queue forked, from the default mode with the cursor on stream k mod 10 |

## Left out

- Vendor runtime calls are recorded as events and nothing more. This covers cudaMalloc, the cuBLAS/rocBLAS copies, the SYCL queue's memcpy and memset, and the forwarded blas::trmm. Their effect on memory, their asynchrony and their numerics are not modelled.
- Stream concurrency and the completion semantics of `sync()` and `join()` are not modelled. The bodies of `sync`, `fork`, `join` and `revolve` are declared in `include/blas/device.hh` but defined elsewhere, and that code is not part of this model. `fork`, `revolve` and `join` are modelled from their doc comments as a two-mode cursor.
- `blas::batch::extract` and `trmm_check` live in `blas/batch_common.hh`, which is not part of this model.
  - `extract` is given the rule stated at BatchTrmm.Extract, as an assumption.
  - `trmm_check` is the caller-supplied value `checked` that it writes into `info`. Its own errors are not modelled.
- The `blas_error_if` message is taken to be the text of the failing condition. `blas/util.hh`, where the macro is defined, is not part of this model.
- Queue constructors and destructor, `get_dev_ptr_array`, `set_device`, `get_device`, `get_device_count`, `enumerate_devices` and `device_free*` are left out as runtime resource management. The constructor is kept only as the initial state.
- The `device_malloc*` helpers are modelled only by their configuration errors (ErrorPolicy.ConfigurationError). The allocation itself is a vendor call.
- DeviceQueue.Queue.WorkResize: on CUDA, ROCm and oneMKL the vendor allocation is assumed to succeed, and the freed buffer is not tracked further. A failing vendor allocation would throw after lwork_ was already raised, as the no-backend build always does (that case is modelled). `sync()` is recorded as succeeding on every backend; its body is not part of this model.
- The narrowing casts to `device_blas_int` are not modelled. Inputs are assumed to fit.
- Negative dimensions are not modelled: m, n, width and height are natural numbers. The source passes them as int64_t.
- Transfers.DeviceSetMatrix, Transfers.DeviceGetMatrix, Transfers.DeviceSetVector, Transfers.DeviceGetVector, Transfers.DeviceMemset, Transfers.DeviceMemcpy, Transfers.DeviceMemcpy2D: each issued call is assumed to succeed. Its failure is decided per call by ErrorPolicy.DevCallStatus / ErrorPolicy.DevCallSycl and is not threaded through the copy loops.
- The overloads of `device_memcpy` and `device_memcpy_2d` without a kind only pass `MemcpyKind::Default`. They have no separate member.
- A build without a backend declares no `stream()` on `Queue`. The model gives such a queue the default stream, and whether its forwarded calls fail is left to `throwsAt`.
- BatchTrmm.Trmm: `throwsAt` stands for any exception of the forwarded blas::trmm, be it an argument check or a device error under the throwing policy. Which item throws is an input, not derived from the arguments. An exception from trmm_check itself is not modelled.
- `example/example_gemm.cc` is a usage demonstration with no logic of its own.

## Findings

| source | as written | input that shows it | evidently intended | confidence | as-written member | corrected member |
|---|---|---|---|---|---|---|
| include/blas/device.hh:782-785 | on oneMKL both accepted kinds call `device_setmatrix(m, n, dev_ptr, ldd, host_ptr, ldh)`. That puts dev_ptr in setmatrix's host (source) slot, so data moves from dev_ptr into host_ptr | width 1, height 1, pitches 1, kind HostToDevice: the copy writes host_ptr[0], while cudaMemcpy2DAsync in the CUDA branch writes dev_ptr[0] | copy from host_ptr into dev_ptr, as the CUDA and HIP branches do | medium, not executed | Transfers.SyclMemcpy2D, Transfers.SyclMemcpy2DReversedExample | Transfers.SyclMemcpy2DIntended, Transfers.SyclMemcpy2DIntendedMatchesVendor |
| include/blas/device.hh:778-783 | `m = height` is passed as setmatrix's row count, the contiguous extent, and `n = width` as its column count | width 2, height 1, pitches 2: the oneMKL branch moves elements 0 and 2, while the CUDA branch moves elements 0 and 1 | height runs of width contiguous elements, with the pitch between runs | medium, not executed | Transfers.SyclMemcpy2D, Transfers.SyclMemcpy2DShapeExample | Transfers.SyclMemcpy2DIntended, Transfers.SyclMemcpy2DIntendedMatchesVendor |
