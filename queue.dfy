/**
 * blas::Queue: the stream-multiplexing cursor (fork / revolve / join over a pool
 * of DEV_QUEUE_FORK_SIZE parallel streams) and the byte-sized device workspace
 * that work_resize only ever grows.
 */
module DeviceQueue {
  import opened Wrappers
  import opened Arithmetic
  import opened DeviceTypes
  import opened ErrorPolicy

  /** DEV_QUEUE_FORK_SIZE: the number of parallel streams in the pool. */
  const ForkSize: nat := 10

  /** size_t arithmetic is modulo 2^64. */
  const SizeModulus: nat := 0x1_0000_0000_0000_0000

  /** The stream a kernel is launched on: the queue's default stream or one of the pool. */
  datatype Stream = DefaultStream | ParallelStream(index: nat)

  /** num_active_streams_ and current_stream_index_. */
  datatype StreamState = StreamState(active: nat, cursor: nat) {
    predicate Valid() {
      1 <= active <= ForkSize && cursor < active
    }

    /** More than one active stream means fork mode. */
    predicate Forked() {
      active > 1
    }
  }

  /** The state of a new queue, and of a queue after join(): one active stream. */
  const Initial := StreamState(1, 0)

  /** The backends whose queue keeps a pool of parallel streams and a current-stream pointer. */
  predicate HasStreamPool(b: Backend)
  {
    b == Cublas || b == Rocblas
  }

  /**
   * The stream that stream() returns in state `s`. CUDA and ROCm follow the
   * cursor; the oneMKL queue always hands out its default queue, whatever the
   * cursor says. The build without a backend has no stream() and is given the
   * default stream.
   */
  function StreamOf(b: Backend, s: StreamState): (r: Stream)
    requires s.Valid()
    ensures HasStreamPool(b) ==> (r == DefaultStream <==> !s.Forked())
    ensures HasStreamPool(b) && r.ParallelStream? ==> r.index == s.cursor < ForkSize
    ensures !HasStreamPool(b) ==> r == DefaultStream
  {
    if !HasStreamPool(b) || s.active == 1 then DefaultStream else ParallelStream(s.cursor)
  }

  /** fork(): switch to the parallel streams with the cursor on the first; a no-op when forked. */
  function ForkStep(s: StreamState): (t: StreamState)
    requires s.Valid()
    ensures t.Valid() && t.Forked()
    ensures s.Forked() ==> t == s
    ensures !s.Forked() ==> t.active == ForkSize && t.cursor == 0
  {
    if s.Forked() then s else StreamState(ForkSize, 0)
  }

  /** revolve(): move to the next-in-line stream, wrapping within the active ones. */
  function RevolveStep(s: StreamState): (t: StreamState)
    requires s.Valid()
    ensures t.Valid() && t.active == s.active
    ensures !s.Forked() ==> t == s
    ensures s.Forked() && s.cursor + 1 < s.active ==> t.cursor == s.cursor + 1
    ensures s.Forked() && s.cursor + 1 == s.active ==> t.cursor == 0
  {
    if s.Forked() then StreamState(s.active, (s.cursor + 1) % s.active) else s
  }

  /** join(): back to the default stream; a no-op when not forked. */
  function JoinStep(s: StreamState): (t: StreamState)
    requires s.Valid()
    ensures t == Initial && !t.Forked()
  {
    if s.Forked() then Initial else s
  }

  /** The state after `k` calls of revolve(). */
  function RevolveN(s: StreamState, k: nat): (t: StreamState)
    requires s.Valid()
    ensures t.Valid() && t.active == s.active
  {
    if k == 0 then s else RevolveStep(RevolveN(s, k - 1))
  }

  /** In fork mode, k revolves advance the cursor by k around the active streams. */
  lemma {:induction false} RevolveNCursor(s: StreamState, k: nat)
    requires s.Valid()
    ensures s.Forked() ==> RevolveN(s, k) == StreamState(s.active, (s.cursor + k) % s.active)
    ensures !s.Forked() ==> RevolveN(s, k) == s
  {
    if k > 0 {
      RevolveNCursor(s, k - 1);
      if s.Forked() {
        ModSucc(s.cursor + k - 1, s.active);
      }
    }
  }

  /**
   * After fork() from the default mode, the k-th revolve lands on parallel
   * stream k mod ForkSize on CUDA and ROCm: with 25 items, items 0, 10 and 20
   * share a stream. On the other backends stream() stays the default one.
   */
  lemma ForkedStreamOfItem(b: Backend, k: nat)
    ensures HasStreamPool(b) ==> StreamOf(b, RevolveN(ForkStep(Initial), k)) == ParallelStream(k % ForkSize)
    ensures !HasStreamPool(b) ==> StreamOf(b, RevolveN(ForkStep(Initial), k)) == DefaultStream
  {
    RevolveNCursor(ForkStep(Initial), k);
  }

  /** fork() then join(), repeated `rounds` times from any state. */
  function ForkJoinRounds(s: StreamState, rounds: nat): (t: StreamState)
    requires s.Valid()
    ensures t.Valid()
  {
    if rounds == 0 then s else JoinStep(ForkStep(ForkJoinRounds(s, rounds - 1)))
  }

  /**
   * Any number (at least one) of fork/join rounds returns the queue to the
   * default mode, where revolve() behaves exactly as on a new queue.
   */
  lemma {:induction false} ForkJoinRoundTrip(s: StreamState, rounds: nat, k: nat)
    requires s.Valid() && rounds > 0
    ensures ForkJoinRounds(s, rounds) == Initial
    ensures RevolveN(ForkJoinRounds(s, rounds), k) == RevolveN(Initial, k) == Initial
  {
    RevolveNCursor(Initial, k);
  }

  /** The byte count work_resize asks for: lwork * sizeof(scalar_t) in size_t. */
  function RequestedBytes(n: nat, elemSize: nat): (r: nat)
    ensures r < SizeModulus
    ensures n * elemSize < SizeModulus ==> r == n * elemSize
  {
    (n * elemSize) % SizeModulus
  }

  /** lwork_ after work_resize: the larger of the old capacity and the request. */
  function GrownCapacity(capacity: nat, n: nat, elemSize: nat): nat
  {
    if RequestedBytes(n, elemSize) > capacity then RequestedBytes(n, elemSize) else capacity
  }

  /** work_size: how many whole elements of the given size fit in `bytes`. */
  function ElementCapacity(bytes: nat, elemSize: nat): (r: nat)
    requires elemSize > 0
    ensures r * elemSize <= bytes < (r + 1) * elemSize
  {
    bytes / elemSize
  }

  /**
   * work_resize never shrinks the workspace, and a repeated request changes
   * nothing: the capacity is the maximum of the old one and the request.
   */
  lemma GrownCapacityMonotone(capacity: nat, n: nat, m: nat, elemSize: nat)
    ensures GrownCapacity(capacity, n, elemSize) >= capacity
    ensures GrownCapacity(capacity, n, elemSize) >= RequestedBytes(n, elemSize)
    ensures GrownCapacity(capacity, n, elemSize) == capacity
         || GrownCapacity(capacity, n, elemSize) == RequestedBytes(n, elemSize)
    ensures GrownCapacity(GrownCapacity(capacity, n, elemSize), m, elemSize) >= GrownCapacity(capacity, n, elemSize)
    ensures GrownCapacity(GrownCapacity(capacity, n, elemSize), n, elemSize) == GrownCapacity(capacity, n, elemSize)
  {
  }

  /**
   * When n * sizeof(scalar_t) fits in size_t, work_size<scalar_t>() is at least
   * n after work_resize<scalar_t>(n).
   */
  lemma WorkSizeSufficient(capacity: nat, n: nat, elemSize: nat)
    requires elemSize > 0 && n * elemSize < SizeModulus
    ensures ElementCapacity(GrownCapacity(capacity, n, elemSize), elemSize) >= n
  {
    var bytes := GrownCapacity(capacity, n, elemSize);
    var r := ElementCapacity(bytes, elemSize);
    assert n * elemSize < (r + 1) * elemSize;
    MulCancel(n, r + 1, elemSize);
  }

  /**
   * The size_t product wraps: work_resize<double>(2^61) asks for 0 bytes, so a
   * new queue keeps an empty workspace and work_size<double>() stays 0.
   */
  lemma WorkResizeWraps()
    ensures RequestedBytes(0x2000_0000_0000_0000, 8) == 0
    ensures ElementCapacity(GrownCapacity(0, 0x2000_0000_0000_0000, 8), 8) == 0
  {
  }

  /** The workspace pointer work_: null, or a device allocation of some byte size. */
  datatype Buffer = Null | Allocation(id: nat, bytes: nat)

  /** Operations a queue issues on its own behalf, in order. */
  datatype QueueEvent = Synced | Freed(buffer: Buffer) | Allocated(buffer: Buffer)

  class Queue {
    /** The backend the library was built for. */
    const backend: Backend
    /** device_ */
    const device: int
    /** batch_limit_ */
    const batchLimit: nat
    /** work_ and lwork_ */
    var work: Buffer
    var lwork: nat
    /** num_active_streams_ and current_stream_index_ */
    var numActiveStreams: nat
    var currentStreamIndex: nat
    /** How many workspace allocations were made, so each gets a new id. */
    var allocationCount: nat
    /** sync(), device_free and device_malloc calls made for this queue, in order. */
    var log: seq<QueueEvent>

    ghost predicate Valid()
      reads this
    {
      && State().Valid()
      && lwork < SizeModulus
      && (if work.Null? then lwork == 0 || backend == NoBackend else work.bytes == lwork && work.id < allocationCount)
      && (backend == NoBackend ==> work.Null?)
    }

    function State(): StreamState
      reads this
    {
      StreamState(numActiveStreams, currentStreamIndex)
    }

    /** stream(): the stream the next kernel is launched on. */
    function CurrentStream(): (r: Stream)
      reads this
      requires State().Valid()
      ensures r == StreamOf(backend, State())
      ensures HasStreamPool(backend) && numActiveStreams > 1 ==> r == ParallelStream(currentStreamIndex)
      ensures !HasStreamPool(backend) || numActiveStreams == 1 ==> r == DefaultStream
    {
      StreamOf(backend, State())
    }

    /** work_size<scalar_t>(): the workspace in whole elements of `elemSize` bytes. */
    function WorkSize(elemSize: nat): (r: nat)
      reads this
      requires elemSize > 0
      ensures r * elemSize <= lwork < (r + 1) * elemSize
    {
      ElementCapacity(lwork, elemSize)
    }

    /** A new queue: default mode, empty workspace. */
    constructor (backend: Backend, device: int, batchLimit: nat)
      ensures Valid()
      ensures this.backend == backend && this.device == device && this.batchLimit == batchLimit
      ensures State() == Initial && work == Null && lwork == 0 && log == []
    {
      this.backend := backend;
      this.device := device;
      this.batchLimit := batchLimit;
      work := Null;
      lwork := 0;
      numActiveStreams := 1;
      currentStreamIndex := 0;
      allocationCount := 0;
      log := [];
    }

    /** sync(): waits for the queue's streams; only the call itself is recorded. */
    method Sync()
      modifies this`log
      ensures log == old(log) + [Synced]
    {
      log := log + [Synced];
    }

    /**
     * work_resize<scalar_t>(n) with sizeof(scalar_t) == elemSize: grows the
     * workspace to exactly the requested byte count when it is too small,
     * synchronizing before the old buffer is freed; otherwise changes nothing.
     * Without a backend, device_malloc throws once lwork_ has been raised:
     * `error` is that exception, and work_ stays null.
     */
    method WorkResize(elemSize: nat, n: nat) returns (error: Option<BlasError>)
      requires Valid() && elemSize > 0 && n < SizeModulus
      modifies this
      ensures Valid()
      ensures lwork == GrownCapacity(old(lwork), n, elemSize)
      ensures State() == old(State())
      ensures error.Some? <==> backend == NoBackend && RequestedBytes(n, elemSize) > old(lwork)
      ensures error.Some? ==> error == ConfigurationError(backend, DeviceMallocOnQueue)
      ensures RequestedBytes(n, elemSize) <= old(lwork) ==> unchanged(this)
      ensures RequestedBytes(n, elemSize) > old(lwork) && backend != NoBackend ==>
        && lwork == RequestedBytes(n, elemSize)
        && work == Allocation(old(allocationCount), lwork)
        && allocationCount == old(allocationCount) + 1
        && log == old(log) + [Synced]
                  + (if old(work).Null? then [] else [Freed(old(work))])
                  + [Allocated(work)]
      ensures RequestedBytes(n, elemSize) > old(lwork) && backend == NoBackend ==>
        && lwork == RequestedBytes(n, elemSize)
        && work == Null
        && allocationCount == old(allocationCount)
        && log == old(log) + [Synced]
    {
      error := None;
      var bytes := (n * elemSize) % SizeModulus;
      if bytes > lwork {
        Sync();
        if work != Null {
          log := log + [Freed(work)];
        }
        lwork := bytes;
        error := ConfigurationError(backend, DeviceMallocOnQueue);
        if error.Some? {
          return;
        }
        work := Allocation(allocationCount, bytes);
        allocationCount := allocationCount + 1;
        log := log + [Allocated(work)];
      }
    }

    method Fork()
      requires Valid()
      modifies this`numActiveStreams, this`currentStreamIndex
      ensures Valid()
      ensures State() == ForkStep(old(State()))
    {
      if numActiveStreams == 1 {
        numActiveStreams := ForkSize;
        currentStreamIndex := 0;
      }
    }

    method Revolve()
      requires Valid()
      modifies this`currentStreamIndex
      ensures Valid()
      ensures State() == RevolveStep(old(State()))
    {
      if numActiveStreams > 1 {
        currentStreamIndex := (currentStreamIndex + 1) % numActiveStreams;
      }
    }

    method Join()
      requires Valid()
      modifies this`numActiveStreams, this`currentStreamIndex
      ensures Valid()
      ensures State() == JoinStep(old(State()))
    {
      if numActiveStreams > 1 {
        numActiveStreams := 1;
        currentStreamIndex := 0;
      }
    }
  }
}
