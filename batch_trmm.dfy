/**
 * blas::batch::trmm on a device queue: fail-fast argument validation, the
 * optional per-item check that writes `info`, then one forwarded blas::trmm
 * call per batch item, spread over the queue's parallel streams by
 * fork / revolve / join. The four overloads (float, double, complex<float>,
 * complex<double>) differ only in the scalar type, which is the type
 * parameter S here.
 */
module BatchTrmm {
  import opened Wrappers
  import opened DeviceTypes
  import opened DeviceQueue
  import Transfers

  /** blas::Layout; `Unnamed` stands for a value of the enum type that is neither enumerator. */
  datatype Layout = ColMajor | RowMajor | Unnamed

  datatype Side = Left | Right
  datatype Uplo = Upper | Lower | General
  datatype Op = NoTrans | Trans | ConjTrans
  datatype Diag = NonUnit | Unit

  /** The arguments of one forwarded blas::trmm call (besides layout and queue). */
  datatype TrmmArgs<S> = TrmmArgs(
    side: Side, uplo: Uplo, trans: Op, diag: Diag, m: int, n: int,
    alpha: S, a: Transfers.Ptr, lda: int, b: Transfers.Ptr, ldb: int)

  /** The vector arguments of blas::batch::trmm: each one value for all items, or one per item. */
  datatype TrmmBatch<S> = TrmmBatch(
    side: seq<Side>, uplo: seq<Uplo>, trans: seq<Op>, diag: seq<Diag>,
    m: seq<int>, n: seq<int>, alpha: seq<S>,
    a: seq<Transfers.Ptr>, lda: seq<int>, b: seq<Transfers.Ptr>, ldb: seq<int>)

  predicate Extractable<X>(v: seq<X>, batch: nat)
  {
    |v| == 1 || |v| >= batch
  }

  /** Every vector can supply an argument to each of `batch` items. */
  predicate WellSized<S>(p: TrmmBatch<S>, batch: nat)
  {
    && Extractable(p.side, batch) && Extractable(p.uplo, batch) && Extractable(p.trans, batch)
    && Extractable(p.diag, batch) && Extractable(p.m, batch) && Extractable(p.n, batch)
    && Extractable(p.alpha, batch) && Extractable(p.a, batch) && Extractable(p.lda, batch)
    && Extractable(p.b, batch) && Extractable(p.ldb, batch)
  }

  /**
   * blas::batch::extract, whose body is not part of this model; taken to be: a
   * one-element vector is broadcast to every item, otherwise item i gets element i.
   */
  function Extract<X>(v: seq<X>, i: nat): (x: X)
    requires |v| == 1 || i < |v|
    ensures |v| == 1 ==> x == v[0]
    ensures |v| != 1 ==> x == v[i]
  {
    if |v| == 1 then v[0] else v[i]
  }

  /** The arguments item i is called with: every parameter extracted at i. */
  function ItemArgs<S>(p: TrmmBatch<S>, batch: nat, i: nat): TrmmArgs<S>
    requires WellSized(p, batch) && i < batch
  {
    TrmmArgs(
      Extract(p.side, i), Extract(p.uplo, i), Extract(p.trans, i), Extract(p.diag, i),
      Extract(p.m, i), Extract(p.n, i), Extract(p.alpha, i),
      Extract(p.a, i), Extract(p.lda, i), Extract(p.b, i), Extract(p.ldb, i))
  }

  const LayoutCheck := "layout != Layout::ColMajor && layout != Layout::RowMajor"
  const InfoSizeCheck := "!(info.size() == 0 || info.size() == 1 || info.size() == batch)"

  /**
   * The blas_error_if checks, in order. `batch` is a size_t, so the check
   * batch < 0 never fires and is not represented.
   */
  function Validate(layout: Layout, batch: nat, infoSize: nat): (r: Option<BlasError>)
    ensures r.None? <==> (layout == ColMajor || layout == RowMajor) && (infoSize == 0 || infoSize == 1 || infoSize == batch)
    ensures layout == Unnamed ==> r == Some(BlasError(LayoutCheck, "trmm"))
    ensures (layout == ColMajor || layout == RowMajor) && r.Some? ==> r == Some(BlasError(InfoSizeCheck, "trmm"))
  {
    if layout != ColMajor && layout != RowMajor then Some(BlasError(LayoutCheck, "trmm"))
    else if !(infoSize == 0 || infoSize == 1 || infoSize == batch) then Some(BlasError(InfoSizeCheck, "trmm"))
    else None
  }

  /** What the dispatcher does, in order. */
  datatype DispatchEvent<S> =
    | CheckInfo                                          // trmm_check writes info
    | SetDevice(device: int)                             // blas::set_device(queue.device())
    | Fork                                               // queue.fork()
    | Call(index: nat, args: TrmmArgs<S>, stream: Stream)  // blas::trmm on queue.stream()
    | Revolve                                            // queue.revolve()
    | Join                                               // queue.join()

  /** The rocBLAS build does not fork (multiple streams mis-schedule trmm on ROCm 4.0). */
  function Forks(b: Backend): bool
  {
    b != Rocblas
  }

  /** Events before the item loop: the optional check, then set_device except on oneMKL. */
  function Prologue<S>(b: Backend, infoSize: nat, device: int): seq<DispatchEvent<S>>
  {
    (if infoSize > 0 then [CheckInfo] else []) + (if b != OneMkl then [SetDevice(device)] else [])
  }

  /** The queue's stream state when item i is issued, `s` being the state after the optional fork. */
  function ItemState(fork: bool, s: StreamState, i: nat): (t: StreamState)
    requires s.Valid()
    ensures t.Valid()
  {
    if fork then RevolveN(s, i) else s
  }

  /** The events of items 0 .. k-1: each a call, followed by a revolve when forking. */
  function ItemEvents<S>(b: Backend, p: TrmmBatch<S>, batch: nat, s: StreamState, k: nat): (t: seq<DispatchEvent<S>>)
    requires WellSized(p, batch) && s.Valid() && k <= batch
    ensures |t| == if Forks(b) then 2 * k else k
  {
    if k == 0 then [] else ItemEvents(b, p, batch, s, k - 1) + ItemStep(b, p, batch, s, k - 1)
  }

  /** The events of item i: its call on the current stream, then a revolve when forking. */
  function ItemStep<S>(b: Backend, p: TrmmBatch<S>, batch: nat, s: StreamState, i: nat): seq<DispatchEvent<S>>
    requires WellSized(p, batch) && s.Valid() && i < batch
  {
    [Call(i, ItemArgs(p, batch, i), StreamOf(b, ItemState(Forks(b), s, i)))] + (if Forks(b) then [Revolve] else [])
  }

  /** The whole event trace of a call that passes validation, from queue state `s0`. */
  function DispatchTrace<S>(b: Backend, p: TrmmBatch<S>, batch: nat, infoSize: nat, device: int, s0: StreamState)
    : (t: seq<DispatchEvent<S>>)
    requires WellSized(p, batch) && s0.Valid()
    ensures |t| == ItemsStart(b, infoSize) + if Forks(b) then 2 * batch + 1 else batch
  {
    var fork := Forks(b);
    Prologue(b, infoSize, device)
      + (if fork then [Fork] else [])
      + ItemEvents(b, p, batch, StartState(b, s0), batch)
      + (if fork then [Join] else [])
  }

  /**
   * The events of a call that passes validation but whose forwarded trmm for
   * item k throws: the items before k, then item k's call, and nothing after
   * it (no revolve, no join).
   */
  function AbortedTrace<S>(b: Backend, p: TrmmBatch<S>, batch: nat, infoSize: nat, device: int, s0: StreamState, k: nat)
    : (t: seq<DispatchEvent<S>>)
    requires WellSized(p, batch) && s0.Valid() && k < batch
    ensures |t| == ItemsStart(b, infoSize) + (if Forks(b) then 2 * k else k) + 1
  {
    Prologue(b, infoSize, device)
      + (if Forks(b) then [Fork] else [])
      + ItemEvents(b, p, batch, StartState(b, s0), k)
      + [Call(k, ItemArgs(p, batch, k), StreamOf(b, ItemState(Forks(b), StartState(b, s0), k)))]
  }

  /**
   * blas::batch::trmm. `checked` is what trmm_check (not part of this model)
   * writes into info. `throwsAt` names the item, if any, whose forwarded
   * blas::trmm throws; the exception leaves the dispatcher (`thrown`) without
   * the revolve and join that would have followed. The forwarded calls and
   * queue operations are the trace.
   */
  method Trmm<S>(layout: Layout, p: TrmmBatch<S>, batch: nat, info: seq<int>, checked: seq<int>,
                 throwsAt: Option<nat>, queue: Queue)
    returns (error: Option<BlasError>, infoOut: seq<int>, thrown: bool, trace: seq<DispatchEvent<S>>)
    requires queue.Valid() && |checked| == |info|
    requires Validate(layout, batch, |info|).None? ==> WellSized(p, batch)
    modifies queue`numActiveStreams, queue`currentStreamIndex
    ensures queue.Valid()
    ensures error == Validate(layout, batch, |info|)
    ensures error.Some? ==> trace == [] && infoOut == info && !thrown && queue.State() == old(queue.State())
    ensures error.None? ==>
      && infoOut == (if |info| > 0 then checked else info)
      && (thrown <==> throwsAt.Some? && throwsAt.value < batch)
    ensures error.None? && !thrown ==>
      && trace == DispatchTrace(queue.backend, p, batch, |info|, queue.device, old(queue.State()))
      && queue.State() == (if Forks(queue.backend) then Initial else old(queue.State()))
    ensures error.None? && thrown ==>
      && trace == AbortedTrace(queue.backend, p, batch, |info|, queue.device, old(queue.State()), throwsAt.value)
      && queue.State()
         == ItemState(Forks(queue.backend), StartState(queue.backend, old(queue.State())), throwsAt.value)
  {
    error := Validate(layout, batch, |info|);
    infoOut := info;
    thrown := false;
    trace := [];
    if error.Some? {
      return;
    }
    if |info| > 0 {
      infoOut := checked;
    }
    ghost var s0 := queue.State();
    var b := queue.backend;
    var fork := Forks(b);
    trace := IssuePrologue<S>(|info|, queue);
    var items;
    items, thrown := IssueItems(p, batch, throwsAt, queue);
    if thrown {
      trace := trace + items;
      assert trace == AbortedTrace(b, p, batch, |info|, queue.device, s0, throwsAt.value);
      return;
    }
    if fork {
      queue.Join();
    }
    trace := trace + items + (if fork then [Join] else []);
    assert trace == DispatchTrace(b, p, batch, |info|, queue.device, s0);
  }

  /**
   * Before the item loop: the trmm_check event when info is given, set_device
   * except on oneMKL, and fork() unless the backend is rocBLAS.
   */
  method IssuePrologue<S>(infoSize: nat, queue: Queue) returns (trace: seq<DispatchEvent<S>>)
    requires queue.Valid()
    modifies queue`numActiveStreams, queue`currentStreamIndex
    ensures queue.Valid()
    ensures trace == Prologue(queue.backend, infoSize, queue.device) + (if Forks(queue.backend) then [Fork] else [])
    ensures queue.State() == StartState(queue.backend, old(queue.State()))
  {
    trace := [];
    if infoSize > 0 {
      trace := trace + [CheckInfo];
    }
    if queue.backend != OneMkl {
      trace := trace + [SetDevice(queue.device)];
    }
    if Forks(queue.backend) {
      queue.Fork();
      trace := trace + [Fork];
    }
  }

  /**
   * The item loop: extract item i, forward its call on the current stream,
   * revolve when forking; stop right after the call of item `throwsAt`.
   */
  method IssueItems<S>(p: TrmmBatch<S>, batch: nat, throwsAt: Option<nat>, queue: Queue)
    returns (trace: seq<DispatchEvent<S>>, thrown: bool)
    requires queue.Valid() && WellSized(p, batch)
    modifies queue`currentStreamIndex
    ensures queue.Valid()
    ensures thrown <==> throwsAt.Some? && throwsAt.value < batch
    ensures !thrown ==>
      && trace == ItemEvents(queue.backend, p, batch, old(queue.State()), batch)
      && queue.State() == ItemState(Forks(queue.backend), old(queue.State()), batch)
    ensures thrown ==>
      && trace == ItemEvents(queue.backend, p, batch, old(queue.State()), throwsAt.value)
                  + [Call(throwsAt.value, ItemArgs(p, batch, throwsAt.value),
                          StreamOf(queue.backend, ItemState(Forks(queue.backend), old(queue.State()), throwsAt.value)))]
      && queue.State() == ItemState(Forks(queue.backend), old(queue.State()), throwsAt.value)
  {
    trace := [];
    thrown := false;
    ghost var s := queue.State();
    var fork := Forks(queue.backend);
    for i := 0 to batch
      invariant queue.Valid()
      invariant throwsAt.Some? ==> throwsAt.value >= i
      invariant queue.State() == ItemState(fork, s, i)
      invariant trace == ItemEvents(queue.backend, p, batch, s, i)
    {
      var args := ItemArgs(p, batch, i);
      trace := trace + [Call(i, args, queue.CurrentStream())];
      if throwsAt.Some? && throwsAt.value == i {
        thrown := true;
        return;
      }
      if fork {
        queue.Revolve();
        trace := trace + [Revolve];
      }
      assert trace == ItemEvents(queue.backend, p, batch, s, i) + ItemStep(queue.backend, p, batch, s, i);
    }
  }

  /** Where the item events start in a dispatch trace: after the prologue and the optional fork. */
  function ItemsStart(b: Backend, infoSize: nat): nat
  {
    (if infoSize > 0 then 1 else 0) + (if b != OneMkl then 1 else 0) + (if Forks(b) then 1 else 0)
  }

  /** The stream state before item 0: after the fork when the backend forks. */
  function StartState(b: Backend, s0: StreamState): (s: StreamState)
    requires s0.Valid()
    ensures s.Valid()
  {
    if Forks(b) then ForkStep(s0) else s0
  }

  datatype EventKind = CheckInfoKind | SetDeviceKind | ForkKind | CallKind | RevolveKind | JoinKind

  function EventKindOf<S>(e: DispatchEvent<S>): EventKind
  {
    match e
    case CheckInfo => CheckInfoKind
    case SetDevice(_) => SetDeviceKind
    case Fork => ForkKind
    case Call(_, _, _) => CallKind
    case Revolve => RevolveKind
    case Join => JoinKind
  }

  /** How many events of kind `k` a trace holds. */
  function Count<S>(t: seq<DispatchEvent<S>>, k: EventKind): nat
  {
    if t == [] then 0 else (if EventKindOf(t[0]) == k then 1 else 0) + Count(t[1..], k)
  }

  lemma {:induction false} CountAppend<S>(a: seq<DispatchEvent<S>>, b: seq<DispatchEvent<S>>, k: EventKind)
    ensures Count(a + b, k) == Count(a, k) + Count(b, k)
  {
    if a == [] {
      assert a + b == b;
    } else {
      assert (a + b)[0] == a[0];
      assert (a + b)[1..] == a[1..] + b;
      CountAppend(a[1..], b, k);
    }
  }

  lemma CountSingle<S>(e: DispatchEvent<S>, k: EventKind)
    ensures Count([e], k) == if EventKindOf(e) == k then 1 else 0
  {
    assert [e][1..] == [];
  }

  /**
   * The item events in detail: item i's call sits at position 2i (forking) or
   * i (not forking), and when forking a revolve follows each call.
   */
  lemma {:induction false} ItemEventsAt<S>(b: Backend, p: TrmmBatch<S>, batch: nat, s: StreamState, k: nat)
    requires WellSized(p, batch) && s.Valid() && k <= batch
    ensures forall i :: 0 <= i < k ==>
      ItemEvents(b, p, batch, s, k)[if Forks(b) then 2 * i else i]
        == Call(i, ItemArgs(p, batch, i), StreamOf(b, ItemState(Forks(b), s, i)))
    ensures Forks(b) ==> forall i :: 0 <= i < k ==> ItemEvents(b, p, batch, s, k)[2 * i + 1].Revolve?
  {
    if k > 0 {
      var prev := ItemEvents(b, p, batch, s, k - 1);
      var step := ItemStep(b, p, batch, s, k - 1);
      var t := ItemEvents(b, p, batch, s, k);
      ItemEventsAt(b, p, batch, s, k - 1);
      assert t == prev + step;
      forall i | 0 <= i < k - 1
        ensures t[if Forks(b) then 2 * i else i] == prev[if Forks(b) then 2 * i else i]
        ensures Forks(b) ==> t[2 * i + 1] == prev[2 * i + 1]
      {
        PrefixIndex(prev, step, if Forks(b) then 2 * i else i);
        if Forks(b) {
          PrefixIndex(prev, step, 2 * i + 1);
        }
      }
      assert t[|prev|] == step[0];
      if Forks(b) {
        assert t[|prev| + 1] == step[1];
      }
    }
  }

  lemma PrefixIndex<S>(prev: seq<DispatchEvent<S>>, step: seq<DispatchEvent<S>>, j: nat)
    requires j < |prev|
    ensures (prev + step)[j] == prev[j]
  {
  }

  /** Item events hold one call per item, and one revolve per item when forking. */
  lemma {:induction false} ItemEventsCount<S>(b: Backend, p: TrmmBatch<S>, batch: nat, s: StreamState, k: nat)
    requires WellSized(p, batch) && s.Valid() && k <= batch
    ensures Count(ItemEvents(b, p, batch, s, k), CallKind) == k
    ensures Count(ItemEvents(b, p, batch, s, k), RevolveKind) == if Forks(b) then k else 0
    ensures forall kind :: kind != CallKind && kind != RevolveKind ==> Count(ItemEvents(b, p, batch, s, k), kind) == 0
  {
    if k > 0 {
      var prev := ItemEvents(b, p, batch, s, k - 1);
      var call: DispatchEvent<S> := Call(k - 1, ItemArgs(p, batch, k - 1), StreamOf(b, ItemState(Forks(b), s, k - 1)));
      ItemEventsCount(b, p, batch, s, k - 1);
      if Forks(b) {
        assert ItemEvents(b, p, batch, s, k) == prev + [call] + [Revolve];
        forall kind: EventKind
          ensures Count(ItemEvents(b, p, batch, s, k), kind)
            == Count(prev, kind) + (if kind == CallKind then 1 else 0) + (if kind == RevolveKind then 1 else 0)
        {
          CountAppend(prev + [call], [Revolve], kind);
          CountAppend(prev, [call], kind);
          CountSingle(call, kind);
          CountSingle<S>(Revolve, kind);
        }
      } else {
        assert ItemEvents(b, p, batch, s, k) == prev + [call];
        forall kind: EventKind
          ensures Count(ItemEvents(b, p, batch, s, k), kind) == Count(prev, kind) + (if kind == CallKind then 1 else 0)
        {
          CountAppend(prev, [call], kind);
          CountSingle(call, kind);
        }
      }
    }
  }

  /** The trace as its four parts, with the item events starting at ItemsStart. */
  lemma DispatchTraceParts<S>(b: Backend, p: TrmmBatch<S>, batch: nat, infoSize: nat, device: int, s0: StreamState)
    requires WellSized(p, batch) && s0.Valid()
    ensures DispatchTrace(b, p, batch, infoSize, device, s0)
      == Prologue(b, infoSize, device) + (if Forks(b) then [Fork] else [])
         + ItemEvents(b, p, batch, StartState(b, s0), batch) + (if Forks(b) then [Join] else [])
    ensures |Prologue<S>(b, infoSize, device) + (if Forks(b) then [Fork] else [])| == ItemsStart(b, infoSize)
  {
  }

  /**
   * Exactly `batch` forwarded trmm calls are issued, in increasing index
   * order, and call i receives every parameter extracted at i.
   */
  lemma DispatchCallsInOrder<S>(b: Backend, p: TrmmBatch<S>, batch: nat, infoSize: nat, device: int, s0: StreamState)
    requires WellSized(p, batch) && s0.Valid()
    ensures Count(DispatchTrace(b, p, batch, infoSize, device, s0), CallKind) == batch
    ensures forall i :: 0 <= i < batch ==>
      DispatchTrace(b, p, batch, infoSize, device, s0)[ItemsStart(b, infoSize) + (if Forks(b) then 2 * i else i)]
        == Call(i, ItemArgs(p, batch, i), StreamOf(b, ItemState(Forks(b), StartState(b, s0), i)))
  {
    var pre: seq<DispatchEvent<S>> := Prologue(b, infoSize, device) + (if Forks(b) then [Fork] else []);
    var items := ItemEvents(b, p, batch, StartState(b, s0), batch);
    var post: seq<DispatchEvent<S>> := if Forks(b) then [Join] else [];
    var t := DispatchTrace(b, p, batch, infoSize, device, s0);
    DispatchTraceParts(b, p, batch, infoSize, device, s0);
    assert t == pre + items + post;
    DispatchCallCount(b, p, batch, infoSize, device, s0);
    forall i | 0 <= i < batch
      ensures t[ItemsStart(b, infoSize) + (if Forks(b) then 2 * i else i)]
        == Call(i, ItemArgs(p, batch, i), StreamOf(b, ItemState(Forks(b), StartState(b, s0), i)))
    {
      ItemCallAt(b, p, batch, StartState(b, s0), i);
      IndexInMiddle(pre, items, post, if Forks(b) then 2 * i else i);
    }
  }

  lemma DispatchCallCount<S>(b: Backend, p: TrmmBatch<S>, batch: nat, infoSize: nat, device: int, s0: StreamState)
    requires WellSized(p, batch) && s0.Valid()
    ensures Count(DispatchTrace(b, p, batch, infoSize, device, s0), CallKind) == batch
  {
    ItemEventsCount(b, p, batch, StartState(b, s0), batch);
    DispatchPartCounts(b, p, batch, infoSize, device, s0, CallKind);
  }

  /** One instance of ItemEventsAt over the whole batch. */
  lemma ItemCallAt<S>(b: Backend, p: TrmmBatch<S>, batch: nat, s: StreamState, i: nat)
    requires WellSized(p, batch) && s.Valid() && i < batch
    ensures ItemEvents(b, p, batch, s, batch)[if Forks(b) then 2 * i else i]
      == Call(i, ItemArgs(p, batch, i), StreamOf(b, ItemState(Forks(b), s, i)))
  {
    ItemEventsAt(b, p, batch, s, batch);
  }

  /** Indexing into the middle part of a three-part trace. */
  lemma IndexInMiddle<S>(pre: seq<DispatchEvent<S>>, items: seq<DispatchEvent<S>>, post: seq<DispatchEvent<S>>, j: nat)
    requires j < |items|
    ensures (pre + items + post)[|pre| + j] == items[j]
  {
  }

  /** Counting events of one kind part by part. */
  lemma DispatchPartCounts<S>(b: Backend, p: TrmmBatch<S>, batch: nat, infoSize: nat, device: int, s0: StreamState, kind: EventKind)
    requires WellSized(p, batch) && s0.Valid()
    ensures Count(DispatchTrace(b, p, batch, infoSize, device, s0), kind)
      == (if infoSize > 0 && kind == CheckInfoKind then 1 else 0)
       + (if b != OneMkl && kind == SetDeviceKind then 1 else 0)
       + (if Forks(b) && kind == ForkKind then 1 else 0)
       + Count(ItemEvents(b, p, batch, StartState(b, s0), batch), kind)
       + (if Forks(b) && kind == JoinKind then 1 else 0)
  {
    var check: seq<DispatchEvent<S>> := if infoSize > 0 then [CheckInfo] else [];
    var setDev: seq<DispatchEvent<S>> := if b != OneMkl then [SetDevice(device)] else [];
    var forkPart: seq<DispatchEvent<S>> := if Forks(b) then [Fork] else [];
    var items := ItemEvents(b, p, batch, StartState(b, s0), batch);
    var post: seq<DispatchEvent<S>> := if Forks(b) then [Join] else [];
    DispatchTraceParts(b, p, batch, infoSize, device, s0);
    CountAppend(check + setDev + forkPart + items, post, kind);
    CountAppend(check + setDev + forkPart, items, kind);
    CountAppend(check + setDev, forkPart, kind);
    CountAppend(check, setDev, kind);
    CountSingle<S>(CheckInfo, kind);
    CountSingle<S>(SetDevice(device), kind);
    CountSingle<S>(Fork, kind);
    CountSingle<S>(Join, kind);
  }

  /**
   * How many queue operations a dispatch performs: with forking, one fork(),
   * one revolve() per item and one join(); without forking (the rocBLAS
   * build) none. The check runs once iff info is non-empty, and set_device
   * once on every backend except oneMKL.
   */
  lemma DispatchQueueOpCounts<S>(b: Backend, p: TrmmBatch<S>, batch: nat, infoSize: nat, device: int, s0: StreamState)
    requires WellSized(p, batch) && s0.Valid()
    ensures Count(DispatchTrace(b, p, batch, infoSize, device, s0), ForkKind) == if Forks(b) then 1 else 0
    ensures Count(DispatchTrace(b, p, batch, infoSize, device, s0), RevolveKind) == if Forks(b) then batch else 0
    ensures Count(DispatchTrace(b, p, batch, infoSize, device, s0), JoinKind) == if Forks(b) then 1 else 0
    ensures Count(DispatchTrace(b, p, batch, infoSize, device, s0), CheckInfoKind) == if infoSize > 0 then 1 else 0
    ensures Count(DispatchTrace(b, p, batch, infoSize, device, s0), SetDeviceKind) == if b != OneMkl then 1 else 0
  {
    ItemEventsCount(b, p, batch, StartState(b, s0), batch);
    DispatchPartCounts(b, p, batch, infoSize, device, s0, ForkKind);
    DispatchPartCounts(b, p, batch, infoSize, device, s0, RevolveKind);
    DispatchPartCounts(b, p, batch, infoSize, device, s0, JoinKind);
    DispatchPartCounts(b, p, batch, infoSize, device, s0, CheckInfoKind);
    DispatchPartCounts(b, p, batch, infoSize, device, s0, SetDeviceKind);
  }

  /**
   * Where the queue operations sit: the check first when info is non-empty,
   * then set_device (except on oneMKL); when forking, fork() right before
   * item 0, a revolve() right after every call, and join() last.
   */
  lemma DispatchQueueOpOrder<S>(b: Backend, p: TrmmBatch<S>, batch: nat, infoSize: nat, device: int, s0: StreamState)
    requires WellSized(p, batch) && s0.Valid()
    ensures infoSize > 0 ==> DispatchTrace(b, p, batch, infoSize, device, s0)[0].CheckInfo?
    ensures b != OneMkl ==> DispatchTrace(b, p, batch, infoSize, device, s0)[if infoSize > 0 then 1 else 0] == SetDevice(device)
    ensures Forks(b) ==> DispatchTrace(b, p, batch, infoSize, device, s0)[ItemsStart(b, infoSize) - 1].Fork?
    ensures Forks(b) ==> DispatchTrace(b, p, batch, infoSize, device, s0)[ItemsStart(b, infoSize) + 2 * batch].Join?
    ensures Forks(b) ==> forall i :: 0 <= i < batch ==>
      DispatchTrace(b, p, batch, infoSize, device, s0)[ItemsStart(b, infoSize) + 2 * i + 1].Revolve?
  {
    var pre: seq<DispatchEvent<S>> := Prologue(b, infoSize, device) + (if Forks(b) then [Fork] else []);
    var items := ItemEvents(b, p, batch, StartState(b, s0), batch);
    var post: seq<DispatchEvent<S>> := if Forks(b) then [Join] else [];
    DispatchTraceParts(b, p, batch, infoSize, device, s0);
    ItemEventsAt(b, p, batch, StartState(b, s0), batch);
    assert DispatchTrace(b, p, batch, infoSize, device, s0) == pre + items + post;
    if Forks(b) {
      forall i | 0 <= i < batch
        ensures (pre + items + post)[|pre| + 2 * i + 1] == items[2 * i + 1]
      {
        IndexInMiddle(pre, items, post, 2 * i + 1);
      }
    }
  }

  /**
   * The stream each item lands on. On CUDA, forking from the default mode,
   * item i runs on parallel stream i mod DEV_QUEUE_FORK_SIZE (items 0, 10, 20
   * share one); if the queue was already forked, the fork is a no-op and the
   * round robin continues from its cursor. The rocBLAS build does not fork and
   * keeps every item on the caller's current stream. On oneMKL stream() is
   * always the default queue, so forking changes nothing about where items run.
   */
  lemma DispatchStreams<S>(b: Backend, p: TrmmBatch<S>, batch: nat, infoSize: nat, device: int, s0: StreamState, i: nat)
    requires WellSized(p, batch) && s0.Valid() && i < batch
    ensures b == Cublas && !s0.Forked() ==>
      DispatchTrace(b, p, batch, infoSize, device, s0)[ItemsStart(b, infoSize) + 2 * i]
        == Call(i, ItemArgs(p, batch, i), ParallelStream(i % ForkSize))
    ensures b == Cublas && s0.Forked() ==>
      DispatchTrace(b, p, batch, infoSize, device, s0)[ItemsStart(b, infoSize) + 2 * i]
        == Call(i, ItemArgs(p, batch, i), ParallelStream((s0.cursor + i) % s0.active))
    ensures b == Rocblas ==>
      DispatchTrace(b, p, batch, infoSize, device, s0)[ItemsStart(b, infoSize) + i]
        == Call(i, ItemArgs(p, batch, i), StreamOf(Rocblas, s0))
    ensures b == OneMkl || b == NoBackend ==>
      DispatchTrace(b, p, batch, infoSize, device, s0)[ItemsStart(b, infoSize) + 2 * i]
        == Call(i, ItemArgs(p, batch, i), DefaultStream)
  {
    DispatchCallsInOrder(b, p, batch, infoSize, device, s0);
    if b == Cublas {
      if s0.Forked() {
        RevolveNCursor(s0, i);
      } else {
        ForkedStreamOfItem(b, i);
      }
    }
  }

  /**
   * When item k's forwarded call throws, no join() is issued, k + 1 calls were
   * made, and a forking backend leaves the queue forked: from the default
   * mode, with the cursor on stream k mod DEV_QUEUE_FORK_SIZE.
   */
  lemma AbortedDispatchLeavesForked<S>(b: Backend, p: TrmmBatch<S>, batch: nat, infoSize: nat, device: int,
                                       s0: StreamState, k: nat)
    requires WellSized(p, batch) && s0.Valid() && k < batch
    ensures Count(AbortedTrace(b, p, batch, infoSize, device, s0, k), JoinKind) == 0
    ensures Count(AbortedTrace(b, p, batch, infoSize, device, s0, k), CallKind) == k + 1
    ensures Forks(b) ==> ItemState(true, StartState(b, s0), k).Forked()
    ensures Forks(b) && !s0.Forked() ==> ItemState(true, StartState(b, s0), k) == StreamState(ForkSize, k % ForkSize)
  {
    AbortedTraceCounts(b, p, batch, infoSize, device, s0, k, JoinKind);
    AbortedTraceCounts(b, p, batch, infoSize, device, s0, k, CallKind);
    if Forks(b) {
      RevolveNCursor(StartState(b, s0), k);
    }
  }

  /** Counts an aborted trace part by part: prologue and fork, the items before k, and item k's call. */
  lemma AbortedTraceCounts<S>(b: Backend, p: TrmmBatch<S>, batch: nat, infoSize: nat, device: int,
                              s0: StreamState, k: nat, kind: EventKind)
    requires WellSized(p, batch) && s0.Valid() && k < batch
    requires kind == JoinKind || kind == CallKind
    ensures Count(AbortedTrace(b, p, batch, infoSize, device, s0, k), kind) == if kind == JoinKind then 0 else k + 1
  {
    var head: seq<DispatchEvent<S>> := Prologue(b, infoSize, device) + (if Forks(b) then [Fork] else []);
    var items := ItemEvents(b, p, batch, StartState(b, s0), k);
    var call: DispatchEvent<S> := Call(k, ItemArgs(p, batch, k), StreamOf(b, ItemState(Forks(b), StartState(b, s0), k)));
    assert AbortedTrace(b, p, batch, infoSize, device, s0, k) == head + items + [call];
    HeadCount<S>(b, infoSize, device, kind);
    ItemEventsCount(b, p, batch, StartState(b, s0), k);
    CountAppend(head + items, [call], kind);
    CountAppend(head, items, kind);
    CountSingle(call, kind);
  }

  /** The prologue and the optional fork hold no call and no join. */
  lemma HeadCount<S>(b: Backend, infoSize: nat, device: int, kind: EventKind)
    requires kind == JoinKind || kind == CallKind
    ensures Count(Prologue<S>(b, infoSize, device) + (if Forks(b) then [Fork] else []), kind) == 0
  {
    var check: seq<DispatchEvent<S>> := if infoSize > 0 then [CheckInfo] else [];
    var setDev: seq<DispatchEvent<S>> := if b != OneMkl then [SetDevice(device)] else [];
    var forkPart: seq<DispatchEvent<S>> := if Forks(b) then [Fork] else [];
    assert Prologue<S>(b, infoSize, device) + forkPart == check + setDev + forkPart;
    CountAppend(check + setDev, forkPart, kind);
    CountAppend(check, setDev, kind);
    CountSingle<S>(CheckInfo, kind);
    CountSingle<S>(SetDevice(device), kind);
    CountSingle<S>(Fork, kind);
  }
}
