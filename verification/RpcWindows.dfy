/** The broker RPC accumulator: hooks count into the open window, a snapshot
    detaches it and opens the next. No observation is lost or counted twice. */
module RpcWindows {
  import opened Wrappers
  import opened Histogram

  const MAX_CONNECT_ERR_LEN := 256

  /** What a hook is told. Durations are in nanoseconds. */
  datatype Observation =
    | EndToEnd(broker: int, key: int, e2e: int, writeWait: int, written: nat, read: nat, failed: bool)
    | Connect(broker: int, took: int, failure: Option<string>)
    | Disconnect(broker: int)
    | Throttle(broker: int, interval: nat)

  datatype ApiRow = ApiRow(e2e: Hist, writeWait: Hist, errors: nat, written: nat, read: nat)

  datatype BrokerRow = BrokerRow(
    apis: map<int, ApiRow>,
    attempts: nat,
    failures: nat,
    latency: Hist,
    disconnects: nat,
    lastError: string,
    throttleEvents: nat,
    throttled: nat)

  type Window = map<int, BrokerRow>

  const NO_API := ApiRow(EMPTY, EMPTY, 0, 0, 0)
  const NO_BROKER := BrokerRow(map[], 0, 0, EMPTY, 0, "", 0, 0)

  predicate ApiShaped(a: ApiRow) {
    Shaped(a.e2e) && Shaped(a.writeWait)
  }

  predicate RowShaped(b: BrokerRow) {
    Shaped(b.latency) && forall k :: k in b.apis ==> ApiShaped(b.apis[k])
  }

  predicate WindowShaped(w: Window) {
    forall k :: k in w ==> RowShaped(w[k])
  }

  function Truncated(text: string): string {
    if |text| <= MAX_CONNECT_ERR_LEN then text else text[..MAX_CONNECT_ERR_LEN]
  }

  function Api(b: BrokerRow, key: int): ApiRow {
    if key in b.apis then b.apis[key] else NO_API
  }

  function Row(w: Window, broker: int): BrokerRow {
    if broker in w then w[broker] else NO_BROKER
  }

  /** One round trip. Bytes count even on failure; a failed request's timings do
      not. */
  function ApiObserved(a: ApiRow, o: Observation): (r: ApiRow)
    requires o.EndToEnd? && ApiShaped(a)
    ensures ApiShaped(r)
  {
    var b := a.(written := a.written + o.written, read := a.read + o.read);
    if o.failed then b.(errors := a.errors + 1)
    else b.(e2e := Observed(a.e2e, Micros(o.e2e)), writeWait := Observed(a.writeWait, Micros(o.writeWait)))
  }

  function RowObserved(b: BrokerRow, o: Observation): (r: BrokerRow)
    requires RowShaped(b)
    ensures RowShaped(r)
  {
    match o
    case EndToEnd(_, key, _, _, _, _, _) => b.(apis := b.apis[key := ApiObserved(Api(b, key), o)])
    case Connect(_, took, failure) =>
      if failure.Some? then
        b.(attempts := b.attempts + 1, failures := b.failures + 1, lastError := Truncated(failure.value))
      else
        b.(attempts := b.attempts + 1, latency := Observed(b.latency, Micros(took)))
    case Disconnect(_) => b.(disconnects := b.disconnects + 1)
    case Throttle(_, interval) => b.(throttleEvents := b.throttleEvents + 1, throttled := b.throttled + interval)
  }

  function Counted(w: Window, o: Observation): (r: Window)
    requires WindowShaped(w)
    ensures WindowShaped(r)
  {
    w[o.broker := RowObserved(Row(w, o.broker), o)]
  }

  /** The window of exactly these observations. */
  function WindowOf(os: seq<Observation>): (r: Window)
    ensures WindowShaped(r)
  {
    if os == [] then map[] else Counted(WindowOf(os[..|os| - 1]), os[|os| - 1])
  }

  // ---------------------------------------------------------------------------
  // The accumulator
  // ---------------------------------------------------------------------------

  /** One broker's counters in the open window, updated in place. */
  class BrokerAccum {
    var row: BrokerRow

    constructor ()
      ensures row == NO_BROKER
    {
      row := NO_BROKER;
    }
  }

  class RpcHooks {
    var since: int
    var brokers: map<int, BrokerAccum>

    ghost predicate Valid()
      reads this, brokers.Values
    {
      && (forall k :: k in brokers ==> RowShaped(brokers[k].row))
      && (forall j, k :: j in brokers && k in brokers && j != k ==> brokers[j] != brokers[k])
    }

    /** The open window. */
    ghost function Live(): (w: Window)
      requires Valid()
      reads this, brokers.Values
      ensures WindowShaped(w)
    {
      map k | k in brokers :: brokers[k].row
    }

    constructor (start: int)
      ensures Valid() && Live() == map[] && since == start
    {
      since, brokers := start, map[];
    }

    /** A node's counters, made on first use. */
    method Broker(id: int) returns (b: BrokerAccum)
      requires Valid()
      modifies this`brokers
      ensures Valid() && id in brokers && brokers[id] == b
      ensures b.row == Row(old(Live()), id)
      ensures Live() == old(Live())[id := Row(old(Live()), id)]
      ensures forall a :: a in brokers.Values ==> a in old(brokers.Values) || fresh(a)
    {
      if id !in brokers {
        b := new BrokerAccum();
        brokers := brokers[id := b];
      } else {
        b := brokers[id];
      }
    }

    /** Any of the four hooks. Only accumulators of the open window change. */
    method Observe(o: Observation)
      requires Valid()
      modifies this`brokers, brokers.Values
      ensures Valid() && Live() == Counted(old(Live()), o)
      ensures forall a :: a in brokers.Values ==> a in old(brokers.Values) || fresh(a)
    {
      hide RowObserved;
      var b := Broker(o.broker);
      ghost var before := Live();
      Dispatch(b, o);
      forall k | k in brokers ensures brokers[k].row == before[o.broker := b.row][k] {
        assert k != o.broker ==> brokers[k] != b;
      }
    }

    method Dispatch(b: BrokerAccum, o: Observation)
      requires RowShaped(b.row)
      modifies b
      ensures b.row == RowObserved(old(b.row), o)
    {
      hide RowObserved;
      match o {
        case EndToEnd(_, key, e2e, writeWait, written, read, failed) => OnBrokerE2E(b, o);
        case Connect(_, took, failure) => OnBrokerConnect(b, o);
        case Disconnect(_) => OnBrokerDisconnect(b, o);
        case Throttle(_, interval) => OnBrokerThrottle(b, o);
      }
    }

    method OnBrokerE2E(b: BrokerAccum, o: Observation)
      requires o.EndToEnd? && RowShaped(b.row)
      modifies b
      ensures b.row == RowObserved(old(b.row), o)
    {
      var a := Api(b.row, o.key);
      a := a.(written := a.written + o.written, read := a.read + o.read);
      if o.failed {
        a := a.(errors := a.errors + 1);
      } else {
        a := a.(e2e := Observed(a.e2e, Micros(o.e2e)));
        a := a.(writeWait := Observed(a.writeWait, Micros(o.writeWait)));
      }
      b.row := b.row.(apis := b.row.apis[o.key := a]);
    }

    method OnBrokerConnect(b: BrokerAccum, o: Observation)
      requires o.Connect? && RowShaped(b.row)
      modifies b
      ensures b.row == RowObserved(old(b.row), o)
    {
      b.row := b.row.(attempts := b.row.attempts + 1);
      if o.failure.Some? {
        b.row := b.row.(failures := b.row.failures + 1, lastError := Truncated(o.failure.value));
        return;
      }
      b.row := b.row.(latency := Observed(b.row.latency, Micros(o.took)));
    }

    method OnBrokerDisconnect(b: BrokerAccum, o: Observation)
      requires o.Disconnect? && RowShaped(b.row)
      modifies b
      ensures b.row == RowObserved(old(b.row), o)
    {
      b.row := b.row.(disconnects := b.row.disconnects + 1);
    }

    method OnBrokerThrottle(b: BrokerAccum, o: Observation)
      requires o.Throttle? && RowShaped(b.row)
      modifies b
      ensures b.row == RowObserved(old(b.row), o)
    {
      b.row := b.row.(throttleEvents := b.row.throttleEvents + 1);
      b.row := b.row.(throttled := b.row.throttled + o.interval);
    }

    /** Detaches the open window and opens the next. Nothing in what is returned
        is in the accumulator any more. */
    method Snapshot(now: int) returns (detached: map<int, BrokerAccum>, window: int)
      requires Valid()
      modifies this
      ensures detached == old(brokers) && brokers == map[]
      ensures Valid() && Live() == map[] && since == now
      ensures window == if now < old(since) then 0 else now - old(since)
    {
      detached := brokers;
      brokers := map[];
      window := now - since;
      since := now;
      if window < 0 {
        window := 0;
      }
    }

    /** A window's observations, then its snapshot, over and over: in the end
        every returned window still holds exactly the observations between its
        snapshots, whatever was observed later. */
    method Cycles(batches: seq<seq<Observation>>, now: int) returns (windows: seq<map<int, BrokerAccum>>)
      requires Valid() && Live() == map[]
      modifies this, brokers.Values
      ensures Valid() && Live() == map[]
      ensures |windows| == |batches|
      ensures forall i :: 0 <= i < |windows| ==> Holds(windows[i], WindowOf(batches[i]))
    {
      windows := [];
      for i := 0 to |batches|
        invariant Valid() && brokers == map[]
        invariant |windows| == i
        invariant forall j, b :: 0 <= j < i && b in windows[j].Values ==> fresh(b)
        invariant forall j :: 0 <= j < i ==> Holds(windows[j], WindowOf(batches[j]))
      {
        var detached := OneCycle(batches[i], now);
        windows := windows + [detached];
      }
    }

    method OneCycle(os: seq<Observation>, now: int) returns (detached: map<int, BrokerAccum>)
      requires Valid() && brokers == map[]
      modifies this
      ensures Valid() && brokers == map[]
      ensures Holds(detached, WindowOf(os))
      ensures forall b :: b in detached.Values ==> fresh(b)
    {
      ObserveAll(os);
      var window;
      detached, window := Snapshot(now);
    }

    /** Observations in a row, into an empty window. */
    method ObserveAll(os: seq<Observation>)
      requires Valid() && brokers == map[]
      modifies this`brokers
      ensures Valid() && Live() == WindowOf(os)
      ensures forall a :: a in brokers.Values ==> fresh(a)
    {
      hide Counted, WindowOf;
      WindowOfEmpty();
      for i := 0 to |os|
        invariant Valid() && Live() == WindowOf(os[..i])
        invariant forall a :: a in brokers.Values ==> fresh(a)
      {
        WindowOfSnoc(os[..i], os[i]);
        assert os[..i + 1] == os[..i] + [os[i]];
        Observe(os[i]);
      }
      assert os[..|os|] == os;
    }
  }

  /** The detached accumulators hold exactly w. */
  ghost predicate Holds(detached: map<int, BrokerAccum>, w: Window)
    reads detached.Values
  {
    && detached.Keys == w.Keys
    && forall k :: k in detached ==> detached[k].row == w[k]
  }

  lemma WindowOfEmpty()
    ensures WindowOf([]) == map[]
  {
  }

  lemma WindowOfSnoc(os: seq<Observation>, o: Observation)
    ensures WindowOf(os + [o]) == Counted(WindowOf(os), o)
  {
    assert (os + [o])[..|os|] == os;
  }

  // ---------------------------------------------------------------------------
  // Windows add up
  // ---------------------------------------------------------------------------

  function ApiMerged(a: ApiRow, b: ApiRow): (r: ApiRow)
    requires ApiShaped(a) && ApiShaped(b)
    ensures ApiShaped(r)
  {
    ApiRow(Merged(a.e2e, b.e2e), Merged(a.writeWait, b.writeWait), a.errors + b.errors, a.written + b.written, a.read + b.read)
  }

  /** One broker over two windows: every number adds, and the last error is the
      later window's, if it had one. */
  function RowMerged(a: BrokerRow, b: BrokerRow): (r: BrokerRow)
    requires RowShaped(a) && RowShaped(b)
    ensures RowShaped(r)
  {
    BrokerRow(
      map k | k in a.apis.Keys + b.apis.Keys :: ApiMerged(Api(a, k), Api(b, k)),
      a.attempts + b.attempts, a.failures + b.failures, Merged(a.latency, b.latency), a.disconnects + b.disconnects,
      if b.failures > 0 then b.lastError else a.lastError,
      a.throttleEvents + b.throttleEvents, a.throttled + b.throttled)
  }

  function WindowMerged(a: Window, b: Window): (r: Window)
    requires WindowShaped(a) && WindowShaped(b)
    ensures WindowShaped(r)
  {
    map k | k in a.Keys + b.Keys :: RowMerged(Row(a, k), Row(b, k))
  }

  lemma ApiMergedObserved(a: ApiRow, b: ApiRow, o: Observation)
    requires o.EndToEnd? && ApiShaped(a) && ApiShaped(b)
    ensures ApiMerged(a, ApiObserved(b, o)) == ApiObserved(ApiMerged(a, b), o)
  {
    hide Merged, Observed;
    MergedObserved(a.e2e, b.e2e, Micros(o.e2e));
    MergedObserved(a.writeWait, b.writeWait, Micros(o.writeWait));
  }

  lemma ApisMergedObserved(a: BrokerRow, b: BrokerRow, o: Observation)
    requires o.EndToEnd? && RowShaped(a) && RowShaped(b)
    ensures RowMerged(a, RowObserved(b, o)).apis == RowObserved(RowMerged(a, b), o).apis
  {
    hide ApiMerged, ApiObserved, Merged, Observed;
    MergedNothing();
    ApiMergedObserved(Api(a, o.key), Api(b, o.key), o);
    assert Api(RowMerged(a, b), o.key) == ApiMerged(Api(a, o.key), Api(b, o.key));
    var left, right := RowMerged(a, RowObserved(b, o)).apis, RowObserved(RowMerged(a, b), o).apis;
    assert left.Keys == right.Keys;
    forall k | k in left ensures left[k] == right[k] {
      assert Api(RowObserved(b, o), k) == if k == o.key then ApiObserved(Api(b, k), o) else Api(b, k);
    }
  }

  lemma MergedNothing()
    ensures ApiMerged(NO_API, NO_API) == NO_API
    ensures RowMerged(NO_BROKER, NO_BROKER) == NO_BROKER
  {
    MergedEmpty(EMPTY);
    assert RowMerged(NO_BROKER, NO_BROKER).apis == map[];
  }

  /** Everything but a round trip leaves the APIs alone. */
  lemma DialsMergedObserved(a: BrokerRow, b: BrokerRow, o: Observation)
    requires !o.EndToEnd? && RowShaped(a) && RowShaped(b)
    ensures RowMerged(a, RowObserved(b, o)) == RowObserved(RowMerged(a, b), o)
  {
    hide Merged, Observed, ApiMerged;
    if o.Connect? {
      MergedObserved(a.latency, b.latency, Micros(o.took));
    }
    assert RowMerged(a, RowObserved(b, o)).apis == RowObserved(RowMerged(a, b), o).apis;
  }

  lemma RowMergedObserved(a: BrokerRow, b: BrokerRow, o: Observation)
    requires RowShaped(a) && RowShaped(b)
    ensures RowMerged(a, RowObserved(b, o)) == RowObserved(RowMerged(a, b), o)
  {
    if o.EndToEnd? {
      ApisMergedObserved(a, b, o);
      hide Merged, Observed, ApiObserved, ApiMerged, Api, ApiShaped;
    } else {
      DialsMergedObserved(a, b, o);
    }
  }

  lemma RowOfMerged(a: Window, b: Window, k: int)
    requires WindowShaped(a) && WindowShaped(b)
    ensures Row(WindowMerged(a, b), k) == RowMerged(Row(a, k), Row(b, k))
  {
    MergedNothing();
    hide RowMerged;
  }

  lemma RowOfCounted(w: Window, o: Observation, k: int)
    requires WindowShaped(w)
    ensures Row(Counted(w, o), k) == if k == o.broker then RowObserved(Row(w, k), o) else Row(w, k)
    ensures k in Counted(w, o) <==> k == o.broker || k in w
  {
    hide RowObserved;
  }

  lemma SameWindow(a: Window, b: Window)
    requires forall k :: (k in a <==> k in b) && Row(a, k) == Row(b, k)
    ensures a == b
  {
    forall k ensures k in a.Keys <==> k in b.Keys {
      assert Row(a, k) == Row(b, k);
    }
    assert a.Keys == b.Keys;
    forall k | k in a ensures a[k] == b[k] {
      assert Row(a, k) == Row(b, k);
    }
  }

  lemma WindowMergedCounted(a: Window, b: Window, o: Observation)
    requires WindowShaped(a) && WindowShaped(b)
    ensures WindowMerged(a, Counted(b, o)) == Counted(WindowMerged(a, b), o)
  {
    var left, right := WindowMerged(a, Counted(b, o)), Counted(WindowMerged(a, b), o);
    forall k ensures (k in left <==> k in right) && Row(left, k) == Row(right, k) {
      RowOfMerged(a, Counted(b, o), k);
      RowOfCounted(b, o, k);
      RowOfMerged(a, b, k);
      RowOfCounted(WindowMerged(a, b), o, k);
      RowMergedObserved(Row(a, k), Row(b, k), o);
      hide RowMerged, RowObserved, Row, Counted;
    }
    hide Row, Counted, WindowMerged;
    SameWindow(left, right);
  }

  lemma ApiMergedEmpty(a: ApiRow)
    requires ApiShaped(a)
    ensures ApiMerged(a, NO_API) == a
  {
    MergedEmpty(a.e2e);
    MergedEmpty(a.writeWait);
  }

  lemma RowMergedEmpty(a: BrokerRow)
    requires RowShaped(a)
    ensures RowMerged(a, NO_BROKER) == a
  {
    MergedEmpty(a.latency);
    forall k | k in a.apis ensures ApiMerged(Api(a, k), Api(NO_BROKER, k)) == a.apis[k] {
      ApiMergedEmpty(a.apis[k]);
    }
    assert RowMerged(a, NO_BROKER).apis == a.apis;
  }

  lemma WindowMergedEmpty(a: Window)
    requires WindowShaped(a)
    ensures WindowMerged(a, map[]) == a
  {
    hide RowMerged;
    forall k | k in a ensures RowMerged(Row(a, k), Row(map[], k)) == a[k] {
      RowMergedEmpty(a[k]);
    }
  }

  /** Two consecutive windows merged are the window of all their observations. */
  lemma {:induction false} WindowsAddUp(first: seq<Observation>, second: seq<Observation>)
    ensures WindowMerged(WindowOf(first), WindowOf(second)) == WindowOf(first + second)
  {
    hide WindowMerged, Counted, WindowShaped;
    if second == [] {
      assert first + second == first;
      WindowMergedEmpty(WindowOf(first));
    } else {
      var n := |second| - 1;
      WindowsAddUp(first, second[..n]);
      WindowMergedCounted(WindowOf(first), WindowOf(second[..n]), second[n]);
      assert (first + second)[..|first| + n] == first + second[..n];
    }
  }

  function AllOf(batches: seq<seq<Observation>>): seq<Observation> {
    if batches == [] then [] else AllOf(batches[..|batches| - 1]) + batches[|batches| - 1]
  }

  function Totals(batches: seq<seq<Observation>>): (r: Window)
    ensures WindowShaped(r)
  {
    if batches == [] then map[] else WindowMerged(Totals(batches[..|batches| - 1]), WindowOf(batches[|batches| - 1]))
  }

  /** Whenever the snapshots fall: the windows and the open accumulator, merged,
      are the accumulation of every observation, none lost and none counted
      twice. */
  lemma {:induction false} NothingLostOrCountedTwice(batches: seq<seq<Observation>>)
    ensures Totals(batches) == WindowOf(AllOf(batches))
  {
    if batches != [] {
      var n := |batches| - 1;
      NothingLostOrCountedTwice(batches[..n]);
      WindowsAddUp(AllOf(batches[..n]), batches[n]);
    }
  }

  // ---------------------------------------------------------------------------
  // Every row is consistent
  // ---------------------------------------------------------------------------

  /** ConnectLatency counts exactly the dials that did not fail, and there are
      never more failures than dials. */
  predicate DialsAgree(b: BrokerRow) {
    b.latency.count + b.failures == b.attempts
  }

  function DialsOf(os: seq<Observation>, broker: int): nat {
    if os == [] then 0
    else
      var o := os[|os| - 1];
      DialsOf(os[..|os| - 1], broker) + if o.Connect? && o.broker == broker then 1 else 0
  }

  lemma {:induction false} RowsConsistent(os: seq<Observation>, broker: int)
    ensures DialsAgree(Row(WindowOf(os), broker))
    ensures Row(WindowOf(os), broker).attempts == DialsOf(os, broker)
  {
    if os != [] {
      var n := |os| - 1;
      RowsConsistent(os[..n], broker);
      RowOfCounted(WindowOf(os[..n]), os[n], broker);
      hide Counted, Row, WindowShaped;
      DialsObserved(Row(WindowOf(os[..n]), broker), os[n]);
    }
  }

  lemma DialsObserved(b: BrokerRow, o: Observation)
    requires RowShaped(b)
    ensures DialsAgree(b) ==> DialsAgree(RowObserved(b, o))
    ensures RowObserved(b, o).attempts == b.attempts + if o.Connect? then 1 else 0
  {
  }

  // ---------------------------------------------------------------------------
  // What a row means
  // ---------------------------------------------------------------------------

  /** The round trips of one API on one broker, in order. */
  function Trips(os: seq<Observation>, broker: int, key: int): (r: seq<Observation>)
    ensures forall o :: o in r ==> o.EndToEnd?
  {
    if os == [] then []
    else
      var o := os[|os| - 1];
      Trips(os[..|os| - 1], broker, key) + if o.EndToEnd? && o.broker == broker && o.key == key then [o] else []
  }

  function SumWritten(os: seq<Observation>): nat
    requires forall o :: o in os ==> o.EndToEnd?
  {
    if os == [] then 0 else SumWritten(os[..|os| - 1]) + os[|os| - 1].written
  }

  function SumRead(os: seq<Observation>): nat
    requires forall o :: o in os ==> o.EndToEnd?
  {
    if os == [] then 0 else SumRead(os[..|os| - 1]) + os[|os| - 1].read
  }

  function Failures(os: seq<Observation>): nat
    requires forall o :: o in os ==> o.EndToEnd?
  {
    if os == [] then 0 else Failures(os[..|os| - 1]) + if os[|os| - 1].failed then 1 else 0
  }

  /** The service times of the trips that did not fail, in microseconds. */
  function ServiceTimes(os: seq<Observation>): seq<nat>
    requires forall o :: o in os ==> o.EndToEnd?
  {
    if os == [] then []
    else ServiceTimes(os[..|os| - 1]) + if os[|os| - 1].failed then [] else [Micros(os[|os| - 1].e2e)]
  }

  function WaitTimes(os: seq<Observation>): seq<nat>
    requires forall o :: o in os ==> o.EndToEnd?
  {
    if os == [] then []
    else WaitTimes(os[..|os| - 1]) + if os[|os| - 1].failed then [] else [Micros(os[|os| - 1].writeWait)]
  }

  lemma HistSnoc(us: seq<nat>, u: nat)
    ensures HistOf(us + [u]) == Observed(HistOf(us), u)
  {
    assert (us + [u])[..|us|] == us;
  }

  /** The row of exactly these trips. */
  predicate Sums(a: ApiRow, trips: seq<Observation>)
    requires forall o :: o in trips ==> o.EndToEnd?
  {
    && a.written == SumWritten(trips) && a.read == SumRead(trips) && a.errors == Failures(trips)
    && a.e2e == HistOf(ServiceTimes(trips)) && a.writeWait == HistOf(WaitTimes(trips))
  }

  lemma SumsOneMore(a: ApiRow, trips: seq<Observation>, o: Observation)
    requires (forall x :: x in trips ==> x.EndToEnd?) && o.EndToEnd? && ApiShaped(a) && Sums(a, trips)
    ensures Sums(ApiObserved(a, o), trips + [o])
  {
    hide Observed, HistOf;
    assert (trips + [o])[..|trips|] == trips;
    HistSnoc(ServiceTimes(trips), Micros(o.e2e));
    HistSnoc(WaitTimes(trips), Micros(o.writeWait));
    assert ServiceTimes(trips) + [] == ServiceTimes(trips) && WaitTimes(trips) + [] == WaitTimes(trips);
  }

  /** In every window, each API's row has the bytes written and the bytes read of
      all its round trips, its errors are those that failed, and its two
      histograms hold exactly the service and the waiting times of the others. */
  lemma {:induction false} ApiRowMeaning(os: seq<Observation>, broker: int, key: int)
    ensures Sums(Api(Row(WindowOf(os), broker), key), Trips(os, broker, key))
  {
    hide Observed, HistOf, ApiObserved, Sums;
    if os == [] {
      NoTrips();
    } else {
      var n := |os| - 1;
      var o := os[n];
      ApiRowMeaning(os[..n], broker, key);
      RowOfCounted(WindowOf(os[..n]), o, broker);
      var b := Row(WindowOf(os[..n]), broker);
      if o.EndToEnd? && o.broker == broker && o.key == key {
        SumsOneMore(Api(b, key), Trips(os[..n], broker, key), o);
      } else {
        assert Trips(os[..n], broker, key) + [] == Trips(os[..n], broker, key);
        if o.broker == broker {
          OtherApiKept(b, o, key);
        }
      }
    }
  }

  lemma NoTrips()
    ensures Sums(NO_API, [])
  {
  }

  lemma OtherApiKept(b: BrokerRow, o: Observation, key: int)
    requires RowShaped(b) && !(o.EndToEnd? && o.key == key)
    ensures Api(RowObserved(b, o), key) == Api(b, key)
  {
    hide ApiObserved, Observed;
  }

  /** The failed and the successful dials of one broker. */
  function FailedDials(os: seq<Observation>, broker: int): nat {
    if os == [] then 0
    else
      var o := os[|os| - 1];
      FailedDials(os[..|os| - 1], broker) + if o.Connect? && o.broker == broker && o.failure.Some? then 1 else 0
  }

  function DialTimes(os: seq<Observation>, broker: int): seq<nat> {
    if os == [] then []
    else
      var o := os[|os| - 1];
      DialTimes(os[..|os| - 1], broker) + if o.Connect? && o.broker == broker && o.failure.None? then [Micros(o.took)] else []
  }

  function Disconnects(os: seq<Observation>, broker: int): nat {
    if os == [] then 0
    else Disconnects(os[..|os| - 1], broker) + if os[|os| - 1] == Disconnect(broker) then 1 else 0
  }

  function ThrottleTime(os: seq<Observation>, broker: int): nat {
    if os == [] then 0
    else
      var o := os[|os| - 1];
      ThrottleTime(os[..|os| - 1], broker) + if o.Throttle? && o.broker == broker then o.interval else 0
  }

  function Throttles(os: seq<Observation>, broker: int): nat {
    if os == [] then 0
    else
      var o := os[|os| - 1];
      Throttles(os[..|os| - 1], broker) + if o.Throttle? && o.broker == broker then 1 else 0
  }

  /** The message of the last dial that failed. */
  function LastFailure(os: seq<Observation>, broker: int): Option<string> {
    if os == [] then None
    else
      var o := os[|os| - 1];
      if o.Connect? && o.broker == broker && o.failure.Some? then o.failure else LastFailure(os[..|os| - 1], broker)
  }

  /** At most 256 characters of a message, all of it when that is enough. */
  predicate IsCut(cut: string, text: string) {
    cut <= text && |cut| == if |text| < 256 then |text| else 256
  }

  /** In every window, each broker's row counts its failed dials, its disconnects,
      its throttle events and its throttled time, its connect histogram holds
      exactly the times of the dials that worked, and its last error is the
      beginning of the last failed dial's message. */
  lemma {:induction false} BrokerRowMeaning(os: seq<Observation>, broker: int)
    ensures var b := Row(WindowOf(os), broker);
            && b.failures == FailedDials(os, broker) && b.latency == HistOf(DialTimes(os, broker))
            && b.disconnects == Disconnects(os, broker)
            && b.throttleEvents == Throttles(os, broker) && b.throttled == ThrottleTime(os, broker)
            && (LastFailure(os, broker).None? ==> b.lastError == "")
            && (LastFailure(os, broker).Some? ==> IsCut(b.lastError, LastFailure(os, broker).value))
  {
    hide Observed, HistOf, ApiObserved;
    if os == [] {
      NoDials();
    } else {
      var n := |os| - 1;
      BrokerRowMeaning(os[..n], broker);
      RowOfCounted(WindowOf(os[..n]), os[n], broker);
      hide Counted, Row;
      if os[n].Connect? {
        HistSnoc(DialTimes(os[..n], broker), Micros(os[n].took));
      }
      assert DialTimes(os[..n], broker) + [] == DialTimes(os[..n], broker);
    }
  }

  lemma NoDials()
    ensures HistOf([]) == EMPTY
  {
  }
}
