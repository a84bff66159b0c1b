/** The HTTP exporter as interleaved atomic steps: one producer (Export), one
    worker, one closer. Every channel operation, every `select`, every counter
    increment and the lock around the enqueue is a step of its own, so a run is
    any interleaving the scheduler can produce. */
module ExporterMachine {
  import opened Wire
  import Backoff

  /** Where one Export call stands. `Encoded` is past the context check and the
      encoding but not yet under the read lock; the others hold the lock. */
  datatype Producer =
    | Outside
    | Encoded(q: Queued)
    | Locked(q: Queued)
    | Full(q: Queued)
    | Evicting(q: Queued, stale: Queued)
    | Retrying(q: Queued)

  /** What one HTTP attempt came to: a status below 400; a terminal 4xx; or a
      retryable status or transport error. */
  datatype Outcome = Delivered | Terminal | Retryable

  /** send returns no error below 400; above, the status decides. */
  function StatusOutcome(code: int): Outcome {
    if code < 400 then Delivered else if Backoff.RetryableStatus(code) then Retryable else Terminal
  }

  /** Where the worker stands. `draining` records which of the two receive
      loops it returns to. */
  datatype Worker =
    | Select
    | Draining
    | Sending(q: Queued, attempt: nat, draining: bool)
    | Flying(q: Queued, attempt: nat, draining: bool)
    | Answered(q: Queued, attempt: nat, draining: bool, outcome: Outcome)
    | Sleeping(q: Queued, attempt: nat, draining: bool)
    | Exited

  /** Close: before it; `closed` set; `done` closed and waiting for the worker;
      returned. */
  datatype Closer = Open | Flagged | Waiting | Returned

  datatype Config = Config(capacity: nat, maxRetries: nat)

  ghost predicate ValidConfig(c: Config) {
    c.capacity > 0
  }

  /** `queue` is the buffered channel. The atomic counters are kept as the
      batches they count: dropped.Add(1) for q appends q to `dropped`. `calls`
      lists every batch Export took past its context check and `accepted` every
      batch that got onto the queue, in order; `taken` is what the worker
      received, in order. */
  datatype Exporter = Exporter(
    queue: seq<Queued>,
    calls: seq<Queued>,
    accepted: seq<Queued>,
    taken: seq<Queued>,
    exported: seq<Queued>,
    dropped: seq<Queued>,
    rejected: seq<Queued>,
    retries: nat,
    producer: Producer,
    worker: Worker,
    closer: Closer)
  {
    predicate Closed() {
      closer != Open
    }

    predicate Done() {
      closer == Waiting || closer == Returned
    }

    predicate HoldsLock() {
      producer.Locked? || producer.Full? || producer.Evicting? || producer.Retrying?
    }

    predicate Busy() {
      worker.Sending? || worker.Flying? || worker.Answered? || worker.Sleeping?
    }
  }

  const INITIAL: Exporter :=
    Exporter([], [], [], [], [], [], [], 0, Outside, Select, Open)

  datatype Label =
    // Export
    | Call(q: Queued)
    | EncodeFails(q: Queued)
    | TakeLock
    | RefuseClosed
    | Push
    | FallThrough
    | Evict
    | NothingToEvict
    | CountStale
    | PushAgain
    | Fallback
    // worker and sendWithRetry
    | Receive
    | SeeDone
    | Exit
    | Send
    | Reply(outcome: Outcome)
    | CountExported
    | CountRejected
    | GiveUp
    | Backoff
    | Wake
    | Interrupted
    // Close
    | SetClosed
    | CloseDone
    | ReturnFromClose

  predicate Enabled(c: Config, s: Exporter, l: Label) {
    match l
    case Call(_) => s.producer.Outside?
    case EncodeFails(_) => s.producer.Outside?
    case TakeLock => s.producer.Encoded? && !s.Closed()
    case RefuseClosed => s.producer.Encoded? && s.Closed()
    case Push => s.producer.Locked? && |s.queue| < c.capacity
    case FallThrough => s.producer.Locked? && |s.queue| >= c.capacity
    case Evict => s.producer.Full? && s.queue != []
    case NothingToEvict => s.producer.Full? && s.queue == []
    case CountStale => s.producer.Evicting?
    case PushAgain => s.producer.Retrying? && |s.queue| < c.capacity
    case Fallback => s.producer.Retrying? && |s.queue| >= c.capacity
    case Receive => (s.worker.Select? || s.worker.Draining?) && s.queue != []
    case SeeDone => s.worker.Select? && s.Done()
    case Exit => s.worker.Draining? && s.queue == []
    case Send => s.worker.Sending?
    case Reply(_) => s.worker.Flying?
    case CountExported => s.worker.Answered? && s.worker.outcome.Delivered?
    case CountRejected => s.worker.Answered? && s.worker.outcome.Terminal?
    case GiveUp => s.worker.Answered? && s.worker.outcome.Retryable?
    case Backoff => s.worker.Answered? && s.worker.outcome.Retryable? && s.worker.attempt < c.maxRetries
    case Wake => s.worker.Sleeping?
    case Interrupted => s.worker.Sleeping? && s.Done()
    case SetClosed => s.closer.Open? && !s.HoldsLock()
    case CloseDone => s.closer.Flagged?
    case ReturnFromClose => s.closer.Waiting? && s.worker.Exited?
  }

  function BackToLoop(draining: bool): Worker {
    if draining then Draining else Select
  }

  function Do(c: Config, s: Exporter, l: Label): Exporter
    requires Enabled(c, s, l)
  {
    match l
    case Call(q) => s.(calls := s.calls + [q], producer := Encoded(q))
    case EncodeFails(q) => s.(calls := s.calls + [q], dropped := s.dropped + [q])
    case TakeLock => s.(producer := Locked(s.producer.q))
    case RefuseClosed => s.(dropped := s.dropped + [s.producer.q], producer := Outside)
    case Push => s.(queue := s.queue + [s.producer.q], accepted := s.accepted + [s.producer.q], producer := Outside)
    case FallThrough => s.(producer := Full(s.producer.q))
    case Evict => s.(queue := s.queue[1..], producer := Evicting(s.producer.q, s.queue[0]))
    case NothingToEvict => s.(producer := Retrying(s.producer.q))
    case CountStale => s.(dropped := s.dropped + [s.producer.stale], producer := Retrying(s.producer.q))
    case PushAgain => s.(queue := s.queue + [s.producer.q], accepted := s.accepted + [s.producer.q], producer := Outside)
    case Fallback => s.(dropped := s.dropped + [s.producer.q], producer := Outside)
    case Receive => s.(queue := s.queue[1..], taken := s.taken + [s.queue[0]], worker := Sending(s.queue[0], 0, s.worker.Draining?))
    case SeeDone => s.(worker := Draining)
    case Exit => s.(worker := Exited)
    case Send => s.(worker := Flying(s.worker.q, s.worker.attempt, s.worker.draining))
    case Reply(outcome) => s.(worker := Answered(s.worker.q, s.worker.attempt, s.worker.draining, outcome))
    case CountExported => s.(exported := s.exported + [s.worker.q], worker := BackToLoop(s.worker.draining))
    case CountRejected => s.(rejected := s.rejected + [s.worker.q], worker := BackToLoop(s.worker.draining))
    case GiveUp => s.(dropped := s.dropped + [s.worker.q], worker := BackToLoop(s.worker.draining))
    case Backoff => s.(retries := s.retries + 1, worker := Sleeping(s.worker.q, s.worker.attempt + 1, s.worker.draining))
    case Wake => s.(worker := Sending(s.worker.q, s.worker.attempt, s.worker.draining))
    case Interrupted => s.(dropped := s.dropped + [s.worker.q], worker := BackToLoop(s.worker.draining))
    case SetClosed => s.(closer := Flagged)
    case CloseDone => s.(closer := Waiting)
    case ReturnFromClose => s.(closer := Returned)
  }

  /** `ls` leads from s to t. */
  predicate Runs(c: Config, s: Exporter, ls: seq<Label>, t: Exporter)
    decreases |ls|
  {
    if ls == [] then s == t else Enabled(c, s, ls[0]) && Runs(c, Do(c, s, ls[0]), ls[1..], t)
  }

  lemma {:induction false} RunsConcat(c: Config, s: Exporter, ls: seq<Label>, t: Exporter, ms: seq<Label>, u: Exporter)
    requires Runs(c, s, ls, t) && Runs(c, t, ms, u)
    ensures Runs(c, s, ls + ms, u)
    decreases |ls|
  {
    if ls == [] {
      assert ls + ms == ms;
    } else {
      RunsConcat(c, Do(c, s, ls[0]), ls[1..], t, ms, u);
      assert (ls + ms)[1..] == ls[1..] + ms;
    }
  }

  // ---------------------------------------------------------------------------
  // Conservation
  // ---------------------------------------------------------------------------

  function One(x: Queued, q: Queued): nat {
    if x == q then 1 else 0
  }

  /** How often q occurs in qs. */
  function Count(qs: seq<Queued>, q: Queued): nat {
    if qs == [] then 0 else Count(qs[..|qs| - 1], q) + One(qs[|qs| - 1], q)
  }

  lemma CountAppend(qs: seq<Queued>, x: Queued, q: Queued)
    ensures Count(qs + [x], q) == Count(qs, q) + One(x, q)
  {
    assert (qs + [x])[..|qs|] == qs;
  }

  lemma {:induction false} CountPop(qs: seq<Queued>, q: Queued)
    requires qs != []
    ensures Count(qs, q) == Count(qs[1..], q) + One(qs[0], q)
  {
    if |qs| > 1 {
      CountPop(qs[..|qs| - 1], q);
      assert qs[..|qs| - 1][1..] == qs[1..][..|qs| - 2];
    }
  }

  /** How often q is held by the Export call in progress, outside the queue. */
  function MidEnqueue(s: Exporter, q: Queued): nat {
    match s.producer
    case Outside => 0
    case Evicting(x, stale) => One(x, q) + One(stale, q)
    case _ => One(s.producer.q, q)
  }

  function InFlight(s: Exporter, q: Queued): nat {
    if s.Busy() then One(s.worker.q, q) else 0
  }

  /** The places q can be in: counted, queued, in flight or mid-enqueue. */
  function Located(s: Exporter, q: Queued): nat {
    Count(s.exported, q) + Count(s.dropped, q) + Count(s.rejected, q)
    + Count(s.queue, q) + InFlight(s, q) + MidEnqueue(s, q)
  }

  /** Batches on their way: in flight, and in the hands of Export (two while an
      evicted batch is not yet counted). */
  function Pending(s: Exporter): nat {
    (if s.Busy() then 1 else 0)
    + (if s.producer.Outside? then 0 else if s.producer.Evicting? then 2 else 1)
  }

  /** Each Export call past its context check is in exactly one place. */
  ghost predicate Conserved(s: Exporter) {
    && |s.calls| == |s.exported| + |s.dropped| + |s.rejected| + |s.queue| + Pending(s)
    && forall q :: Count(s.calls, q) == Located(s, q)
  }

  predicate WorkerLabel(l: Label) {
    match l
    case Receive | SeeDone | Exit | Send | Reply(_) | CountExported | CountRejected
       | GiveUp | Backoff | Wake | Interrupted => true
    case _ => false
  }

  lemma LocatedWorkerStep(c: Config, s: Exporter, l: Label, q: Queued)
    requires Enabled(c, s, l) && WorkerLabel(l)
    ensures Located(Do(c, s, l), q) == Located(s, q)
  {
    hide Count;
    match l
    case Receive => CountPop(s.queue, q);
    case CountExported => CountAppend(s.exported, s.worker.q, q);
    case CountRejected => CountAppend(s.rejected, s.worker.q, q);
    case GiveUp | Interrupted => CountAppend(s.dropped, s.worker.q, q);
    case _ =>
  }

  lemma LocatedStep(c: Config, s: Exporter, l: Label, q: Queued)
    requires Enabled(c, s, l)
    ensures var t := Do(c, s, l);
            Located(t, q) - Located(s, q) == Count(t.calls, q) - Count(s.calls, q)
  {
    hide Count;
    if WorkerLabel(l) {
      LocatedWorkerStep(c, s, l, q);
    } else {
      match l
      case Call(x) => CountAppend(s.calls, x, q);
      case EncodeFails(x) => CountAppend(s.calls, x, q); CountAppend(s.dropped, x, q);
      case Push | PushAgain => CountAppend(s.queue, s.producer.q, q);
      case RefuseClosed | Fallback => CountAppend(s.dropped, s.producer.q, q);
      case Evict => CountPop(s.queue, q);
      case CountStale => CountAppend(s.dropped, s.producer.stale, q);
      case _ =>
    }
  }

  lemma ConservedStep(c: Config, s: Exporter, l: Label)
    requires Conserved(s) && Enabled(c, s, l)
    ensures Conserved(Do(c, s, l))
  {
    hide Count;
    forall q ensures Count(Do(c, s, l).calls, q) == Located(Do(c, s, l), q) {
      LocatedStep(c, s, l, q);
    }
  }

  // ---------------------------------------------------------------------------
  // Control: lock, close flag, drain, capacity
  // ---------------------------------------------------------------------------

  ghost predicate Control(c: Config, s: Exporter) {
    && |s.queue| <= c.capacity
    // A slot freed for the producer stays free: the worker only removes.
    && (s.producer.Evicting? || s.producer.Retrying? ==> |s.queue| < c.capacity)
    // Close cannot set its flag inside an enqueue, nor an enqueue start after.
    && (s.Closed() ==> !s.HoldsLock())
    && (s.Busy() && s.worker.draining ==> s.Done())
    && (s.worker.Draining? ==> s.Done())
    && (s.worker.Exited? ==> s.Done() && s.queue == [])
    && (s.closer.Returned? ==> s.worker.Exited?)
    && (s.Busy() ==> s.worker.attempt <= c.maxRetries)
  }

  lemma ControlStep(c: Config, s: Exporter, l: Label)
    requires ValidConfig(c) && Control(c, s) && Enabled(c, s, l)
    ensures Control(c, Do(c, s, l))
  {
  }

  // ---------------------------------------------------------------------------
  // Queue order
  // ---------------------------------------------------------------------------

  /** The queue is the most recent |queue| accepted batches, in order. */
  ghost predicate Freshest(s: Exporter) {
    && |s.queue| <= |s.accepted|
    && s.queue == s.accepted[|s.accepted| - |s.queue|..]
  }

  lemma FreshestStep(c: Config, s: Exporter, l: Label)
    requires Freshest(s) && Enabled(c, s, l)
    ensures Freshest(Do(c, s, l))
  {
  }

  ghost predicate Inv(c: Config, s: Exporter) {
    Conserved(s) && Control(c, s) && Freshest(s)
  }

  lemma InitialInv(c: Config)
    ensures Inv(c, INITIAL)
  {
  }

  lemma RetryHasRoom(c: Config, s: Exporter)
    requires ValidConfig(c) && Inv(c, s) && s.producer.Retrying?
    ensures |s.queue| < c.capacity && !s.Closed()
  {
  }

  lemma InvControl(c: Config, s: Exporter)
    requires Inv(c, s)
    ensures Control(c, s)
  {
  }

  lemma {:induction false} InvHolds(c: Config, s: Exporter, ls: seq<Label>, t: Exporter)
    requires ValidConfig(c) && Inv(c, s) && Runs(c, s, ls, t)
    ensures Inv(c, t)
    decreases |ls|
  {
    if ls != [] {
      ConservedStep(c, s, ls[0]);
      ControlStep(c, s, ls[0]);
      FreshestStep(c, s, ls[0]);
      InvHolds(c, Do(c, s, ls[0]), ls[1..], t);
    }
  }

  /** Some interleaving leads from a fresh exporter to t. */
  ghost predicate Reachable(c: Config, t: Exporter) {
    exists ls :: Runs(c, INITIAL, ls, t)
  }

  lemma ReachableInv(c: Config, t: Exporter)
    requires ValidConfig(c) && Reachable(c, t)
    ensures Inv(c, t)
  {
    var ls :| Runs(c, INITIAL, ls, t);
    InvHolds(c, INITIAL, ls, t);
  }

  /** However producer, worker and closer interleaved: at its third select Export
      finds the slot it freed still free, so the batch goes on the queue and
      nowhere else, and Close has not begun. */
  lemma SlotStaysFree(c: Config, t: Exporter)
    requires ValidConfig(c) && Reachable(c, t) && t.producer.Retrying?
    ensures Enabled(c, t, PushAgain) && !Enabled(c, t, Fallback) && !Enabled(c, t, SetClosed)
    ensures t.closer.Open?
  {
    ReachableInv(c, t);
    RetryHasRoom(c, t);
  }

  /** In every interleaving, the calls Export has taken are exactly the exported,
      dropped and rejected ones plus those queued, in flight or mid-enqueue; the
      queue holds the freshest accepted batches; and the last-resort drop of the
      third select is never reached. */
  lemma EveryBatchHasOneFate(c: Config, t: Exporter)
    requires ValidConfig(c) && Reachable(c, t)
    ensures Conserved(t) && Freshest(t)
    ensures |t.queue| <= c.capacity
    ensures !Enabled(c, t, Fallback)
  {
    ReachableInv(c, t);
  }

  /** Once Close has returned, the queue and the worker are empty, whatever a
      late Export call still does; when no call is pending either, every call
      ended in exactly one counter. */
  lemma NothingLeftAfterClose(c: Config, t: Exporter)
    requires ValidConfig(c) && Reachable(c, t) && t.closer.Returned?
    ensures t.queue == [] && !t.Busy()
    ensures t.producer.Outside? || t.producer.Encoded?
    ensures t.producer.Encoded? ==> Enabled(c, t, RefuseClosed) && !Enabled(c, t, TakeLock)
    ensures t.producer.Outside? ==>
      forall q :: Count(t.calls, q) == Count(t.exported, q) + Count(t.dropped, q) + Count(t.rejected, q)
  {
    ReachableInv(c, t);
  }
}
