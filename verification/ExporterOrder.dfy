/** Order and termination of the exporter's runs: with a producer that numbers
    its batches upwards, everything the worker handles is in order; and Close
    always returns. */
module ExporterOrder {
  import opened Wire
  import opened ExporterMachine

  /** The agent's discipline: each new call carries a larger batch_seq. */
  ghost predicate Numbered(s: Exporter, l: Label) {
    && (l.Call? ==> AllBelow(s.calls, l.q.Seq()))
    && (l.EncodeFails? ==> AllBelow(s.calls, l.q.Seq()))
  }

  ghost predicate NumberedRun(c: Config, s: Exporter, ls: seq<Label>)
    decreases |ls|
  {
    ls != [] ==>
      Numbered(s, ls[0]) && (Enabled(c, s, ls[0]) ==> NumberedRun(c, Do(c, s, ls[0]), ls[1..]))
  }

  /** Everything already on or past the queue precedes the call in progress. */
  ghost predicate Ordered(s: Exporter) {
    && Increasing(s.calls)
    && Increasing(s.taken + s.queue)
    && (forall x :: x in s.taken + s.queue ==> x in s.calls)
    && (!s.producer.Outside? ==> s.producer.q in s.calls && AllBelow(s.taken + s.queue, s.producer.q.Seq()))
    && (s.Busy() ==> s.taken != [] && s.taken[|s.taken| - 1] == s.worker.q)
    && Increasing(s.exported)
    && (forall x :: x in s.exported ==> x in s.taken)
    && (s.Busy() ==> AllBelow(s.exported, s.worker.q.Seq()))
  }

  lemma OrderedTake(s: Exporter)
    requires Ordered(s) && s.queue != [] && !s.Busy()
    ensures Increasing((s.taken + [s.queue[0]]) + s.queue[1..])
    ensures AllBelow(s.exported, s.queue[0].Seq())
    ensures forall x :: x in (s.taken + [s.queue[0]]) + s.queue[1..] <==> x in s.taken + s.queue
  {
    assert (s.taken + [s.queue[0]]) + s.queue[1..] == s.taken + s.queue;
    assert (s.taken + s.queue)[|s.taken|] == s.queue[0];
    forall x | x in s.exported ensures x.Seq() < s.queue[0].Seq() {
      var i :| 0 <= i < |s.taken| && s.taken[i] == x;
      assert (s.taken + s.queue)[i] == x;
    }
  }

  lemma OrderedEvict(s: Exporter)
    requires Ordered(s) && s.queue != []
    ensures Increasing(s.taken + s.queue[1..])
    ensures forall x :: x in s.taken + s.queue[1..] ==> x in s.taken + s.queue
  {
    var old', new' := s.taken + s.queue, s.taken + s.queue[1..];
    forall i, j | 0 <= i < j < |new'| ensures new'[i].Seq() < new'[j].Seq() {
      assert new'[j] == old'[if j < |s.taken| then j else j + 1];
      assert new'[i] == old'[if i < |s.taken| then i else i + 1];
    }
  }

  lemma OrderedPush(s: Exporter, q: Queued)
    requires Increasing(s.taken + s.queue) && AllBelow(s.taken + s.queue, q.Seq())
    ensures Increasing(s.taken + (s.queue + [q]))
  {
    assert s.taken + (s.queue + [q]) == (s.taken + s.queue) + [q];
  }

  lemma OrderedStep(c: Config, s: Exporter, l: Label)
    requires Ordered(s) && Enabled(c, s, l) && Numbered(s, l)
    ensures Ordered(Do(c, s, l))
  {
    match l
    case Push => OrderedPush(s, s.producer.q);
    case PushAgain => OrderedPush(s, s.producer.q);
    case Evict => OrderedEvict(s);
    case Receive => OrderedTake(s);
    case _ =>
  }

  /** With upward numbering, in every interleaving the worker's batches and the
      exported batches are strictly increasing in batch_seq, and everything
      queued is newer than everything the worker has taken. */
  lemma {:induction false} RunsStayOrdered(c: Config, s: Exporter, ls: seq<Label>, t: Exporter)
    requires Ordered(s) && Runs(c, s, ls, t) && NumberedRun(c, s, ls)
    ensures Ordered(t) && Increasing(t.taken) && Increasing(t.exported)
    decreases |ls|
  {
    if ls != [] {
      OrderedStep(c, s, ls[0]);
      RunsStayOrdered(c, Do(c, s, ls[0]), ls[1..], t);
    } else {
      forall i, j | 0 <= i < j < |t.taken| ensures t.taken[i].Seq() < t.taken[j].Seq() {
        assert (t.taken + t.queue)[i] == t.taken[i] && (t.taken + t.queue)[j] == t.taken[j];
      }
    }
  }

  // ---------------------------------------------------------------------------
  // Close terminates
  // ---------------------------------------------------------------------------

  /** What one eviction takes is the oldest batch queued, older than all that
      stays and than the one it makes room for. */
  lemma EvictsOnlyTheOldest(c: Config, s: Exporter, x: Queued)
    requires Ordered(s) && Enabled(c, s, Evict)
    ensures var t := Do(c, s, Evict);
            && s.queue == [t.producer.stale] + t.queue
            && (x in t.queue || x == s.producer.q ==> t.producer.stale.Seq() < x.Seq())
  {
    var all := s.taken + s.queue;
    var n := |s.taken|;
    assert all[n] == s.queue[0];
    if x in s.queue[1..] {
      var i :| 0 <= i < |s.queue| - 1 && s.queue[1..][i] == x;
      assert all[n + 1 + i] == x;
    }
  }

  function Evictions(ls: seq<Label>): nat {
    if ls == [] then 0 else (if ls[0].Evict? then 1 else 0) + Evictions(ls[1..])
  }

  /** Whether the call in progress may still evict. */
  function MayEvict(p: Producer): nat {
    if p.Encoded? || p.Locked? || p.Full? then 1 else 0
  }

  /** One Export call evicts at most one batch, whatever runs in between. */
  lemma {:induction false} OneEvictionPerCall(c: Config, s: Exporter, ls: seq<Label>, t: Exporter)
    requires Runs(c, s, ls, t) && forall l :: l in ls ==> !l.Call?
    ensures Evictions(ls) + MayEvict(t.producer) <= MayEvict(s.producer)
    decreases |ls|
  {
    if ls != [] {
      OneEvictionPerCall(c, Do(c, s, ls[0]), ls[1..], t);
      assert ls[0] in ls;
    }
  }

  /** A new Export call is the agent's choice; every other step is the exporter
      making progress. */
  predicate Progress(l: Label) {
    !l.Call? && !l.EncodeFails?
  }

  function WorkerWork(c: Config, s: Exporter): int {
    var base := if s.worker.Select? then 2 else if s.worker.Draining? then 1
                else if s.worker.Exited? then 0 else if s.worker.draining then 1 else 2;
    var left := if s.Busy() then 4 * (c.maxRetries - s.worker.attempt) else 0;
    match s.worker
    case Sending(_, _, _) => base + left + 3
    case Flying(_, _, _) => base + left + 2
    case Answered(_, _, _, _) => base + left + 1
    case Sleeping(_, _, _) => base + left + 4
    case _ => base
  }

  /** An upper bound on the steps left once Close has set its flag. */
  function Work(c: Config, s: Exporter): int {
    (if s.producer.Outside? then 0 else 1)
    + (if s.closer.Flagged? then 2 else if s.closer.Waiting? then 1 else 0)
    + (4 * c.maxRetries + 4) * |s.queue|
    + WorkerWork(c, s)
  }

  lemma WorkDecreases(c: Config, s: Exporter, l: Label)
    requires Control(c, s) && s.Closed() && Enabled(c, s, l) && Progress(l)
    ensures Do(c, s, l).Closed()
    ensures 0 <= Work(c, Do(c, s, l)) < Work(c, s)
  {
    var t := Do(c, s, l);
    var k := 4 * c.maxRetries + 4;
    if l.Receive? {
      assert k * |t.queue| == k * |s.queue| - k;
    }
    assert k * |t.queue| >= 0;
  }

  /** Once closing has begun no run can be longer than Work(s): the queue drains,
      each batch is sent at most maxRetries + 1 times, and Close returns. */
  lemma {:induction false} ClosingRunsAreShort(c: Config, s: Exporter, ls: seq<Label>, t: Exporter)
    requires ValidConfig(c) && Control(c, s) && s.Closed() && Runs(c, s, ls, t)
    requires forall l :: l in ls ==> Progress(l)
    ensures |ls| <= Work(c, s)
    decreases |ls|
  {
    assert (4 * c.maxRetries + 4) * |s.queue| >= 0;
    if ls != [] {
      WorkDecreases(c, s, ls[0]);
      ControlStep(c, s, ls[0]);
      ClosingRunsAreShort(c, Do(c, s, ls[0]), ls[1..], t);
    }
  }

  /** What the worker does when the scheduler offers it nothing else. */
  function Default(s: Exporter): Label {
    match s.worker
    case Select => SeeDone
    case Draining => if s.queue == [] then Exit else Receive
    case Sending(_, _, _) => Send
    case Flying(_, _, _) => Reply(Retryable)
    case Answered(_, _, _, outcome) =>
      (match outcome case Delivered => CountExported case Terminal => CountRejected case Retryable => GiveUp)
    case Sleeping(_, _, _) => Wake
    case Exited => ReturnFromClose
  }

  /** ...and it can always go on until it has returned: no state of the three
      goroutines is a deadlock. `Reply` is the send coming back, which its own
      timeout bounds. */
  lemma ClosingNeverStuck(c: Config, s: Exporter)
    requires ValidConfig(c) && Control(c, s) && s.Closed() && !s.closer.Returned?
    ensures exists l :: Progress(l) && Enabled(c, s, l)
  {
    var l := if s.closer.Flagged? then CloseDone else Default(s);
    assert Progress(l) && Enabled(c, s, l);
  }
}
