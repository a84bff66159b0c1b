/** The exporter's own code: Export, sendWithRetry and Close as written, with
    every other goroutine allowed to run between any two of their atomic
    actions. Each is shown to be a run of the step machine. */
module HttpExporter {
  import opened Wire
  import opened ExporterMachine
  import opened ExporterOrder
  import opened ExporterDrops
  import Backoff

  datatype ExportResult = Nil | ContextDone | EncodeError | ErrClosed | ErrQueueFull

  datatype Response = TransportError | Http(code: int, retryAfter: Backoff.RetryAfter)

  /** One attempt as the environment answers it: the response, how long the
      request took, the jitter draw of the wait that follows, and how far that
      wait gets if shutdown cuts it short. */
  datatype Attempt = Attempt(response: Response, took: nat, draw: nat, slept: nat)

  function OutcomeOf(r: Response): Outcome {
    match r
    case TransportError => Retryable
    case Http(code, _) => StatusOutcome(code)
  }

  /** An answer below 400 delivers the batch; of the others a request timeout, a rate
      limit, a server error and no answer at all are retried, and only they. */
  lemma OutcomeMeaning(r: Response)
    ensures OutcomeOf(r).Delivered? <==> r.Http? && r.code < 400
    ensures OutcomeOf(r).Terminal? <==> r.Http? && 400 <= r.code < 500 && r.code != 408 && r.code != 429
    ensures OutcomeOf(r).Retryable? <==> r.TransportError? || r.code in {408, 429} || r.code >= 500
  {
  }

  /** The delay before retry `attempt`: the server's, or else jittered backoff. */
  function DelayAfter(r: Response, base: nat, attempt: nat, draw: nat): (d: nat)
    requires attempt >= 1
  {
    var asked := if r.Http? then Backoff.ParseRetryAfter(r.retryAfter) else 0;
    if asked > 0 then asked else Backoff.Jitter(base, attempt, draw)
  }

  /** A server's positive delay is waited out, up to five minutes; without one the
      delay is a draw from the attempt's own jitter range. */
  lemma DelayMeaning(r: Response, base: nat, attempt: nat, draw: nat)
    requires attempt >= 1
    ensures var asked := if r.Http? then Backoff.ParseRetryAfter(r.retryAfter) else 0;
            if asked > 0 then DelayAfter(r, base, attempt, draw) == asked
            else DelayAfter(r, base, attempt, draw) <= Backoff.Ceiling(base, attempt)
    ensures r.Http? && r.retryAfter.Seconds? && 0 < r.retryAfter.secs <= 300 ==>
              DelayAfter(r, base, attempt, draw) == r.retryAfter.secs * 1_000_000_000
    ensures r.TransportError? ==> DelayAfter(r, base, attempt, draw) == Backoff.Jitter(base, attempt, draw)
  {
    if r.Http? && r.retryAfter.Seconds? && 0 < r.retryAfter.secs <= 300 {
      Backoff.RetryAfterHonoured(r.retryAfter.secs);
    }
  }

  /** The delay before the i-th retry, as the environment draws it. */
  function Delay(env: nat -> Attempt, base: nat, i: nat): nat
    requires i >= 1
  {
    DelayAfter(env(i - 1).response, base, i, env(i - 1).draw)
  }

  /** The time n sends of one batch take with the delays between them. */
  function Spent(env: nat -> Attempt, base: nat, n: nat): nat {
    if n == 0 then 0 else Spent(env, base, n - 1) + (if n > 1 then Delay(env, base, n - 1) else 0) + env(n - 1).took
  }

  /** Whether another retry still fits the budget after n sends. */
  predicate Fits(env: nat -> Attempt, base: nat, budget: nat, n: nat)
    requires n >= 1
  {
    Spent(env, base, n) < budget && Delay(env, base, n) <= budget - Spent(env, base, n)
  }

  /** What a call of Export costs the producer's side of the dropped counter. */
  ghost predicate CostOf(err: ExportResult, q: Queued, before: seq<Queued>, capacity: nat, drops: seq<Queued>) {
    match err
    case ContextDone => drops == []
    case EncodeError | ErrClosed => drops == [q]
    case Nil => |drops| <= 1 && (|before| < capacity ==> drops == []) && (drops != [] ==> drops[0] in before)
    case ErrQueueFull => false
  }

  /** Some run of the call costs the producer that. */
  ghost predicate Costed(c: Config, s: Exporter, t: Exporter, err: ExportResult, q: Queued) {
    exists ls :: Runs(c, s, ls, t) && CostOf(err, q, s.queue, c.capacity, ProducerDrops(c, s, ls))
  }

  /** What happened to the exporter's batches, in order. */
  datatype Log = Log(calls: seq<Queued>, accepted: seq<Queued>, taken: seq<Queued>)

  /** The atomics behind Stats, as the batches they count. */
  datatype Counters = Counters(exported: seq<Queued>, dropped: seq<Queued>, rejected: seq<Queued>, retries: nat)

  /** The producer may drop batches while the worker is busy, but touches no
      other counter. */
  predicate SameButDropped(a: Counters, b: Counters) {
    a == b.(dropped := a.dropped)
  }

  /** Counters only count up. */
  predicate Grown(a: Counters, b: Counters) {
    && |a.exported| <= |b.exported| && |a.dropped| <= |b.dropped| && |a.rejected| <= |b.rejected|
    && a.retries <= b.retries
  }

  datatype Side = ProducerSide | WorkerSide | CloserSide

  function SideOf(l: Label): Side {
    if WorkerLabel(l) then WorkerSide
    else if l.SetClosed? || l.CloseDone? || l.ReturnFromClose? then CloserSide
    else ProducerSide
  }

  ghost predicate Reaches(c: Config, s: Exporter, t: Exporter) {
    exists ls :: Runs(c, s, ls, t)
  }

  lemma ReachesSelf(c: Config, s: Exporter)
    ensures Reaches(c, s, s)
  {
    assert Runs(c, s, [], s);
  }

  /** Taking one enabled step keeps the invariant and extends the run. */
  lemma Stepped(c: Config, start: Exporter, s: Exporter, l: Label)
    requires ValidConfig(c) && Inv(c, s) && Reaches(c, start, s) && Enabled(c, s, l)
    ensures Inv(c, Do(c, s, l)) && Reaches(c, start, Do(c, s, l))
  {
    var ls :| Runs(c, start, ls, s);
    assert [l][1..] == [];
    assert Runs(c, s, [l], Do(c, s, l));
    RunsConcat(c, start, ls, s, [l], Do(c, s, l));
    ConservedStep(c, s, l);
    ControlStep(c, s, l);
    FreshestStep(c, s, l);
  }

  lemma NothingSpent(env: nat -> Attempt, base: nat)
    ensures Spent(env, base, 0) == 0
  {
  }

  lemma OneMoreSend(env: nat -> Attempt, base: nat, n: nat)
    ensures Spent(env, base, n + 1) == Spent(env, base, n) + (if n > 0 then Delay(env, base, n) else 0) + env(n).took
  {
  }

  class HttpExporter {
    const config: Config
    const baseDelay: nat
    const retryBudget: nat
    const timeout: nat

    var queue: seq<Queued>
    var log: Log
    var counters: Counters
    var producer: Producer
    var worker: Worker
    var closer: Closer

    function View(): Exporter
      reads this
    {
      Exporter(queue, log.calls, log.accepted, log.taken,
               counters.exported, counters.dropped, counters.rejected, counters.retries,
               producer, worker, closer)
    }

    ghost predicate Valid()
      reads this
    {
      ValidConfig(config) && Inv(config, View())
    }

    constructor (capacity: nat, maxRetries: nat, baseDelay: nat, retryBudget: nat, timeout: nat)
      requires capacity > 0
      ensures Valid() && View() == INITIAL
      ensures config == Config(capacity, maxRetries)
      ensures this.baseDelay == baseDelay && this.retryBudget == retryBudget && this.timeout == timeout
    {
      config := Config(capacity, maxRetries);
      this.baseDelay, this.retryBudget, this.timeout := baseDelay, retryBudget, timeout;
      queue, log, counters := [], Log([], [], []), Counters([], [], [], 0);
      producer, worker, closer := Outside, Select, Open;
      new;
      hide *;
      InitialInv(config);
    }

    /** Other goroutines run: whatever `script` names and the state allows. */
    method Interfere(ghost start: Exporter, mine: Side, script: seq<Label>)
      requires Valid() && Reaches(config, start, View())
      modifies this
      ensures Valid() && Reaches(config, start, View())
      ensures mine == ProducerSide ==>
        producer == old(producer) && log.calls == old(log.calls) && log.accepted == old(log.accepted) && |queue| <= |old(queue)|
      ensures mine == WorkerSide ==>
        worker == old(worker) && SameButDropped(counters, old(counters))
      ensures mine == CloserSide ==> closer == old(closer)
      ensures Grown(old(counters), counters)
      ensures old(View().Closed()) ==> View().Closed()
    {
      hide Inv, Reaches, Control;
      for i := 0 to |script|
        invariant Valid() && Reaches(config, start, View())
        invariant mine == ProducerSide ==>
          producer == old(producer) && log.calls == old(log.calls) && log.accepted == old(log.accepted) && |queue| <= |old(queue)|
        invariant mine == WorkerSide ==>
          worker == old(worker) && SameButDropped(counters, old(counters))
        invariant mine == CloserSide ==> closer == old(closer)
        invariant Grown(old(counters), counters)
        invariant old(View().Closed()) ==> View().Closed()
      {
        if SideOf(script[i]) != mine && Enabled(config, View(), script[i]) {
          Stepped(config, start, View(), script[i]);
          Become(Do(config, View(), script[i]));
        }
      }
    }

    method Become(t: Exporter)
      modifies this
      ensures View() == t
    {
      queue, log := t.queue, Log(t.calls, t.accepted, t.taken);
      counters := Counters(t.exported, t.dropped, t.rejected, t.retries);
      producer, worker, closer := t.producer, t.worker, t.closer;
    }

    /** Export never blocks and cannot end in the third select's drop, however
        the worker and Close interleave with it. */
    method Export(ctxDone: bool, encodes: bool, q: Queued, sched: nat -> seq<Label>) returns (err: ExportResult)
      requires Valid() && producer.Outside?
      modifies this
      ensures Valid() && producer.Outside?
      ensures Reaches(config, old(View()), View())
      ensures err != ErrQueueFull
      ensures err == ContextDone <==> ctxDone
      ensures ctxDone ==> View() == old(View())
      ensures !ctxDone ==> log.calls == old(log.calls) + [q]
      ensures err == EncodeError <==> !ctxDone && !encodes
      ensures log.accepted == if err == Nil then old(log.accepted) + [q] else old(log.accepted)
      ensures err == ErrClosed ==> View().Closed()
      ensures old(View().Closed()) && !ctxDone && encodes ==> err == ErrClosed
      ensures Grown(old(counters), counters)
      ensures Costed(config, old(View()), View(), err, q)
    {
      ghost var was := View();
      err := ExportSteps(ctxDone, encodes, q, sched);
      ghost var ls :| Runs(config, was, ls, View());
      CallCosts(config, was, ls, View());
      hide Inv, Control, ProducerDrops;
    }

    /** Export, as a run of the machine. */
    method ExportSteps(ctxDone: bool, encodes: bool, q: Queued, sched: nat -> seq<Label>) returns (err: ExportResult)
      requires Valid() && producer.Outside?
      modifies this
      ensures Valid() && producer.Outside?
      ensures Reaches(config, old(View()), View())
      ensures err != ErrQueueFull
      ensures err == ContextDone <==> ctxDone
      ensures ctxDone ==> View() == old(View())
      ensures !ctxDone ==> log.calls == old(log.calls) + [q]
      ensures err == EncodeError <==> !ctxDone && !encodes
      ensures log.accepted == if err == Nil then old(log.accepted) + [q] else old(log.accepted)
      ensures err == ErrClosed ==> View().Closed()
      ensures old(View().Closed()) && !ctxDone && encodes ==> err == ErrClosed
      ensures Grown(old(counters), counters)
    {
      hide Inv, Reaches, Control;
      ghost var start := View();
      ReachesSelf(config, start);
      if ctxDone {
        return ContextDone;
      }
      if !encodes {
        Stepped(config, start, View(), EncodeFails(q));
        log := log.(calls := log.calls + [q]);
        counters := counters.(dropped := counters.dropped + [q]);
        return EncodeError;
      }
      Stepped(config, start, View(), Call(q));
      log, producer := log.(calls := log.calls + [q]), Encoded(q);
      Interfere(start, ProducerSide, sched(0));

      if View().Closed() {
        Stepped(config, start, View(), RefuseClosed);
        counters, producer := counters.(dropped := counters.dropped + [q]), Outside;
        return ErrClosed;
      }
      Stepped(config, start, View(), TakeLock);
      producer := Locked(q);
      Interfere(start, ProducerSide, sched(1));

      Enqueue(start, q, sched);
      return Nil;
    }

    /** The three selects, under the read lock. The last one's default would drop
        q; the freed slot is still free when it is reached. */
    method Enqueue(ghost start: Exporter, q: Queued, sched: nat -> seq<Label>)
      requires Valid() && Reaches(config, start, View()) && producer == Locked(q)
      modifies this
      ensures Valid() && Reaches(config, start, View()) && producer.Outside?
      ensures log.calls == old(log.calls) && log.accepted == old(log.accepted) + [q]
      ensures |old(queue)| < config.capacity ==> queue == old(queue) + [q] && counters == old(counters)
      ensures Grown(old(counters), counters)
    {
      hide Inv, Reaches, Control;
      if |queue| < config.capacity {
        Put(start, q, Push);
        return;
      }
      Stepped(config, start, View(), FallThrough);
      producer := Full(q);
      Interfere(start, ProducerSide, sched(2));
      EvictOldest(start, q, sched);
      Interfere(start, ProducerSide, sched(4));
      RetryHasRoom(config, View());
      Put(start, q, PushAgain);
    }

    method Put(ghost start: Exporter, q: Queued, ghost l: Label)
      requires Valid() && Reaches(config, start, View())
      requires (l.Push? && producer == Locked(q)) || (l.PushAgain? && producer == Retrying(q))
      requires |queue| < config.capacity
      modifies this
      ensures Valid() && Reaches(config, start, View()) && producer.Outside?
      ensures log.calls == old(log.calls) && log.accepted == old(log.accepted) + [q]
      ensures queue == old(queue) + [q] && counters == old(counters)
    {
      hide Inv, Reaches, Control;
      Stepped(config, start, View(), l);
      queue, log, producer := queue + [q], log.(accepted := log.accepted + [q]), Outside;
    }

    method EvictOldest(ghost start: Exporter, q: Queued, sched: nat -> seq<Label>)
      requires Valid() && Reaches(config, start, View()) && producer == Full(q)
      modifies this
      ensures Valid() && Reaches(config, start, View()) && producer == Retrying(q)
      ensures log.calls == old(log.calls) && log.accepted == old(log.accepted)
      ensures Grown(old(counters), counters)
    {
      hide Inv, Reaches, Control;
      if queue != [] {
        Stepped(config, start, View(), Evict);
        var stale := queue[0];
        queue, producer := queue[1..], Evicting(q, stale);
        Interfere(start, ProducerSide, sched(3));
        Stepped(config, start, View(), CountStale);
        counters, producer := counters.(dropped := counters.dropped + [stale]), Retrying(q);
      } else {
        Stepped(config, start, View(), NothingToEvict);
        producer := Retrying(q);
      }
    }

    /** e.send: one request on the wire. */
    method SendOnce(ghost start: Exporter, r: Response, meanwhile: seq<Label>)
      requires Valid() && Reaches(config, start, View()) && worker.Sending?
      modifies this
      ensures Valid() && Reaches(config, start, View())
      ensures worker == Answered(old(worker).q, old(worker).attempt, old(worker).draining, OutcomeOf(r))
      ensures SameButDropped(counters, old(counters))
    {
      hide Inv, Reaches, Control;
      Stepped(config, start, View(), Send);
      worker := Flying(worker.q, worker.attempt, worker.draining);
      Interfere(start, WorkerSide, meanwhile);
      Stepped(config, start, View(), Reply(OutcomeOf(r)));
      worker := Answered(worker.q, worker.attempt, worker.draining, OutcomeOf(r));
    }

    /** retries.Add(1) and e.wait: false as soon as shutdown has begun, unless
        the timer was there first or there is nothing to wait for. */
    method WaitToRetry(ghost start: Exporter, delay: nat, slept: nat, meanwhile: seq<Label>) returns (ok: bool)
      requires Valid() && Reaches(config, start, View())
      requires worker.Answered? && worker.outcome.Retryable? && worker.attempt < config.maxRetries
      modifies this
      ensures Valid() && Reaches(config, start, View())
      ensures ok ==> worker == Sending(old(worker).q, old(worker).attempt + 1, old(worker).draining)
      ensures !ok ==> worker == BackToLoop(old(worker).draining) && View().Done() && slept < delay && old(worker).q in counters.dropped
      ensures SameButDropped(counters, old(counters).(retries := old(counters).retries + 1))
    {
      hide Inv, Reaches, Control;
      Stepped(config, start, View(), Backoff);
      counters, worker := counters.(retries := counters.retries + 1), Sleeping(worker.q, worker.attempt + 1, worker.draining);
      Interfere(start, WorkerSide, meanwhile);
      ok := !(View().Done() && slept < delay);
      if ok {
        Stepped(config, start, View(), Wake);
        worker := Sending(worker.q, worker.attempt, worker.draining);
      } else {
        Stepped(config, start, View(), Interrupted);
        counters := counters.(dropped := counters.dropped + [worker.q]);
        worker := BackToLoop(worker.draining);
      }
    }

    /** The batch is abandoned: retries or budget exhausted. */
    method Abandon(ghost start: Exporter)
      requires Valid() && Reaches(config, start, View())
      requires worker.Answered? && worker.outcome.Retryable?
      modifies this
      ensures Valid() && Reaches(config, start, View())
      ensures View() == old(View()).(
        dropped := old(counters).dropped + [old(worker).q], worker := BackToLoop(old(worker).draining))
    {
      hide Inv, Reaches, Control;
      Stepped(config, start, View(), GiveUp);
      counters := counters.(dropped := counters.dropped + [worker.q]);
      worker := BackToLoop(worker.draining);
    }

    /** An answer that needs no retry is counted. */
    method Settle(ghost start: Exporter)
      requires Valid() && Reaches(config, start, View())
      requires worker.Answered? && !worker.outcome.Retryable?
      modifies this
      ensures Valid() && Reaches(config, start, View())
      ensures View() == old(View()).(
        exported := old(counters).exported + if old(worker).outcome.Delivered? then [old(worker).q] else [],
        rejected := old(counters).rejected + if old(worker).outcome.Delivered? then [] else [old(worker).q],
        worker := BackToLoop(old(worker).draining))
    {
      hide Inv, Reaches, Control;
      if worker.outcome.Delivered? {
        Stepped(config, start, View(), CountExported);
        counters := counters.(exported := counters.exported + [worker.q]);
      } else {
        Stepped(config, start, View(), CountRejected);
        counters := counters.(rejected := counters.rejected + [worker.q]);
      }
      worker := BackToLoop(worker.draining);
    }

    /** sendWithRetry. Whatever the server answers, one batch is sent at most
        maxRetries + 1 times, every send but the last came back retryable, the
        batch ends in exactly the counter its last answer calls for, and with
        sends bounded by the request timeout the worker is occupied for at most
        the retry budget plus one timeout. */
    method SendWithRetry(env: nat -> Attempt, sched: nat -> seq<Label>) returns (sends: nat, elapsed: nat)
      requires Valid() && worker.Sending? && worker.attempt == 0
      requires forall i: nat :: env(i).took <= timeout
      modifies this
      ensures Valid() && Reaches(config, old(View()), View())
      ensures worker == BackToLoop(old(worker).draining)
      ensures 1 <= sends <= config.maxRetries + 1
      ensures elapsed <= retryBudget + timeout
      ensures forall i :: 0 <= i < sends - 1 ==> OutcomeOf(env(i).response).Retryable?
      ensures var last := OutcomeOf(env(sends - 1).response);
              && counters.exported == old(counters).exported + (if last.Delivered? then [old(worker).q] else [])
              && counters.rejected == old(counters).rejected + (if last.Terminal? then [old(worker).q] else [])
              && (last.Retryable? ==> old(worker).q in counters.dropped)
      ensures old(counters).retries + sends - 1 <= counters.retries <= old(counters).retries + sends
      ensures forall i :: 1 <= i < sends ==> Fits(env, baseDelay, retryBudget, i)
      ensures elapsed == Spent(env, baseDelay, sends)
        || (View().Done() && elapsed == Spent(env, baseDelay, sends) + env(sends - 1).slept
            && env(sends - 1).slept < Delay(env, baseDelay, sends))
      ensures OutcomeOf(env(sends - 1).response).Retryable? && !View().Done() ==>
        sends == config.maxRetries + 1 || !Fits(env, baseDelay, retryBudget, sends)
    {
      hide Inv, Reaches, Control, Do, Enabled, DelayAfter, OutcomeOf, Spent;
      NothingSpent(env, baseDelay);
      ghost var start := View();
      ReachesSelf(config, start);
      var q, draining := worker.q, worker.draining;
      elapsed, sends := 0, 0;
      while sends <= config.maxRetries
        invariant Valid() && Reaches(config, start, View())
        invariant sends <= config.maxRetries + 1
        invariant sends == 0 ==> worker == Sending(q, 0, draining) && elapsed == 0
        invariant sends > 0 ==> worker == Answered(q, sends - 1, draining, Retryable)
        invariant elapsed <= retryBudget + timeout
        invariant elapsed == Spent(env, baseDelay, sends)
        invariant forall i :: 1 <= i < sends ==> Fits(env, baseDelay, retryBudget, i)
        invariant forall i :: 0 <= i < sends ==> OutcomeOf(env(i).response).Retryable?
        invariant counters.exported == old(counters).exported && counters.rejected == old(counters).rejected
        invariant counters.retries == old(counters).retries + if sends == 0 then 0 else sends - 1
        decreases config.maxRetries + 1 - sends
      {
        if sends > 0 {
          var delay := DelayAfter(env(sends - 1).response, baseDelay, sends, env(sends - 1).draw);
          if elapsed >= retryBudget || delay > retryBudget - elapsed {
            Abandon(start);
            return;
          }
          var ok := WaitToRetry(start, delay, env(sends - 1).slept, sched(2 * sends));
          if !ok {
            elapsed := elapsed + env(sends - 1).slept;
            return;
          }
          elapsed := elapsed + delay;
        }
        OneMoreSend(env, baseDelay, sends);
        SendOnce(start, env(sends).response, sched(2 * sends + 1));
        elapsed, sends := elapsed + env(sends).took, sends + 1;
        if !worker.outcome.Retryable? {
          Settle(start);
          return;
        }
      }
      Abandon(start);
    }

    /** While Close waits: the scheduler's choice, or else the worker's next step. */
    method DrainStep(ghost start: Exporter, choice: Label)
      requires Valid() && Reaches(config, start, View()) && closer == Waiting && worker != Exited
      modifies this
      ensures Valid() && Reaches(config, start, View()) && closer == Waiting
      ensures 0 <= Work(config, View()) < Work(config, old(View()))
    {
      hide Inv, Reaches, Work;
      var l := if SideOf(choice) != CloserSide && Progress(choice) && Enabled(config, View(), choice)
               then choice else Default(View());
      Stepped(config, start, View(), l);
      InvControl(config, View());
      WorkDecreases(config, View(), l);
      Become(Do(config, View(), l));
    }

    /** Close, from the moment mu.Lock returns: whatever the scheduler lets the
        worker and a last Export call do, the loop ends, with the queue drained
        and nothing in flight. A second Close returns at once. */
    method Close(sched: nat -> Label)
      requires Valid() && !View().HoldsLock()
      modifies this
      ensures Valid() && Reaches(config, old(View()), View())
      ensures old(View().Closed()) ==> View() == old(View())
      ensures !old(View().Closed()) ==> closer.Returned? && worker.Exited? && queue == []
    {
      hide Inv, Reaches, Work;
      ghost var start := View();
      ReachesSelf(config, start);
      if closer != Open {
        return;
      }
      Stepped(config, start, View(), SetClosed);
      closer := Flagged;
      Stepped(config, start, View(), CloseDone);
      closer := Waiting;
      var i := 0;
      while worker != Exited
        invariant Valid() && Reaches(config, start, View()) && closer == Waiting
        decreases Work(config, View())
      {
        DrainStep(start, sched(i));
        i := i + 1;
      }
      Stepped(config, start, View(), ReturnFromClose);
      InvControl(config, View());
      closer := Returned;
    }
  }
}
