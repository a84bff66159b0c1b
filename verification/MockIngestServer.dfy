/** The ingest as it runs: one object whose fields the handlers update under the
    lock, each operation tied to its function on the server's state. */
module MockIngestServer {
  import opened Wrappers
  import opened Wire
  import opened MockIngest
  import IngestChecks

  /** What the client is answered with. */
  datatype Answer = Accepted | BadRequest | Status(code: nat, retryAfter: nat) | NoAnswer

  datatype Stats = Stats(requests: nat, ok: nat, accepted: nat, fatal: nat, warn: nat, duplicates: nat, seqGaps: nat, faultsInjected: nat)

  lemma NoFindings()
    ensures !AnyFatal([]) && Warnings([]) == 0
  {
  }

  lemma OneMoreFinding(fs: seq<Failure>, f: Failure)
    ensures AnyFatal(fs + [f]) <==> AnyFatal(fs) || f.severity.Fatal?
    ensures Warnings(fs + [f]) == Warnings(fs) + if f.severity.Fatal? then 0 else 1
  {
    assert (fs + [f])[..|fs|] == fs;
    if f.severity.Fatal? {
      assert f in fs + [f];
    }
  }

  class Ingest {
    const mode: Mode
    var stats: Stats
    var sent4xx: nat
    var faults: Faults
    var terminalArmed: bool
    var failures: seq<Failure>
    var instances: map<string, Instance>

    function View(): Server
      reads this
    {
      Server(stats.requests, stats.ok, stats.accepted, stats.fatal, stats.warn, stats.duplicates, stats.seqGaps,
             stats.faultsInjected, sent4xx, faults, terminalArmed, failures, instances)
    }

    constructor (mode: Mode, f: Faults)
      ensures this.mode == mode
      ensures View() == Server(0, 0, 0, 0, 0, 0, 0, 0, 0, f.WithDefaults(), f.terminalOnce > 0, [], map[])
    {
      this.mode := mode;
      stats, sent4xx := Stats(0, 0, 0, 0, 0, 0, 0, 0), 0;
      faults, terminalArmed := f.WithDefaults(), f.terminalOnce > 0;
      failures, instances := [], map[];
    }

    /** The sequence checks of a key not seen before; `stop` is the early return
        on a counter that went backwards. */
    method CheckSequence(inst: Instance, b: Batch, ghost key: string, ghost before: Instance)
      returns (out: seq<Failure>, stop: bool)
      requires key !in before.seen && inst == before.(seen := inst.seen)
      modifies this
      ensures out == SeqVerdict(mode, before, key, b) && stop == CounterWentBack(before, key, b)
      ensures stats.seqGaps == old(stats).seqGaps + if Gap(before, key, b) then b.batchSeq - before.lastSeenSeq - 1 else 0
      ensures View() == old(View()).(seqGaps := stats.seqGaps)
    {
      out, stop := [], false;
      if b.batchSeq <= inst.lastAckedSeq {
        out := [Emit(mode, SeqRegression, Fatal)];
      } else if inst.lastSeenSeq > 0 && b.batchSeq > inst.lastSeenSeq + 1 {
        var gap := b.batchSeq - inst.lastSeenSeq - 1;
        stats := stats.(seqGaps := stats.seqGaps + gap);
        out := [Emit(mode, SeqGap, Warn)];
        if inst.lastAgent.Some? {
          if b.agent.dropped < inst.lastAgent.value.dropped {
            return out + [Emit(mode, CounterRegression, Warn)], true;
          }
          if b.agent.dropped - inst.lastAgent.value.dropped != gap {
            out := out + [Emit(mode, DropAccounting, Warn)];
          }
        }
      }
    }

    /** The checks of the key itself; records the delivery. */
    method CheckKey(inst: Instance, key: string, b: Batch)
      returns (out: seq<Failure>, noted: Instance, retry: bool, afterFault: bool)
      modifies this
      ensures out == KeyVerdict(mode, inst, key, b)
      ensures retry == (key in inst.seen) && afterFault == (key in inst.seen && inst.seen[key].truncated)
      ensures noted == inst.(seen := inst.seen[key :=
        if key in inst.seen then inst.seen[key].(count := inst.seen[key].count + 1)
        else Delivery(b, b.batchSeq, false, false, 1)])
      ensures View() == old(View()).(duplicates := old(stats).duplicates + if retry then 1 else 0)
    {
      out, retry, afterFault := [], false, false;
      if key in inst.seen {
        var d := inst.seen[key];
        noted := inst.(seen := inst.seen[key := d.(count := d.count + 1)]);
        stats := stats.(duplicates := stats.duplicates + 1);
        if d.hash != b {
          out := [Emit(mode, BodyMismatch, Fatal)];
        } else if d.acked {
          out := [Emit(mode, Replay, Fatal)];
        }
        retry, afterFault := true, d.truncated;
      } else {
        noted := inst.(seen := inst.seen[key := Delivery(b, b.batchSeq, false, false, 1)]);
      }
    }

    /** The checks that need memory of earlier batches; records the delivery. */
    method CheckDelivery(key: string, b: Batch) returns (out: seq<Failure>, retry: bool, afterFault: bool)
      modifies this
      ensures Checked(View(), out, retry, afterFault) == CheckState(old(View()), mode, key, b)
    {
      hide Emit, KeyVerdict;
      out, retry, afterFault := [], false, false;
      if b.instance == "" || key == "" {
        return;
      }
      ghost var before := old(View()).InstanceOf(b.instance);
      var inst := if b.instance in instances then instances[b.instance] else FRESH_INSTANCE;
      out, inst, retry, afterFault := CheckKey(inst, key, b);
      if !retry {
        var more, stop := CheckSequence(inst, b, key, before);
        out := out + more;
        if stop {
          instances := instances[b.instance := inst];
          return;
        }
      }

      if inst.lastAgent.Some? && b.agent.rejected != inst.lastAgent.value.rejected && sent4xx == inst.sent4xxAtLast {
        out := out + [Emit(mode, RejectedUnexplained, Warn)];
      }
      if b.batchSeq > inst.lastSeenSeq {
        inst := inst.(lastSeenSeq := b.batchSeq);
      }
      inst := inst.(lastAgent := Some(b.agent), sent4xxAtLast := sent4xx);
      assert inst == Remember(before, key, b, sent4xx);
      instances := instances[b.instance := inst];
    }

    /** validate and record. */
    method Receive(q: Queued, others: seq<Failure>) returns (fatal: bool)
      modifies this
      ensures (View(), fatal) == Validate(old(View()), mode, q, others)
      ensures mode.Normal? && IngestChecks.Accused(old(View()), q) ==> fatal
    {
      IngestChecks.RejectedExactly(View(), q, others);
      hide Validate, IngestChecks.Accused;
      fatal := Validated(q, others);
    }

    method Validated(q: Queued, others: seq<Failure>) returns (fatal: bool)
      modifies this
      ensures (View(), fatal) == Validate(old(View()), mode, q, others)
    {
      hide CheckState, AgentConforms, IdempotencyKey, Emit, AnyFatal, Warnings;
      stats := stats.(requests := stats.requests + 1);
      var found := others;
      found := found + if q.key != "" && q.key != IdempotencyKey(q.body.instance, q.body.batchSeq)
                       then [Emit(mode, KeyFormat, Fatal)] else [];
      found := found + if AgentConforms(q.body) then [] else [Emit(mode, AgentCheck, Fatal)];
      var state, retry, afterFault := CheckDelivery(q.key, q.body);
      fatal := Record(found + state);
    }

    /** Keeps the findings and counts the request by the worst of them: a fatal
        one makes it rejected, and each of the others is a warning. */
    method Record(found: seq<Failure>) returns (fatal: bool)
      modifies this`failures, this`stats, this`sent4xx
      ensures fatal <==> AnyFatal(found)
      ensures View() == old(View()).(
        failures := old(failures) + found,
        warn := old(stats).warn + Warnings(found),
        fatal := old(stats).fatal + (if fatal then 1 else 0),
        sent4xx := old(sent4xx) + (if fatal then 1 else 0),
        ok := old(stats).ok + (if fatal then 0 else 1))
    {
      hide AnyFatal, Warnings;
      NoFindings();
      fatal := false;
      for i := 0 to |found|
        invariant fatal == AnyFatal(found[..i])
        invariant View() == old(View()).(failures := old(failures) + found[..i], warn := old(stats).warn + Warnings(found[..i]))
      {
        assert found[..i + 1] == found[..i] + [found[i]];
        OneMoreFinding(found[..i], found[i]);
        failures := failures + [found[i]];
        if found[i].severity.Fatal? {
          fatal := true;
        } else {
          stats := stats.(warn := stats.warn + 1);
        }
      }
      assert found[..|found|] == found;
      if fatal {
        stats, sent4xx := stats.(fatal := stats.fatal + 1), sent4xx + 1;
      } else {
        stats := stats.(ok := stats.ok + 1);
      }
    }

    /** decide: consumes TerminalOnce. */
    method DecideFault(n: nat) returns (out: Fault)
      modifies this
      ensures (View(), out) == Decide(old(View()), n)
    {
      var f := faults;
      var delay := 0;
      if f.delayMs > 0 && (f.delayFirst == 0 || n <= f.delayFirst) {
        delay := f.delayMs;
      }
      var kind := NoFault;
      if f.terminalOnce > 0 && terminalArmed {
        terminalArmed := false;
        kind := StatusFault(f.terminalOnce);
      } else if f.dropFirst > 0 && n <= f.dropFirst {
        kind := DropFault;
      } else if f.dropEvery > 0 && n % f.dropEvery == 0 {
        kind := DropFault;
      } else if f.failFirst > 0 && n <= f.failFirst {
        kind := StatusFault(f.failStatus);
      } else if f.everyNth > 0 && n % f.everyNth == 0 {
        kind := StatusFault(f.everyNthStatus);
      }
      var retryAfter := 0;
      if kind.StatusFault? && (kind.status == 429 || kind.status == 503) {
        retryAfter := f.retryAfterSec;
      }
      out := Fault(kind, retryAfter, delay);
      if out.Active() {
        stats := stats.(faultsInjected := stats.faultsInjected + 1);
      }
    }

    method Mark(key: string, b: Batch, acked: bool)
      modifies this
      ensures View() == if acked then MarkAcked(old(View()), key, b) else MarkTruncated(old(View()), key, b)
    {
      if b.instance == "" || key == "" || b.instance !in instances {
        return;
      }
      var inst := instances[b.instance];
      if key in inst.seen {
        var d := inst.seen[key];
        inst := inst.(seen := inst.seen[key := if acked then d.(acked := true) else d.(truncated := true)]);
      }
      if acked && b.batchSeq > inst.lastAckedSeq {
        inst := inst.(lastAckedSeq := b.batchSeq);
      }
      assert !acked && key !in inst.seen ==> instances[b.instance := inst] == instances;
      instances := instances[b.instance := inst];
    }

    /** The request lifecycle: validate, record, then inject. Only an answer of
        Accepted marks the delivery acknowledged and counts it, and a delivery
        that was cut off or dropped is marked truncated instead. */
    method HandleIngest(q: Queued, others: seq<Failure>, clientWaits: bool) returns (answer: Answer)
      modifies this
      ensures var (checked, fatal) := Validate(old(View()), mode, q, others);
              var (decided, f) := Decide(checked, checked.requests);
              if fatal then answer == BadRequest && View() == checked
              else if (f.delayMs > 0 && !clientWaits) || f.kind.DropFault? then
                answer == NoAnswer && View() == MarkTruncated(decided, q.key, q.body)
              else if f.kind.StatusFault? then
                answer == Status(f.kind.status, f.retryAfter) && View() == NoteTerminal(decided, f.kind.status)
              else
                var acked := MarkAcked(decided, q.key, q.body);
                answer == Accepted && View() == acked.(accepted := acked.accepted + 1)
      ensures mode.Normal? && IngestChecks.Accused(old(View()), q) ==> answer == BadRequest
    {
      hide IngestChecks.Accused;
      hide Validate, Decide, MarkAcked, MarkTruncated;
      var fatal := Receive(q, others);
      if fatal {
        return BadRequest;
      }
      var f := DecideFault(stats.requests);
      if f.delayMs > 0 && !clientWaits {
        Mark(q.key, q.body, false);
        return NoAnswer;
      }
      match f.kind {
        case DropFault =>
          Mark(q.key, q.body, false);
          return NoAnswer;
        case StatusFault(status) =>
          if 400 <= status < 500 {
            sent4xx := sent4xx + 1;
          }
          return Status(status, f.retryAfter);
        case NoFault =>
          Mark(q.key, q.body, true);
          stats := stats.(accepted := stats.accepted + 1);
          return Accepted;
      }
    }
  }
}
