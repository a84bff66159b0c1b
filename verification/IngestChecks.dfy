/** What the ingest's stateful checks find: each finding exactly when what is
    remembered says so, and what the memory holds after each operation. */
module IngestChecks {
  import opened Wrappers
  import opened Wire
  import opened MockIngest

  predicate Finds(fs: seq<Failure>, code: Code) {
    exists f :: f in fs && f.code == code
  }

  /** A new key whose number leaves others out, after earlier batches. */
  predicate LeavesOut(inst: Instance, key: string, b: Batch) {
    && key !in inst.seen && b.batchSeq > inst.lastAckedSeq
    && inst.lastSeenSeq > 0 && b.batchSeq > inst.lastSeenSeq + 1
  }

  lemma KeyFindings(mode: Mode, inst: Instance, key: string, b: Batch)
    ensures var fs := KeyVerdict(mode, inst, key, b);
            && (Finds(fs, BodyMismatch) <==> key in inst.seen && inst.seen[key].hash != b)
            && (Finds(fs, Replay) <==> key in inst.seen && inst.seen[key].hash == b && inst.seen[key].acked)
            && (forall f :: f in fs ==> (f.code.BodyMismatch? || f.code.Replay?) && (f.severity.Fatal? <==> !mode.WarnOnly?))
  {
    assert forall code, severity :: Emit(mode, code, severity).code == code;
    assert key in inst.seen && inst.seen[key].hash != b ==> Emit(mode, BodyMismatch, Fatal) in KeyVerdict(mode, inst, key, b);
    assert key in inst.seen && inst.seen[key].hash == b && inst.seen[key].acked ==> Emit(mode, Replay, Fatal) in KeyVerdict(mode, inst, key, b);
  }

  lemma SeqFindings(mode: Mode, inst: Instance, key: string, b: Batch)
    ensures var fs := SeqVerdict(mode, inst, key, b);
            && (Finds(fs, SeqRegression) <==> key !in inst.seen && b.batchSeq <= inst.lastAckedSeq)
            && (Finds(fs, SeqGap) <==> LeavesOut(inst, key, b))
            && (Finds(fs, CounterRegression) <==>
                  LeavesOut(inst, key, b) && inst.lastAgent.Some? && b.agent.dropped < inst.lastAgent.value.dropped)
            && (Finds(fs, DropAccounting) <==>
                  LeavesOut(inst, key, b) && inst.lastAgent.Some? && b.agent.dropped >= inst.lastAgent.value.dropped
                  && b.agent.dropped - inst.lastAgent.value.dropped != b.batchSeq - inst.lastSeenSeq - 1)
            && (forall f :: f in fs ==>
                  (f.code.SeqRegression? && (f.severity.Fatal? <==> !mode.WarnOnly?))
                  || ((f.code.SeqGap? || f.code.CounterRegression? || f.code.DropAccounting?) && (f.severity.Fatal? <==> mode.Strict?)))
  {
    var fs := SeqVerdict(mode, inst, key, b);
    if key !in inst.seen && b.batchSeq <= inst.lastAckedSeq {
      assert fs[0] in fs;
    } else if LeavesOut(inst, key, b) {
      assert fs[0] in fs && fs[0].code == SeqGap;
      if |fs| > 1 {
        assert fs[1] in fs;
      }
    }
  }

  lemma RejectedFindings(mode: Mode, inst: Instance, key: string, b: Batch, sent4xx: nat)
    ensures var fs := RejectedVerdict(mode, inst, key, b, sent4xx);
            && (Finds(fs, RejectedUnexplained) <==>
                  && inst.lastAgent.Some? && b.agent.rejected != inst.lastAgent.value.rejected && sent4xx == inst.sent4xxAtLast
                  && !(LeavesOut(inst, key, b) && b.agent.dropped < inst.lastAgent.value.dropped))
            && (forall f :: f in fs ==> f.code.RejectedUnexplained? && (f.severity.Fatal? <==> mode.Strict?))
  {
    var fs := RejectedVerdict(mode, inst, key, b, sent4xx);
    if fs != [] {
      assert fs[0] in fs;
    }
  }

  lemma FindsConcat(a: seq<Failure>, b: seq<Failure>, code: Code)
    ensures Finds(a + b, code) <==> Finds(a, code) || Finds(b, code)
  {
    if Finds(a, code) {
      var f :| f in a && f.code == code;
      assert f in a + b;
    }
    if Finds(b, code) {
      var f :| f in b && f.code == code;
      assert f in a + b;
    }
  }

  /** The stateful check reports each offence exactly when the memory of the
      agent's earlier batches shows it: a remembered key with another body; a
      remembered and acknowledged one with the same; a new key at or below the
      last acknowledged number; a number that leaves others out; and then a
      dropped counter that went back, or that does not account for them; and a
      rise of the rejected counter this server does not explain. A repeated key
      is counted as a duplicate, and what a number leaves out as missing. */
  lemma ChecksAreExact(s: Server, mode: Mode, key: string, b: Batch)
    requires b.instance != "" && key != ""
    ensures var inst, c := s.InstanceOf(b.instance), CheckState(s, mode, key, b);
            && (Finds(c.failures, BodyMismatch) <==> key in inst.seen && inst.seen[key].hash != b)
            && (Finds(c.failures, Replay) <==> key in inst.seen && inst.seen[key].hash == b && inst.seen[key].acked)
            && (Finds(c.failures, SeqRegression) <==> key !in inst.seen && b.batchSeq <= inst.lastAckedSeq)
            && (Finds(c.failures, SeqGap) <==> LeavesOut(inst, key, b))
            && (Finds(c.failures, CounterRegression) <==>
                  LeavesOut(inst, key, b) && inst.lastAgent.Some? && b.agent.dropped < inst.lastAgent.value.dropped)
            && (Finds(c.failures, DropAccounting) <==>
                  LeavesOut(inst, key, b) && inst.lastAgent.Some? && b.agent.dropped >= inst.lastAgent.value.dropped
                  && b.agent.dropped - inst.lastAgent.value.dropped != b.batchSeq - inst.lastSeenSeq - 1)
            && (Finds(c.failures, RejectedUnexplained) <==>
                  && inst.lastAgent.Some? && b.agent.rejected != inst.lastAgent.value.rejected && s.sent4xx == inst.sent4xxAtLast
                  && !(LeavesOut(inst, key, b) && b.agent.dropped < inst.lastAgent.value.dropped))
            && c.server.duplicates == s.duplicates + (if key in inst.seen then 1 else 0)
            && c.server.seqGaps == s.seqGaps + (if LeavesOut(inst, key, b) then b.batchSeq - inst.lastSeenSeq - 1 else 0)
            && (c.retry <==> key in inst.seen)
            && (c.afterFault <==> key in inst.seen && inst.seen[key].truncated)
  {
    var inst := s.InstanceOf(b.instance);
    KeyFindings(mode, inst, key, b);
    SeqFindings(mode, inst, key, b);
    RejectedFindings(mode, inst, key, b, s.sent4xx);
    var k, q, r := KeyVerdict(mode, inst, key, b), SeqVerdict(mode, inst, key, b), RejectedVerdict(mode, inst, key, b, s.sent4xx);
    hide KeyVerdict, SeqVerdict, RejectedVerdict, Remember, Finds, LeavesOut;
    forall code ensures Finds(k + q + r, code) <==> Finds(k, code) || Finds(q, code) || Finds(r, code) {
      FindsConcat(k, q, code);
      FindsConcat(k + q, r, code);
    }
    CodesApart(k, q, r);
    GapIsLeavesOut(inst, key, b);
    assert CheckState(s, mode, key, b).failures == k + q + r;
  }

  lemma GapIsLeavesOut(inst: Instance, key: string, b: Batch)
    ensures Gap(inst, key, b) <==> LeavesOut(inst, key, b)
  {
  }

  lemma CodesApart(k: seq<Failure>, q: seq<Failure>, r: seq<Failure>)
    requires forall f :: f in k ==> f.code.BodyMismatch? || f.code.Replay?
    requires forall f :: f in q ==> f.code.SeqRegression? || f.code.SeqGap? || f.code.CounterRegression? || f.code.DropAccounting?
    requires forall f :: f in r ==> f.code.RejectedUnexplained?
    ensures forall code :: Finds(k, code) ==> code.BodyMismatch? || code.Replay?
    ensures forall code :: Finds(q, code) ==> code.SeqRegression? || code.SeqGap? || code.CounterRegression? || code.DropAccounting?
    ensures forall code :: Finds(r, code) ==> code.RejectedUnexplained?
  {
  }

  /** What the memory holds against a delivery that no mode but warn-only lets
      pass. */
  predicate Offends(inst: Instance, key: string, b: Batch) {
    if key in inst.seen then inst.seen[key].hash != b || inst.seen[key].acked else b.batchSeq <= inst.lastAckedSeq
  }

  predicate Accused(s: Server, q: Queued) {
    q.body.instance != "" && q.key != "" && Offends(s.InstanceOf(q.body.instance), q.key, q.body)
  }

  /** In the normal mode a request is rejected exactly for a fatal finding in its
      body, a key that is not its batch's own, telemetry that cannot be, or an
      offence against the memory. */
  lemma RejectedExactly(s: Server, q: Queued, others: seq<Failure>)
    ensures Validate(s, Normal, q, others).1 <==>
      || (exists f :: f in others && f.severity.Fatal?)
      || (q.key != "" && q.key != IdempotencyKey(q.body.instance, q.body.batchSeq))
      || q.body.agent.collected != q.body.batchSeq || q.body.agent.exported >= q.body.batchSeq
      || q.body.agent.exported + q.body.agent.dropped + q.body.agent.rejected > q.body.agent.collected
      || Accused(s, q)
  {
    var inst, u := s.InstanceOf(q.body.instance), s.(requests := s.requests + 1);
    StatefulFatal(u, Normal, q.key, q.body);
    hide CheckState, IdempotencyKey, Offends, Warnings;
    var format := if q.key != "" && q.key != IdempotencyKey(q.body.instance, q.body.batchSeq) then [Emit(Normal, KeyFormat, Fatal)] else [];
    var agent := if AgentConforms(q.body) then [] else [Emit(Normal, AgentCheck, Fatal)];
    var state := CheckState(u, Normal, q.key, q.body).failures;
    FatalConcat(others, format);
    FatalConcat(others + format, agent);
    FatalConcat(others + format + agent, state);
    assert format != [] ==> format[0] in format;
    assert agent != [] ==> agent[0] in agent;
  }

  lemma FatalConcat(a: seq<Failure>, b: seq<Failure>)
    ensures AnyFatal(a + b) <==> AnyFatal(a) || AnyFatal(b)
  {
    if AnyFatal(a) {
      var f :| f in a && f.severity.Fatal?;
      assert f in a + b;
    }
    if AnyFatal(b) {
      var f :| f in b && f.severity.Fatal?;
      assert f in a + b;
    }
  }

  /** An offence is fatal unless the server only warns; strict makes the warnings
      fatal too. */
  lemma StatefulFatal(s: Server, mode: Mode, key: string, b: Batch)
    ensures !mode.WarnOnly? && b.instance != "" && key != "" && Offends(s.InstanceOf(b.instance), key, b) ==>
      AnyFatal(CheckState(s, mode, key, b).failures)
    ensures mode.Normal? && AnyFatal(CheckState(s, mode, key, b).failures) ==>
      b.instance != "" && key != "" && Offends(s.InstanceOf(b.instance), key, b)
    ensures mode.WarnOnly? ==> !AnyFatal(CheckState(s, mode, key, b).failures)
  {
    if b.instance != "" && key != "" {
      var inst := s.InstanceOf(b.instance);
      KeyFindings(mode, inst, key, b);
      SeqFindings(mode, inst, key, b);
      RejectedFindings(mode, inst, key, b, s.sent4xx);
      hide KeyVerdict, SeqVerdict, RejectedVerdict, Remember, LeavesOut;
      var k, q, r := KeyVerdict(mode, inst, key, b), SeqVerdict(mode, inst, key, b), RejectedVerdict(mode, inst, key, b, s.sent4xx);
      FatalConcat(k, q);
      FatalConcat(k + q, r);
    }
  }

  // ---------------------------------------------------------------------------
  // The memory
  // ---------------------------------------------------------------------------

  /** Every delivery is remembered under its key with the body it first came with,
      counted, and never forgotten an acknowledgement or a cut-off; the highest
      number seen, the agent's last report and the count of rejections move on,
      unless its dropped counter went back. Nothing else is touched, and no other
      agent. */
  lemma DeliveryRemembered(s: Server, mode: Mode, key: string, b: Batch, id: string, k: string)
    requires b.instance != "" && key != ""
    ensures var t := CheckState(s, mode, key, b).server;
            var was, now := s.InstanceOf(b.instance), t.InstanceOf(b.instance);
            var back := LeavesOut(was, key, b) && was.lastAgent.Some? && b.agent.dropped < was.lastAgent.value.dropped;
            && now.seen.Keys == was.seen.Keys + {key}
            && (k in was.seen && k != key ==> now.seen[k] == was.seen[k])
            && now.seen[key] == (if key in was.seen then was.seen[key].(count := was.seen[key].count + 1)
                                 else Delivery(b, b.batchSeq, false, false, 1))
            && now.lastAckedSeq == was.lastAckedSeq
            && now.lastSeenSeq == (if back || b.batchSeq <= was.lastSeenSeq then was.lastSeenSeq else b.batchSeq)
            && now.lastAgent == (if back then was.lastAgent else Some(b.agent))
            && now.sent4xxAtLast == (if back then was.sent4xxAtLast else s.sent4xx)
            && (id != b.instance ==> t.InstanceOf(id) == s.InstanceOf(id))
  {
  }

  /** Once a delivery is acknowledged, the same body again is a replay, another
      body under its key a mismatch, and any new key at or below its number a
      regression. */
  lemma AcknowledgedIsHeld(s: Server, mode: Mode, key: string, b: Batch, other: Batch, newer: string)
    requires b.instance != "" && key != "" && newer != "" && other.instance == b.instance
    requires b.instance in s.instances && key in s.instances[b.instance].seen
    requires s.instances[b.instance].seen[key].hash == b && newer !in s.instances[b.instance].seen
    ensures var t := MarkAcked(s, key, b);
            && Finds(CheckState(t, mode, key, b).failures, Replay)
            && (other != b ==> Finds(CheckState(t, mode, key, other).failures, BodyMismatch))
            && (other.batchSeq <= b.batchSeq ==> Finds(CheckState(t, mode, newer, other).failures, SeqRegression))
  {
    var t := MarkAcked(s, key, b);
    ChecksAreExact(t, mode, key, b);
    ChecksAreExact(t, mode, key, other);
    ChecksAreExact(t, mode, newer, other);
    hide CheckState, Finds;
  }

  /** A delivery cut off or dropped is not held against its retry, which is told
      apart as following a fault. */
  lemma CutOffIsForgiven(s: Server, mode: Mode, key: string, b: Batch)
    requires b.instance != "" && key != ""
    requires b.instance in s.instances && key in s.instances[b.instance].seen
    requires s.instances[b.instance].seen[key].hash == b && !s.instances[b.instance].seen[key].acked
    ensures var c := CheckState(MarkTruncated(s, key, b), mode, key, b);
            c.retry && c.afterFault && !Finds(c.failures, Replay) && !Finds(c.failures, BodyMismatch) && !Finds(c.failures, SeqRegression)
  {
    ChecksAreExact(MarkTruncated(s, key, b), mode, key, b);
    hide CheckState, Finds;
  }

  // ---------------------------------------------------------------------------
  // The fault schedule
  // ---------------------------------------------------------------------------

  /** Which rule answers request n: an armed one-shot; else a drop, for the first
      dropFirst and every dropEvery-th; else failStatus for the first failFirst;
      else everyNthStatus for every everyNth-th; else none. A delay comes on top
      for the first delayFirst, or for all when that is not set, and Retry-After
      goes with 429 and 503 only. */
  lemma RulesInOrder(f: Faults, armed: bool, n: nat)
    requires n >= 1
    ensures var out := FaultFor(f, armed, n);
            var once := armed && f.terminalOnce > 0;
            var drop := n <= f.dropFirst || (f.dropEvery > 0 && n % f.dropEvery == 0);
            var nth := f.everyNth > 0 && n % f.everyNth == 0;
            && (once ==> out.kind == StatusFault(f.terminalOnce))
            && (out.kind.DropFault? <==> !once && drop)
            && (!once && !drop && n <= f.failFirst ==> out.kind == StatusFault(f.failStatus))
            && (!once && !drop && n > f.failFirst && nth ==> out.kind == StatusFault(f.everyNthStatus))
            && (out.kind.NoFault? <==> !once && !drop && n > f.failFirst && !nth)
            && out.delayMs == (if f.delayFirst > 0 && n > f.delayFirst then 0 else f.delayMs)
            && out.retryAfter == (if out.kind == StatusFault(429) || out.kind == StatusFault(503) then f.retryAfterSec else 0)
  {
  }

  /** Deciding uses up an armed one-shot and counts what it injects, a status, a drop
      or a delay, and touches nothing else. */
  lemma InjectedCounted(s: Server, n: nat)
    ensures var (t, out) := Decide(s, n);
            && t == s.(terminalArmed := t.terminalArmed, faultsInjected := t.faultsInjected)
            && (t.terminalArmed <==> s.terminalArmed && s.faults.terminalOnce == 0)
            && t.faultsInjected == s.faultsInjected + (if out.kind.NoFault? && out.delayMs == 0 then 0 else 1)
  {
  }

  /** A one-shot answers the first decided request and no later one, until the
      schedule is set again. */
  lemma OneShotOnce(s: Server, n: nat, m: nat, f: Faults)
    requires s.faults.terminalOnce > 0 && s.terminalArmed
    ensures var (t, first) := Decide(s, n);
            && first.kind == StatusFault(s.faults.terminalOnce)
            && t == s.(terminalArmed := false, faultsInjected := s.faultsInjected + 1)
            && Decide(t, m).1 == FaultFor(s.faults, false, m)
            && (f.terminalOnce > 0 ==> Decide(SetFaults(t, f), m).1.kind == StatusFault(f.terminalOnce))
  {
  }
}
