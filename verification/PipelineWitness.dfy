/** The other half of the totals: a schedule that can pass a failure off as an
    acceptance has a run that ends with one batch exported and none accepted. */
module PipelineWitness {
  import opened Wrappers
  import opened Wire
  import opened ExporterMachine
  import opened MockIngest
  import opened Pipeline
  import opened PipelineTotals

  /** Some run leads from s to t without touching the schedule. */
  ghost predicate Leads(c: Setup, s: System, t: System) {
    exists es :: Happens(c, s, es, t) && Fixed(es)
  }

  lemma {:induction false} HappensOneMore(c: Setup, s: System, es: seq<Event>, t: System, e: Event)
    requires Happens(c, s, es, t) && Possible(c, t, e)
    ensures Happens(c, s, es + [e], Act(c, t, e))
    decreases |es|
  {
    hide Possible, Act;
    if es == [] {
      assert es + [e] == [e];
      assert Happens(c, Act(c, t, e), [e][1..], Act(c, t, e));
    } else {
      assert (es + [e])[1..] == es[1..] + [e];
      HappensOneMore(c, Act(c, s, es[0]), es[1..], t, e);
    }
  }

  lemma LeadsSelf(c: Setup, s: System)
    ensures Leads(c, s, s)
  {
    assert Happens(c, s, [], s) && Fixed([]);
  }

  /** One more event. */
  lemma Go(c: Setup, s0: System, s: System, e: Event) returns (t: System)
    requires Leads(c, s0, s) && Possible(c, s, e) && !e.Reconfigure?
    ensures Leads(c, s0, t) && t == Act(c, s, e)
  {
    hide Possible, Act;
    var es :| Happens(c, s0, es, s) && Fixed(es);
    HappensOneMore(c, s0, es, s, e);
    assert Fixed(es + [e]);
    t := Act(c, s, e);
  }

  /** Everything idle, with an empty queue, and no more batches counted than
      numbered. */
  predicate AtRest(s: System) {
    && s.agent.Idle? && s.active.None? && s.abandoned == []
    && s.exp.producer.Outside? && s.exp.worker.Select? && s.exp.queue == [] && s.exp.closer.Open?
    && |s.exp.exported| + |s.exp.dropped| + |s.exp.rejected| <= s.batchSeq
  }

  /** The next batch can be collected, and goes to the worker at once. */
  predicate Free(s: System) {
    && s.agent.Idle? && s.exp.producer.Outside? && s.exp.worker.Select? && s.exp.queue == [] && s.exp.closer.Open?
  }

  /** What stays while one more batch is collected and sent. */
  predicate SameButSent(s: System, t: System) {
    && t.srv == s.srv && t.active == s.active && t.abandoned == s.abandoned
    && t.hollow == s.hollow && t.unnoted == s.unnoted && t.batchSeq == s.batchSeq + 1
    && t.exp.exported == s.exp.exported && t.exp.dropped == s.exp.dropped && t.exp.rejected == s.exp.rejected
    && t.exp.closer == s.exp.closer
  }

  /** The next batch, as the agent stamps it when nothing moves meanwhile. */
  function NextBatch(c: Setup, s: System): Batch {
    Batch(c.instance, s.batchSeq + 1,
          AgentStats(s.batchSeq + 1, |s.exp.exported|, |s.exp.dropped|, |s.exp.rejected|, s.exp.retries, |s.exp.queue|), "")
  }

  lemma Stamped(c: Setup, s0: System, s: System) returns (t: System)
    requires Leads(c, s0, s) && s.agent.Idle? && s.exp.producer.Outside?
    ensures Leads(c, s0, t) && SameButSent(s, t) && t.exp == s.exp
    ensures t.agent == Ready(NextBatch(c, s))
  {
    hide Leads;
    t := Go(c, s0, s, Collect(""));
    t := Go(c, s0, t, LoadCounter);
    t := Go(c, s0, t, LoadCounter);
    t := Go(c, s0, t, LoadCounter);
    t := Go(c, s0, t, LoadCounter);
    assert t.agent == Stamping("", [|s.exp.exported|, |s.exp.dropped|, |s.exp.rejected|, s.exp.retries]);
    t := Go(c, s0, t, LoadCounter);
  }

  /** The next batch is collected, queued, taken and on the wire. */
  lemma OnTheWire(c: Setup, s0: System, s: System) returns (t: System)
    requires ValidSetup(c) && Leads(c, s0, s) && Free(s)
    ensures Leads(c, s0, t) && SameButSent(s, t)
    ensures t.agent.Idle? && t.exp.producer.Outside? && t.exp.queue == []
    ensures t.exp.worker == Flying(Encode(NextBatch(c, s)), 0, false)
  {
    hide Leads, IdempotencyKey;
    t := Stamped(c, s0, s);
    t := Go(c, s0, t, CallExport);
    t := Go(c, s0, t, Internal(TakeLock));
    t := Go(c, s0, t, Internal(Push));
    t := Go(c, s0, t, Internal(Receive));
    t := Go(c, s0, t, Internal(Send));
  }

  /** A request refused before it is read uses up a request number and a batch
      number. */
  lemma SkipOne(c: Setup, s0: System, s: System) returns (t: System)
    requires ValidSetup(c) && Leads(c, s0, s) && AtRest(s)
    ensures Leads(c, s0, t) && AtRest(t) && t.batchSeq == s.batchSeq + 1
    ensures t.srv == s.srv.(requests := s.srv.requests + 1, fatal := t.srv.fatal, sent4xx := t.srv.sent4xx)
    ensures t.exp.exported == s.exp.exported && t.unnoted == s.unnoted
  {
    hide Leads, IdempotencyKey;
    t := OnTheWire(c, s0, s);
    t := Go(c, s0, t, Refuse(false));
    t := Go(c, s0, t, Internal(CountRejected));
  }

  lemma {:induction false} Skip(c: Setup, s0: System, s: System, k: nat) returns (t: System)
    requires ValidSetup(c) && Leads(c, s0, s) && AtRest(s)
    ensures Leads(c, s0, t) && AtRest(t) && t.batchSeq == s.batchSeq + k
    ensures t.srv == s.srv.(requests := s.srv.requests + k, fatal := t.srv.fatal, sent4xx := t.srv.sent4xx)
    ensures t.exp.exported == s.exp.exported && t.unnoted == s.unnoted
  {
    hide Leads, AtRest;
    if k == 0 {
      t := s;
    } else {
      t := Skip(c, s0, s, k - 1);
      t := SkipOne(c, s0, t);
    }
  }

  /** Nothing the ingest remembers of the agent speaks against b. */
  predicate Innocent(inst: Instance, b: Batch) {
    && IdempotencyKey(b.instance, b.batchSeq) !in inst.seen
    && b.batchSeq > inst.lastAckedSeq
    && (inst.lastSeenSeq > 0 ==> b.batchSeq == inst.lastSeenSeq + 1)
    && (inst.lastAgent.Some? ==> inst.lastAgent.value.rejected == b.agent.rejected)
  }

  /** Such a batch is not rejected, and this is what the ingest remembers. */
  lemma InnocentPasses(s: Server, mode: Mode, b: Batch)
    requires b.instance != "" && b.batchSeq > 0 && AgentConforms(b) && Innocent(s.InstanceOf(b.instance), b)
    ensures var (t, rejected) := Validate(s, mode, Encode(b), []);
            && !rejected && t.faults == s.faults && t.terminalArmed == s.terminalArmed
            && t.requests == s.requests + 1 && t.accepted == s.accepted
            && t.InstanceOf(b.instance) == Remember(s.InstanceOf(b.instance), Encode(b).key, b, s.sent4xx)
            && b.instance in t.instances
  {
    hide IdempotencyKey, Remember, AgentConforms;
    assert Encode(b).key != "" by { KeyNotEmpty(b); }
  }

  lemma KeyNotEmpty(b: Batch)
    ensures Encode(b).key != ""
  {
  }

  /** The request is validated and awaits its answer. */
  lemma Validated(c: Setup, s0: System, s: System, b: Batch) returns (t: System)
    requires Leads(c, s0, s) && s.active.None? && s.exp.worker == Flying(Encode(b), 0, false)
    ensures Leads(c, s0, t)
    ensures var (srv, rejected) := Validate(s.srv, c.mode, Encode(b), []);
            t == s.(srv := srv, active := Some(Handler(srv.requests, Encode(b), rejected)))
  {
    hide Leads, IdempotencyKey, Validate, Do, Enabled;
    t := Go(c, s0, s, Deliver([]));
  }

  /** A client still waiting is told that its batch arrived. */
  lemma AnsweredBelow400(c: Setup, s0: System, s: System, h: Handler) returns (t: System)
    requires Leads(c, s0, s) && s.active == Some(h) && !h.rejected && s.exp.worker.Flying?
    requires Passing(FaultFor(s.srv.faults, s.srv.terminalArmed, h.n).kind)
    ensures Leads(c, s0, t) && t.unnoted == s.unnoted && t.srv.accepted == s.srv.accepted
    ensures t.exp == s.exp.(worker := Answered(s.exp.worker.q, s.exp.worker.attempt, s.exp.worker.draining, Delivered))
  {
    hide Leads, IdempotencyKey, FaultFor, MarkAcked, MarkTruncated;
    t := Go(c, s0, s, Respond(false));
  }

  /** A validated request whose number draws a status below 400 is counted as
      exported and never accepted. */
  lemma Pass(c: Setup, s0: System, s: System, b: Batch) returns (t: System)
    requires ValidSetup(c) && Leads(c, s0, s) && s.active.None? && s.exp.worker == Flying(Encode(b), 0, false)
    requires b.instance == c.instance && b.batchSeq > 0 && AgentConforms(b) && Innocent(s.srv.InstanceOf(c.instance), b)
    requires Passing(FaultFor(s.srv.faults, s.srv.terminalArmed, s.srv.requests + 1).kind)
    ensures Leads(c, s0, t) && !t.exp.Busy() && t.unnoted == s.unnoted
    ensures |t.exp.exported| == |s.exp.exported| + 1 && t.srv.accepted == s.srv.accepted
  {
    hide Leads, IdempotencyKey, FaultFor, Remember, AgentConforms, Innocent;
    InnocentPasses(s.srv, c.mode, b);
    hide Validate, Innocent;
    t := Validated(c, s0, s, b);
    t := AnsweredBelow400(c, s0, t, t.active.value);
    t := Go(c, s0, t, Internal(CountExported));
  }

  /** A request abandoned by its client spends the one-shot; its batch is given
      up, and the next one is still innocent. */
  lemma SpendOneShot(c: Setup, s0: System, s: System) returns (t: System)
    requires ValidSetup(c) && Leads(c, s0, s) && AtRest(s)
    requires s.srv.terminalArmed && s.srv.faults.terminalOnce >= 400
    requires s.srv.InstanceOf(c.instance) == FRESH_INSTANCE
    ensures Leads(c, s0, t) && AtRest(t) && t.batchSeq == s.batchSeq + 1
    ensures t.srv.faults == s.srv.faults && !t.srv.terminalArmed && t.srv.requests == s.srv.requests + 1
    ensures t.srv.accepted == s.srv.accepted && t.exp.exported == s.exp.exported && t.unnoted == s.unnoted
    ensures Innocent(t.srv.InstanceOf(c.instance), NextBatch(c, t))
  {
    var b := NextBatch(c, s);
    var u := OnTheWire(c, s0, s);
    InnocentPasses(u.srv, c.mode, b);
    var v := AbandonedUndecided(c, s0, u, b);
    t := DecidedLate(c, s0, v, b);
    KeyIdentifiesBatch(c.instance, t.batchSeq + 1, c.instance, b.batchSeq);
  }

  lemma AbandonedUndecided(c: Setup, s0: System, s: System, b: Batch) returns (t: System)
    requires Leads(c, s0, s) && s.active.None? && s.abandoned == [] && s.exp.worker == Flying(Encode(b), 0, false)
    requires !Validate(s.srv, c.mode, Encode(b), []).1
    ensures Leads(c, s0, t) && t.agent == s.agent && t.active.None? && t.batchSeq == s.batchSeq && t.unnoted == s.unnoted
    ensures t.srv == Validate(s.srv, c.mode, Encode(b), []).0
    ensures |t.abandoned| == 1 && t.abandoned[0] == Handler(t.srv.requests, Encode(b), false)
    ensures t.exp == s.exp.(worker := Select, dropped := s.exp.dropped + [Encode(b)])
  {
    hide Leads, IdempotencyKey, Validate;
    t := Validated(c, s0, s, b);
    t := Go(c, s0, t, TimeOut);
    t := Go(c, s0, t, Internal(GiveUp));
  }

  lemma DecidedLate(c: Setup, s0: System, s: System, b: Batch) returns (t: System)
    requires Leads(c, s0, s) && |s.abandoned| == 1 && s.abandoned[0] == Handler(s.srv.requests, Encode(b), false)
    requires s.srv.terminalArmed && s.srv.faults.terminalOnce > 0
    requires b.instance == c.instance != "" && b.instance in s.srv.instances
    ensures Leads(c, s0, t) && t.abandoned == [] && t == s.(srv := t.srv, abandoned := [])
    ensures t.srv.faults == s.srv.faults && !t.srv.terminalArmed && t.srv.requests == s.srv.requests
    ensures t.srv.accepted == s.srv.accepted
    ensures var was, inst := s.srv.InstanceOf(c.instance), t.srv.InstanceOf(c.instance);
            inst.(seen := was.seen) == was && inst.seen.Keys == was.seen.Keys
  {
    hide Leads, IdempotencyKey;
    t := Go(c, s0, s, Late(0));
  }

  /** The run: requests refused up to the one that draws, the one-shot spent on
      the way if there is one, and the draw. */
  lemma PassingRun(c: Setup, f: Faults) returns (t: System)
    requires ValidSetup(c) && MayPass(f)
    ensures Leads(c, Start(f), t) && Quiescent(t) && |t.exp.exported| == 1 && t.srv.accepted == 0
  {
    hide MayPass, FaultFor, Leads, IdempotencyKey;
    var s0 := Start(f);
    LeadsSelf(c, s0);
    if 0 < f.terminalOnce < 400 {
      ArmedDraws(f.WithDefaults(), 1);
      t := PassNext(c, s0, s0);
    } else {
      var n := MayPassWitness(f);
      var s := Skip(c, s0, s0, n - First(f));
      if f.terminalOnce > 0 {
        s := SpendOneShot(c, s0, s);
      }
      t := PassNext(c, s0, s);
    }
  }

  lemma ArmedDraws(f: Faults, n: nat)
    requires f.terminalOnce > 0
    ensures FaultFor(f, true, n).kind == StatusFault(f.terminalOnce)
  {
  }

  lemma PassNext(c: Setup, s0: System, s: System) returns (t: System)
    requires ValidSetup(c) && Leads(c, s0, s) && AtRest(s)
    requires Innocent(s.srv.InstanceOf(c.instance), NextBatch(c, s))
    requires Passing(FaultFor(s.srv.faults, s.srv.terminalArmed, s.srv.requests + 1).kind)
    ensures Leads(c, s0, t) && !t.exp.Busy() && t.unnoted == s.unnoted
    ensures |t.exp.exported| == |s.exp.exported| + 1 && t.srv.accepted == s.srv.accepted
  {
    hide Leads, IdempotencyKey, FaultFor, Innocent;
    var u := OnTheWire(c, s0, s);
    t := Pass(c, s0, u, NextBatch(c, s));
  }

  // ---------------------------------------------------------------------------
  // Results
  // ---------------------------------------------------------------------------

  /** In every run that leaves the schedule alone, at rest the totals agree. */
  ghost predicate AlwaysAgree(c: Setup, f: Faults) {
    forall t :: Leads(c, Start(f), t) && Quiescent(t) ==> |t.exp.exported| == t.srv.accepted
  }

  /** Which schedules keep the exporter's and the ingest's totals in agreement:
      exactly those whose fields cannot draw a status below 400. */
  lemma ScheduleDecides(c: Setup, f: Faults)
    requires ValidSetup(c)
    ensures AlwaysAgree(c, f) <==> !MayPass(f)
  {
    hide MayPass, Happens;
    if MayPass(f) {
      var t := PassingRun(c, f);
    } else {
      forall t | Leads(c, Start(f), t) && Quiescent(t) ensures |t.exp.exported| == t.srv.accepted {
        var es :| Happens(c, Start(f), es, t) && Fixed(es);
        StartOneShot(f);
        FixedNeverDraws(c, f, Start(f), es, t);
        QuiescentTotalsAgree(c, f, es, t);
      }
    }
  }

  lemma StartOneShot(f: Faults)
    ensures OneShot(f, Start(f))
  {
  }

  /** The first request answered 200 by the schedule: one batch exported, none
      accepted. */
  lemma PassedOffAsAccepted(c: Setup) returns (f: Faults, t: System)
    requires ValidSetup(c)
    ensures f == Faults(1, 200, 0, 0, 0, 0, 0, 0, 0, 0)
    ensures Leads(c, Start(f), t) && Quiescent(t) && |t.exp.exported| == 1 && t.srv.accepted == 0
  {
    f := Faults(1, 200, 0, 0, 0, 0, 0, 0, 0, 0);
    t := PassingRun(c, f);
  }
}
