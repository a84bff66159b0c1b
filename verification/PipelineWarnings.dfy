/** The warning that the rejected counter rose unexplained: what it takes for the
    ingest to be right about it. */
module PipelineWarnings {
  import opened Wire
  import opened ExporterMachine
  import opened MockIngest
  import opened Pipeline
  import opened PipelineSafety
  import opened PipelineWitness
  import IngestChecks

  // ---------------------------------------------------------------------------
  // Every rejection the agent counts was answered by this ingest
  // ---------------------------------------------------------------------------

  /** A terminal answer the ingest has counted and the exporter has yet to. */
  function Due(s: System): nat {
    if (s.exp.worker.Answered? && s.exp.worker.outcome.Terminal?) || (s.active.Some? && s.active.value.rejected) then 1 else 0
  }

  /** Every request was let through or rejected, and the terminal answers cover
      the exporter's rejections. */
  ghost predicate Tallied(s: System) {
    && s.srv.ok + s.srv.fatal == s.srv.requests
    && |s.exp.rejected| + Due(s) <= s.srv.sent4xx
    && (s.active.Some? ==> s.exp.worker.Flying?)
  }

  lemma ValidateTallies(srv: Server, mode: Mode, q: Queued, others: seq<Failure>)
    ensures var (t, rejected) := Validate(srv, mode, q, others);
            && t.requests == srv.requests + 1
            && t.ok == srv.ok + (if rejected then 0 else 1)
            && t.fatal == srv.fatal + (if rejected then 1 else 0)
            && t.sent4xx == srv.sent4xx + (if rejected then 1 else 0)
            && t.accepted == srv.accepted
  {
    hide KeyVerdict, SeqVerdict, RejectedVerdict, Remember, AnyFatal, Warnings, AgentConforms;
  }

  lemma MarksTally(srv: Server, key: string, b: Batch)
    ensures forall t :: t == MarkAcked(srv, key, b) || t == MarkTruncated(srv, key, b) ==>
      t.ok == srv.ok && t.fatal == srv.fatal && t.requests == srv.requests && t.sent4xx == srv.sent4xx
  {
  }

  lemma TalliedStep(c: Setup, s: System, e: Event)
    requires Tallied(s) && Possible(c, s, e)
    ensures Tallied(Act(c, s, e))
  {
    hide Validate, MarkAcked, MarkTruncated, FaultFor;
    match e
    case Deliver(others) => ValidateTallies(s.srv, c.mode, s.exp.worker.q, others);
    case Respond(_) =>
      var h := s.active.value;
      MarksTally(Verdict(s, h).0, h.q.key, h.q.body);
    case Late(i) =>
      var h := s.abandoned[i];
      MarksTally(Verdict(s, h).0, h.q.key, h.q.body);
    case _ =>
  }

  lemma {:induction false} RunsTally(c: Setup, s: System, es: seq<Event>, t: System)
    requires Tallied(s) && Happens(c, s, es, t)
    ensures Tallied(t)
    decreases |es|
  {
    hide Tallied, Act, Possible;
    if es != [] {
      TalliedStep(c, s, es[0]);
      RunsTally(c, Act(c, s, es[0]), es[1..], t);
    }
  }

  /** In every run, under any schedules: each request is counted as let through or
      as rejected, and the agent never counts, and no batch ever reports, more
      rejections than this ingest has given terminal answers. A rise of that
      counter is always explained. */
  lemma RejectionsAreExplained(c: Setup, f: Faults, es: seq<Event>, t: System)
    requires ValidSetup(c) && Happens(c, Start(f), es, t)
    ensures t.srv.ok + t.srv.fatal == t.srv.requests
    ensures |t.exp.rejected| <= t.srv.sent4xx
    ensures forall b :: b in t.stamped ==> b.agent.rejected <= t.srv.sent4xx
  {
    hide Act, Possible;
    RunsTally(c, Start(f), es, t);
    StampsAreSound(c, f, es, t);
  }

  // ---------------------------------------------------------------------------
  // The warning is raised all the same
  // ---------------------------------------------------------------------------

  /** A second batch is stamped and queued behind one on the wire. */
  lemma Behind(c: Setup, s0: System, s: System) returns (t: System)
    requires ValidSetup(c) && Leads(c, s0, s) && s.agent.Idle? && s.exp.producer.Outside?
    requires s.exp.queue == [] && s.exp.closer.Open?
    ensures Leads(c, s0, t) && SameButSent(s, t) && t.agent.Idle? && t.exp.producer.Outside?
    ensures t.exp.worker == s.exp.worker && t.exp.queue == [Encode(NextBatch(c, s))]
  {
    hide Leads, IdempotencyKey;
    t := Stamped(c, s0, s);
    t := Go(c, s0, t, CallExport);
    t := Go(c, s0, t, Internal(TakeLock));
    t := Go(c, s0, t, Internal(Push));
  }

  /** The first is refused with a terminal status, and the second sent. */
  lemma RefusedThenSent(c: Setup, s0: System, s: System, b: Batch) returns (t: System)
    requires Leads(c, s0, s) && s.active.None? && s.exp.worker.Flying? && !s.exp.worker.draining
    requires s.exp.queue == [Encode(b)]
    ensures Leads(c, s0, t) && t.agent == s.agent && t.batchSeq == s.batchSeq && t.active.None? && t.abandoned == s.abandoned
    ensures t.srv == s.srv.(requests := s.srv.requests + 1, fatal := s.srv.fatal + 1, sent4xx := s.srv.sent4xx + 1)
    ensures t.exp == s.exp.(worker := Flying(Encode(b), 0, false), queue := [], taken := s.exp.taken + [Encode(b)],
                            rejected := s.exp.rejected + [s.exp.worker.q])
  {
    hide Leads, IdempotencyKey;
    t := Go(c, s0, s, Refuse(false));
    t := Go(c, s0, t, Internal(CountRejected));
    t := Go(c, s0, t, Internal(Receive));
    t := Go(c, s0, t, Internal(Send));
  }

  /** One batch is refused, and the next, stamped before that, is checked after it
      and given up. */
  lemma CheckedLate(c: Setup, s0: System, s: System) returns (t: System)
    requires ValidSetup(c) && Leads(c, s0, s) && Free(s) && s.active.None? && s.srv.InstanceOf(c.instance) == FRESH_INSTANCE
    requires s.exp.exported == s.exp.dropped == s.exp.rejected == []
    ensures Leads(c, s0, t) && Free(t) && t.active.None? && |t.exp.rejected| == 1 <= t.srv.sent4xx
    ensures t.exp.taken != []
    ensures var b := t.exp.taken[|t.exp.taken| - 1].body;
            && b.instance == c.instance && b.batchSeq == t.batchSeq && b.agent.rejected == 0
            && t.srv.InstanceOf(c.instance) == Remember(FRESH_INSTANCE, Encode(b).key, b, t.srv.sent4xx)
  {
    hide Leads, IdempotencyKey, Validate, Innocent, AgentConforms;
    var s1 := OnTheWire(c, s0, s);
    var b := NextBatch(c, s1);
    var s2 := Behind(c, s0, s1);
    var s3 := RefusedThenSent(c, s0, s2, b);
    FreshIsInnocent(b);
    InnocentPasses(s3.srv, c.mode, b);
    ValidateTallies(s3.srv, c.mode, Encode(b), []);
    hide Remember;
    var s4 := Validated(c, s0, s3, b);
    var s5 := Go(c, s0, s4, TimeOut);
    t := Go(c, s0, s5, Internal(GiveUp));
  }

  /** Under every schedule and in every mode there is a run in which the ingest
      warns of an unexplained rejection though it had answered that rejection
      itself: the one before was stamped before it, and checked after it. */
  lemma MisfiresUnderEverySchedule(c: Setup, f: Faults) returns (t: System)
    requires ValidSetup(c)
    ensures Leads(c, Start(f), t) && |t.exp.rejected| == 1 <= t.srv.sent4xx
    ensures IngestChecks.Finds(t.srv.failures, RejectedUnexplained)
  {
    hide Leads, IdempotencyKey, Validate;
    var s0 := Start(f);
    LeadsSelf(c, s0);
    var s1 := CheckedLate(c, s0, s0);
    hide Remember;
    var s2 := OnTheWire(c, s0, s1);
    var b, d := s1.exp.taken[|s1.exp.taken| - 1].body, NextBatch(c, s1);
    t := Validated(c, s0, s2, d);
    SecondLooksUnexplained(s2.srv, c.mode, b, d);
  }

  lemma FreshIsInnocent(b: Batch)
    requires b.batchSeq > 0 && b.agent.collected == b.batchSeq && b.agent.exported == b.agent.dropped == b.agent.rejected == 0
    ensures Innocent(FRESH_INSTANCE, b) && AgentConforms(b)
  {
  }

  lemma SecondLooksUnexplained(s: Server, mode: Mode, b: Batch, d: Batch)
    requires b.instance == d.instance != "" && d.batchSeq == b.batchSeq + 1 && d.agent.rejected != b.agent.rejected
    requires s.InstanceOf(b.instance) == Remember(FRESH_INSTANCE, Encode(b).key, b, s.sent4xx)
    ensures IngestChecks.Finds(Validate(s, mode, Encode(d), []).0.failures, RejectedUnexplained)
    ensures Validate(s, mode, Encode(d), []).0.sent4xx >= s.sent4xx
  {
    KeyIdentifiesBatch(b.instance, b.batchSeq, d.instance, d.batchSeq);
    KeyNotEmpty(d);
    var u := s.(requests := s.requests + 1);
    IngestChecks.ChecksAreExact(u, mode, Encode(d).key, d);
    hide CheckState, IdempotencyKey, AgentConforms;
    var x :| x in CheckState(u, mode, Encode(d).key, d).failures && x.code == RejectedUnexplained;
    assert x in Validate(s, mode, Encode(d), []).0.failures;
    ValidateTallies(s, mode, Encode(d), []);
  }

  // ---------------------------------------------------------------------------
  // When it is not: batches one at a time
  // ---------------------------------------------------------------------------

  /** Collection starts only once the exporter is done with everything. */
  predicate Paces(s: System, e: Event) {
    e.Collect? ==> s.exp.queue == [] && !s.exp.Busy()
  }

  ghost predicate Paced(c: Setup, s: System, es: seq<Event>)
    decreases |es|
  {
    es != [] && Possible(c, s, es[0]) ==> Paces(s, es[0]) && Paced(c, Act(c, s, es[0]), es[1..])
  }

  function OnTheirWay(s: System): nat {
    (if s.agent.Idle? then 0 else 1) + (if s.exp.producer.Outside? then 0 else 1) + |s.exp.queue| + (if s.exp.Busy() then 1 else 0)
  }

  /** At most one batch is on its way, and what it reports, or will, is every
      rejection so far. */
  ghost predicate Lone(s: System) {
    var r := |s.exp.rejected|;
    && OnTheirWay(s) <= 1
    && (s.exp.producer.Outside? || s.exp.producer.Encoded? || s.exp.producer.Locked?)
    && (s.exp.Busy() ==> s.exp.worker.q.body.agent.rejected == r)
    && (s.exp.queue != [] ==> s.exp.queue[0].body.agent.rejected == r)
    && (!s.exp.producer.Outside? ==> s.exp.producer.q.body.agent.rejected == r)
    && (s.agent.Ready? ==> s.agent.batch.agent.rejected == r)
    && (s.agent.Stamping? && |s.agent.loaded| > 2 ==> s.agent.loaded[2] == r)
  }

  lemma LoneInternal(c: Setup, s: System, l: Label)
    requires ValidSetup(c) && Lone(s) && Possible(c, s, Internal(l))
    ensures Lone(Act(c, s, Internal(l)))
  {
  }

  lemma LoneStep(c: Setup, s: System, e: Event)
    requires ValidSetup(c) && Lone(s) && Possible(c, s, e) && Paces(s, e)
    ensures Lone(Act(c, s, e))
  {
    if e.Internal? {
      LoneInternal(c, s, e.l);
    } else {
      hide Validate, MarkAcked, MarkTruncated, Decide, IdempotencyKey, NoteTerminal;
    }
  }

  /** Since the agent's last report, the ingest has given at least as many terminal
      answers as the exporter has counted rejections or is about to. */
  ghost predicate Covers(s: System, inst: Instance) {
    inst.lastAgent.Some? ==>
      && inst.lastAgent.value.rejected <= |s.exp.rejected|
      && |s.exp.rejected| + Due(s) - inst.lastAgent.value.rejected <= s.srv.sent4xx - inst.sent4xxAtLast
  }

  ghost predicate NotWarned(srv: Server) {
    forall f :: f in srv.failures ==> !f.code.RejectedUnexplained?
  }

  ghost predicate Explained(c: Setup, s: System) {
    && Covers(s, s.srv.InstanceOf(c.instance)) && NotWarned(s.srv)
    && (s.active.Some? ==> s.exp.worker.Flying?)
  }

  /** What validation does, when the check of the rejected counter is silent. */
  lemma SilentValidation(c: Setup, srv: Server, q: Queued, others: seq<Failure>)
    requires q.body.instance == c.instance != "" && q.key != "" && NotWarned(srv)
    requires forall f :: f in others ==> f.code.OtherCheck?
    requires RejectedVerdict(c.mode, srv.InstanceOf(c.instance), q.key, q.body, srv.sent4xx) == []
    ensures var t := Validate(srv, c.mode, q, others).0;
            && t.InstanceOf(c.instance) == Remember(srv.InstanceOf(c.instance), q.key, q.body, srv.sent4xx)
            && NotWarned(t)
  {
    IngestChecks.KeyFindings(c.mode, srv.InstanceOf(c.instance), q.key, q.body);
    IngestChecks.SeqFindings(c.mode, srv.InstanceOf(c.instance), q.key, q.body);
    hide KeyVerdict, SeqVerdict, RejectedVerdict, Remember, AgentConforms, AnyFatal, Warnings, Gap, IdempotencyKey;
  }

  lemma DeliverExplained(c: Setup, s: System, others: seq<Failure>)
    requires ValidSetup(c) && SystemInv(c, s) && Lone(s) && Explained(c, s) && Possible(c, s, Deliver(others))
    ensures Explained(c, Act(c, s, Deliver(others)))
  {
    var q, inst := s.exp.worker.q, s.srv.InstanceOf(c.instance);
    TakenFacts(s);
    KeyNotEmpty(q.body);
    hide ExpInv, AgentInv, CallsInv, DeliveryInv, Accounted, IdempotencyKey, Do, Enabled;
    SilentValidation(c, s.srv, q, others);
    ValidateTallies(s.srv, c.mode, q, others);
    hide Validate;
    assert Covers(s, Remember(inst, q.key, q.body, s.srv.sent4xx));
  }

  lemma MarksReport(srv: Server, key: string, b: Batch, id: string)
    ensures forall t :: t == MarkAcked(srv, key, b) || t == MarkTruncated(srv, key, b) ==>
      && t.failures == srv.failures && t.sent4xx == srv.sent4xx
      && t.InstanceOf(id).lastAgent == srv.InstanceOf(id).lastAgent
      && t.InstanceOf(id).sent4xxAtLast == srv.InstanceOf(id).sent4xxAtLast
  {
  }

  lemma InternalExplained(c: Setup, s: System, l: Label)
    requires Explained(c, s) && Possible(c, s, Internal(l))
    ensures Explained(c, Act(c, s, Internal(l)))
  {
  }

  lemma DecideReports(srv: Server, n: nat, id: string)
    ensures var t := Decide(srv, n).0;
            t.failures == srv.failures && t.sent4xx == srv.sent4xx && t.InstanceOf(id) == srv.InstanceOf(id)
  {
    hide FaultFor;
  }

  /** t's answers cover what s owed and t owes. */
  ghost predicate AnswersOn(s: System, t: System, id: string) {
    && t.exp.rejected == s.exp.rejected && t.srv.failures == s.srv.failures
    && s.srv.sent4xx <= t.srv.sent4xx && s.srv.sent4xx + Due(t) <= t.srv.sent4xx + Due(s)
    && t.srv.InstanceOf(id).lastAgent == s.srv.InstanceOf(id).lastAgent
    && t.srv.InstanceOf(id).sent4xxAtLast == s.srv.InstanceOf(id).sent4xxAtLast
    && (t.active.Some? ==> t.exp.worker.Flying?)
  }

  lemma ExplainedOn(c: Setup, s: System, t: System)
    requires Explained(c, s) && AnswersOn(s, t, c.instance)
    ensures Explained(c, t)
  {
  }

  lemma RespondAnswers(c: Setup, s: System, lost: bool)
    requires Possible(c, s, Respond(lost))
    ensures AnswersOn(s, Act(c, s, Respond(lost)), c.instance)
  {
    hide MarkAcked, MarkTruncated;
    var h := s.active.value;
    DecideReports(s.srv, h.n, c.instance);
    MarksReport(Verdict(s, h).0, h.q.key, h.q.body, c.instance);
    hide Decide, Server.InstanceOf;
  }

  lemma LateAnswers(c: Setup, s: System, i: nat)
    requires (s.active.Some? ==> s.exp.worker.Flying?) && Possible(c, s, Late(i))
    ensures AnswersOn(s, Act(c, s, Late(i)), c.instance)
  {
    hide MarkAcked, MarkTruncated;
    var h := s.abandoned[i];
    DecideReports(s.srv, h.n, c.instance);
    MarksReport(Verdict(s, h).0, h.q.key, h.q.body, c.instance);
    hide Decide, Server.InstanceOf;
  }

  lemma ExplainedStep(c: Setup, s: System, e: Event)
    requires ValidSetup(c) && SystemInv(c, s) && Lone(s) && Explained(c, s) && Possible(c, s, e)
    ensures Explained(c, Act(c, s, e))
  {
    hide SystemInv, Validate, MarkAcked, MarkTruncated, FaultFor, IdempotencyKey;
    match e
    case Deliver(others) => DeliverExplained(c, s, others);
    case Internal(l) => InternalExplained(c, s, l);
    case Respond(lost) => RespondAnswers(c, s, lost); ExplainedOn(c, s, Act(c, s, e));
    case Late(i) => LateAnswers(c, s, i); ExplainedOn(c, s, Act(c, s, e));
    case _ => hide Lone;
  }

  lemma {:induction false} PacedRunsExplain(c: Setup, s: System, es: seq<Event>, t: System)
    requires ValidSetup(c) && SystemInv(c, s) && Lone(s) && Explained(c, s)
    requires Happens(c, s, es, t) && Paced(c, s, es)
    ensures Explained(c, t)
    decreases |es|
  {
    hide SystemInv, Lone, Explained, Act, Possible, Paces;
    if es != [] {
      LoneStep(c, s, es[0]);
      ExplainedStep(c, s, es[0]);
      SystemStep(c, s, es[0]);
      PacedRunsExplain(c, Act(c, s, es[0]), es[1..], t);
    }
  }

  /** As long as each collection starts with nothing in the exporter, no schedule
      and no loss makes the ingest warn of an unexplained rejection. */
  lemma PacedRunsNeverWarn(c: Setup, f: Faults, es: seq<Event>, t: System)
    requires ValidSetup(c) && Happens(c, Start(f), es, t) && Paced(c, Start(f), es)
    ensures !IngestChecks.Finds(t.srv.failures, RejectedUnexplained)
  {
    StartInv(c, f);
    hide SystemInv, Act, Possible;
    PacedRunsExplain(c, Start(f), es, t);
  }
}
