/** What holds in every run of the composed pipeline: numbering and telemetry of
    the stamped batches, and exactly-once in-order delivery without the ingest
    ever accusing a correct exporter. */
module PipelineSafety {
  import opened Wrappers
  import opened Wire
  import opened ExporterMachine
  import opened ExporterOrder
  import opened MockIngest
  import opened Pipeline

  // ---------------------------------------------------------------------------
  // The agent loop
  // ---------------------------------------------------------------------------

  /** Each counter of a stamped batch is no more than the exporter's own now. */
  predicate CountedByNow(s: System, a: AgentStats) {
    a.exported <= |s.exp.exported| && a.dropped <= |s.exp.dropped| && a.rejected <= |s.exp.rejected| && a.retries <= s.exp.retries
  }

  /** Sequence numbers are used once, from 1, without a gap; a batch is stamped
      with counters no larger than what they count by now. */
  ghost predicate AgentInv(c: Setup, s: System) {
    && |s.stamped| + (if s.agent.Stamping? then 1 else 0) == s.batchSeq
    && (forall i :: 0 <= i < |s.stamped| ==> s.stamped[i].batchSeq == i + 1 && StampedEarlier(s.stamped[i]))
    && (forall i :: 0 <= i < |s.stamped| ==> CountedByNow(s, s.stamped[i].agent))
    && (!s.agent.Idle? ==> s.exp.producer.Outside? && s.batchSeq > 0)
    && (s.agent.Ready? ==> s.agent.batch.instance == c.instance && s.agent.batch.batchSeq == s.batchSeq)
    && (s.agent.Stamping? ==> |s.agent.loaded| <= 4 && forall i :: 0 <= i < |s.agent.loaded| ==> s.agent.loaded[i] <= CounterAt(s, i))
  }

  /** Every call carries an earlier number than the batch being stamped. */
  ghost predicate CallsInv(c: Setup, s: System) {
    var held := if s.agent.Idle? then 0 else 1;
    && |s.exp.calls| + held <= s.batchSeq
    && (forall q :: q in s.exp.calls ==>
          q == Encode(q.body) && q.body.instance == c.instance && 1 <= q.Seq() && q.Seq() + held <= s.batchSeq)
  }

  ghost predicate ExpInv(c: Setup, s: System) {
    Inv(c.exporter, s.exp) && Ordered(s.exp)
  }

  lemma CountedAtMostCalls(c: Setup, s: System)
    requires ExpInv(c, s)
    ensures |s.exp.exported| + |s.exp.dropped| + |s.exp.rejected| <= |s.exp.calls|
  {
  }

  /** The exporter's own label for an event, if it takes one. */
  function ExporterLabel(s: System, e: Event, t: System): Option<Label> {
    match e
    case CallExport => if s.agent.Ready? then Some(Call(Encode(s.agent.batch))) else None
    case CallUnencodable => if s.agent.Ready? then Some(EncodeFails(Encode(s.agent.batch))) else None
    case Internal(l) => Some(l)
    case Refuse(_) | Respond(_) | TimeOut =>
      if t.exp.worker.Answered? then Some(Reply(t.exp.worker.outcome)) else None
    case _ => None
  }

  /** The composition drives the exporter only through its own steps. */
  lemma ProjectsToExporter(c: Setup, s: System, e: Event)
    requires Possible(c, s, e)
    ensures var t := Act(c, s, e);
            var l := ExporterLabel(s, e, t);
            if l.Some? then Enabled(c.exporter, s.exp, l.value) && t.exp == Do(c.exporter, s.exp, l.value)
            else t.exp == s.exp
  {
    hide Validate, MarkAcked, MarkTruncated;
  }

  lemma ExpStep(c: Setup, s: System, e: Event)
    requires ValidSetup(c) && ExpInv(c, s) && AgentInv(c, s) && CallsInv(c, s) && Possible(c, s, e)
    ensures ExpInv(c, Act(c, s, e))
  {
    hide Inv, Ordered, Do, Act, AgentConforms, Enabled;
    ProjectsToExporter(c, s, e);
    var l := ExporterLabel(s, e, Act(c, s, e));
    if l.Some? {
      ConservedAndMore(c.exporter, s.exp, l.value);
      OrderedStep(c.exporter, s.exp, l.value);
    }
  }

  lemma ConservedAndMore(c: Config, s: Exporter, l: Label)
    requires ValidConfig(c) && Inv(c, s) && Enabled(c, s, l)
    ensures Inv(c, Do(c, s, l))
  {
    hide Do, Enabled, Conserved, Control, Freshest;
    ConservedStep(c, s, l);
    ControlStep(c, s, l);
    FreshestStep(c, s, l);
  }

  lemma CountersGrow(c: Setup, s: System, e: Event, i: nat)
    requires Possible(c, s, e)
    ensures CounterAt(s, i) <= CounterAt(Act(c, s, e), i)
  {
    hide Act, Possible;
    ProjectsToExporter(c, s, e);
  }

  lemma CallsStep(c: Setup, s: System, e: Event)
    requires CallsInv(c, s) && AgentInv(c, s) && Possible(c, s, e)
    ensures CallsInv(c, Act(c, s, e))
  {
    hide Validate, MarkAcked, MarkTruncated, AgentConforms;
  }

  lemma StampConforms(c: Setup, s: System)
    requires ExpInv(c, s) && AgentInv(c, s) && CallsInv(c, s)
    requires s.agent.Stamping? && |s.agent.loaded| == 4
    ensures StampedEarlier(Stamp(c, s)) && CountedByNow(s, Stamp(c, s).agent) && Stamp(c, s).batchSeq == s.batchSeq && Stamp(c, s).instance == c.instance
  {
    hide Inv, Ordered;
    CountedAtMostCalls(c, s);
    var l := s.agent.loaded;
    assert l[0] <= CounterAt(s, 0) && l[1] <= CounterAt(s, 1) && l[2] <= CounterAt(s, 2) && l[3] <= CounterAt(s, 3);
  }

  lemma CountedStays(c: Setup, s: System, e: Event, a: AgentStats)
    requires Possible(c, s, e) && CountedByNow(s, a)
    ensures CountedByNow(Act(c, s, e), a)
  {
    CountersGrow(c, s, e, 0);
    CountersGrow(c, s, e, 1);
    CountersGrow(c, s, e, 2);
    CountersGrow(c, s, e, 3);
    hide Act, Possible;
  }

  lemma AgentStep(c: Setup, s: System, e: Event)
    requires ExpInv(c, s) && AgentInv(c, s) && CallsInv(c, s) && Possible(c, s, e)
    ensures AgentInv(c, Act(c, s, e))
  {
    hide Validate, MarkAcked, MarkTruncated, StampedEarlier, ExpInv, CounterAt, CountedByNow;
    var t := Act(c, s, e);
    forall i | 0 <= i < |s.stamped| ensures CountedByNow(t, s.stamped[i].agent) {
      CountedStays(c, s, e, s.stamped[i].agent);
    }
    if s.agent.Stamping? {
      forall i: nat | i < |s.agent.loaded| ensures s.agent.loaded[i] <= CounterAt(t, i) {
        CountersGrow(c, s, e, i);
      }
      if e.LoadCounter? && |s.agent.loaded| == 4 {
        StampConforms(c, s);
        CountedStays(c, s, e, Stamp(c, s).agent);
      } else if e.LoadCounter? {
        CountersGrow(c, s, e, |s.agent.loaded|);
      }
    }
  }

  // ---------------------------------------------------------------------------
  // What the ingest remembers about this agent
  // ---------------------------------------------------------------------------

  /** Every delivery remembered is one the worker really took, with its own
      body; a key is acknowledged exactly when its batch is in `acked`; and the
      watermark is the last acknowledgement. */
  ghost predicate Remembers(inst: Instance, taken: seq<Queued>, acked: seq<Queued>) {
    && (forall k :: k in inst.seen ==> Queued(inst.seen[k].hash, k) in taken)
    && (forall k :: k in inst.seen ==> (inst.seen[k].acked <==> Queued(inst.seen[k].hash, k) in acked))
    && (forall x :: x in acked ==> x in taken)
    && Increasing(acked)
    && inst.lastAckedSeq == (if acked == [] then 0 else acked[|acked| - 1].Seq())
  }

  lemma SameKeySameBatch(taken: seq<Queued>, x: Queued, y: Queued)
    requires x in taken && y in taken && x.key == y.key
    requires Increasing(taken)
    requires forall q :: q in taken ==> q == Encode(q.body)
    requires x.body.instance == y.body.instance
    ensures x == y
  {
    KeyIdentifiesBatch(x.body.instance, x.Seq(), y.body.instance, y.Seq());
    var i :| 0 <= i < |taken| && taken[i] == x;
    var j :| 0 <= j < |taken| && taken[j] == y;
  }

  /** A batch the worker took and that is newer than every acknowledgement is
      neither a replay, nor a changed body, nor a regression. */
  lemma CheckIsHonest(mode: Mode, inst: Instance, taken: seq<Queued>, acked: seq<Queued>, q: Queued)
    requires Remembers(inst, taken, acked) && q in taken && AllBelow(acked, q.Seq())
    requires Increasing(taken)
    requires forall x :: x in taken ==> x == Encode(x.body) && x.body.instance == q.body.instance
    requires q.Seq() > 0
    ensures q !in acked
    ensures q.key in inst.seen ==> inst.seen[q.key].hash == q.body && !inst.seen[q.key].acked
    ensures KeyVerdict(mode, inst, q.key, q.body) == []
    ensures forall f :: f in SeqVerdict(mode, inst, q.key, q.body) ==> !Accuses(f)
  {
    assert q !in acked;
    assert q.Seq() > inst.lastAckedSeq by {
      assert acked != [] ==> acked[|acked| - 1] in acked;
    }
    if q.key in inst.seen {
      SameKeySameBatch(taken, Queued(inst.seen[q.key].hash, q.key), q);
    }
  }

  lemma DeliveryIsRemembered(inst: Instance, taken: seq<Queued>, acked: seq<Queued>, q: Queued, sent4xx: nat)
    requires Remembers(inst, taken, acked) && q in taken && q !in acked
    requires q.key in inst.seen ==> inst.seen[q.key].hash == q.body && !inst.seen[q.key].acked
    ensures Remembers(Remember(inst, q.key, q.body, sent4xx), taken, acked)
    ensures q.key in Remember(inst, q.key, q.body, sent4xx).seen
  {
    hide Gap;
  }

  lemma AckIsRemembered(inst: Instance, taken: seq<Queued>, acked: seq<Queued>, q: Queued)
    requires Remembers(inst, taken, acked) && q in taken && AllBelow(acked, q.Seq())
    requires q.key in inst.seen && inst.seen[q.key].hash == q.body
    ensures var after := inst.(seen := inst.seen[q.key := inst.seen[q.key].(acked := true)],
                               lastAckedSeq := if q.Seq() > inst.lastAckedSeq then q.Seq() else inst.lastAckedSeq);
            Remembers(after, taken, acked + [q])
  {
    assert acked != [] ==> acked[|acked| - 1] in acked;
  }

  // ---------------------------------------------------------------------------
  // Delivery
  // ---------------------------------------------------------------------------

  /** The worker has been told its batch was accepted but has not counted it. */
  predicate AcceptedNotCounted(s: System) {
    s.exp.worker.Answered? && s.exp.worker.outcome.Delivered?
  }

  ghost predicate DeliveryInv(c: Setup, s: System) {
    var inst := s.srv.InstanceOf(c.instance);
    && Remembers(inst, s.exp.taken, s.ackedLog)
    && (s.exp.Busy() && !AcceptedNotCounted(s) ==> AllBelow(s.ackedLog, s.exp.worker.q.Seq()))
    && (s.active.Some? ==> s.exp.worker.Flying? && s.active.value.q == s.exp.worker.q
                           && s.active.value.q.key in inst.seen)
    && (forall f :: f in s.srv.failures ==> !Accuses(f))
  }

  ghost predicate Accounted(s: System) {
    && |s.exp.exported| + (if AcceptedNotCounted(s) then 1 else 0) == |s.ackedLog| + s.hollow
    && s.srv.accepted + s.unnoted == |s.ackedLog|
    && (s.hollow == 0 ==> s.ackedLog == s.exp.exported + if AcceptedNotCounted(s) then [s.exp.worker.q] else [])
  }

  lemma MarksCountNothing(srv: Server, key: string, b: Batch)
    ensures MarkAcked(srv, key, b).accepted == srv.accepted
    ensures MarkTruncated(srv, key, b).accepted == srv.accepted
  {
  }

  lemma ValidationCountsNothing(srv: Server, mode: Mode, q: Queued, others: seq<Failure>)
    ensures Validate(srv, mode, q, others).0.accepted == srv.accepted
  {
  }

  lemma AccountedInternal(c: Setup, s: System, l: Label)
    requires Accounted(s) && Possible(c, s, Internal(l))
    ensures Accounted(Act(c, s, Internal(l)))
  {
  }

  lemma AccountedStep(c: Setup, s: System, e: Event)
    requires Accounted(s) && DeliveryInv(c, s) && Possible(c, s, e)
    ensures Accounted(Act(c, s, e))
  {
    hide Remembers, FaultFor, Validate, MarkTruncated, MarkAcked;
    match e
    case Internal(l) => AccountedInternal(c, s, l);
    case Deliver(others) => ValidationCountsNothing(s.srv, c.mode, s.exp.worker.q, others);
    case Respond(_) =>
      var h := s.active.value;
      MarksCountNothing(Verdict(s, h).0, h.q.key, h.q.body);
    case Late(i) =>
      var h := s.abandoned[i];
      MarksCountNothing(Verdict(s, h).0, h.q.key, h.q.body);
    case _ =>
  }

  /** What the server's step does to one agent's memory. */
  lemma ValidateEffect(c: Setup, s: Server, q: Queued, others: seq<Failure>)
    requires q.body.instance == c.instance != "" && q == Encode(q.body)
    requires forall f :: f in others ==> f.code.OtherCheck?
    requires KeyVerdict(c.mode, s.InstanceOf(c.instance), q.key, q.body) == []
    requires forall f :: f in SeqVerdict(c.mode, s.InstanceOf(c.instance), q.key, q.body) ==> !Accuses(f)
    requires forall f :: f in s.failures ==> !Accuses(f)
    ensures var t := Validate(s, c.mode, q, others).0;
            && t.InstanceOf(c.instance) == Remember(s.InstanceOf(c.instance), q.key, q.body, s.sent4xx)
            && (forall f :: f in t.failures ==> !Accuses(f))
  {
    hide KeyVerdict, SeqVerdict, Remember, AgentConforms, AnyFatal, Gap;
  }

  lemma TruncationForgetsNothing(s: Server, id: string, key: string, b: Batch, taken: seq<Queued>, acked: seq<Queued>)
    requires Remembers(s.InstanceOf(id), taken, acked)
    ensures Remembers(MarkTruncated(s, key, b).InstanceOf(id), taken, acked)
    ensures MarkTruncated(s, key, b).InstanceOf(id).seen.Keys == s.InstanceOf(id).seen.Keys
    ensures MarkTruncated(s, key, b).failures == s.failures
  {
  }

  lemma DeliverKeeps(c: Setup, s: System, others: seq<Failure>)
    requires ValidSetup(c) && ExpInv(c, s) && CallsInv(c, s) && DeliveryInv(c, s) && Possible(c, s, Deliver(others))
    ensures DeliveryInv(c, Act(c, s, Deliver(others)))
  {
    hide Inv, Remembers, Validate, KeyVerdict, SeqVerdict, Remember, AgentConforms;
    var q := s.exp.worker.q;
    TakenFacts(s);
    var inst := s.srv.InstanceOf(c.instance);
    CheckIsHonest(c.mode, inst, s.exp.taken, s.ackedLog, q);
    DeliveryIsRemembered(inst, s.exp.taken, s.ackedLog, q, s.srv.sent4xx);
    ValidateEffect(c, s.srv, q, others);
  }

  lemma TakenFacts(s: System)
    requires Ordered(s.exp)
    ensures Increasing(s.exp.taken)
    ensures forall x :: x in s.exp.taken ==> x in s.exp.calls
    ensures s.exp.Busy() ==> s.exp.worker.q in s.exp.taken
  {
    var all := s.exp.taken + s.exp.queue;
    forall i, j | 0 <= i < j < |s.exp.taken| ensures s.exp.taken[i].Seq() < s.exp.taken[j].Seq() {
      assert all[i] == s.exp.taken[i] && all[j] == s.exp.taken[j];
    }
  }

  lemma RecordedBody(c: Setup, s: System, q: Queued)
    requires Ordered(s.exp) && CallsInv(c, s) && DeliveryInv(c, s)
    requires q in s.exp.taken && q.key in s.srv.InstanceOf(c.instance).seen
    ensures s.srv.InstanceOf(c.instance).seen[q.key].hash == q.body
  {
    hide Ordered;
    TakenFacts(s);
    SameKeySameBatch(s.exp.taken, Queued(s.srv.InstanceOf(c.instance).seen[q.key].hash, q.key), q);
  }

  lemma AckEffect(c: Setup, s: Server, q: Queued)
    requires q.body.instance == c.instance != "" && q.key != "" && q.key in s.InstanceOf(c.instance).seen
    ensures var inst := s.InstanceOf(c.instance);
            var t := MarkAcked(s, q.key, q.body);
            && t.InstanceOf(c.instance) == inst.(
                 seen := inst.seen[q.key := inst.seen[q.key].(acked := true)],
                 lastAckedSeq := if q.Seq() > inst.lastAckedSeq then q.Seq() else inst.lastAckedSeq)
            && t.failures == s.failures
  {
  }

  /** What an acknowledged answer changes. */
  lemma AckAct(c: Setup, s: System, lost: bool)
    requires DeliveryInv(c, s) && Possible(c, s, Respond(lost))
    requires !s.active.value.rejected && Verdict(s, s.active.value).1.kind.NoFault?
    ensures var q := s.exp.worker.q; var t := Act(c, s, Respond(lost));
            && t.srv == MarkAcked(Verdict(s, s.active.value).0, q.key, q.body)
            && t.ackedLog == s.ackedLog + [q] && t.exp.taken == s.exp.taken && t.active.None?
            && (t.exp.Busy() ==> AcceptedNotCounted(t) || AllBelow(t.ackedLog, t.exp.worker.q.Seq()))
  {
    hide Inv, Ordered, Remembers, FaultFor, MarkAcked, Increasing, AllBelow;
  }

  lemma AcknowledgeKeeps(c: Setup, s: System, lost: bool)
    requires ValidSetup(c) && ExpInv(c, s) && CallsInv(c, s) && DeliveryInv(c, s) && Possible(c, s, Respond(lost))
    requires !s.active.value.rejected && Verdict(s, s.active.value).1.kind.NoFault?
    ensures DeliveryInv(c, Act(c, s, Respond(lost)))
  {
    hide Inv, Ordered, Remembers, FaultFor, MarkAcked, Increasing, AllBelow, Act, Do;
    var q := s.exp.worker.q;
    var decided := Verdict(s, s.active.value).0;
    assert decided.InstanceOf(c.instance) == s.srv.InstanceOf(c.instance) && decided.failures == s.srv.failures;
    TakenFacts(s);
    RecordedBody(c, s, q);
    AckIsRemembered(s.srv.InstanceOf(c.instance), s.exp.taken, s.ackedLog, q);
    AckEffect(c, decided, q);
    AckAct(c, s, lost);
  }

  lemma RefusalKeeps(c: Setup, s: System, lost: bool)
    requires DeliveryInv(c, s) && Possible(c, s, Respond(lost))
    requires s.active.value.rejected || !Verdict(s, s.active.value).1.kind.NoFault?
    ensures DeliveryInv(c, Act(c, s, Respond(lost)))
  {
    hide Remembers, FaultFor, MarkTruncated;
    var h := s.active.value;
    TruncationForgetsNothing(Verdict(s, h).0, c.instance, h.q.key, h.q.body, s.exp.taken, s.ackedLog);
  }

  lemma LateKeeps(c: Setup, s: System, i: nat)
    requires DeliveryInv(c, s) && Possible(c, s, Late(i))
    ensures DeliveryInv(c, Act(c, s, Late(i)))
  {
    hide Remembers, FaultFor, MarkTruncated;
    var h := s.abandoned[i];
    TruncationForgetsNothing(Verdict(s, h).0, c.instance, h.q.key, h.q.body, s.exp.taken, s.ackedLog);
  }

  /** A newly taken batch is newer than every acknowledgement. */
  lemma ReceiveKeeps(c: Setup, s: System)
    requires ExpInv(c, s) && DeliveryInv(c, s) && Possible(c, s, Internal(Receive))
    ensures DeliveryInv(c, Act(c, s, Internal(Receive)))
  {
    hide Inv;
    var q := s.exp.queue[0];
    var all := s.exp.taken + s.exp.queue;
    forall x | x in s.ackedLog ensures x.Seq() < q.Seq() {
      var i :| 0 <= i < |s.exp.taken| && s.exp.taken[i] == x;
      assert all[i] == x && all[|s.exp.taken|] == q;
    }
  }

  lemma InternalKeeps(c: Setup, s: System, l: Label)
    requires DeliveryInv(c, s) && Possible(c, s, Internal(l)) && !l.Receive?
    ensures DeliveryInv(c, Act(c, s, Internal(l)))
  {
    hide Remembers;
  }

  lemma DeliveryStep(c: Setup, s: System, e: Event)
    requires ValidSetup(c) && ExpInv(c, s) && CallsInv(c, s) && DeliveryInv(c, s) && Possible(c, s, e)
    ensures DeliveryInv(c, Act(c, s, e))
  {
    hide Inv, Ordered, Remembers, FaultFor, Validate, CallsInv;
    match e
    case Deliver(others) => DeliverKeeps(c, s, others);
    case Respond(lost) =>
      if !s.active.value.rejected && Verdict(s, s.active.value).1.kind.NoFault? {
        AcknowledgeKeeps(c, s, lost);
      } else {
        RefusalKeeps(c, s, lost);
      }
    case Late(i) => LateKeeps(c, s, i);
    case Internal(l) =>
      if l.Receive? {
        ReceiveKeeps(c, s);
      } else {
        InternalKeeps(c, s, l);
      }
    case _ =>
  }

  // ---------------------------------------------------------------------------
  // Every run
  // ---------------------------------------------------------------------------

  ghost predicate SystemInv(c: Setup, s: System) {
    ExpInv(c, s) && AgentInv(c, s) && CallsInv(c, s) && DeliveryInv(c, s) && Accounted(s)
  }

  lemma StartInv(c: Setup, f: Faults)
    ensures SystemInv(c, Start(f))
  {
    InitialInv(c.exporter);
  }

  lemma {:induction false} EveryRunKeeps(c: Setup, s: System, es: seq<Event>, t: System)
    requires ValidSetup(c) && SystemInv(c, s) && Happens(c, s, es, t)
    ensures SystemInv(c, t)
    decreases |es|
  {
    hide ExpInv, AgentInv, CallsInv, DeliveryInv, Accounted, Act, Possible;
    if es != [] {
      SystemStep(c, s, es[0]);
      EveryRunKeeps(c, Act(c, s, es[0]), es[1..], t);
    }
  }

  lemma SystemStep(c: Setup, s: System, e: Event)
    requires ValidSetup(c) && SystemInv(c, s) && Possible(c, s, e)
    ensures SystemInv(c, Act(c, s, e))
  {
    hide ExpInv, AgentInv, CallsInv, DeliveryInv, Accounted, Act, Possible;
    ExpStep(c, s, e);
    AgentStep(c, s, e);
    CallsStep(c, s, e);
    DeliveryStep(c, s, e);
    AccountedStep(c, s, e);
  }

  /** The stamped batches of any run are numbered 1, 2, 3, ... whatever cycles
      were skipped or discarded. Each passes the ingest's telemetry check, and its
      exported, dropped and rejected are together less than its own number,
      although the counters moved while they were being read. */
  lemma StampsAreSound(c: Setup, f: Faults, es: seq<Event>, t: System)
    requires ValidSetup(c) && Happens(c, Start(f), es, t)
    ensures forall i :: 0 <= i < |t.stamped| ==> t.stamped[i].batchSeq == i + 1 && AgentConforms(t.stamped[i])
    ensures forall i :: 0 <= i < |t.stamped| ==>
      var a := t.stamped[i].agent; a.exported + a.dropped + a.rejected <= t.stamped[i].batchSeq - 1
    ensures forall i :: 0 <= i < |t.stamped| ==> CountedByNow(t, t.stamped[i].agent)
  {
    hide ExpInv, CallsInv, DeliveryInv, Accounted, Act, Possible;
    StartInv(c, f);
    EveryRunKeeps(c, Start(f), es, t);
  }

  /** Under any fault schedule, however it is changed on the way, the ingest
      never accuses the exporter of a replay, a changed body or a sequence
      regression. */
  lemma NoFalseAccusation(c: Setup, f: Faults, es: seq<Event>, t: System)
    requires ValidSetup(c) && Happens(c, Start(f), es, t)
    ensures forall x :: x in t.srv.failures ==> !Accuses(x)
  {
    hide ExpInv, AgentInv, CallsInv, Accounted, Act, Possible;
    StartInv(c, f);
    EveryRunKeeps(c, Start(f), es, t);
  }

  /** The acknowledged batches come in strictly increasing batch_seq, so no key
      is acknowledged twice; the ingest's Accepted plus what it has yet to note
      counts exactly them; and as long as no fault status below 400 was injected
      they are, batch for batch, the ones the exporter counts as exported, plus
      at most the one it is about to count. */
  lemma DeliveredExactlyOnceInOrder(c: Setup, f: Faults, es: seq<Event>, t: System)
    requires ValidSetup(c) && Happens(c, Start(f), es, t)
    ensures Increasing(t.ackedLog)
    ensures forall i, j :: 0 <= i < j < |t.ackedLog| ==> t.ackedLog[i].key != t.ackedLog[j].key
    ensures t.srv.accepted + t.unnoted == |t.ackedLog|
    ensures |t.exp.exported| + (if AcceptedNotCounted(t) then 1 else 0) == |t.ackedLog| + t.hollow
    ensures t.hollow == 0 ==>
      t.ackedLog == t.exp.exported + if AcceptedNotCounted(t) then [t.exp.worker.q] else []
  {
    hide AgentInv, Act, Possible, Inv;
    StartInv(c, f);
    EveryRunKeeps(c, Start(f), es, t);
    forall i, j | 0 <= i < j < |t.ackedLog| ensures t.ackedLog[i].key != t.ackedLog[j].key {
      var x, y := t.ackedLog[i], t.ackedLog[j];
      TakenFacts(t);
      assert x in t.exp.taken && y in t.exp.taken;
      KeyIdentifiesBatch(x.body.instance, x.Seq(), y.body.instance, y.Seq());
    }
  }

  /** Why an acknowledgement must reach the client: a batch the ingest has
      acknowledged and the client, not knowing, sends again is reported as a
      replay, though the client does what the key is for. */
  lemma LostAcknowledgementLooksLikeReplay(s: Server, mode: Mode, q: Queued)
    requires q == Encode(q.body) && q.body.instance != ""
    requires q.body.instance in s.instances && q.key in s.instances[q.body.instance].seen
    requires s.instances[q.body.instance].seen[q.key].hash == q.body
    ensures Emit(mode, Replay, Fatal) in CheckState(MarkAcked(s, q.key, q.body), mode, q.key, q.body).failures
  {
    assert q.key != "";
  }
}
