/** The whole pipeline as one transition system: the agent loop that numbers and
    stamps batches, the exporter's producer and worker, and the ingest with its
    fault schedule. A request is validated while its client still waits for it,
    and an acknowledgement the ingest commits reaches the client; everything
    else may be lost, delayed or interleaved. */
module Pipeline {
  import opened Wrappers
  import opened Wire
  import opened ExporterMachine
  import opened MockIngest

  datatype Setup = Setup(exporter: Config, instance: string, mode: Mode)

  ghost predicate ValidSetup(c: Setup) {
    ValidConfig(c.exporter) && c.instance != ""
  }

  /** The collection goroutine. While stamping it loads the exporter's counters
      one at a time: exported, dropped, rejected, retries, then the depth. */
  datatype AgentPc =
    | Idle
    | Stamping(content: string, loaded: seq<nat>)
    | Ready(batch: Batch)

  /** One request the ingest has validated and not yet answered. */
  datatype Handler = Handler(n: nat, q: Queued, rejected: bool)

  /** `ackedLog` lists the batches the ingest acknowledged, in order; `unnoted`
      counts acknowledgements not yet in stats.Accepted; `hollow` counts injected
      statuses below 400, which the client cannot tell from an acceptance. */
  datatype System = System(
    agent: AgentPc,
    batchSeq: nat,
    stamped: seq<Batch>,
    exp: Exporter,
    srv: Server,
    active: Option<Handler>,
    abandoned: seq<Handler>,
    ackedLog: seq<Queued>,
    unnoted: nat,
    hollow: nat)

  datatype Event =
    // the agent loop
    | CollectNothing
    | Collect(content: string)
    | LoadCounter
    | ContextExpired
    | CallExport
    | CallUnencodable
    // exporter steps that involve nobody else
    | Internal(l: Label)
    // the wire
    | Deliver(others: seq<Failure>)
    | Refuse(lost: bool)
    | Respond(lost: bool)
    | TimeOut
    | Late(i: nat)
    | NoteAccepted
    // the operator
    | Reconfigure(f: Faults)

  function Encode(b: Batch): Queued {
    Queued(b, IdempotencyKey(b.instance, b.batchSeq))
  }

  /** What a handler that reaches the fault decision does. */
  function Verdict(s: System, h: Handler): (Server, Fault) {
    Decide(s.srv, h.n)
  }

  predicate Possible(c: Setup, s: System, e: Event) {
    match e
    case CollectNothing => s.agent.Idle? && s.exp.producer.Outside?
    case Collect(_) => s.agent.Idle? && s.exp.producer.Outside?
    case LoadCounter => s.agent.Stamping? && |s.agent.loaded| <= 4
    case ContextExpired => s.agent.Ready?
    case CallExport => s.agent.Ready? && Enabled(c.exporter, s.exp, Call(Encode(s.agent.batch)))
    case CallUnencodable => s.agent.Ready? && Enabled(c.exporter, s.exp, EncodeFails(Encode(s.agent.batch)))
    case Internal(l) => !l.Call? && !l.EncodeFails? && !l.Reply? && Enabled(c.exporter, s.exp, l)
    case Deliver(others) => s.exp.worker.Flying? && s.active.None? && (forall f :: f in others ==> f.code.OtherCheck?)
    case Refuse(_) => s.exp.worker.Flying? && s.active.None?
    case Respond(_) => s.exp.worker.Flying? && s.active.Some?
    case TimeOut => s.exp.worker.Flying?
    // Reliable acknowledgement: an abandoned handler does not acknowledge.
    case Late(i) => i < |s.abandoned| && (s.abandoned[i].rejected || Verdict(s, s.abandoned[i]).1.Active())
    case NoteAccepted => s.unnoted > 0
    case Reconfigure(_) => true
  }

  function Answer(c: Setup, s: System, outcome: Outcome): Exporter
    requires s.exp.worker.Flying?
  {
    Do(c.exporter, s.exp, Reply(outcome))
  }

  /** The counters in the order Stats loads them. */
  function CounterAt(s: System, i: nat): nat {
    if i == 0 then |s.exp.exported| else if i == 1 then |s.exp.dropped|
    else if i == 2 then |s.exp.rejected| else s.exp.retries
  }

  function Stamp(c: Setup, s: System): Batch
    requires s.agent.Stamping? && |s.agent.loaded| == 4
  {
    var l := s.agent.loaded;
    Batch(c.instance, s.batchSeq, AgentStats(s.batchSeq, l[0], l[1], l[2], l[3], |s.exp.queue|), s.agent.content)
  }

  function RespondTo(c: Setup, s: System, h: Handler, lost: bool): System
    requires s.exp.worker.Flying?
  {
    if h.rejected then
      s.(active := None, exp := Answer(c, s, if lost then Retryable else Terminal))
    else
      var (srv, f) := Verdict(s, h);
      match f.kind
      case DropFault =>
        s.(active := None, srv := MarkTruncated(srv, h.q.key, h.q.body), exp := Answer(c, s, Retryable))
      case StatusFault(status) =>
        var outcome := if lost then Retryable else StatusOutcome(status);
        s.(active := None, srv := NoteTerminal(srv, status), exp := Answer(c, s, outcome),
           hollow := s.hollow + if outcome.Delivered? then 1 else 0)
      case NoFault =>
        s.(active := None, srv := MarkAcked(srv, h.q.key, h.q.body), exp := Answer(c, s, Delivered),
           ackedLog := s.ackedLog + [h.q], unnoted := s.unnoted + 1)
  }

  function FinishLate(s: System, i: nat): System
    requires i < |s.abandoned|
  {
    var h := s.abandoned[i];
    var rest := s.abandoned[..i] + s.abandoned[i + 1..];
    if h.rejected then s.(abandoned := rest)
    else
      var (srv, f) := Verdict(s, h);
      s.(abandoned := rest,
         srv := if f.delayMs > 0 || f.kind.DropFault? then MarkTruncated(srv, h.q.key, h.q.body)
                else if f.kind.StatusFault? then NoteTerminal(srv, f.kind.status)
                else srv)
  }

  function Act(c: Setup, s: System, e: Event): System
    requires Possible(c, s, e)
  {
    match e
    case CollectNothing => s
    case Collect(content) => s.(batchSeq := s.batchSeq + 1, agent := Stamping(content, []))
    case LoadCounter =>
      if |s.agent.loaded| < 4
      then s.(agent := s.agent.(loaded := s.agent.loaded + [CounterAt(s, |s.agent.loaded|)]))
      else s.(agent := Ready(Stamp(c, s)), stamped := s.stamped + [Stamp(c, s)])
    case ContextExpired => s.(agent := Idle)
    case CallExport => s.(agent := Idle, exp := Do(c.exporter, s.exp, Call(Encode(s.agent.batch))))
    case CallUnencodable => s.(agent := Idle, exp := Do(c.exporter, s.exp, EncodeFails(Encode(s.agent.batch))))
    case Internal(l) => s.(exp := Do(c.exporter, s.exp, l))
    case Deliver(others) =>
      var q := s.exp.worker.q;
      var (srv, rejected) := Validate(s.srv, c.mode, q, others);
      s.(srv := srv, active := Some(Handler(srv.requests, q, rejected)))
    case Refuse(lost) =>
      s.(srv := s.srv.(requests := s.srv.requests + 1, fatal := s.srv.fatal + 1, sent4xx := s.srv.sent4xx + 1),
         exp := Answer(c, s, if lost then Retryable else Terminal))
    case Respond(lost) => RespondTo(c, s, s.active.value, lost)
    case TimeOut =>
      s.(exp := Answer(c, s, Retryable), active := None,
         abandoned := s.abandoned + if s.active.Some? then [s.active.value] else [])
    case Late(i) => FinishLate(s, i)
    case NoteAccepted => s.(unnoted := s.unnoted - 1, srv := s.srv.(accepted := s.srv.accepted + 1))
    case Reconfigure(f) => s.(srv := SetFaults(s.srv, f))
  }

  ghost predicate Happens(c: Setup, s: System, es: seq<Event>, t: System)
    decreases |es|
  {
    if es == [] then s == t else Possible(c, s, es[0]) && Happens(c, Act(c, s, es[0]), es[1..], t)
  }

  function Start(f: Faults): System {
    System(Idle, 0, [], INITIAL,
           Server(0, 0, 0, 0, 0, 0, 0, 0, 0, f.WithDefaults(), f.terminalOnce > 0, [], map[]),
           None, [], [], 0, 0)
  }
}
