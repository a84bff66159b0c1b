/** One collection cycle as twelve goroutines and the caller that waits for
    them: what each runs, and every step a run can take. One partition and one
    group of the cluster are followed, whichever they are. */
module PhaseGraph {
  import opened Wrappers

  datatype Chan = MetaDone | GroupsListed | WindowDone | CommittedDone | EndDone

  /** The captured variables the goroutines share. A phase's section travels
      with its result. */
  datatype Var =
    | Cluster | TopicDetails | GroupIds | GroupTypes | ListErr | ListStart
    | Topics | Groups | Offsets | LogDirs | Window | Reassignments | Probes
    | TopicConfigs | BrokerConfigs | ShareGroups

  datatype Phase =
    | ClusterPhase | Listing | GroupsPhase | CommittedPhase | WindowPhase | TopicsPhase
    | LogDirsPhase | SharePhase | TopicConfigPhase | BrokerConfigPhase | ReassignPhase | EpochPhase
    | Caller

  /** The requests whose order matters, and all the rest. */
  datatype Api = FetchOffsets | OffsetsAfterMilli | StartOffsets | LastStable | EndOffsets | Other

  /** What a goroutine does next.
      Calls: up to n requests of no further interest.
      MayLeave: an early return or an option left off, which passes over the
      next n operations. */
  datatype Op =
    | Await(c: Chan)
    | AwaitOrCancel(c: Chan)
    | Ask(api: Api)
    | Calls(n: nat)
    | MayLeave(skip: nat)
    | Read(v: Var)
    | Write(v: Var)
    | Close(c: Chan)
    | Done
    | WaitAll

  /** The goroutines the wait group counts: all but the group listing. */
  predicate Counted(p: Phase) {
    p != Listing && p != Caller
  }

  const WAITED := 11

  /** The phase that closes each channel. */
  function Opener(c: Chan): Phase {
    match c
    case MetaDone => ClusterPhase
    case GroupsListed => Listing
    case WindowDone => WindowPhase
    case CommittedDone => CommittedPhase
    case EndDone => TopicsPhase
  }

  /** The phase that writes each variable. */
  function Owner(v: Var): Phase {
    match v
    case Cluster | TopicDetails => ClusterPhase
    case GroupIds | GroupTypes | ListErr | ListStart => Listing
    case Topics => TopicsPhase
    case Groups => GroupsPhase
    case Offsets => CommittedPhase
    case LogDirs => LogDirsPhase
    case Window => WindowPhase
    case Reassignments => ReassignPhase
    case Probes => EpochPhase
    case TopicConfigs => TopicConfigPhase
    case BrokerConfigs => BrokerConfigPhase
    case ShareGroups => SharePhase
  }

  /** The channel whose close publishes a variable, if one does. */
  function Publisher(v: Var): Option<Chan> {
    match v
    case Cluster | TopicDetails => Some(MetaDone)
    case GroupIds | GroupTypes | ListErr | ListStart => Some(GroupsListed)
    case Topics => Some(EndDone)
    case Offsets => Some(CommittedDone)
    case Window => Some(WindowDone)
    case _ => None
  }

  /** The phase that makes each request that matters, and the result that carries
      its answer. */
  function Result(api: Api): Var
    requires api != Other
  {
    match api
    case FetchOffsets => Offsets
    case OffsetsAfterMilli => Window
    case StartOffsets | LastStable | EndOffsets => Topics
  }

  /** Every goroutine's program; n bounds the requests of no further interest
      each may make. */
  function Program(p: Phase, n: nat): seq<Op> {
    match p
    case ClusterPhase => [Calls(n), Write(Cluster), Write(TopicDetails), Close(MetaDone), Done]
    case Listing => [Write(ListStart), Calls(n), Write(GroupIds), Write(GroupTypes), Write(ListErr), Close(GroupsListed)]
    case GroupsPhase =>
      [Await(GroupsListed), Read(GroupIds), Read(GroupTypes), Read(ListErr), Read(ListStart), Calls(n), Write(Groups), Done]
    case CommittedPhase =>
      [Await(MetaDone), Await(GroupsListed), Read(GroupIds), Read(ListErr), Read(TopicDetails),
       MayLeave(1), Ask(FetchOffsets), Write(Offsets), Close(CommittedDone), Done]
    case WindowPhase =>
      [Await(MetaDone), Read(TopicDetails), MayLeave(1), Ask(OffsetsAfterMilli), Write(Window), Close(WindowDone), Done]
    case TopicsPhase =>
      [Await(MetaDone), Read(TopicDetails), MayLeave(7), Ask(StartOffsets),
       AwaitOrCancel(CommittedDone), AwaitOrCancel(WindowDone),
       MayLeave(1), Ask(LastStable), Ask(EndOffsets), Calls(3), Write(Topics), Close(EndDone), Done]
    case LogDirsPhase =>
      [Await(MetaDone), Await(EndDone), Read(Cluster), Read(TopicDetails), Calls(n), Write(LogDirs), Done]
    case SharePhase => [Await(GroupsListed), Read(GroupTypes), Calls(n), Write(ShareGroups), Done]
    case TopicConfigPhase => [Await(EndDone), Read(Topics), Calls(n), Write(TopicConfigs), Done]
    case BrokerConfigPhase => [Await(MetaDone), Await(EndDone), Read(Cluster), Calls(n), Write(BrokerConfigs), Done]
    case ReassignPhase => [Await(EndDone), Read(Topics), Calls(n), Write(Reassignments), Done]
    case EpochPhase => [Await(CommittedDone), Await(EndDone), Read(Topics), Read(Offsets), Calls(n), Write(Probes), Done]
    case Caller =>
      [WaitAll, Read(Window), Write(Topics), Read(Cluster), Read(Topics), Read(Groups), Read(Offsets), Read(LogDirs),
       Read(Reassignments), Read(Probes), Read(TopicConfigs), Read(BrokerConfigs), Read(ShareGroups)]
  }

  // ---------------------------------------------------------------------------
  // States and steps
  // ---------------------------------------------------------------------------

  /** Where a goroutine's request is: not sent, under way, or already answered
      by the cluster but not yet returned. */
  datatype Request = Idle | Sent | Answered

  /** heard: the channels it has seen closed. passed: those and the ones it gave
      up waiting for. joined: whether it is past the wait group. */
  datatype Goroutine = Goroutine(rest: seq<Op>, request: Request, heard: set<Chan>, passed: set<Chan>, joined: bool)

  /** The followed partition's watermarks and the group's commit. careful says
      that the group commits only below the last stable offset. */
  datatype Log = Log(high: nat, stable: nat, commit: nat, careful: bool)

  datatype Samples = Samples(
    committed: Option<nat>, window: Option<nat>, start: Option<nat>, stable: Option<nat>, end: Option<nat>)

  /** escaped: some wait was given up on cancellation before its channel was
      closed. skipped: requests an early return or a switched-off option passed
      over. unanswered: requests that returned without an answer. */
  datatype State = State(
    g: map<Phase, Goroutine>,
    closed: set<Chan>,
    written: set<Var>,
    finished: set<Phase>,
    cancelled: bool,
    escaped: bool,
    skipped: set<Api>,
    unanswered: set<Api>,
    log: Log,
    samples: Samples)

  datatype Event =
    | Step(p: Phase, choice: bool)
    | Serve(p: Phase, offset: nat)
    | Grow(log: Log)
    | Cancel

  predicate LogOk(l: Log) {
    && l.stable <= l.high
    && l.commit <= l.high
    && (l.careful ==> l.commit <= l.stable)
  }

  ghost predicate Running(s: State) {
    forall p: Phase :: p in s.g
  }

  predicate Ready(s: State, p: Phase)
    requires p in s.g && s.g[p].rest != []
  {
    match s.g[p].rest[0]
    case Await(c) => c in s.closed
    case AwaitOrCancel(c) => c in s.closed || s.cancelled
    case WaitAll => |s.finished| == WAITED
    case _ => true
  }

  /** What the cluster may answer at this instant. */
  predicate MayAnswer(l: Log, api: Api, offset: nat) {
    match api
    case FetchOffsets => offset == l.commit
    case LastStable => offset == l.stable
    case EndOffsets => offset == l.high
    case OffsetsAfterMilli | StartOffsets => offset <= l.high
    case Other => true
  }

  ghost predicate Enabled(s: State, e: Event)
    requires Running(s)
  {
    match e
    case Step(p, choice) => s.g[p].rest != [] && Ready(s, p)
    case Serve(p, offset) =>
      s.g[p].rest != [] && s.g[p].rest[0].Ask? && s.g[p].request == Sent && MayAnswer(s.log, s.g[p].rest[0].api, offset)
    case Grow(l) => LogOk(l) && s.log.high <= l.high && s.log.stable <= l.stable && l.careful == s.log.careful
    case Cancel => true
  }

  function Noted(m: Samples, api: Api, offset: nat): Samples {
    match api
    case FetchOffsets => m.(committed := Some(offset))
    case OffsetsAfterMilli => m.(window := Some(offset))
    case StartOffsets => m.(start := Some(offset))
    case LastStable => m.(stable := Some(offset))
    case EndOffsets => m.(end := Some(offset))
    case Other => m
  }

  /** The goroutine after its next operation. A request is sent by one step and
      returned from by another, answered or not; choice picks whether an early
      return is taken and whether one more request is made. */
  function Moved(g: Goroutine, choice: bool): Goroutine
    requires g.rest != []
  {
    var tail := g.rest[1..];
    match g.rest[0]
    case Await(c) => g.(rest := tail, heard := g.heard + {c}, passed := g.passed + {c})
    case AwaitOrCancel(c) => g.(rest := tail, passed := g.passed + {c})
    case Ask(_) => if g.request == Idle then g.(request := Sent) else g.(rest := tail, request := Idle)
    case Calls(n) => if n > 0 && choice then g.(rest := [Ask(Other), Calls(n - 1)] + tail) else g.(rest := tail)
    case MayLeave(n) => g.(rest := if choice && n <= |tail| then tail[n..] else tail)
    case WaitAll => g.(rest := tail, joined := true)
    case _ => g.(rest := tail)
  }

  /** The requests among the next n operations. */
  function Passed(ops: seq<Op>, n: nat): set<Api> {
    set i | 0 <= i < n && i < |ops| && ops[i].Ask? :: ops[i].api
  }

  function StepOf(s: State, p: Phase, choice: bool): State
    requires p in s.g && s.g[p].rest != [] && Ready(s, p)
  {
    var t := s.(g := s.g[p := Moved(s.g[p], choice)]);
    match s.g[p].rest[0]
    case AwaitOrCancel(c) => t.(escaped := s.escaped || c !in s.closed)
    case Ask(api) => if s.g[p].request == Sent then t.(unanswered := s.unanswered + {api}) else t
    case MayLeave(n) => if choice then t.(skipped := s.skipped + Passed(s.g[p].rest[1..], n)) else t
    case Write(v) => t.(written := s.written + {v})
    case Close(c) => t.(closed := s.closed + {c})
    case Done => t.(finished := s.finished + {p})
    case _ => t
  }

  ghost function Next(s: State, e: Event): State
    requires Running(s) && Enabled(s, e)
  {
    match e
    case Step(p, choice) => StepOf(s, p, choice)
    case Serve(p, offset) =>
      s.(g := s.g[p := s.g[p].(request := Answered)], samples := Noted(s.samples, s.g[p].rest[0].api, offset))
    case Grow(l) => s.(log := l)
    case Cancel => s.(cancelled := true)
  }

  function Launched(p: Phase, n: nat): Goroutine {
    Goroutine(Program(p, n), Idle, {}, {}, false)
  }

  ghost predicate Initial(s: State, n: nat) {
    && Running(s)
    && (forall p: Phase :: s.g[p] == Launched(p, n))
    && s.closed == {} && s.written == {} && s.finished == {}
    && !s.cancelled && !s.escaped && s.skipped == {} && s.unanswered == {}
    && LogOk(s.log)
    && s.samples == Samples(None, None, None, None, None)
  }

  ghost predicate Runs(s: State, es: seq<Event>, t: State)
    decreases |es|
  {
    if es == [] then s == t
    else Running(s) && Enabled(s, es[0]) && Runs(Next(s, es[0]), es[1..], t)
  }

  // ---------------------------------------------------------------------------
  // The discipline every program follows
  // ---------------------------------------------------------------------------

  /** How far down the graph a phase sits: it waits only for lower ones. */
  function Rank(p: Phase): nat {
    match p
    case ClusterPhase | Listing => 0
    case GroupsPhase | CommittedPhase | WindowPhase | SharePhase => 1
    case TopicsPhase => 2
    case Caller => 4
    case _ => 3
  }

  /** Whether p may touch v for reading, given what it has heard. */
  predicate MayRead(p: Phase, v: Var, heard: set<Chan>, joined: bool) {
    && Rank(Owner(v)) < Rank(p)
    && ((Publisher(v).Some? && Publisher(v).value in heard) || (joined && Counted(Owner(v))))
  }

  predicate MayWrite(p: Phase, v: Var, joined: bool) {
    p == Owner(v) || (p == Caller && joined && Counted(Owner(v)))
  }

  /** Which request each phase makes, and the channel that says it returned. */
  predicate MayAsk(p: Phase, api: Api, passed: set<Chan>, tail: seq<Op>) {
    match api
    case FetchOffsets => p == CommittedPhase && Close(CommittedDone) in tail
    case OffsetsAfterMilli => p == WindowPhase && Close(WindowDone) in tail
    case StartOffsets => p == TopicsPhase
    case LastStable => p == TopicsPhase && {CommittedDone, WindowDone} <= passed && Ask(StartOffsets) !in tail
    case EndOffsets =>
      p == TopicsPhase && {CommittedDone, WindowDone} <= passed && Ask(StartOffsets) !in tail && Ask(LastStable) !in tail
    case Other => true
  }

  predicate Skippable(op: Op) {
    op.AwaitOrCancel? || op.Ask? || op.Calls? || op.MayLeave?
  }

  /** The rest of a program keeps to the discipline. */
  predicate Disciplined(p: Phase, ops: seq<Op>, heard: set<Chan>, passed: set<Chan>, joined: bool)
    decreases |ops|
  {
    ops != [] ==>
      var tail := ops[1..];
      match ops[0]
      case Await(c) => Rank(Opener(c)) < Rank(p) && Disciplined(p, tail, heard + {c}, passed + {c}, joined)
      case AwaitOrCancel(c) => Rank(Opener(c)) < Rank(p) && Disciplined(p, tail, heard, passed + {c}, joined)
      case Ask(api) => MayAsk(p, api, passed, tail) && Disciplined(p, tail, heard, passed, joined)
      case Calls(n) => Disciplined(p, tail, heard, passed, joined)
      case MayLeave(n) =>
        && n <= |tail|
        && (forall i :: 0 <= i < n ==> Skippable(tail[i]))
        && Disciplined(p, tail, heard, passed, joined)
        && Disciplined(p, tail[n..], heard, passed, joined)
      case Read(v) => MayRead(p, v, heard, joined) && Disciplined(p, tail, heard, passed, joined)
      case Write(v) =>
        && MayWrite(p, v, joined)
        && (forall api :: api != Other && Result(api) == v ==> Ask(api) !in tail)
        && Disciplined(p, tail, heard, passed, joined)
      case Close(c) =>
        && p == Opener(c)
        && Close(c) !in tail
        && (p == Listing ==> tail == [])
        && (forall v :: Publisher(v) == Some(c) ==> Write(v) !in tail)
        && (forall api :: api != Other && Publisher(Result(api)) == Some(c) ==> Ask(api) !in tail)
        && Disciplined(p, tail, heard, passed, joined)
      case Done => Counted(p) && tail == []
      case WaitAll => p == Caller && Disciplined(p, tail, heard, passed, true)
  }
}
