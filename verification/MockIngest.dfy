/** The conformance-checking ingest: what it remembers per agent instance and
    Idempotency-Key, the checks that need that memory, and the fault schedule.
    Each operation is given as a function on the server's state and again as the
    method that updates the fields under the lock. */
module MockIngest {
  import opened Wrappers
  import opened Wire

  datatype Severity = Fatal | Warn

  /** Strict promotes every warning, WarnOnly demotes every fatal. */
  datatype Mode = Normal | Strict | WarnOnly

  datatype Code =
    | BodyMismatch
    | Replay
    | SeqRegression
    | SeqGap
    | CounterRegression
    | DropAccounting
    | RejectedUnexplained
    | KeyFormat
    | AgentCheck
    | OtherCheck

  datatype Failure = Failure(code: Code, severity: Severity)

  /** The three verdicts that accuse the exporter of breaking the protocol. */
  predicate Accuses(f: Failure) {
    f.code.BodyMismatch? || f.code.Replay? || f.code.SeqRegression?
  }

  function Emit(mode: Mode, code: Code, severity: Severity): Failure {
    Failure(code, if mode.WarnOnly? then Warn else if mode.Strict? then Fatal else severity)
  }

  /** One Idempotency-Key seen. The body's digest is modelled as the body. */
  datatype Delivery = Delivery(hash: Batch, seqNo: nat, acked: bool, truncated: bool, count: nat)

  datatype Instance = Instance(
    lastAckedSeq: nat,
    lastSeenSeq: nat,
    seen: map<string, Delivery>,
    lastAgent: Option<AgentStats>,
    sent4xxAtLast: nat)

  const FRESH_INSTANCE := Instance(0, 0, map[], None, 0)

  datatype Faults = Faults(
    failFirst: nat, failStatus: nat,
    everyNth: nat, everyNthStatus: nat,
    retryAfterSec: nat,
    delayMs: nat, delayFirst: nat,
    dropEvery: nat, dropFirst: nat,
    terminalOnce: nat)
  {
    function WithDefaults(): Faults {
      this.(failStatus := if failStatus == 0 then 500 else failStatus,
            everyNthStatus := if everyNthStatus == 0 then 429 else everyNthStatus,
            retryAfterSec := if retryAfterSec == 0 then 1 else retryAfterSec)
    }
  }

  datatype FaultKind = NoFault | StatusFault(status: nat) | DropFault

  datatype Fault = Fault(kind: FaultKind, retryAfter: nat, delayMs: nat) {
    predicate Active() {
      !kind.NoFault? || delayMs > 0
    }
  }

  datatype Server = Server(
    requests: nat,
    ok: nat,
    accepted: nat,
    fatal: nat,
    warn: nat,
    duplicates: nat,
    seqGaps: nat,
    faultsInjected: nat,
    sent4xx: nat,
    faults: Faults,
    terminalArmed: bool,
    failures: seq<Failure>,
    instances: map<string, Instance>)
  {
    function InstanceOf(id: string): Instance {
      if id in instances then instances[id] else FRESH_INSTANCE
    }
  }

  // ---------------------------------------------------------------------------
  // checkState
  // ---------------------------------------------------------------------------

  datatype Checked = Checked(server: Server, failures: seq<Failure>, retry: bool, afterFault: bool)

  function KeyVerdict(mode: Mode, inst: Instance, key: string, b: Batch): seq<Failure> {
    if key !in inst.seen then []
    else if inst.seen[key].hash != b then [Emit(mode, BodyMismatch, Fatal)]
    else if inst.seen[key].acked then [Emit(mode, Replay, Fatal)]
    else []
  }

  predicate Gap(inst: Instance, key: string, b: Batch) {
    && key !in inst.seen
    && b.batchSeq > inst.lastAckedSeq
    && inst.lastSeenSeq > 0
    && b.batchSeq > inst.lastSeenSeq + 1
  }

  /** The early return in the middle of the gap branch: nothing after it runs. */
  predicate CounterWentBack(inst: Instance, key: string, b: Batch) {
    Gap(inst, key, b) && inst.lastAgent.Some? && b.agent.dropped < inst.lastAgent.value.dropped
  }

  function SeqVerdict(mode: Mode, inst: Instance, key: string, b: Batch): seq<Failure> {
    if key in inst.seen then []
    else if b.batchSeq <= inst.lastAckedSeq then [Emit(mode, SeqRegression, Fatal)]
    else if Gap(inst, key, b) then
      var gap := b.batchSeq - inst.lastSeenSeq - 1;
      [Emit(mode, SeqGap, Warn)] +
      if inst.lastAgent.None? then []
      else if CounterWentBack(inst, key, b) then [Emit(mode, CounterRegression, Warn)]
      else if b.agent.dropped - inst.lastAgent.value.dropped != gap then [Emit(mode, DropAccounting, Warn)]
      else []
    else []
  }

  function RejectedVerdict(mode: Mode, inst: Instance, key: string, b: Batch, sent4xx: nat): seq<Failure> {
    if CounterWentBack(inst, key, b) || inst.lastAgent.None? then []
    // Unsigned subtraction: any change of the counter is a positive rise.
    else if b.agent.rejected != inst.lastAgent.value.rejected && sent4xx == inst.sent4xxAtLast
    then [Emit(mode, RejectedUnexplained, Warn)]
    else []
  }

  function Remember(inst: Instance, key: string, b: Batch, sent4xx: nat): Instance {
    var d := if key in inst.seen then inst.seen[key].(count := inst.seen[key].count + 1)
             else Delivery(b, b.batchSeq, false, false, 1);
    var noted := inst.(seen := inst.seen[key := d]);
    if CounterWentBack(inst, key, b) then noted
    else noted.(lastSeenSeq := if b.batchSeq > inst.lastSeenSeq then b.batchSeq else inst.lastSeenSeq,
                lastAgent := Some(b.agent),
                sent4xxAtLast := sent4xx)
  }

  function CheckState(s: Server, mode: Mode, key: string, b: Batch): Checked {
    if b.instance == "" || key == "" then Checked(s, [], false, false)
    else
      var inst := s.InstanceOf(b.instance);
      var dup := key in inst.seen;
      var t := s.(instances := s.instances[b.instance := Remember(inst, key, b, s.sent4xx)],
                  duplicates := s.duplicates + (if dup then 1 else 0),
                  seqGaps := s.seqGaps + (if Gap(inst, key, b) then b.batchSeq - inst.lastSeenSeq - 1 else 0));
      Checked(t,
              KeyVerdict(mode, inst, key, b) + SeqVerdict(mode, inst, key, b)
                + RejectedVerdict(mode, inst, key, b, s.sent4xx),
              dup, dup && inst.seen[key].truncated)
  }

  function MarkAcked(s: Server, key: string, b: Batch): Server {
    if b.instance == "" || key == "" || b.instance !in s.instances then s
    else
      var inst := s.instances[b.instance];
      s.(instances := s.instances[b.instance := inst.(
        seen := if key in inst.seen then inst.seen[key := inst.seen[key].(acked := true)] else inst.seen,
        lastAckedSeq := if b.batchSeq > inst.lastAckedSeq then b.batchSeq else inst.lastAckedSeq)])
  }

  function MarkTruncated(s: Server, key: string, b: Batch): Server {
    if b.instance == "" || key == "" || b.instance !in s.instances then s
    else
      var inst := s.instances[b.instance];
      if key !in inst.seen then s
      else s.(instances := s.instances[b.instance := inst.(
        seen := inst.seen[key := inst.seen[key].(truncated := true)])])
  }

  // ---------------------------------------------------------------------------
  // One request
  // ---------------------------------------------------------------------------

  predicate AnyFatal(fs: seq<Failure>) {
    exists f :: f in fs && f.severity.Fatal?
  }

  function Warnings(fs: seq<Failure>): nat {
    if fs == [] then 0 else Warnings(fs[..|fs| - 1]) + if fs[|fs| - 1].severity.Fatal? then 0 else 1
  }

  /** `validate` then `record`: the checks of the body itself (`others`), the key
      format, the self-telemetry, and the memory. The result says whether the
      batch is rejected. */
  function Validate(s: Server, mode: Mode, q: Queued, others: seq<Failure>): (Server, bool) {
    var c := CheckState(s.(requests := s.requests + 1), mode, q.key, q.body);
    var fs :=
      others
      + (if q.key != "" && q.key != IdempotencyKey(q.body.instance, q.body.batchSeq) then [Emit(mode, KeyFormat, Fatal)] else [])
      + (if AgentConforms(q.body) then [] else [Emit(mode, AgentCheck, Fatal)])
      + c.failures;
    var fatal := AnyFatal(fs);
    (c.server.(failures := c.server.failures + fs,
               fatal := c.server.fatal + (if fatal then 1 else 0),
               warn := c.server.warn + Warnings(fs),
               sent4xx := c.server.sent4xx + (if fatal then 1 else 0),
               ok := c.server.ok + (if fatal then 0 else 1)), fatal)
  }

  /** The schedule for request n (1-based): TerminalOnce, DropFirst, DropEvery,
      FailFirst, EveryNth, with a delay on top of whichever fires. */
  function FaultFor(f: Faults, armed: bool, n: nat): Fault {
    var delay := if f.delayMs > 0 && (f.delayFirst == 0 || n <= f.delayFirst) then f.delayMs else 0;
    var kind :=
      if f.terminalOnce > 0 && armed then StatusFault(f.terminalOnce)
      else if f.dropFirst > 0 && n <= f.dropFirst then DropFault
      else if f.dropEvery > 0 && n % f.dropEvery == 0 then DropFault
      else if f.failFirst > 0 && n <= f.failFirst then StatusFault(f.failStatus)
      else if f.everyNth > 0 && n % f.everyNth == 0 then StatusFault(f.everyNthStatus)
      else NoFault;
    Fault(kind, if kind.StatusFault? && (kind.status == 429 || kind.status == 503) then f.retryAfterSec else 0, delay)
  }

  function Decide(s: Server, n: nat): (Server, Fault) {
    var f := FaultFor(s.faults, s.terminalArmed, n);
    (s.(terminalArmed := s.terminalArmed && s.faults.terminalOnce == 0,
        faultsInjected := s.faultsInjected + (if f.Active() then 1 else 0)), f)
  }

  function NoteTerminal(s: Server, status: nat): Server {
    if 400 <= status < 500 then s.(sent4xx := s.sent4xx + 1) else s
  }

  function SetFaults(s: Server, f: Faults): Server {
    s.(faults := f.WithDefaults(), terminalArmed := f.terminalOnce > 0)
  }
}
