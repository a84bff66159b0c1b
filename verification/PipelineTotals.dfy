/** When the exporter's and the ingest's totals agree at rest: exactly when the
    fault schedule cannot draw a status the client takes for an acceptance. */
module PipelineTotals {
  import opened Arithmetic
  import opened Wire
  import opened ExporterMachine
  import opened MockIngest
  import opened Pipeline
  import opened PipelineSafety

  /** A status the client takes for an acceptance, though the ingest records
      none. */
  predicate Passing(k: FaultKind) {
    k.StatusFault? && k.status < 400
  }

  /** Nothing of any batch is pending between the client and the ingest. */
  predicate Quiescent(t: System) {
    !t.exp.Busy() && t.unnoted == 0
  }

  // ---------------------------------------------------------------------------
  // Every run
  // ---------------------------------------------------------------------------

  /** The event answers a client still waiting with such a status. */
  predicate Draws(s: System, e: Event) {
    && e == Respond(false) && s.active.Some? && !s.active.value.rejected
    && Passing(Verdict(s, s.active.value).1.kind)
  }

  ghost function DrawCount(c: Setup, s: System, es: seq<Event>): nat
    decreases |es|
  {
    if es == [] || !Possible(c, s, es[0]) then 0
    else (if Draws(s, es[0]) then 1 else 0) + DrawCount(c, Act(c, s, es[0]), es[1..])
  }

  lemma HollowStep(c: Setup, s: System, e: Event)
    requires Possible(c, s, e)
    ensures Act(c, s, e).hollow == s.hollow + if Draws(s, e) then 1 else 0
  {
    hide Decide, Validate, MarkAcked, MarkTruncated, Do, Enabled;
  }

  lemma {:induction false} HollowCounts(c: Setup, s: System, es: seq<Event>, t: System)
    requires Happens(c, s, es, t)
    ensures t.hollow == s.hollow + DrawCount(c, s, es)
    decreases |es|
  {
    hide Possible, Act, Draws;
    if es != [] {
      HollowStep(c, s, es[0]);
      HollowCounts(c, Act(c, s, es[0]), es[1..], t);
    }
  }

  /** In every run, with every schedule and every change of it: at rest the
      exporter counts more than the ingest accepted by exactly the answers below
      400 that were drawn for a client still waiting. */
  lemma QuiescentTotalsAgree(c: Setup, f: Faults, es: seq<Event>, t: System)
    requires ValidSetup(c) && Happens(c, Start(f), es, t) && Quiescent(t)
    ensures |t.exp.exported| == t.srv.accepted + DrawCount(c, Start(f), es)
    ensures t.hollow == DrawCount(c, Start(f), es)
  {
    hide Possible, Act;
    DeliveredExactlyOnceInOrder(c, f, es, t);
    HollowCounts(c, Start(f), es, t);
  }

  // ---------------------------------------------------------------------------
  // Schedules of failures only
  // ---------------------------------------------------------------------------

  predicate FailureOrUnset(status: nat) {
    status == 0 || status >= 400
  }

  predicate OnlyFailures(f: Faults) {
    FailureOrUnset(f.failStatus) && FailureOrUnset(f.everyNthStatus) && FailureOrUnset(f.terminalOnce)
  }

  lemma ValidationKeepsFaults(srv: Server, mode: Mode, q: Queued, others: seq<Failure>)
    ensures var t := Validate(srv, mode, q, others).0;
            t.faults == srv.faults && t.terminalArmed == srv.terminalArmed && t.requests == srv.requests + 1
  {
    hide KeyVerdict, SeqVerdict, RejectedVerdict, Remember, AnyFatal;
  }

  lemma MarksKeepFaults(srv: Server, key: string, b: Batch)
    ensures forall t :: t == MarkAcked(srv, key, b) || t == MarkTruncated(srv, key, b) ==>
      t.faults == srv.faults && t.terminalArmed == srv.terminalArmed && t.requests == srv.requests
  {
  }

  /** What an event leaves of the server's schedule, one-shot and request count. */
  ghost predicate Kept(s: System, e: Event, t: System) {
    && t.srv.faults == (if e.Reconfigure? then e.f.WithDefaults() else s.srv.faults)
    && t.srv.requests == s.srv.requests + (if e.Deliver? || e.Refuse? then 1 else 0)
    && (!e.Reconfigure? && t.srv.terminalArmed ==> s.srv.terminalArmed)
    && (t.srv.terminalArmed != s.srv.terminalArmed && !e.Reconfigure? ==> e.Respond? || e.Late?)
  }

  lemma ActKeeps(c: Setup, s: System, e: Event)
    requires Possible(c, s, e)
    ensures Kept(s, e, Act(c, s, e))
  {
    hide Do, Enabled, Validate, FaultFor, MarkAcked, MarkTruncated;
    match e
    case Deliver(others) => ValidationKeepsFaults(s.srv, c.mode, s.exp.worker.q, others);
    case Respond(_) =>
      var h := s.active.value;
      MarksKeepFaults(Verdict(s, h).0, h.q.key, h.q.body);
    case Late(i) =>
      var h := s.abandoned[i];
      MarksKeepFaults(Verdict(s, h).0, h.q.key, h.q.body);
    case _ =>
  }

  lemma FailuresStep(c: Setup, s: System, e: Event)
    requires Possible(c, s, e) && OnlyFailures(s.srv.faults) && s.srv.faults == s.srv.faults.WithDefaults()
    requires e.Reconfigure? ==> OnlyFailures(e.f)
    ensures OnlyFailures(Act(c, s, e).srv.faults) && Act(c, s, e).srv.faults == Act(c, s, e).srv.faults.WithDefaults()
    ensures !Draws(s, e)
  {
    ActKeeps(c, s, e);
    hide Act, Possible;
  }

  lemma {:induction false} FailuresNeverDraw(c: Setup, s: System, es: seq<Event>, t: System)
    requires Happens(c, s, es, t) && OnlyFailures(s.srv.faults) && s.srv.faults == s.srv.faults.WithDefaults()
    requires forall g :: Reconfigure(g) in es ==> OnlyFailures(g)
    ensures DrawCount(c, s, es) == 0
    decreases |es|
  {
    hide Possible, Act, Draws, OnlyFailures;
    if es != [] {
      assert es[0] in es;
      FailuresStep(c, s, es[0]);
      FailuresNeverDraw(c, Act(c, s, es[0]), es[1..], t);
    }
  }

  /** If every status of the initial schedule and of every later one is unset or
      a failure, the acknowledged batches are, batch for batch and in order, the
      exported ones, plus at most the one about to be counted; at rest the totals
      agree. */
  lemma FailureSchedulesAgree(c: Setup, f: Faults, es: seq<Event>, t: System)
    requires ValidSetup(c) && Happens(c, Start(f), es, t)
    requires OnlyFailures(f) && forall g :: Reconfigure(g) in es ==> OnlyFailures(g)
    ensures t.ackedLog == t.exp.exported + if AcceptedNotCounted(t) then [t.exp.worker.q] else []
    ensures Quiescent(t) ==> |t.exp.exported| == t.srv.accepted
  {
    hide Possible, Act;
    FailuresNeverDraw(c, Start(f), es, t);
    HollowCounts(c, Start(f), es, t);
    DeliveredExactlyOnceInOrder(c, f, es, t);
  }

  // ---------------------------------------------------------------------------
  // One schedule, left alone: the exact condition
  // ---------------------------------------------------------------------------

  /** The first request number that can draw from the standing schedule: a
      one-shot status takes the first. */
  function First(f: Faults): nat {
    if f.terminalOnce > 0 then 2 else 1
  }

  /** Whether f can answer some request with a status below 400, read off its
      fields: the one-shot, the first few not dropped, or every n-th not always
      dropped. */
  predicate MayPass(f: Faults) {
    var lo := if f.dropFirst + 1 > First(f) then f.dropFirst + 1 else First(f);
    || 0 < f.terminalOnce < 400
    || (0 < f.failStatus < 400 && lo <= f.failFirst
        && (f.dropEvery == 0 || lo % f.dropEvery != 0 || (f.dropEvery > 1 && lo < f.failFirst)))
    || (f.everyNth > 0 && 0 < f.everyNthStatus < 400 && (f.dropEvery == 0 || f.everyNth % f.dropEvery != 0))
  }

  /** Request n draws such a status once no one-shot is armed. */
  predicate PassesAt(f: Faults, n: nat) {
    Passing(FaultFor(f.WithDefaults(), false, n).kind)
  }

  lemma MayPassSound(f: Faults, n: nat)
    requires n >= First(f) && PassesAt(f, n)
    ensures MayPass(f)
  {
    if !(f.failFirst > 0 && n <= f.failFirst) && f.dropEvery > 0 && f.everyNth % f.dropEvery == 0 {
      MultipleOfMultiple(n, f.everyNth, f.dropEvery);
    }
  }

  lemma MultipleOfMultiple(n: nat, a: nat, b: nat)
    requires a > 0 && b > 0 && n % a == 0 && a % b == 0
    ensures n % b == 0
  {
    var j := a / b;
    assert a == b * j;
    RemainderOf(n, b, j);
  }

  /** A request number that draws it. */
  lemma MayPassWitness(f: Faults) returns (n: nat)
    requires MayPass(f) && !(0 < f.terminalOnce < 400)
    ensures n >= First(f) && PassesAt(f, n)
  {
    var lo := if f.dropFirst + 1 > First(f) then f.dropFirst + 1 else First(f);
    if 0 < f.failStatus < 400 && lo <= f.failFirst
       && (f.dropEvery == 0 || lo % f.dropEvery != 0 || (f.dropEvery > 1 && lo < f.failFirst)) {
      n := if f.dropEvery == 0 || lo % f.dropEvery != 0 then lo else lo + 1;
      if n == lo + 1 {
        NextIsNoMultiple(lo, f.dropEvery);
      }
    } else {
      n := LateMultiple(f.everyNth, f.dropEvery, lo + f.failFirst);
    }
  }

  lemma NextIsNoMultiple(a: nat, b: nat)
    requires b > 1 && a % b == 0
    ensures (a + 1) % b != 0
  {
    assert a == b * (a / b);
    PlusMultiple(b, a / b, 1);
  }

  /** A multiple of a beyond any bound that b does not divide. */
  lemma LateMultiple(a: nat, b: nat, bound: nat) returns (n: nat)
    requires a > 0 && (b == 0 || a % b != 0)
    ensures n > bound && n % a == 0 && (b == 0 || n % b != 0)
  {
    var k := if b == 0 then 1 else b;
    var m := bound * k + 1;
    n := m * a;
    AtLeastItself(bound, k);
    AtLeastItself(m, a);
    assert n == a * m;
    Multiple(a, m);
    if b > 0 {
      assert n == b * (bound * a) + a;
      PlusMultiple(b, bound * a, a);
    }
  }

  predicate Fixed(es: seq<Event>) {
    forall e :: e in es ==> !e.Reconfigure?
  }

  /** A disarmed one-shot has used up the first request. */
  ghost predicate OneShot(f: Faults, s: System) {
    && s.srv.faults == f.WithDefaults()
    && (s.srv.terminalArmed ==> f.terminalOnce > 0)
    && (f.terminalOnce > 0 && !s.srv.terminalArmed ==> s.srv.requests >= 1 && (s.active.Some? ==> s.active.value.n >= 2))
    && (s.active.Some? ==> 1 <= s.active.value.n <= s.srv.requests)
    && (forall h :: h in s.abandoned ==> 1 <= h.n <= s.srv.requests && (s.active.Some? ==> h.n < s.active.value.n))
  }

  lemma OneShotStep(c: Setup, f: Faults, s: System, e: Event)
    requires Possible(c, s, e) && OneShot(f, s) && !e.Reconfigure?
    ensures OneShot(f, Act(c, s, e))
  {
    ActKeeps(c, s, e);
    hide Do, Enabled, Validate, Decide, MarkAcked, MarkTruncated;
  }

  lemma DrawsOnlyIfMayPass(f: Faults, s: System, e: Event)
    requires OneShot(f, s) && Draws(s, e)
    ensures MayPass(f)
  {
    var n := s.active.value.n;
    if !s.srv.terminalArmed {
      MayPassSound(f, n);
    }
  }

  lemma {:induction false} FixedNeverDraws(c: Setup, f: Faults, s: System, es: seq<Event>, t: System)
    requires Happens(c, s, es, t) && Fixed(es) && OneShot(f, s) && !MayPass(f)
    ensures DrawCount(c, s, es) == 0
    decreases |es|
  {
    hide Possible, Act, Draws, OneShot, MayPass;
    if es != [] {
      assert es[0] in es;
      OneShotStep(c, f, s, es[0]);
      if Draws(s, es[0]) {
        DrawsOnlyIfMayPass(f, s, es[0]);
      }
      FixedNeverDraws(c, f, Act(c, s, es[0]), es[1..], t);
    }
  }
}
