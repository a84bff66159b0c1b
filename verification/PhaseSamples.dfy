/** The samples are really taken: a phase that published its result asked first,
    and the answer is in the batch, unless the request was switched off or came
    back without one. And a cycle in which nothing goes wrong has them all. */
module PhaseSamples {
  import opened Wrappers
  import opened PhaseGraph
  import opened PhaseSafety
  import opened PhaseTheorems

  function SampleOf(m: Samples, api: Api): Option<nat>
    requires api != Other
  {
    match api
    case FetchOffsets => m.committed
    case OffsetsAfterMilli => m.window
    case StartOffsets => m.start
    case LastStable => m.stable
    case EndOffsets => m.end
  }

  /** One request that matters: it is still ahead of its phase, or its answer is
      in, or it was passed over or came back without an answer; and while it is
      ahead its result is neither written nor published. */
  ghost predicate Asked(s: State, api: Api)
    requires Running(s) && api != Other
  {
    var v := Result(api);
    var g := s.g[Owner(v)];
    && (Ask(api) in g.rest || SampleOf(s.samples, api).Some? || api in s.skipped || api in s.unanswered)
    && (g.request == Answered && g.rest != [] && g.rest[0] == Ask(api) ==> SampleOf(s.samples, api).Some?)
    && (Ask(api) in g.rest ==> v !in s.written && Publisher(v).Some? && Publisher(v).value !in s.closed)
  }

  lemma InitialAsked(s: State, n: nat, api: Api)
    requires Initial(s, n) && api != Other
    ensures Asked(s, api)
  {
    var ops := Program(Owner(Result(api)), n);
    match api
    case FetchOffsets => assert ops[6] == Ask(api);
    case OffsetsAfterMilli => assert ops[3] == Ask(api);
    case StartOffsets => assert ops[3] == Ask(api);
    case LastStable => assert ops[7] == Ask(api);
    case EndOffsets => assert ops[8] == Ask(api);
  }

  lemma AskPassedOver(tail: seq<Op>, n: nat, api: Api)
    requires n <= |tail|
    ensures Ask(api) in tail[n..] ==> Ask(api) in tail
    ensures Ask(api) in tail && Ask(api) !in tail[n..] ==> api in Passed(tail, n)
  {
    assert tail == tail[..n] + tail[n..];
    if Ask(api) in tail && Ask(api) !in tail[n..] {
      assert Ask(api) in tail[..n];
      var i :| 0 <= i < n && tail[..n][i] == Ask(api);
      assert tail[i].Ask? && tail[i].api == api;
    }
  }

  /** A request stops being ahead by returning or by being passed over. */
  lemma HowAsksGo(g: Goroutine, choice: bool, api: Api)
    requires g.rest != [] && (g.request != Idle ==> g.rest[0].Ask?) && api != Other
    ensures Ask(api) in g.rest <==> g.rest[0] == Ask(api) || Ask(api) in g.rest[1..]
    ensures Ask(api) in Moved(g, choice).rest ==> Ask(api) in g.rest
    ensures Ask(api) in g.rest && Ask(api) !in Moved(g, choice).rest ==>
      || (g.rest[0] == Ask(api) && g.request != Idle)
      || (g.rest[0].MayLeave? && choice && api in Passed(g.rest[1..], g.rest[0].skip))
    ensures Moved(g, choice).request != Answered
  {
    hide Passed;
    var tail := g.rest[1..];
    assert g.rest == [g.rest[0]] + tail;
    if g.rest[0].MayLeave? && g.rest[0].skip <= |tail| {
      AskPassedOver(tail, g.rest[0].skip, api);
    }
  }

  lemma StepMarksRequests(s: State, p: Phase, choice: bool)
    requires p in s.g && s.g[p].rest != [] && Ready(s, p)
    ensures var t, op := StepOf(s, p, choice), s.g[p].rest[0];
            && t.samples == s.samples && s.skipped <= t.skipped && s.unanswered <= t.unanswered
            && (op.Ask? && s.g[p].request == Sent ==> op.api in t.unanswered)
            && (op.MayLeave? && choice ==> Passed(s.g[p].rest[1..], op.skip) <= t.skipped)
  {
    hide Moved, Passed, Ready;
  }

  /** The discipline, read for one request: its phase neither writes nor publishes
      the result with the request still ahead, and nobody else does but the
      caller, after the wait group. */
  lemma ResultLast(p: Phase, g: Goroutine, api: Api)
    requires g.rest != [] && HeadOk(p, g) && api != Other
    ensures var v, op := Result(api), g.rest[0];
            && Publisher(v).Some?
            && (p == Owner(v) && (op == Write(v) || op == Close(Publisher(v).value)) ==> Ask(api) !in g.rest[1..])
            && (p != Owner(v) && op == Write(v) ==> g.joined)
            && (p != Owner(v) ==> op != Close(Publisher(v).value))
            && Counted(Owner(v))
  {
  }

  lemma JoinedAfterAll(s: State, p: Phase, q: Phase)
    requires Running(s) && PhaseOk(s, p) && Ahead(s) && s.g[p].joined && Counted(q)
    ensures s.g[q].rest == []
  {
    hide Disciplined, Owner, Publisher, Opener, Counted;
    assert q in s.finished;
  }

  lemma OwnerWritesLast(s: State, p: Phase, api: Api)
    requires Safe(s) && s.g[p].rest != [] && api != Other
    ensures var v, op := Result(api), s.g[p].rest[0];
            && Publisher(v).Some?
            && (p == Owner(v) && (op == Write(v) || op == Close(Publisher(v).value)) ==> Ask(api) !in s.g[p].rest[1..])
            && (p != Owner(v) && op == Write(v) ==> s.g[Owner(v)].rest == [])
            && (p != Owner(v) ==> op != Close(Publisher(v).value))
  {
    assert PhaseOk(s, p);
    HeadMeaning(p, s.g[p]);
    ResultLast(p, s.g[p], api);
    hide Disciplined, PhaseOk, Ahead, HeadOk, Owner, Publisher, Counted;
    if s.g[p].joined {
      JoinedAfterAll(s, p, Owner(Result(api)));
    }
  }

  /** A step of the phase that makes the request. */
  lemma OwnStepAsked(s: State, t: State, p: Phase, choice: bool, api: Api)
    requires Frame(s, t, p, choice) && PhaseOk(s, p) && api != Other && p == Owner(Result(api)) && Asked(s, api)
    requires s.g[p].rest[0] == Write(Result(api)) ==> Ask(api) !in s.g[p].rest[1..]
    requires s.g[p].rest[0] == Close(Publisher(Result(api)).value) ==> Ask(api) !in s.g[p].rest[1..]
    requires t.samples == s.samples && s.skipped <= t.skipped && s.unanswered <= t.unanswered
    requires s.g[p].rest[0].Ask? && s.g[p].request == Sent ==> s.g[p].rest[0].api in t.unanswered
    requires s.g[p].rest[0].MayLeave? && choice ==> Passed(s.g[p].rest[1..], s.g[p].rest[0].skip) <= t.skipped
    ensures Asked(t, api)
  {
    hide Disciplined;
    HowAsksGo(s.g[p], choice, api);
    hide Moved, Passed, Owner, Publisher, Result, SampleOf;
  }

  /** A step of any other. */
  lemma OtherStepAsked(s: State, t: State, p: Phase, choice: bool, api: Api)
    requires Frame(s, t, p, choice) && api != Other && p != Owner(Result(api)) && Asked(s, api)
    requires s.g[p].rest[0] == Write(Result(api)) ==> s.g[Owner(Result(api))].rest == []
    requires s.g[p].rest[0] != Close(Publisher(Result(api)).value)
    requires t.samples == s.samples && s.skipped <= t.skipped && s.unanswered <= t.unanswered
    ensures Asked(t, api)
  {
    hide Moved, Passed, Owner, Publisher, Result, SampleOf;
  }

  lemma StepAsked(s: State, p: Phase, choice: bool, api: Api)
    requires Safe(s) && s.g[p].rest != [] && Ready(s, p) && api != Other && Asked(s, api)
    ensures Running(StepOf(s, p, choice)) && Asked(StepOf(s, p, choice), api)
  {
    assert PhaseOk(s, p);
    var t := StepOf(s, p, choice);
    StepFrame(s, p, choice);
    StepMarksRequests(s, p, choice);
    OwnerWritesLast(s, p, api);
    hide Moved, Passed, StepOf, Ready, PhaseOk, Asked, Ahead;
    if p == Owner(Result(api)) {
      OwnStepAsked(s, t, p, choice, api);
    } else {
      OtherStepAsked(s, t, p, choice, api);
    }
  }

  lemma NextAsked(s: State, e: Event, api: Api)
    requires Safe(s) && Enabled(s, e) && api != Other && Asked(s, api)
    ensures Running(Next(s, e)) && Asked(Next(s, e), api)
  {
    hide Asked, StepOf, PhaseOk, Ahead;
    if e.Step? {
      StepAsked(s, e.p, e.choice, api);
    } else {
      OutsideAsked(s, e, api);
    }
  }

  /** An answer is a sample. */
  lemma OutsideAsked(s: State, e: Event, api: Api)
    requires Running(s) && Enabled(s, e) && !e.Step? && api != Other && Asked(s, api)
    ensures Running(Next(s, e)) && Asked(Next(s, e), api)
  {
    hide MayAnswer;
  }

  lemma {:induction false} RunsAsked(s: State, es: seq<Event>, t: State, api: Api)
    requires Safe(s) && Runs(s, es, t) && api != Other && Asked(s, api)
    ensures Running(t) && Asked(t, api)
    decreases |es|
  {
    hide Next, Enabled, Safe, Asked;
    assert Running(s) by { SafeRunning(s); }
    if es != [] {
      NextSafe(s, es[0]);
      NextAsked(s, es[0], api);
      RunsAsked(Next(s, es[0]), es[1..], t, api);
    }
  }

  /** In every reachable state, cancelled or not: once a result is written or its
      channel closed, each request it rests on has its answer among the samples,
      unless an early return or an option passed it over or it came back without
      one. */
  lemma SamplesTaken(s: State, api: Api)
    requires Reachable(s) && api != Other
    requires Result(api) in s.written || Publisher(Result(api)).value in s.closed
    ensures SampleOf(s.samples, api).Some? || api in s.skipped || api in s.unanswered
  {
    var s0, n, es :| Initial(s0, n) && Runs(s0, es, s);
    InitialAsked(s0, n, api);
    InitialSafe(s0, n);
    RunsAsked(s0, es, s, api);
  }
}
