/** What the sampling order buys: the offset inequalities of one batch, against
    a log that grows while the cycle runs. */
module PhaseOffsets {
  import opened Wrappers
  import opened PhaseGraph
  import opened PhaseSafety
  import opened PhaseTheorems

  predicate AtMost(a: Option<nat>, bound: nat) {
    a.Some? ==> a.value <= bound
  }

  /** Watermarks only advance, so no sample is above what the log has now. */
  predicate Bounded(l: Log, m: Samples) {
    && LogOk(l)
    && AtMost(m.committed, if l.careful then l.stable else l.high)
    && AtMost(m.window, l.high)
    && AtMost(m.start, l.high)
    && AtMost(m.stable, l.stable)
    && AtMost(m.end, l.high)
  }

  /** The orders among the samples; waited says that no wait was given up. */
  predicate InOrder(m: Samples, careful: bool, waited: bool) {
    && (m.end.Some? ==> AtMost(m.start, m.end.value) && AtMost(m.stable, m.end.value))
    && (m.end.Some? && waited ==> AtMost(m.committed, m.end.value) && AtMost(m.window, m.end.value))
    && (m.stable.Some? && waited && careful ==> AtMost(m.committed, m.stable.value))
  }

  /** Once a ceiling was sampled, the waits are over and the earlier requests of
      the topics phase are behind it. */
  ghost predicate CeilingsLate(s: State)
    requires Running(s)
  {
    var g := s.g[TopicsPhase];
    && (s.samples.end.Some? || s.samples.stable.Some? ==> {CommittedDone, WindowDone} <= g.passed)
    && (s.samples.end.Some? ==> Ask(StartOffsets) !in g.rest && Ask(LastStable) !in g.rest)
  }

  ghost predicate OffsetsOk(s: State) {
    && Safe(s)
    && Bounded(s.log, s.samples)
    && InOrder(s.samples, s.log.careful, !s.escaped)
    && CeilingsLate(s)
    && (s.escaped ==> s.cancelled)
  }

  lemma InitialOffsets(s: State, n: nat)
    requires Initial(s, n)
    ensures OffsetsOk(s)
  {
    InitialSafe(s, n);
    hide Safe;
  }

  /** Requests only fall behind. */
  lemma AsksFallBehind(p: Phase, g: Goroutine, choice: bool, api: Api)
    requires g.rest != [] && api != Other
    ensures Ask(api) in Moved(g, choice).rest ==> Ask(api) in g.rest
    ensures g.passed <= Moved(g, choice).passed
  {
    var tail := g.rest[1..];
    assert forall op :: op in tail ==> op in g.rest;
    if g.rest[0].MayLeave? && g.rest[0].skip <= |tail| {
      assert forall op :: op in tail[g.rest[0].skip..] ==> op in tail;
    }
  }

  lemma StepOffsets(s: State, p: Phase, choice: bool)
    requires OffsetsOk(s) && s.g[p].rest != [] && Ready(s, p)
    ensures OffsetsOk(StepOf(s, p, choice))
  {
    var t := StepOf(s, p, choice);
    StepSafe(s, p, choice);
    StepFrame(s, p, choice);
    AsksFallBehind(p, s.g[p], choice, StartOffsets);
    AsksFallBehind(p, s.g[p], choice, LastStable);
    StepLeavesSamples(s, p, choice);
    hide Safe, Moved, StepOf, Bounded;
  }

  lemma StepLeavesSamples(s: State, p: Phase, choice: bool)
    requires p in s.g && s.g[p].rest != [] && Ready(s, p)
    ensures var t := StepOf(s, p, choice);
            && t.log == s.log && t.samples == s.samples && t.cancelled == s.cancelled
            && (t.escaped ==> s.escaped || s.cancelled)
  {
    hide Moved;
  }

  /** An answer comes when the discipline lets it: a sample that must precede the
      ceilings cannot come after one, unless a wait was given up. */
  lemma EarlySampleInTime(s: State, p: Phase)
    requires OffsetsOk(s) && s.g[p].rest != [] && s.g[p].rest[0].Ask?
    ensures s.g[p].rest[0].api in {FetchOffsets, OffsetsAfterMilli} && !s.escaped ==>
      s.samples.end.None? && s.samples.stable.None?
  {
    assert PhaseOk(s, p) && PhaseOk(s, TopicsPhase);
    HeadMeaning(p, s.g[p]);
    hide Disciplined, Bounded, InOrder, Running;
    assert forall op :: op in s.g[p].rest[1..] ==> op in s.g[p].rest;
    assert CommittedDone in s.closed ==> Close(CommittedDone) !in s.g[Opener(CommittedDone)].rest;
    assert WindowDone in s.closed ==> Close(WindowDone) !in s.g[Opener(WindowDone)].rest;
  }

  /** The topics phase samples in its order, the ceilings after both waits. */
  lemma LateSampleInTime(s: State, p: Phase)
    requires OffsetsOk(s) && s.g[p].rest != [] && s.g[p].rest[0].Ask?
    ensures match s.g[p].rest[0].api
            case StartOffsets => s.samples.end.None?
            case LastStable => p == TopicsPhase && s.samples.end.None? && {CommittedDone, WindowDone} <= s.g[p].passed
            case EndOffsets =>
              p == TopicsPhase && {CommittedDone, WindowDone} <= s.g[p].passed
              && Ask(StartOffsets) !in s.g[p].rest && Ask(LastStable) !in s.g[p].rest
            case _ => true
  {
    assert PhaseOk(s, p);
    HeadMeaning(p, s.g[p]);
    hide Disciplined, Bounded, InOrder, Ahead, PhaseOk;
    var g := s.g[p];
    assert g.rest == [g.rest[0]] + g.rest[1..];
  }

  lemma ServeOffsets(s: State, p: Phase, offset: nat)
    requires OffsetsOk(s) && Enabled(s, Serve(p, offset))
    ensures OffsetsOk(Next(s, Serve(p, offset)))
  {
    EarlySampleInTime(s, p);
    LateSampleInTime(s, p);
    OutsideSafe(s, Serve(p, offset));
    hide Safe;
  }

  lemma NextOffsets(s: State, e: Event)
    requires OffsetsOk(s) && Enabled(s, e)
    ensures OffsetsOk(Next(s, e))
  {
    match e
    case Step(p, choice) => StepOffsets(s, p, choice);
    case Serve(p, offset) => ServeOffsets(s, p, offset);
    case _ =>
      OutsideSafe(s, e);
      hide Safe;
  }

  lemma {:induction false} RunsOffsets(s: State, es: seq<Event>, t: State)
    requires OffsetsOk(s) && Runs(s, es, t)
    ensures OffsetsOk(t)
    decreases |es|
  {
    hide Next, Enabled, Safe, Bounded, InOrder;
    assert Running(s) by { SafeRunning(s); }
    if es != [] {
      NextOffsets(s, es[0]);
      RunsOffsets(Next(s, es[0]), es[1..], t);
    }
  }

  /** In every reachable state, while no wait has been given up on cancellation:
      the committed, window and last stable offsets, as far as they were
      sampled, are no more than the high watermark of the batch, and a group
      that commits only below the last stable offset has its commit no more than
      the last stable offset of the batch. The log start and the last stable
      offset are no more than the high watermark even after one. Without a
      cancellation no wait is given up. */
  lemma OffsetOrder(s: State)
    requires Reachable(s)
    ensures s.escaped ==> s.cancelled
    ensures InOrder(s.samples, s.log.careful, !s.escaped)
  {
    var s0, n, es :| Initial(s0, n) && Runs(s0, es, s);
    InitialOffsets(s0, n);
    RunsOffsets(s0, es, s);
  }
}
