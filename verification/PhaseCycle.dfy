/** One cycle in which nothing goes wrong, from the start to the caller's return:
    every wait is heard, every request answered, and all five samples are in. */
module PhaseCycle {
  import opened Wrappers
  import opened PhaseGraph
  import opened PhaseSafety
  import opened PhaseTheorems
  import opened PhaseOffsets
  import opened PhaseEscape

  /** The rest of a goroutine that waits only for what is closed and asks for
      nothing that matters. */
  lemma Whole(s: State, p: Phase) returns (t: State)
    requires Reachable(s) && Running(s)
    requires forall i :: 0 <= i < |s.g[p].rest| ==> Plainly(s.g[p].rest[i], s.closed)
    ensures Reachable(t) && OnlyMoved(s, t, p)
    ensures t.g[p].rest == [] && t.g[p].joined == s.g[p].joined
    ensures forall i :: 0 <= i < |s.g[p].rest| && s.g[p].rest[i].Close? ==> s.g[p].rest[i].c in t.closed
    ensures forall i :: 0 <= i < |s.g[p].rest| && s.g[p].rest[i].Done? ==> p in t.finished
  {
    t := Stretch(s, p, |s.g[p].rest|);
  }

  /** A request is sent, answered at once and returned. */
  lemma AskAnswered(s: State, p: Phase, api: Api, offset: nat) returns (t: State)
    requires Reachable(s) && Running(s) && At(s, p, Ask(api)) && s.g[p].request == Idle && MayAnswer(s.log, api, offset)
    ensures Reachable(t) && Running(t)
    ensures t.g[p].rest == s.g[p].rest[1..] && t.g[p].request == Idle
    ensures forall q: Phase :: q != p ==> t.g[q] == s.g[q]
    ensures s.closed <= t.closed && s.finished <= t.finished && t.log == s.log && t.cancelled == s.cancelled
    ensures t.samples == Noted(s.samples, api, offset)
  {
    hide Reachable, MayAnswer, Noted;
    var u := GoAsk(s, p, api);
    Extend(u, Serve(p, offset));
    var v := Next(u, Serve(p, offset));
    t := Go(v, p, false);
  }

  lemma GoHeard(s: State, p: Phase, c: Chan) returns (t: State)
    requires Reachable(s) && Running(s) && At(s, p, AwaitOrCancel(c)) && c in s.closed
    ensures Reachable(t) && OnlyMoved(s, t, p) && t.g[p].request == s.g[p].request
    ensures t.g[p].rest == s.g[p].rest[1..]
  {
    t := Go(s, p, false);
  }

  lemma GoCalls(s: State, p: Phase, n: nat) returns (t: State)
    requires Reachable(s) && Running(s) && At(s, p, Calls(n))
    ensures Reachable(t) && OnlyMoved(s, t, p) && t.g[p].request == s.g[p].request
    ensures t.g[p].rest == s.g[p].rest[1..]
  {
    t := Go(s, p, false);
  }

  /** What every stage of the cycle leaves alone. */
  ghost predicate Going(s: State) {
    Reachable(s) && Running(s) && s.log == Log(0, 0, 0, false) && !s.cancelled
  }

  /** The two phases that wait for nothing. */
  lemma SourcePrograms(closed: set<Chan>)
    ensures forall i :: 0 <= i < |Program(ClusterPhase, 0)| ==> Plainly(Program(ClusterPhase, 0)[i], closed)
    ensures forall i :: 0 <= i < |Program(Listing, 0)| ==> Plainly(Program(Listing, 0)[i], closed)
    ensures |Program(ClusterPhase, 0)| == 5 && Program(ClusterPhase, 0)[3] == Close(MetaDone) && Program(ClusterPhase, 0)[4] == Done
    ensures |Program(Listing, 0)| == 6 && Program(Listing, 0)[5] == Close(GroupsListed)
  {
  }

  lemma StartEmpty()
    ensures Start().log == Log(0, 0, 0, false) && !Start().cancelled && Start().closed == {}
    ensures Start().samples == Samples(None, None, None, None, None)
  {
  }

  lemma Listed() returns (t: State)
    ensures Going(t) && t.samples == Samples(None, None, None, None, None)
    ensures MetaDone in t.closed && GroupsListed in t.closed && ClusterPhase in t.finished
    ensures t.g[Listing].rest == [] && t.g[ClusterPhase].rest == []
    ensures forall p :: p != ClusterPhase && p != Listing ==> t.g[p] == Launched(p, 0)
  {
    StartReachable();
    StartEmpty();
    SourcePrograms({});
    hide Reachable, Runs, Program, Plainly, Start;
    var s := Whole(Start(), ClusterPhase);
    assert Program(ClusterPhase, 0)[3].Close?;
    SourcePrograms(s.closed);
    t := Whole(s, Listing);
  }

  /** What such a phase does after its waits and reads. */
  function SampleEnd(api: Api, v: Var, c: Chan): seq<Op> {
    [MayLeave(1), Ask(api), Write(v), Close(c), Done]
  }

  predicate SamplesFor(p: Phase, api: Api, v: Var, c: Chan, waits: nat) {
    || (p == CommittedPhase && api == FetchOffsets && v == Offsets && c == CommittedDone && waits == 5)
    || (p == WindowPhase && api == OffsetsAfterMilli && v == Window && c == WindowDone && waits == 2)
  }

  lemma SampleProgram(p: Phase, api: Api, v: Var, c: Chan, waits: nat, closed: set<Chan>)
    requires SamplesFor(p, api, v, c, waits) && {MetaDone, GroupsListed} <= closed
    ensures |Program(p, 0)| == waits + 5 && Program(p, 0)[waits..] == SampleEnd(api, v, c)
    ensures forall i :: 0 <= i < waits ==> Plainly(Program(p, 0)[i], closed)
  {
  }

  lemma BeforeSample(s: State, p: Phase, api: Api, v: Var, c: Chan, waits: nat) returns (t: State)
    requires Going(s) && {MetaDone, GroupsListed} <= s.closed && s.g[p] == Launched(p, 0)
    requires SamplesFor(p, api, v, c, waits)
    ensures Going(t) && OnlyMoved(s, t, p) && t.g[p].request == Idle
    ensures t.g[p].rest == [Ask(api), Write(v), Close(c), Done]
  {
    SampleProgram(p, api, v, c, waits, s.closed);
    hide Reachable, Moved, Program, SamplesFor;
    var u := Stretch(s, p, waits);
    t := GoPast(u, p, 1, false);
  }

  lemma EndPlain(v: Var, c: Chan, closed: set<Chan>)
    ensures var ops := [Write(v), Close(c), Done]; forall i :: 0 <= i < |ops| ==> Plainly(ops[i], closed)
  {
  }

  lemma Ended(s: State, p: Phase, v: Var, c: Chan) returns (t: State)
    requires Going(s) && s.g[p].rest == [Write(v), Close(c), Done]
    ensures Going(t) && OnlyMoved(s, t, p) && t.g[p].rest == [] && c in t.closed && p in t.finished
  {
    EndPlain(v, c, s.closed);
    hide Reachable, Plainly;
    t := Whole(s, p);
    assert s.g[p].rest[1] == Close(c) && s.g[p].rest[2] == Done;
  }

  /** An empty log answers zero. */
  lemma AnswersZero(api: Api, l: Log)
    requires l == Log(0, 0, 0, false)
    ensures MayAnswer(l, api, 0)
  {
  }

  lemma AskedFirst(s: State, p: Phase, api: Api, tail: seq<Op>) returns (t: State)
    requires Going(s) && s.g[p].request == Idle && s.g[p].rest == [Ask(api)] + tail
    ensures Going(t) && (forall q: Phase :: q != p ==> t.g[q] == s.g[q]) && t.g[p].rest == tail
    ensures s.closed <= t.closed && s.finished <= t.finished
    ensures t.samples == Noted(s.samples, api, 0)
  {
    AnswersZero(api, s.log);
    hide Reachable, Noted, MayAnswer;
    t := AskAnswered(s, p, api, 0);
    assert s.g[p].rest[1..] == tail;
  }

  lemma SampleAndEnd(s: State, p: Phase, api: Api, v: Var, c: Chan) returns (t: State)
    requires Going(s) && s.g[p].request == Idle && s.g[p].rest == [Ask(api), Write(v), Close(c), Done]
    ensures Going(t) && (forall q: Phase :: q != p ==> t.g[q] == s.g[q]) && t.g[p].rest == []
    ensures s.closed <= t.closed && s.finished <= t.finished
    ensures c in t.closed && p in t.finished
    ensures t.samples == Noted(s.samples, api, 0)
  {
    assert s.g[p].rest == [Ask(api)] + [Write(v), Close(c), Done];
    hide Reachable, Noted;
    var u := AskedFirst(s, p, api, [Write(v), Close(c), Done]);
    t := Ended(u, p, v, c);
  }

  /** A phase whose sample must precede the ceilings, run to its end. */
  lemma Sampled(s: State, p: Phase, api: Api, v: Var, c: Chan, waits: nat) returns (t: State)
    requires Going(s) && {MetaDone, GroupsListed} <= s.closed && s.g[p] == Launched(p, 0)
    requires SamplesFor(p, api, v, c, waits)
    ensures Going(t) && (forall q: Phase :: q != p ==> t.g[q] == s.g[q]) && t.g[p].rest == []
    ensures s.closed <= t.closed && s.finished <= t.finished
    ensures c in t.closed && p in t.finished
    ensures t.samples == Noted(s.samples, api, 0)
  {
    hide Reachable, Launched, SamplesFor, Noted;
    var u := BeforeSample(s, p, api, v, c, waits);
    t := SampleAndEnd(u, p, api, v, c);
  }

  const AFTER_STARTS: seq<Op> :=
    [AwaitOrCancel(CommittedDone), AwaitOrCancel(WindowDone), MayLeave(1), Ask(LastStable), Ask(EndOffsets),
     Calls(3), Write(Topics), Close(EndDone), Done]

  lemma StartsAsked(s: State) returns (t: State)
    requires Going(s) && MetaDone in s.closed && s.g[TopicsPhase] == Launched(TopicsPhase, 0)
    ensures Going(t) && (forall q: Phase :: q != TopicsPhase ==> t.g[q] == s.g[q])
    ensures s.closed <= t.closed && s.finished <= t.finished && t.samples == s.samples
    ensures t.g[TopicsPhase].request == Idle && t.g[TopicsPhase].rest == [Ask(StartOffsets)] + AFTER_STARTS
  {
    hide Reachable, Moved;
    var p := TopicsPhase;
    var u := Stretch(s, p, 2);
    assert u.g[p].rest == [MayLeave(7)] + ([Ask(StartOffsets)] + AFTER_STARTS);
    t := GoPast(u, p, 7, false);
  }

  /** The topics phase up to its ceilings. */
  lemma StartsSampled(s: State) returns (t: State)
    requires Going(s) && {CommittedDone, WindowDone} <= s.closed
    requires s.g[TopicsPhase].request == Idle && s.g[TopicsPhase].rest == [Ask(StartOffsets)] + AFTER_STARTS
    ensures Going(t) && (forall q: Phase :: q != TopicsPhase ==> t.g[q] == s.g[q])
    ensures s.closed <= t.closed && s.finished <= t.finished
    ensures t.g[TopicsPhase].request == Idle && t.samples == s.samples.(start := Some(0))
    ensures t.g[TopicsPhase].rest == [Ask(LastStable), Ask(EndOffsets), Calls(3), Write(Topics), Close(EndDone), Done]
  {
    hide Reachable, Moved;
    var p := TopicsPhase;
    var u := AskAnswered(s, p, StartOffsets, 0);
    assert u.g[p].rest == AFTER_STARTS;
    u := GoHeard(u, p, CommittedDone);
    u := GoHeard(u, p, WindowDone);
    assert u.g[p].rest == AFTER_STARTS[2..];
    t := GoPast(u, p, 1, false);
  }

  lemma CeilingsSampled(s: State) returns (t: State)
    requires Going(s) && s.g[TopicsPhase].request == Idle
    requires s.g[TopicsPhase].rest == [Ask(LastStable), Ask(EndOffsets), Calls(3), Write(Topics), Close(EndDone), Done]
    ensures Going(t) && (forall q: Phase :: q != TopicsPhase ==> t.g[q] == s.g[q]) && t.g[TopicsPhase].rest == []
    ensures s.closed <= t.closed && s.finished <= t.finished
    ensures EndDone in t.closed && TopicsPhase in t.finished
    ensures t.samples == s.samples.(stable := Some(0), end := Some(0))
  {
    hide Reachable, Moved;
    var p := TopicsPhase;
    var u := AskAnswered(s, p, LastStable, 0);
    u := AskAnswered(u, p, EndOffsets, 0);
    u := GoCalls(u, p, 3);
    assert u.g[p].rest == [Write(Topics), Close(EndDone), Done];
    t := Whole(u, p);
    assert u.g[p].rest[1] == Close(EndDone) && u.g[p].rest[2] == Done;
  }

  /** The phases that sample nothing, once all channels are closed. */
  predicate Worker(p: Phase) {
    Counted(p) && p != ClusterPhase && p != CommittedPhase && p != WindowPhase && p != TopicsPhase
  }

  lemma WorkerPlain(p: Phase, closed: set<Chan>)
    requires Worker(p) && {MetaDone, GroupsListed, CommittedDone, EndDone} <= closed
    ensures forall i :: 0 <= i < |Program(p, 0)| ==> Plainly(Program(p, 0)[i], closed)
    ensures |Program(p, 0)| > 0 && Program(p, 0)[|Program(p, 0)| - 1] == Done
  {
  }

  lemma {:induction false} Workers(s: State, ps: seq<Phase>) returns (t: State)
    requires Going(s) && {MetaDone, GroupsListed, CommittedDone, EndDone} <= s.closed
    requires forall p :: p in ps ==> Worker(p) && s.g[p] == Launched(p, 0)
    requires forall i, j :: 0 <= i < j < |ps| ==> ps[i] != ps[j]
    ensures Going(t) && t.samples == s.samples && s.closed <= t.closed && s.finished <= t.finished
    ensures forall p :: p in ps ==> p in t.finished && t.g[p].rest == []
    ensures forall p: Phase :: p !in ps ==> t.g[p] == s.g[p]
    decreases |ps|
  {
    hide Reachable, Program;
    if ps == [] {
      t := s;
    } else {
      var p := ps[0];
      assert p in ps;
      WorkerPlain(p, s.closed);
      var u := Whole(s, p);
      assert s.g[p].rest[|s.g[p].rest| - 1].Done?;
      t := Workers(u, ps[1..]);
    }
  }

  /** With everybody done, the caller goes on and reads the results. */
  lemma CallerDone(s: State) returns (t: State)
    requires Going(s) && s.g[Caller] == Launched(Caller, 0)
    requires forall p :: Counted(p) ==> p in s.finished
    ensures Going(t) && t.samples == s.samples && t.g[Caller].joined && t.g[Caller].rest == []
    ensures forall p: Phase :: p != Caller ==> t.g[p] == s.g[p]
  {
    CallerMayGo(s);
    hide Reachable, Counted, Program;
    assert Program(Caller, 0)[0] == WaitAll by { CallerWaits(); }
    var u := Go(s, Caller, false);
    t := CallerReads(u);
  }

  lemma CallerWaits()
    ensures |Program(Caller, 0)| > 0 && Program(Caller, 0)[0] == WaitAll
  {
  }

  lemma CallerMayGo(s: State)
    requires Reachable(s) && forall p :: Counted(p) ==> p in s.finished
    ensures |s.finished| == WAITED
  {
    ReachableSafe(s);
    hide Reachable, PhaseOk;
    AllCounted(s.finished);
  }

  lemma CallerReads(s: State) returns (t: State)
    requires Going(s) && s.g[Caller].rest == Program(Caller, 0)[1..] && s.g[Caller].joined
    ensures Going(t) && t.samples == s.samples && t.g[Caller].joined && t.g[Caller].rest == []
    ensures forall p: Phase :: p != Caller ==> t.g[p] == s.g[p]
  {
    hide Reachable;
    ReadsPlain(s.closed);
    t := Whole(s, Caller);
  }

  lemma ReadsPlain(closed: set<Chan>)
    ensures forall i :: 0 <= i < |Program(Caller, 0)[1..]| ==> Plainly(Program(Caller, 0)[1..][i], closed)
  {
  }

  const WORKERS: seq<Phase> :=
    [GroupsPhase, SharePhase, LogDirsPhase, TopicConfigPhase, BrokerConfigPhase, ReassignPhase, EpochPhase]

  lemma WorkersListed()
    ensures forall p :: p in WORKERS <==> Worker(p)
    ensures forall i, j :: 0 <= i < j < |WORKERS| ==> WORKERS[i] != WORKERS[j]
  {
    forall p | Worker(p) ensures p in WORKERS {
      match p
      case GroupsPhase => assert WORKERS[0] == p;
      case SharePhase => assert WORKERS[1] == p;
      case LogDirsPhase => assert WORKERS[2] == p;
      case TopicConfigPhase => assert WORKERS[3] == p;
      case BrokerConfigPhase => assert WORKERS[4] == p;
      case ReassignPhase => assert WORKERS[5] == p;
      case EpochPhase => assert WORKERS[6] == p;
    }
  }

  /** The metadata, the listing and the two earlier samples are in. */
  lemma EarlySampled() returns (t: State)
    ensures Going(t) && t.samples == Samples(Some(0), Some(0), None, None, None)
    ensures {MetaDone, GroupsListed, CommittedDone, WindowDone} <= t.closed
    ensures {ClusterPhase, CommittedPhase, WindowPhase} <= t.finished
    ensures forall p :: p in {ClusterPhase, Listing, CommittedPhase, WindowPhase} ==> t.g[p].rest == []
    ensures forall p :: p !in {ClusterPhase, Listing, CommittedPhase, WindowPhase} ==> t.g[p] == Launched(p, 0)
  {
    hide Reachable, Runs, Launched, Program;
    var s := Listed();
    var u := Sampled(s, CommittedPhase, FetchOffsets, Offsets, CommittedDone, 5);
    t := Sampled(u, WindowPhase, OffsetsAfterMilli, Window, WindowDone, 2);
  }

  /** The four phases the others wait for, run to their ends. */
  lemma SourcesDone() returns (t: State)
    ensures Going(t) && t.samples == Samples(Some(0), Some(0), Some(0), Some(0), Some(0))
    ensures {MetaDone, GroupsListed, CommittedDone, EndDone} <= t.closed
    ensures forall p :: Worker(p) || p == Caller ==> t.g[p] == Launched(p, 0)
    ensures forall p :: !Worker(p) && p != Caller ==> t.g[p].rest == [] && (Counted(p) ==> p in t.finished)
  {
    hide Reachable, Runs, Launched, Program;
    var s := EarlySampled();
    s := StartsAsked(s);
    s := StartsSampled(s);
    t := CeilingsSampled(s);
  }

  /** A run of the phase graph without a cancellation that ends with every
      goroutine done, the caller past the wait group with nothing left to do, and
      all five samples taken. */
  lemma CycleCompletes() returns (t: State)
    ensures Reachable(t) && Running(t) && !t.cancelled && !t.escaped
    ensures forall p: Phase :: t.g[p].rest == []
    ensures t.g[Caller].joined
    ensures t.samples.committed.Some? && t.samples.window.Some? && t.samples.start.Some?
    ensures t.samples.stable.Some? && t.samples.end.Some?
  {
    hide Reachable, Launched, Program, Runs;
    var s := SourcesDone();
    WorkersListed();
    assert !Worker(Caller);
    hide Worker, WORKERS;
    s := Workers(s, WORKERS);
    assert forall p :: Counted(p) && !Worker(p) ==> p in s.finished;
    t := CallerDone(s);
    OffsetOrder(t);
  }
}
