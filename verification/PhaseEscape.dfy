/** Why the order of the samples is promised only while no wait is given up: a
    run whose batch has a commit above its high watermark. */
module PhaseEscape {
  import opened Wrappers
  import opened PhaseGraph
  import opened PhaseSafety
  import opened PhaseTheorems
  import opened PhaseOffsets

  lemma {:induction false} RunsOneMore(s: State, es: seq<Event>, t: State, e: Event)
    requires Runs(s, es, t) && Running(t) && Enabled(t, e)
    ensures Runs(s, es + [e], Next(t, e))
    decreases |es|
  {
    hide Enabled, Next, Running;
    if es == [] {
      assert es + [e] == [e];
      assert Runs(Next(t, e), [e][1..], Next(t, e));
    } else {
      assert (es + [e])[1..] == es[1..] + [e];
      RunsOneMore(Next(s, es[0]), es[1..], t, e);
    }
  }

  lemma Extend(s: State, e: Event)
    requires Reachable(s) && Running(s) && Enabled(s, e)
    ensures Reachable(Next(s, e))
  {
    var s0, n, es :| Initial(s0, n) && Runs(s0, es, s);
    RunsOneMore(s0, es, s, e);
  }

  /** What a goroutine's steps leave alone. */
  ghost predicate OnlyMoved(s: State, t: State, p: Phase) {
    && Running(s) && Running(t)
    && (forall q: Phase :: q != p ==> t.g[q] == s.g[q])
    && s.closed <= t.closed && s.finished <= t.finished
    && t.log == s.log && t.samples == s.samples && t.cancelled == s.cancelled
  }

  lemma ExtendStep(s: State, p: Phase, choice: bool)
    requires Reachable(s) && Running(s) && s.g[p].rest != [] && Ready(s, p)
    ensures Reachable(StepOf(s, p, choice))
  {
    hide Reachable, Moved, Passed, StepOf;
    Extend(s, Step(p, choice));
  }

  lemma Go(s: State, p: Phase, choice: bool) returns (t: State)
    requires Reachable(s) && Running(s) && s.g[p].rest != [] && Ready(s, p)
    ensures Reachable(t) && OnlyMoved(s, t, p)
    ensures t.g[p] == Moved(s.g[p], choice)
    ensures s.g[p].rest[0].Close? ==> s.g[p].rest[0].c in t.closed
    ensures s.g[p].rest[0].Done? ==> p in t.finished
  {
    hide Reachable, Moved, Passed, Ready;
    t := StepOf(s, p, choice);
    ExtendStep(s, p, choice);
    StepFrame(s, p, choice);
    StepLeavesSamples(s, p, choice);
    hide StepOf;
  }

  /** An operation that takes one step and cannot wait, given what is closed. */
  predicate Plainly(op: Op, closed: set<Chan>) {
    op.Read? || op.Write? || op.Close? || op.Done? || op == Calls(0) || (op.Await? && op.c in closed)
  }

  lemma GoPlainly(s: State, p: Phase) returns (t: State)
    requires Reachable(s) && Running(s) && s.g[p].rest != [] && Plainly(s.g[p].rest[0], s.closed)
    ensures Reachable(t) && OnlyMoved(s, t, p)
    ensures t.g[p].rest == s.g[p].rest[1..] && t.g[p].request == s.g[p].request && t.g[p].joined == s.g[p].joined
    ensures s.g[p].rest[0].Close? ==> s.g[p].rest[0].c in t.closed
    ensures s.g[p].rest[0].Done? ==> p in t.finished
  {
    t := Go(s, p, false);
  }

  lemma {:induction false} Stretch(s: State, p: Phase, k: nat) returns (t: State)
    requires Reachable(s) && Running(s) && k <= |s.g[p].rest|
    requires forall i :: 0 <= i < k ==> Plainly(s.g[p].rest[i], s.closed)
    ensures Reachable(t) && OnlyMoved(s, t, p)
    ensures t.g[p].rest == s.g[p].rest[k..] && t.g[p].request == s.g[p].request && t.g[p].joined == s.g[p].joined
    ensures forall i :: 0 <= i < k && s.g[p].rest[i].Close? ==> s.g[p].rest[i].c in t.closed
    ensures forall i :: 0 <= i < k && s.g[p].rest[i].Done? ==> p in t.finished
    decreases k
  {
    hide Reachable;
    if k == 0 {
      t := s;
    } else {
      var u := Stretch(s, p, k - 1);
      assert Plainly(s.g[p].rest[k - 1], s.closed);
      assert u.g[p].rest[0] == s.g[p].rest[k - 1];
      t := GoPlainly(u, p);
      assert s.g[p].rest[k - 1..][1..] == s.g[p].rest[k..];
    }
  }

  lemma GoAsk(s: State, p: Phase, api: Api) returns (t: State)
    requires Reachable(s) && Running(s) && At(s, p, Ask(api)) && s.g[p].request == Idle
    ensures Reachable(t) && OnlyMoved(s, t, p)
    ensures t.g[p].rest == s.g[p].rest && t.g[p].request == Sent
  {
    t := Go(s, p, false);
  }

  lemma GoReturn(s: State, p: Phase, api: Api) returns (t: State)
    requires Reachable(s) && Running(s) && At(s, p, Ask(api)) && s.g[p].request == Sent
    ensures Reachable(t) && OnlyMoved(s, t, p)
    ensures t.g[p].rest == s.g[p].rest[1..] && t.g[p].request == Idle
  {
    t := Go(s, p, false);
  }

  lemma GoPast(s: State, p: Phase, n: nat, choice: bool) returns (t: State)
    requires Reachable(s) && Running(s) && At(s, p, MayLeave(n)) && n < |s.g[p].rest|
    ensures Reachable(t) && OnlyMoved(s, t, p) && t.g[p].request == s.g[p].request
    ensures t.g[p].rest == s.g[p].rest[if choice then n + 1 else 1..]
  {
    t := Go(s, p, choice);
    assert s.g[p].rest[1..][n..] == s.g[p].rest[n + 1..];
  }

  lemma GoGiveUp(s: State, p: Phase, c: Chan) returns (t: State)
    requires Reachable(s) && Running(s) && At(s, p, AwaitOrCancel(c)) && s.cancelled
    ensures Reachable(t) && OnlyMoved(s, t, p) && t.g[p].request == s.g[p].request
    ensures t.g[p].rest == s.g[p].rest[1..]
  {
    t := Go(s, p, false);
  }

  function Start(): State {
    State(map p: Phase | p in AllPhases() :: Launched(p, 0), {}, {}, {}, false, false, {}, {},
          Log(0, 0, 0, false), Samples(None, None, None, None, None))
  }

  lemma StartReachable()
    ensures Reachable(Start()) && Running(Start())
    ensures forall p: Phase :: Start().g[p] == Launched(p, 0)
  {
    hide AllPhases;
    forall p: Phase ensures p in Start().g {
      EveryPhaseListed(p);
    }
    assert Initial(Start(), 0);
    assert Runs(Start(), [], Start());
  }

  /** The cluster metadata and the group listing are in. */
  lemma SourcesIn() returns (t: State)
    ensures Reachable(t) && Running(t)
    ensures t.log == Start().log && t.samples == Start().samples
    ensures MetaDone in t.closed && GroupsListed in t.closed
    ensures forall p :: p != ClusterPhase && p != Listing ==> t.g[p] == Launched(p, 0)
  {
    StartReachable();
    hide Reachable, Runs, Start;
    var s := Stretch(Start(), ClusterPhase, 4);
    assert Program(ClusterPhase, 0)[3] == Close(MetaDone);
    assert s.g[Listing] == Launched(Listing, 0);
    t := Stretch(s, Listing, 6);
    assert Program(Listing, 0)[5] == Close(GroupsListed);
  }

  /** The topics phase has its log start offsets and waits for the earlier
      samples. */
  lemma StartsIn(s: State) returns (t: State)
    requires Reachable(s) && Running(s) && MetaDone in s.closed
    requires s.g[TopicsPhase] == Launched(TopicsPhase, 0)
    ensures Reachable(t) && OnlyMoved(s, t, TopicsPhase)
    ensures t.g[TopicsPhase].request == Idle
    ensures t.g[TopicsPhase].rest ==
      [AwaitOrCancel(CommittedDone), AwaitOrCancel(WindowDone), MayLeave(1), Ask(LastStable), Ask(EndOffsets),
       Calls(3), Write(Topics), Close(EndDone), Done]
  {
    hide Reachable, Moved;
    var p := TopicsPhase;
    t := Stretch(s, p, 2);
    t := GoPast(t, p, 7, false);
    t := GoAsk(t, p, StartOffsets);
    t := GoReturn(t, p, StartOffsets);
  }

  /** Cancelled, it gives both waits up, leaves the last stable offsets out and
      sends for the high watermarks. */
  lemma WaitsGivenUp(s: State) returns (t: State)
    requires Reachable(s) && Running(s) && s.cancelled && s.g[TopicsPhase].request == Idle
    requires s.g[TopicsPhase].rest ==
      [AwaitOrCancel(CommittedDone), AwaitOrCancel(WindowDone), MayLeave(1), Ask(LastStable), Ask(EndOffsets),
       Calls(3), Write(Topics), Close(EndDone), Done]
    ensures Reachable(t) && OnlyMoved(s, t, TopicsPhase)
    ensures t.g[TopicsPhase].request == Sent && At(t, TopicsPhase, Ask(EndOffsets))
  {
    hide Reachable, Moved;
    var p := TopicsPhase;
    t := GoGiveUp(s, p, CommittedDone);
    t := GoGiveUp(t, p, WindowDone);
    t := GoPast(t, p, 1, true);
    t := GoAsk(t, p, EndOffsets);
  }

  lemma EndSampled() returns (t: State)
    ensures Reachable(t) && Running(t)
    ensures t.log == Start().log && t.samples == Start().samples.(end := Some(0))
    ensures MetaDone in t.closed && GroupsListed in t.closed
    ensures t.g[CommittedPhase] == Launched(CommittedPhase, 0)
  {
    hide Reachable, Moved, Launched, Program;
    var s := SourcesIn();
    s := StartsIn(s);
    Extend(s, Cancel);
    s := Next(s, Cancel);
    s := WaitsGivenUp(s);
    Extend(s, Serve(TopicsPhase, 0));
    t := Next(s, Serve(TopicsPhase, 0));
  }

  lemma CommitAsked(s: State) returns (t: State)
    requires Reachable(s) && Running(s) && MetaDone in s.closed && GroupsListed in s.closed
    requires s.g[CommittedPhase] == Launched(CommittedPhase, 0)
    ensures Reachable(t) && OnlyMoved(s, t, CommittedPhase)
    ensures t.g[CommittedPhase].request == Sent && At(t, CommittedPhase, Ask(FetchOffsets))
  {
    hide Reachable, Moved;
    var p := CommittedPhase;
    t := Stretch(s, p, 5);
    t := GoPast(t, p, 1, false);
    t := GoAsk(t, p, FetchOffsets);
  }

  /** With the high watermark of an empty log sampled, a record arrives, the
      group commits it, and only now its commit is sampled. */
  lemma CancellationBreaksTheOrder() returns (t: State)
    ensures Reachable(t) && t.escaped
    ensures t.samples.end == Some(0) && t.samples.committed == Some(1)
  {
    var s := EndSampled();
    hide Moved, Launched, Program;
    s := CommitAsked(s);
    var grown := Log(1, 1, 1, false);
    Extend(s, Grow(grown));
    s := Next(s, Grow(grown));
    Extend(s, Serve(CommittedPhase, 1));
    t := Next(s, Serve(CommittedPhase, 1));
    OffsetOrder(t);
  }
}
