/** Every goroutine's program keeps to the discipline. */
module PhasePrograms {
  import opened PhaseGraph

  /** An access or a call that what was heard so far already allows. */
  predicate Plain(p: Phase, op: Op, heard: set<Chan>, joined: bool) {
    || (op.Read? && MayRead(p, op.v, heard, joined))
    || (op.Write? && MayWrite(p, op.v, joined))
    || op.Calls?
  }

  predicate NoAsk(ops: seq<Op>) {
    forall op :: op in ops ==> !op.Ask?
  }

  lemma {:induction false} PlainThen(p: Phase, ops: seq<Op>, rest: seq<Op>, heard: set<Chan>, passed: set<Chan>, joined: bool)
    requires forall op :: op in ops ==> Plain(p, op, heard, joined)
    requires forall op :: op in ops && op.Write? ==> NoAsk(rest)
    requires Disciplined(p, rest, heard, passed, joined)
    ensures Disciplined(p, ops + rest, heard, passed, joined)
  {
    if ops == [] {
      assert ops + rest == rest;
    } else {
      PlainThen(p, ops[1..], rest, heard, passed, joined);
      assert (ops + rest)[1..] == ops[1..] + rest;
      assert ops[0] in ops;
    }
  }

  lemma AwaitThen(p: Phase, c: Chan, rest: seq<Op>, heard: set<Chan>, passed: set<Chan>)
    requires Rank(Opener(c)) < Rank(p) && Disciplined(p, rest, heard + {c}, passed + {c}, false)
    ensures Disciplined(p, [Await(c)] + rest, heard, passed, false)
  {
    assert ([Await(c)] + rest)[1..] == rest;
  }

  lemma EscapeThen(p: Phase, c: Chan, rest: seq<Op>, heard: set<Chan>, passed: set<Chan>)
    requires Rank(Opener(c)) < Rank(p) && Disciplined(p, rest, heard, passed + {c}, false)
    ensures Disciplined(p, [AwaitOrCancel(c)] + rest, heard, passed, false)
  {
    assert ([AwaitOrCancel(c)] + rest)[1..] == rest;
  }

  lemma AskThen(p: Phase, api: Api, rest: seq<Op>, heard: set<Chan>, passed: set<Chan>)
    requires MayAsk(p, api, passed, rest) && Disciplined(p, rest, heard, passed, false)
    ensures Disciplined(p, [Ask(api)] + rest, heard, passed, false)
  {
    assert ([Ask(api)] + rest)[1..] == rest;
  }

  lemma LeaveThen(p: Phase, between: seq<Op>, rest: seq<Op>, heard: set<Chan>, passed: set<Chan>)
    requires forall op :: op in between ==> Skippable(op)
    requires Disciplined(p, between + rest, heard, passed, false) && Disciplined(p, rest, heard, passed, false)
    ensures Disciplined(p, [MayLeave(|between|)] + (between + rest), heard, passed, false)
  {
    var ops := [MayLeave(|between|)] + (between + rest);
    assert ops[1..] == between + rest && ops[1..][|between|..] == rest;
    forall i | 0 <= i < |between| ensures Skippable(ops[1..][i]) {
      assert ops[1..][i] == between[i] && between[i] in between;
    }
  }

  /** What a phase that publishes does last. */
  lemma PublishDisciplined(p: Phase, ops: seq<Op>, c: Chan, heard: set<Chan>, passed: set<Chan>)
    requires p == Opener(c) && Counted(p)
    requires forall op :: op in ops ==> Plain(p, op, heard, false)
    ensures Disciplined(p, ops + [Close(c), Done], heard, passed, false)
  {
    assert [Close(c), Done][1..] == [Done];
    assert [Done][1..] == [];
    assert Disciplined(p, [Done], heard, passed, false);
    assert Disciplined(p, [Close(c), Done], heard, passed, false);
    PlainThen(p, ops, [Close(c), Done], heard, passed, false);
  }

  lemma DoneDisciplined(p: Phase, ops: seq<Op>, heard: set<Chan>, passed: set<Chan>)
    requires Counted(p)
    requires forall op :: op in ops ==> Plain(p, op, heard, false)
    ensures Disciplined(p, ops + [Done], heard, passed, false)
  {
    assert [Done][1..] == [];
    PlainThen(p, ops, [Done], heard, passed, false);
  }

  /** A phase that hears two channels, works and finishes. */
  lemma WorkerDisciplined(p: Phase, a: Chan, b: Chan, ops: seq<Op>)
    requires Counted(p) && Rank(Opener(a)) < Rank(p) && Rank(Opener(b)) < Rank(p)
    requires forall op :: op in ops ==> Plain(p, op, {a, b}, false)
    ensures Disciplined(p, [Await(a), Await(b)] + ops + [Done], {}, {}, false)
  {
    hide Disciplined, Plain;
    DoneDisciplined(p, ops, {a, b}, {a, b});
    var tail := ops + [Done];
    assert {} + {a} + {b} == {a, b};
    AwaitThen(p, b, tail, {} + {a}, {} + {a});
    AwaitThen(p, a, [Await(b)] + tail, {}, {});
    assert [Await(a)] + ([Await(b)] + tail) == [Await(a), Await(b)] + ops + [Done];
  }

  lemma OneWaitDisciplined(p: Phase, a: Chan, ops: seq<Op>)
    requires Counted(p) && Rank(Opener(a)) < Rank(p)
    requires forall op :: op in ops ==> Plain(p, op, {a}, false)
    ensures Disciplined(p, [Await(a)] + ops + [Done], {}, {}, false)
  {
    hide Disciplined, Plain;
    DoneDisciplined(p, ops, {a}, {a});
    assert {} + {a} == {a};
    AwaitThen(p, a, ops + [Done], {}, {});
    assert [Await(a)] + (ops + [Done]) == [Await(a)] + ops + [Done];
  }

  /** The request of a phase whose sample must precede the ceilings. */
  lemma SampleDisciplined(p: Phase, api: Api, v: Var, c: Chan, heard: set<Chan>)
    requires (p == CommittedPhase && api == FetchOffsets && v == Offsets && c == CommittedDone)
          || (p == WindowPhase && api == OffsetsAfterMilli && v == Window && c == WindowDone)
    ensures Disciplined(p, [MayLeave(1)] + ([Ask(api)] + ([Write(v)] + [Close(c), Done])), heard, heard, false)
  {
    hide Disciplined;
    var end := [Write(v)] + [Close(c), Done];
    PublishDisciplined(p, [Write(v)], c, heard, heard);
    assert end[1] == Close(c);
    AskThen(p, api, end, heard, heard);
    LeaveThen(p, [Ask(api)], end, heard, heard);
  }

  lemma CommittedDisciplined(n: nat)
    ensures Disciplined(CommittedPhase, Program(CommittedPhase, n), {}, {}, false)
  {
    hide Disciplined;
    var p, h := CommittedPhase, {} + {MetaDone} + {GroupsListed};
    SampleDisciplined(p, FetchOffsets, Offsets, CommittedDone, h);
    var tail := [MayLeave(1)] + ([Ask(FetchOffsets)] + ([Write(Offsets)] + [Close(CommittedDone), Done]));
    var accesses := [Read(GroupIds), Read(ListErr), Read(TopicDetails)];
    PlainThen(p, accesses, tail, h, h, false);
    AwaitThen(p, GroupsListed, accesses + tail, {} + {MetaDone}, {} + {MetaDone});
    AwaitThen(p, MetaDone, [Await(GroupsListed)] + (accesses + tail), {}, {});
    assert [Await(MetaDone)] + ([Await(GroupsListed)] + (accesses + tail)) == Program(p, n);
  }

  lemma WindowDisciplined(n: nat)
    ensures Disciplined(WindowPhase, Program(WindowPhase, n), {}, {}, false)
  {
    hide Disciplined;
    var p, h := WindowPhase, {} + {MetaDone};
    SampleDisciplined(p, OffsetsAfterMilli, Window, WindowDone, h);
    var tail := [MayLeave(1)] + ([Ask(OffsetsAfterMilli)] + ([Write(Window)] + [Close(WindowDone), Done]));
    PlainThen(p, [Read(TopicDetails)], tail, h, h, false);
    AwaitThen(p, MetaDone, [Read(TopicDetails)] + tail, {}, {});
    assert [Await(MetaDone)] + ([Read(TopicDetails)] + tail) == Program(p, n);
  }

  const CEILINGS: seq<Op> := [Ask(LastStable), Ask(EndOffsets), Calls(3)]
  const TOPICS_END: seq<Op> := [Write(Topics), Close(EndDone), Done]

  lemma TopicsEndDisciplined(heard: set<Chan>, passed: set<Chan>)
    ensures Disciplined(TopicsPhase, TOPICS_END, heard, passed, false)
    ensures Disciplined(TopicsPhase, [Calls(3)] + TOPICS_END, heard, passed, false)
  {
    hide Disciplined;
    PublishDisciplined(TopicsPhase, [Write(Topics)], EndDone, heard, passed);
    PublishDisciplined(TopicsPhase, [Calls(3), Write(Topics)], EndDone, heard, passed);
    assert [Write(Topics)] + [Close(EndDone), Done] == TOPICS_END;
    assert [Calls(3), Write(Topics)] + [Close(EndDone), Done] == [Calls(3)] + TOPICS_END;
  }

  /** The topics phase after its two waits: the last stable offsets, if on, then
      the high watermarks. */
  lemma CeilingsDisciplined(heard: set<Chan>, passed: set<Chan>)
    requires {CommittedDone, WindowDone} <= passed
    ensures Disciplined(TopicsPhase, [MayLeave(1)] + (CEILINGS + TOPICS_END), heard, passed, false)
  {
    hide Disciplined;
    var p, end := TopicsPhase, [Calls(3)] + TOPICS_END;
    TopicsEndDisciplined(heard, passed);
    AskThen(p, EndOffsets, end, heard, passed);
    AskThen(p, LastStable, [Ask(EndOffsets)] + end, heard, passed);
    LeaveThen(p, [Ask(LastStable)], [Ask(EndOffsets)] + end, heard, passed);
    assert [Ask(LastStable)] + ([Ask(EndOffsets)] + end) == CEILINGS + TOPICS_END;
  }

  /** The topics phase from its start offsets on. */
  lemma WaitsDisciplined(h: set<Chan>)
    ensures Disciplined(TopicsPhase, [Ask(StartOffsets)] + ([AwaitOrCancel(CommittedDone)] + ([AwaitOrCancel(WindowDone)] + ([MayLeave(1)] + (CEILINGS + TOPICS_END)))), h, h, false)
  {
    hide Disciplined;
    var p, ceilings := TopicsPhase, [MayLeave(1)] + (CEILINGS + TOPICS_END);
    var passed := h + {CommittedDone};
    assert {CommittedDone, WindowDone} <= passed + {WindowDone};
    CeilingsDisciplined(h, passed + {WindowDone});
    EscapeThen(p, WindowDone, ceilings, h, passed);
    EscapeThen(p, CommittedDone, [AwaitOrCancel(WindowDone)] + ceilings, h, h);
    AskThen(p, StartOffsets, [AwaitOrCancel(CommittedDone)] + ([AwaitOrCancel(WindowDone)] + ceilings), h, h);
  }

  /** What an early return of the topics phase passes over. */
  const MIDDLE: seq<Op> := [Ask(StartOffsets), AwaitOrCancel(CommittedDone), AwaitOrCancel(WindowDone), MayLeave(1)] + CEILINGS

  lemma MiddleSkippable()
    ensures forall op :: op in MIDDLE ==> Skippable(op)
    ensures MIDDLE + TOPICS_END ==
      [Ask(StartOffsets)] + ([AwaitOrCancel(CommittedDone)] + ([AwaitOrCancel(WindowDone)] + ([MayLeave(1)] + (CEILINGS + TOPICS_END))))
  {
  }

  lemma TopicsDisciplined(n: nat)
    ensures Disciplined(TopicsPhase, Program(TopicsPhase, n), {}, {}, false)
  {
    hide Disciplined;
    var p, h := TopicsPhase, {} + {MetaDone};
    WaitsDisciplined(h);
    MiddleSkippable();
    hide MIDDLE;
    TopicsEndDisciplined(h, h);
    LeaveThen(p, MIDDLE, TOPICS_END, h, h);
    var leave := [MayLeave(|MIDDLE|)] + (MIDDLE + TOPICS_END);
    PlainThen(p, [Read(TopicDetails)], leave, h, h, false);
    AwaitThen(p, MetaDone, [Read(TopicDetails)] + leave, {}, {});
    TopicsProgram(n);
  }

  lemma TopicsProgram(n: nat)
    ensures [Await(MetaDone)] + ([Read(TopicDetails)] + ([MayLeave(|MIDDLE|)] + (MIDDLE + TOPICS_END))) == Program(TopicsPhase, n)
  {
    assert |MIDDLE| == 7;
  }

  lemma SourcesDisciplined(n: nat)
    ensures Disciplined(ClusterPhase, Program(ClusterPhase, n), {}, {}, false)
    ensures Disciplined(Listing, Program(Listing, n), {}, {}, false)
  {
    PublishDisciplined(ClusterPhase, [Calls(n), Write(Cluster), Write(TopicDetails)], MetaDone, {}, {});
    assert [Close(GroupsListed)][1..] == [];
    var listing := [Write(ListStart), Calls(n), Write(GroupIds), Write(GroupTypes), Write(ListErr)];
    PlainThen(Listing, listing, [Close(GroupsListed)], {}, {}, false);
    hide Disciplined;
    assert [Calls(n), Write(Cluster), Write(TopicDetails)] + [Close(MetaDone), Done] == Program(ClusterPhase, n);
    assert listing + [Close(GroupsListed)] == Program(Listing, n);
  }

  const FIRST_READS: seq<Op> := [Read(Window), Write(Topics), Read(Cluster), Read(Topics), Read(Groups), Read(Offsets)]
  const LAST_READS: seq<Op> :=
    [Read(LogDirs), Read(Reassignments), Read(Probes), Read(TopicConfigs), Read(BrokerConfigs), Read(ShareGroups)]

  lemma FirstReadsPlain()
    ensures forall op :: op in FIRST_READS ==> Plain(Caller, op, {}, true)
  {
  }

  lemma LastReadsPlain()
    ensures forall op :: op in LAST_READS ==> Plain(Caller, op, {}, true)
  {
  }

  lemma CallerDisciplined(n: nat)
    ensures Disciplined(Caller, Program(Caller, n), {}, {}, false)
  {
    hide Disciplined, Plain;
    FirstReadsPlain();
    LastReadsPlain();
    FinishedDisciplined(Caller, {}, {}, true);
    PlainThen(Caller, LAST_READS, [], {}, {}, true);
    PlainThen(Caller, FIRST_READS, LAST_READS + [], {}, {}, true);
    WaitThen(FIRST_READS + (LAST_READS + []));
    assert [WaitAll] + (FIRST_READS + (LAST_READS + [])) == Program(Caller, n);
  }

  lemma FinishedDisciplined(p: Phase, heard: set<Chan>, passed: set<Chan>, joined: bool)
    ensures Disciplined(p, [], heard, passed, joined)
  {
  }

  lemma WaitThen(rest: seq<Op>)
    requires Disciplined(Caller, rest, {}, {}, true)
    ensures Disciplined(Caller, [WaitAll] + rest, {}, {}, false)
  {
    assert ([WaitAll] + rest)[1..] == rest;
  }

  /** Every goroutine's program keeps to the discipline. */
  lemma ProgramDisciplined(p: Phase, n: nat)
    ensures Disciplined(p, Program(p, n), {}, {}, false)
  {
    hide Disciplined;
    match p
    case ClusterPhase | Listing => SourcesDisciplined(n);
    case CommittedPhase => CommittedDisciplined(n);
    case WindowPhase => WindowDisciplined(n);
    case TopicsPhase => TopicsDisciplined(n);
    case Caller => CallerDisciplined(n);
    case LogDirsPhase | BrokerConfigPhase | EpochPhase => WorkersDisciplined(p, n);
    case _ => OneWaitsDisciplined(p, n);
  }

  lemma OneWaitsDisciplined(p: Phase, n: nat)
    requires p in {GroupsPhase, SharePhase, TopicConfigPhase, ReassignPhase}
    ensures Disciplined(p, Program(p, n), {}, {}, false)
  {
    hide Disciplined;
    match p
    case GroupsPhase =>
      var ops := [Read(GroupIds), Read(GroupTypes), Read(ListErr), Read(ListStart), Calls(n), Write(Groups)];
      OneWaitDisciplined(p, GroupsListed, ops);
      assert [Await(GroupsListed)] + ops + [Done] == Program(p, n);
    case SharePhase =>
      var ops := [Read(GroupTypes), Calls(n), Write(ShareGroups)];
      OneWaitDisciplined(p, GroupsListed, ops);
      assert [Await(GroupsListed)] + ops + [Done] == Program(p, n);
    case TopicConfigPhase =>
      var ops := [Read(Topics), Calls(n), Write(TopicConfigs)];
      OneWaitDisciplined(p, EndDone, ops);
      assert [Await(EndDone)] + ops + [Done] == Program(p, n);
    case ReassignPhase =>
      var ops := [Read(Topics), Calls(n), Write(Reassignments)];
      OneWaitDisciplined(p, EndDone, ops);
      assert [Await(EndDone)] + ops + [Done] == Program(p, n);
  }

  lemma WorkersDisciplined(p: Phase, n: nat)
    requires p in {LogDirsPhase, BrokerConfigPhase, EpochPhase}
    ensures Disciplined(p, Program(p, n), {}, {}, false)
  {
    hide Disciplined;
    match p
    case LogDirsPhase =>
      var ops := [Read(Cluster), Read(TopicDetails), Calls(n), Write(LogDirs)];
      WorkerDisciplined(p, MetaDone, EndDone, ops);
      assert [Await(MetaDone), Await(EndDone)] + ops + [Done] == Program(p, n);
    case BrokerConfigPhase =>
      var ops := [Read(Cluster), Calls(n), Write(BrokerConfigs)];
      WorkerDisciplined(p, MetaDone, EndDone, ops);
      assert [Await(MetaDone), Await(EndDone)] + ops + [Done] == Program(p, n);
    case EpochPhase =>
      var ops := [Read(Topics), Read(Offsets), Calls(n), Write(Probes)];
      WorkerDisciplined(p, CommittedDone, EndDone, ops);
      assert [Await(CommittedDone), Await(EndDone)] + ops + [Done] == Program(p, n);
  }

  lemma EndsWithDone(p: Phase, n: nat)
    requires Counted(p)
    ensures Done in Program(p, n)
  {
  }

  lemma ClosesItsChannel(c: Chan, n: nat)
    ensures Close(c) in Program(Opener(c), n)
  {
  }

  lemma WriteInProgram(v: Var, n: nat)
    ensures Write(v) in Program(Owner(v), n)
  {
  }
}
