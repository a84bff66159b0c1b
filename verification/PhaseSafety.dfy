/** No run of the phase graph races on a shared variable or gets stuck, and
    every run ends. */
module PhaseSafety {
  import opened Wrappers
  import opened PhaseGraph
  import opened PhasePrograms

  /** One goroutine: what it has left keeps to the discipline, and what it heard
      is so. */
  ghost predicate PhaseOk(s: State, p: Phase)
    requires p in s.g
  {
    var g := s.g[p];
    && Disciplined(p, g.rest, g.heard, g.passed, g.joined)
    && g.heard <= s.closed
    && (!s.escaped ==> g.passed <= s.closed)
    && (g.joined ==> forall q :: Counted(q) ==> q in s.finished)
    && (g.request != Idle ==> g.rest != [] && g.rest[0].Ask?)
  }

  /** What is not done yet is still ahead of the goroutine that must do it. */
  ghost predicate Ahead(s: State)
    requires Running(s)
  {
    && (forall v :: v !in s.written ==> Write(v) in s.g[Owner(v)].rest)
    && (forall c :: c in s.closed <==> Close(c) !in s.g[Opener(c)].rest)
    && (forall v :: Publisher(v).Some? && Publisher(v).value in s.closed ==> Write(v) !in s.g[Owner(v)].rest)
    && (forall p :: Counted(p) && p !in s.finished ==> Done in s.g[p].rest)
    && (forall p :: p in s.finished ==> Counted(p) && s.g[p].rest == [])
    && (s.g[Listing].rest == [] || Close(GroupsListed) in s.g[Listing].rest)
    && (GroupsListed in s.g[GroupsPhase].heard || Await(GroupsListed) in s.g[GroupsPhase].rest)
  }

  ghost predicate Safe(s: State) {
    && Running(s)
    && (forall p: Phase :: PhaseOk(s, p))
    && Ahead(s)
  }

  lemma InitialSafe(s: State, n: nat)
    requires Initial(s, n)
    ensures Safe(s)
  {
    forall p: Phase ensures PhaseOk(s, p) {
      ProgramDisciplined(p, n);
    }
    InitialAhead(s, n);
  }

  lemma InitialAhead(s: State, n: nat)
    requires Initial(s, n)
    ensures Ahead(s)
  {
    hide Disciplined, PhaseOk, Program;
    forall p: Phase | Counted(p) ensures Done in s.g[p].rest {
      EndsWithDone(p, n);
    }
    forall c ensures Close(c) in s.g[Opener(c)].rest {
      ClosesItsChannel(c, n);
    }
    ListingAwaited(n);
    forall v ensures Write(v) in s.g[Owner(v)].rest {
      WriteInProgram(v, n);
    }
  }

  lemma ListingAwaited(n: nat)
    ensures Await(GroupsListed) in Program(GroupsPhase, n)
  {
    assert Program(GroupsPhase, n)[0] == Await(GroupsListed);
  }

  // ---------------------------------------------------------------------------
  // Steps
  // ---------------------------------------------------------------------------

  /** A step leaves ahead exactly what was ahead of the operation it did, unless
      that may be passed over. */
  lemma MovedOps(p: Phase, g: Goroutine, choice: bool)
    requires g.rest != [] && Disciplined(p, g.rest, g.heard, g.passed, g.joined)
    ensures forall op :: !Skippable(op) ==> (op in Moved(g, choice).rest <==> op in g.rest[1..])
    ensures forall op :: op in g.rest <==> op == g.rest[0] || op in g.rest[1..]
  {
    var tail := g.rest[1..];
    assert g.rest == [g.rest[0]] + tail;
    if g.rest[0].MayLeave? && choice {
      var n := g.rest[0].skip;
      assert tail == tail[..n] + tail[n..];
    }
  }

  lemma MovedDisciplined(p: Phase, g: Goroutine, choice: bool)
    requires g.rest != [] && Disciplined(p, g.rest, g.heard, g.passed, g.joined)
    ensures var h := Moved(g, choice); Disciplined(p, h.rest, h.heard, h.passed, h.joined)
  {
    var tail := g.rest[1..];
    if g.rest[0].Calls? && g.rest[0].n > 0 {
      var again := Calls(g.rest[0].n - 1);
      PlainThen(p, [again], tail, g.heard, g.passed, g.joined);
      var ops := [Ask(Other), again] + tail;
      assert ops[1..] == [again] + tail;
    }
  }

  lemma AllCounted(finished: set<Phase>)
    requires forall p :: p in finished ==> Counted(p)
    ensures |finished| <= WAITED
    ensures |finished| == WAITED <==> forall p :: Counted(p) ==> p in finished
  {
    var all := {ClusterPhase, GroupsPhase, CommittedPhase, WindowPhase, TopicsPhase, LogDirsPhase,
                SharePhase, TopicConfigPhase, BrokerConfigPhase, ReassignPhase, EpochPhase};
    assert forall p :: Counted(p) <==> p in all;
    assert |all| == WAITED;
    assert all == finished + (all - finished);
    assert |all| == |finished| + |all - finished|;
    if |finished| == WAITED {
      assert all - finished == {};
    }
  }

  /** What one step of p does to the whole, its goroutine apart. */
  ghost predicate Frame(s: State, t: State, p: Phase, choice: bool) {
    && Running(s) && Running(t) && s.g[p].rest != []
    && t.g[p] == Moved(s.g[p], choice)
    && (forall q: Phase :: q != p ==> t.g[q] == s.g[q])
    && t.written == s.written + (if s.g[p].rest[0].Write? then {s.g[p].rest[0].v} else {})
    && t.closed == s.closed + (if s.g[p].rest[0].Close? then {s.g[p].rest[0].c} else {})
    && t.finished == s.finished + (if s.g[p].rest[0].Done? then {p} else {})
    && (t.escaped <==> s.escaped || (s.g[p].rest[0].AwaitOrCancel? && s.g[p].rest[0].c !in s.closed))
  }

  lemma StepMarks(s: State, p: Phase, choice: bool)
    requires p in s.g && s.g[p].rest != [] && Ready(s, p)
    ensures var t, op := StepOf(s, p, choice), s.g[p].rest[0];
            && t.g == s.g[p := Moved(s.g[p], choice)]
            && t.written == s.written + (if op.Write? then {op.v} else {})
            && t.closed == s.closed + (if op.Close? then {op.c} else {})
            && t.finished == s.finished + (if op.Done? then {p} else {})
            && (t.escaped <==> s.escaped || (op.AwaitOrCancel? && op.c !in s.closed))
  {
    hide Moved, Passed, Ready;
  }

  lemma StepFrame(s: State, p: Phase, choice: bool)
    requires Running(s) && s.g[p].rest != [] && Ready(s, p)
    ensures Frame(s, StepOf(s, p, choice), p, choice)
  {
    StepMarks(s, p, choice);
    hide Moved, StepOf, Ready;
  }

  lemma SteppedOk(s: State, t: State, p: Phase, choice: bool)
    requires Frame(s, t, p, choice) && PhaseOk(s, p) && Ready(s, p)
    requires forall q :: q in s.finished ==> Counted(q)
    ensures PhaseOk(t, p)
  {
    MovedDisciplined(p, s.g[p], choice);
    AllCounted(s.finished);
    hide Disciplined, Counted;
    MovedHeard(s.g[p], choice);
    hide Moved;
  }

  /** What a goroutine knows after its next operation. */
  lemma MovedHeard(g: Goroutine, choice: bool)
    requires g.rest != [] && (g.request != Idle ==> g.rest[0].Ask?)
    ensures var h := Moved(g, choice);
            && h.heard == (if g.rest[0].Await? then g.heard + {g.rest[0].c} else g.heard)
            && h.passed == (if g.rest[0].Await? || g.rest[0].AwaitOrCancel? then g.passed + {g.rest[0].c} else g.passed)
            && (h.joined <==> g.joined || g.rest[0].WaitAll?)
            && (h.request != Idle ==> h.rest == g.rest && g.rest[0].Ask?)
  {
  }

  lemma OtherOk(s: State, t: State, p: Phase, choice: bool, q: Phase)
    requires Frame(s, t, p, choice) && PhaseOk(s, q) && p != q
    ensures PhaseOk(t, q)
  {
    hide Disciplined, Moved;
    assert t.g[q] == s.g[q];
  }

  /** What the discipline says of a goroutine's next operation. */
  ghost predicate HeadOk(p: Phase, g: Goroutine)
    requires g.rest != []
  {
    var tail := g.rest[1..];
    match g.rest[0]
    case Await(c) => Rank(Opener(c)) < Rank(p)
    case AwaitOrCancel(c) => Rank(Opener(c)) < Rank(p)
    case Read(v) => MayRead(p, v, g.heard, g.joined)
    case Write(v) => MayWrite(p, v, g.joined) && forall api :: api != Other && Result(api) == v ==> Ask(api) !in tail
    case Ask(api) => MayAsk(p, api, g.passed, tail)
    case Close(c) =>
      && p == Opener(c) && Close(c) !in tail && (p == Listing ==> tail == [])
      && (forall v :: Publisher(v) == Some(c) ==> Write(v) !in tail)
      && (forall api :: api != Other && Publisher(Result(api)) == Some(c) ==> Ask(api) !in tail)
    case Done => Counted(p) && tail == []
    case WaitAll => p == Caller
    case _ => true
  }

  lemma HeadMeaning(p: Phase, g: Goroutine)
    requires g.rest != [] && Disciplined(p, g.rest, g.heard, g.passed, g.joined)
    ensures HeadOk(p, g)
  {
  }

  /** What one step of p changes, as far as what is still ahead goes. */
  ghost predicate Effect(s: State, t: State, p: Phase) {
    && Running(s) && Running(t) && s.g[p].rest != []
    && (forall q: Phase :: q != p ==> t.g[q].rest == s.g[q].rest && t.g[q].heard == s.g[q].heard)
    && (forall op :: !Skippable(op) ==> (op in t.g[p].rest <==> op in s.g[p].rest[1..]))
    && (forall op :: op in s.g[p].rest <==> op == s.g[p].rest[0] || op in s.g[p].rest[1..])
    && t.written == s.written + (if s.g[p].rest[0].Write? then {s.g[p].rest[0].v} else {})
    && t.closed == s.closed + (if s.g[p].rest[0].Close? then {s.g[p].rest[0].c} else {})
    && t.finished == s.finished + (if s.g[p].rest[0].Done? then {p} else {})
    && t.g[p].heard == s.g[p].heard + (if s.g[p].rest[0].Await? then {s.g[p].rest[0].c} else {})
    && (s.g[p].rest[0].Done? || s.g[p].rest[0].Close? ==> t.g[p].rest == s.g[p].rest[1..])
  }

  lemma StepEffect(s: State, t: State, p: Phase, choice: bool)
    requires Frame(s, t, p, choice) && PhaseOk(s, p)
    ensures Effect(s, t, p)
  {
    MovedOps(p, s.g[p], choice);
    hide Disciplined, Skippable;
  }

  /** Closing a channel leaves none of what it publishes to be written. */
  lemma PublishedWritten(p: Phase, g: Goroutine, v: Var)
    requires g.rest != [] && HeadOk(p, g) && g.rest[0].Close? && Publisher(v) == Some(g.rest[0].c)
    ensures p == Owner(v) && Write(v) !in g.rest[1..]
  {
  }

  lemma WritesAhead(s: State, t: State, p: Phase, v: Var)
    requires Effect(s, t, p)
    requires v !in s.written ==> Write(v) in s.g[Owner(v)].rest
    requires Publisher(v).Some? && Publisher(v).value in s.closed ==> Write(v) !in s.g[Owner(v)].rest
    requires HeadOk(p, s.g[p])
    ensures v !in t.written ==> Write(v) in t.g[Owner(v)].rest
    ensures Publisher(v).Some? && Publisher(v).value in t.closed ==> Write(v) !in t.g[Owner(v)].rest
  {
    var op := s.g[p].rest[0];
    if op.Close? && Publisher(v) == Some(op.c) {
      PublishedWritten(p, s.g[p], v);
    }
    hide HeadOk, Owner, Publisher;
  }

  lemma CloseUnskippable(c: Chan)
    ensures !Skippable(Close(c))
  {
  }

  lemma ClosesAhead(s: State, t: State, p: Phase, c: Chan)
    requires Effect(s, t, p) && Ahead(s) && HeadOk(p, s.g[p])
    ensures c in t.closed <==> Close(c) !in t.g[Opener(c)].rest
  {
    hide Opener, Owner, Publisher, Rank, Counted, Skippable, MayRead, MayWrite, MayAsk;
    assert !Skippable(Close(c)) by { CloseUnskippable(c); }
    assert c in s.closed <==> Close(c) !in s.g[Opener(c)].rest;
  }

  lemma EndsAhead(s: State, t: State, p: Phase, q: Phase)
    requires Effect(s, t, p) && Ahead(s) && HeadOk(p, s.g[p])
    ensures Counted(q) && q !in t.finished ==> Done in t.g[q].rest
    ensures q in t.finished ==> Counted(q) && t.g[q].rest == []
  {
    assert Counted(q) && q !in s.finished ==> Done in s.g[q].rest;
    assert q in s.finished ==> Counted(q) && s.g[q].rest == [];
  }

  lemma ListingAhead(s: State, t: State, p: Phase)
    requires Effect(s, t, p) && Ahead(s) && HeadOk(p, s.g[p])
    ensures t.g[Listing].rest == [] || Close(GroupsListed) in t.g[Listing].rest
    ensures GroupsListed in t.g[GroupsPhase].heard || Await(GroupsListed) in t.g[GroupsPhase].rest
  {
  }

  lemma AllWritesAhead(s: State, t: State, p: Phase)
    requires Effect(s, t, p) && Ahead(s) && HeadOk(p, s.g[p])
    ensures forall v :: v !in t.written ==> Write(v) in t.g[Owner(v)].rest
    ensures forall v :: Publisher(v).Some? && Publisher(v).value in t.closed ==> Write(v) !in t.g[Owner(v)].rest
  {
    hide HeadOk, Owner, Publisher;
    forall v ensures
      && (v !in t.written ==> Write(v) in t.g[Owner(v)].rest)
      && (Publisher(v).Some? && Publisher(v).value in t.closed ==> Write(v) !in t.g[Owner(v)].rest)
    {
      WritesAhead(s, t, p, v);
    }
  }

  lemma AllEndsAhead(s: State, t: State, p: Phase)
    requires Effect(s, t, p) && Ahead(s) && HeadOk(p, s.g[p])
    ensures forall q :: Counted(q) && q !in t.finished ==> Done in t.g[q].rest
    ensures forall q :: q in t.finished ==> Counted(q) && t.g[q].rest == []
  {
    hide HeadOk, Counted, Ahead, Effect;
    assert Running(t) by { EffectRuns(s, t, p); }
    forall q ensures
      && (Counted(q) && q !in t.finished ==> Done in t.g[q].rest)
      && (q in t.finished ==> Counted(q) && t.g[q].rest == [])
    {
      EndsAhead(s, t, p, q);
    }
  }

  lemma EffectRuns(s: State, t: State, p: Phase)
    requires Effect(s, t, p)
    ensures Running(s) && Running(t)
  {
  }

  lemma StepAhead(s: State, t: State, p: Phase)
    requires Effect(s, t, p) && Ahead(s) && HeadOk(p, s.g[p])
    ensures Ahead(t)
  {
    EffectRuns(s, t, p);
    AllWritesAhead(s, t, p);
    AllEndsAhead(s, t, p);
    ListingAhead(s, t, p);
    hide Effect, HeadOk, Owner, Opener, Publisher, Counted;
    forall c ensures c in t.closed <==> Close(c) !in t.g[Opener(c)].rest {
      ClosesAhead(s, t, p, c);
    }
  }

  lemma StepSafe(s: State, p: Phase, choice: bool)
    requires Safe(s) && s.g[p].rest != [] && Ready(s, p)
    ensures Safe(StepOf(s, p, choice))
  {
    var t := StepOf(s, p, choice);
    assert PhaseOk(s, p);
    HeadMeaning(p, s.g[p]);
    StepFrame(s, p, choice);
    hide StepOf, HeadOk, Moved, Disciplined;
    StepEffect(s, t, p, choice);
    StepAhead(s, t, p);
    SteppedOk(s, t, p, choice);
    hide PhaseOk, Ready;
    forall q: Phase ensures PhaseOk(t, q) {
      if q != p {
        assert PhaseOk(s, q);
        OtherOk(s, t, p, choice, q);
      }
    }
  }

  /** The environment's steps: an answer, a growing log, a cancellation. */
  lemma OutsideSafe(s: State, e: Event)
    requires Safe(s) && Enabled(s, e) && !e.Step?
    ensures Safe(Next(s, e))
  {
    hide Disciplined;
    var t := Next(s, e);
    forall q: Phase ensures PhaseOk(t, q) && t.g[q].rest == s.g[q].rest && t.g[q].heard == s.g[q].heard {
      assert PhaseOk(s, q);
    }
  }

  lemma NextSafe(s: State, e: Event)
    requires Safe(s) && Enabled(s, e)
    ensures Safe(Next(s, e))
  {
    hide PhaseOk, Ahead, StepOf;
    if e.Step? {
      StepSafe(s, e.p, e.choice);
    } else {
      OutsideSafe(s, e);
    }
  }

  lemma {:induction false} RunsSafe(s: State, es: seq<Event>, t: State)
    requires Safe(s) && Runs(s, es, t)
    ensures Safe(t)
    decreases |es|
  {
    hide Safe, Next;
    if es != [] {
      assert Safe(s) ==> Running(s) by { SafeRunning(s); }
      NextSafe(s, es[0]);
      RunsSafe(Next(s, es[0]), es[1..], t);
    }
  }

  lemma SafeRunning(s: State)
    ensures Safe(s) ==> Running(s)
  {
  }
}
