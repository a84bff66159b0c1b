/** What the phase graph guarantees in every run, cancelled or not: no race, no
    deadlock, an end, and a caller that returns after everybody. */
module PhaseTheorems {
  import opened PhaseGraph
  import opened PhaseSafety

  ghost predicate Reachable(s: State) {
    exists s0, n, es :: Initial(s0, n) && Runs(s0, es, s)
  }

  lemma ReachableSafe(s: State)
    requires Reachable(s)
    ensures Safe(s)
  {
    var s0, n, es :| Initial(s0, n) && Runs(s0, es, s);
    InitialSafe(s0, n);
    RunsSafe(s0, es, s);
  }

  // ---------------------------------------------------------------------------
  // No race
  // ---------------------------------------------------------------------------

  /** p is about to read or write v. */
  predicate At(s: State, p: Phase, op: Op)
    requires p in s.g
  {
    s.g[p].rest != [] && s.g[p].rest[0] == op
  }

  /** Once some other goroutine may touch v, its owner has no write of v left. */
  lemma OwnerIsDone(s: State, p: Phase, v: Var)
    requires Safe(s)
    requires At(s, p, Read(v)) || (At(s, p, Write(v)) && p != Owner(v))
    ensures p != Owner(v) && v in s.written && Write(v) !in s.g[Owner(v)].rest
  {
    assert PhaseOk(s, p);
    HeadMeaning(p, s.g[p]);
    hide Disciplined, Running, Owner, Publisher, Counted, Rank;
    var g := s.g[p];
    assert g.joined && Counted(Owner(v)) ==> Owner(v) in s.finished;
    assert Owner(v) in s.finished ==> s.g[Owner(v)].rest == [];
    assert Write(v) !in s.g[Owner(v)].rest ==> v in s.written;
    assert Publisher(v).Some? && Publisher(v).value in s.closed ==> Write(v) !in s.g[Owner(v)].rest;
  }

  /** A goroutine about to read a shared result finds it written, for good as far
      as its owner goes, and nobody is about to write what another is about to
      touch: this holds in every reachable state, cancelled or not. */
  lemma NoRace(s: State, p: Phase, q: Phase, v: Var)
    requires Reachable(s) && Running(s) && p != q
    ensures At(s, p, Read(v)) ==> v in s.written && Write(v) !in s.g[Owner(v)].rest
    ensures !(At(s, p, Write(v)) && (At(s, q, Write(v)) || At(s, q, Read(v))))
  {
    ReachableSafe(s);
    if At(s, p, Read(v)) {
      OwnerIsDone(s, p, v);
    }
    if At(s, p, Write(v)) && (At(s, q, Write(v)) || At(s, q, Read(v))) {
      if At(s, q, Read(v)) || q != Owner(v) {
        OwnerIsDone(s, q, v);
      }
      if p != Owner(v) {
        OwnerIsDone(s, p, v);
        CallerComesLast(s, p, q, v);
      }
    }
  }

  /** Only the caller writes what another owns, after everybody it waited for. */
  lemma CallerComesLast(s: State, p: Phase, q: Phase, v: Var)
    requires Safe(s) && p != Owner(v) && p != q && At(s, p, Write(v))
    ensures !At(s, q, Write(v)) && !At(s, q, Read(v))
  {
    assert PhaseOk(s, p) && PhaseOk(s, q);
    HeadMeaning(p, s.g[p]);
    hide Disciplined, Running, Owner, Publisher;
    assert p == Caller && Counted(Owner(v));
    assert Counted(q) ==> q in s.finished && s.g[q].rest == [];
    if q == Listing && s.g[q].rest != [] {
      HeadMeaning(q, s.g[q]);
    }
  }

  // ---------------------------------------------------------------------------
  // No deadlock
  // ---------------------------------------------------------------------------

  /** While any goroutine has something left to do, some goroutine can do its
      next operation, without the cluster, the clock or a cancellation stepping
      in: a request under way only has to return. */
  lemma {:induction false} Unstuck(s: State, p: Phase) returns (q: Phase)
    requires Safe(s) && s.g[p].rest != []
    ensures Enabled(s, Step(q, false))
    decreases Rank(p)
  {
    q := p;
    if !Ready(s, p) {
      assert PhaseOk(s, p);
      HeadMeaning(p, s.g[p]);
      hide Disciplined;
      match s.g[p].rest[0]
      case Await(c) => q := Unstuck(s, Opener(c));
      case AwaitOrCancel(c) => q := Unstuck(s, Opener(c));
      case WaitAll =>
        AllCounted(s.finished);
        var r :| Counted(r) && r !in s.finished;
        q := Unstuck(s, r);
    }
  }

  lemma NeverStuck(s: State, p: Phase) returns (q: Phase)
    requires Reachable(s) && p in s.g && s.g[p].rest != []
    ensures Running(s) && Enabled(s, Step(q, false))
  {
    ReachableSafe(s);
    q := Unstuck(s, p);
  }

  // ---------------------------------------------------------------------------
  // Every run ends
  // ---------------------------------------------------------------------------

  function Cost(op: Op): nat {
    match op
    case Ask(_) => 3
    case Calls(n) => 4 * n + 1
    case _ => 1
  }

  function Effort(ops: seq<Op>): nat {
    if ops == [] then 0 else Cost(ops[0]) + Effort(ops[1..])
  }

  /** The most steps a goroutine still has, its request's answer included. */
  function Remaining(g: Goroutine): int {
    Effort(g.rest) - match g.request case Idle => 0 case Sent => 1 case Answered => 2
  }

  lemma {:induction false} EffortOfSuffix(ops: seq<Op>, n: nat)
    requires n <= |ops|
    ensures Effort(ops[n..]) <= Effort(ops)
  {
    if n == 0 {
      assert ops[0..] == ops;
    } else {
      EffortOfSuffix(ops[1..], n - 1);
      assert ops[1..][n - 1..] == ops[n..];
    }
  }

  lemma MovedRemains(g: Goroutine, choice: bool)
    requires g.rest != [] && (g.request != Idle ==> g.rest[0].Ask?)
    ensures Remaining(Moved(g, choice)) < Remaining(g)
  {
    var tail := g.rest[1..];
    match g.rest[0]
    case Calls(n) =>
      if n > 0 && choice {
        var ops := [Ask(Other), Calls(n - 1)] + tail;
        assert ops[1..] == [Calls(n - 1)] + tail && ops[1..][1..] == tail;
        assert Effort(ops[1..]) == 4 * n - 3 + Effort(tail);
      }
    case MayLeave(n) =>
      if n <= |tail| {
        EffortOfSuffix(tail, n);
      }
    case _ =>
  }

  function AllPhases(): seq<Phase> {
    [ClusterPhase, Listing, GroupsPhase, CommittedPhase, WindowPhase, TopicsPhase, LogDirsPhase,
     SharePhase, TopicConfigPhase, BrokerConfigPhase, ReassignPhase, EpochPhase, Caller]
  }

  lemma EveryPhaseListed(p: Phase)
    ensures p in AllPhases()
  {
    var all := AllPhases();
    match p
    case ClusterPhase => assert all[0] == p;
    case Listing => assert all[1] == p;
    case GroupsPhase => assert all[2] == p;
    case CommittedPhase => assert all[3] == p;
    case WindowPhase => assert all[4] == p;
    case TopicsPhase => assert all[5] == p;
    case LogDirsPhase => assert all[6] == p;
    case SharePhase => assert all[7] == p;
    case TopicConfigPhase => assert all[8] == p;
    case BrokerConfigPhase => assert all[9] == p;
    case ReassignPhase => assert all[10] == p;
    case EpochPhase => assert all[11] == p;
    case Caller => assert all[12] == p;
  }

  ghost function Total(s: State, ps: seq<Phase>): int
    requires Running(s)
  {
    if ps == [] then 0 else Remaining(s.g[ps[0]]) + Total(s, ps[1..])
  }

  lemma {:induction false} TotalDrops(s: State, t: State, ps: seq<Phase>, p: Phase)
    requires Running(s) && Running(t)
    requires Remaining(t.g[p]) < Remaining(s.g[p]) && forall q: Phase :: q != p ==> t.g[q] == s.g[q]
    ensures Total(t, ps) <= Total(s, ps)
    ensures p in ps ==> Total(t, ps) < Total(s, ps)
  {
    hide Remaining;
    if ps != [] {
      TotalDrops(s, t, ps[1..], p);
    }
  }

  lemma {:induction false} TotalKept(s: State, t: State, ps: seq<Phase>)
    requires Running(s) && Running(t) && s.g == t.g
    ensures Total(t, ps) == Total(s, ps)
  {
    if ps != [] {
      TotalKept(s, t, ps[1..]);
    }
  }

  lemma {:induction false} TotalBounded(s: State, ps: seq<Phase>)
    requires Safe(s)
    ensures Total(s, ps) >= 0
  {
    if ps != [] {
      assert PhaseOk(s, ps[0]);
      hide Disciplined, Ahead;
      TotalBounded(s, ps[1..]);
    }
  }

  /** The steps of goroutines and the answers they get, as against the log
      growing and a cancellation. */
  function Work(es: seq<Event>): nat {
    if es == [] then 0 else (if es[0].Step? || es[0].Serve? then 1 else 0) + Work(es[1..])
  }

  lemma EventCosts(s: State, e: Event)
    requires Safe(s) && Enabled(s, e)
    ensures Running(Next(s, e))
    ensures Total(Next(s, e), AllPhases()) + Work([e]) <= Total(s, AllPhases())
  {
    var t := Next(s, e);
    hide AllPhases, Disciplined, Ahead, Total;
    assert Work([e]) == if e.Step? || e.Serve? then 1 else 0;
    match e
    case Step(p, choice) =>
      assert PhaseOk(s, p);
      StepFrame(s, p, choice);
      MovedRemains(s.g[p], choice);
      hide Moved, StepOf, Ready, PhaseOk;
      TotalDrops(s, t, AllPhases(), p);
      EveryPhaseListed(p);
    case Serve(p, _) =>
      hide PhaseOk;
      TotalDrops(s, t, AllPhases(), p);
      EveryPhaseListed(p);
    case _ =>
      TotalKept(s, t, AllPhases());
  }

  /** Every run does a bounded amount of work, whatever the cluster answers, the
      scheduler picks and the clock does. */
  lemma {:induction false} RunsEnd(s: State, es: seq<Event>, t: State)
    requires Safe(s) && Runs(s, es, t)
    ensures Running(t) && Work(es) + Total(t, AllPhases()) <= Total(s, AllPhases())
    ensures Work(es) <= Total(s, AllPhases())
    decreases |es|
  {
    hide Safe, Next, AllPhases, Total, Enabled;
    SafeRunning(s);
    if es != [] {
      NextSafe(s, es[0]);
      EventCosts(s, es[0]);
      RunsEnd(Next(s, es[0]), es[1..], t);
      assert Work([es[0]]) == Work(es) - Work(es[1..]);
    }
    RunsSafe(s, es, t);
    TotalBounded(t, AllPhases());
  }

  // ---------------------------------------------------------------------------
  // The caller
  // ---------------------------------------------------------------------------

  /** When the caller is past the wait group, all twelve goroutines are done: the
      eleven it counts, and the group listing, whose last operation let the
      groups phase go. */
  lemma CallerReturnsLast(s: State, p: Phase)
    requires Reachable(s) && Caller in s.g && s.g[Caller].joined && p != Caller
    ensures p in s.g && s.g[p].rest == []
  {
    ReachableSafe(s);
    assert PhaseOk(s, Caller) && PhaseOk(s, GroupsPhase);
    hide Disciplined;
    assert Counted(GroupsPhase) && GroupsPhase in s.finished;
    if Counted(p) {
      assert p in s.finished;
    } else {
      assert GroupsListed in s.closed;
      assert Close(GroupsListed) !in s.g[Opener(GroupsListed)].rest;
    }
  }
}
