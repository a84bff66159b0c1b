/** The graph's edges: what each phase waits for before it does anything at all. */
module PhaseWaits {
  import opened PhaseGraph
  import opened PhaseSafety
  import opened PhaseTheorems

  /** The edges into each phase, in the order it waits for them. The waits of the
      topics phase before its ceilings come later and can be given up. */
  function Edges(p: Phase): seq<Chan> {
    match p
    case ClusterPhase | Listing | Caller => []
    case GroupsPhase | SharePhase => [GroupsListed]
    case CommittedPhase => [MetaDone, GroupsListed]
    case WindowPhase | TopicsPhase => [MetaDone]
    case LogDirsPhase | BrokerConfigPhase => [MetaDone, EndDone]
    case TopicConfigPhase | ReassignPhase => [EndDone]
    case EpochPhase => [CommittedDone, EndDone]
  }

  lemma ProgramWaits(p: Phase, n: nat)
    ensures |Edges(p)| <= |Program(p, n)|
    ensures forall i :: 0 <= i < |Edges(p)| ==> Program(p, n)[i] == Await(Edges(p)[i])
    ensures forall i :: |Edges(p)| <= i < |Program(p, n)| ==> !Program(p, n)[i].Await?
  {
  }

  /** p has heard its first k edges and stands at the next, or has heard all. */
  ghost predicate Stands(g: Goroutine, p: Phase, n: nat, k: nat) {
    && k <= |Edges(p)| <= |Program(p, n)|
    && (forall i :: 0 <= i < k ==> Edges(p)[i] in g.heard)
    && (k < |Edges(p)| ==> g.rest == Program(p, n)[k..])
  }

  /** A wait that is over leaves the head of the program and is heard. */
  lemma AwaitPops(g: Goroutine, choice: bool)
    requires g.rest != [] && g.rest[0].Await?
    ensures Moved(g, choice).rest == g.rest[1..] && Moved(g, choice).heard == g.heard + {g.rest[0].c}
  {
  }

  lemma MovedStands(g: Goroutine, choice: bool, p: Phase, n: nat, k: nat) returns (j: nat)
    requires g.rest != [] && (g.request != Idle ==> g.rest[0].Ask?) && Stands(g, p, n, k)
    ensures Stands(Moved(g, choice), p, n, j)
  {
    ProgramWaits(p, n);
    hide Program, Edges;
    j := k;
    if k < |Edges(p)| {
      assert g.rest[0] == Program(p, n)[k];
      AwaitPops(g, choice);
      hide Moved;
      assert Program(p, n)[k..][1..] == Program(p, n)[k + 1..];
      j := k + 1;
    } else {
      MovedHeard(g, choice);
      hide Moved;
    }
  }

  lemma StepStands(s: State, q: Phase, choice: bool, p: Phase, n: nat, k: nat) returns (j: nat)
    requires Running(s) && s.g[q].rest != [] && Ready(s, q)
    requires (s.g[p].request != Idle ==> s.g[p].rest != [] && s.g[p].rest[0].Ask?) && Stands(s.g[p], p, n, k)
    ensures Running(StepOf(s, q, choice)) && Stands(StepOf(s, q, choice).g[p], p, n, j)
  {
    hide Program, Edges, Moved, Stands, Ready;
    assert StepOf(s, q, choice).g == s.g[q := Moved(s.g[q], choice)];
    hide StepOf;
    j := k;
    if q == p {
      j := MovedStands(s.g[p], choice, p, n, k);
    }
  }

  lemma OutsideStands(s: State, e: Event, p: Phase)
    requires Running(s) && Enabled(s, e) && !e.Step?
    ensures Running(Next(s, e)) && Next(s, e).g[p].rest == s.g[p].rest && Next(s, e).g[p].heard == s.g[p].heard
  {
  }

  lemma NextStands(s: State, e: Event, p: Phase, n: nat, k: nat) returns (j: nat)
    requires Safe(s) && Enabled(s, e) && Stands(s.g[p], p, n, k)
    ensures Running(Next(s, e)) && Stands(Next(s, e).g[p], p, n, j)
  {
    assert PhaseOk(s, p);
    hide Program, Edges, Disciplined, Ahead, StepOf;
    j := k;
    if e.Step? {
      hide Stands, Ready;
      j := StepStands(s, e.p, e.choice, p, n, k);
    } else {
      OutsideStands(s, e, p);
      hide Next, Enabled;
    }
  }

  lemma {:induction false} RunsStand(s: State, es: seq<Event>, t: State, p: Phase, n: nat, k: nat) returns (j: nat)
    requires Safe(s) && Runs(s, es, t) && Running(s) && Stands(s.g[p], p, n, k)
    ensures Running(t) && Stands(t.g[p], p, n, j)
    decreases |es|
  {
    hide Safe, Next, Enabled, Stands;
    if es == [] {
      j := k;
    } else {
      var i := NextStands(s, es[0], p, n, k);
      NextSafe(s, es[0]);
      j := RunsStand(Next(s, es[0]), es[1..], t, p, n, i);
    }
  }

  lemma StillWaiting(g: Goroutine, p: Phase, n: nat, k: nat)
    requires Stands(g, p, n, k) && k < |Edges(p)|
    ensures g.rest != [] && g.rest[0].Await?
  {
    ProgramWaits(p, n);
    hide Program, Edges;
    assert Program(p, n)[k..][0] == Program(p, n)[k];
  }

  /** A goroutine at anything but a wait has heard every edge. */
  lemma PastItsEdges(g: Goroutine, p: Phase, n: nat, k: nat)
    requires Stands(g, p, n, k) && (g.rest == [] || !g.rest[0].Await?)
    ensures forall c :: c in Edges(p) ==> c in g.heard
  {
    hide Program, Edges;
    if k < |Edges(p)| {
      StillWaiting(g, p, n, k);
    }
  }

  lemma LaunchedStands(p: Phase, n: nat)
    ensures Stands(Launched(p, n), p, n, 0)
  {
    ProgramWaits(p, n);
    hide Program, Edges;
    assert Program(p, n)[0..] == Program(p, n);
  }

  /** In every reachable state, cancelled or not: a phase about to do anything but
      wait, or with a request under way, or finished, does so with every edge into
      it closed. In particular log directories, configs, reassignments and epoch
      probes request nothing before the end offsets are sampled, and epoch probes
      nothing before the committed offsets are in. */
  lemma NothingBeforeItsEdges(s: State, p: Phase, c: Chan)
    requires Reachable(s) && p in s.g && c in Edges(p)
    requires s.g[p].rest == [] || !s.g[p].rest[0].Await? || p in s.finished
    ensures c in s.closed
  {
    ReachableSafe(s);
    assert PhaseOk(s, p);
    assert p in s.finished ==> s.g[p].rest == [];
    hide Disciplined, Edges, Ahead, PhaseOk;
    var s0, n, es :| Initial(s0, n) && Runs(s0, es, s);
    InitialSafe(s0, n);
    LaunchedStands(p, n);
    hide Stands, Safe, Launched;
    var k := RunsStand(s0, es, s, p, n, 0);
    PastItsEdges(s.g[p], p, n, k);
    HeardClosed(s, p);
  }

  lemma HeardClosed(s: State, p: Phase)
    requires p in s.g && PhaseOk(s, p)
    ensures s.g[p].heard <= s.closed
  {
  }
}
