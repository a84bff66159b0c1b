/** Which batches an Export call costs: the producer's side of the dropped
    counter, apart from the worker's. */
module ExporterDrops {
  import opened Wire
  import opened ExporterMachine
  import opened ExporterOrder

  /** The batch a producer's step counts as dropped, if it does. */
  function DropOf(s: Exporter, l: Label): seq<Queued> {
    match l
    case EncodeFails(q) => [q]
    case RefuseClosed => if s.producer.Encoded? then [s.producer.q] else []
    case CountStale => if s.producer.Evicting? then [s.producer.stale] else []
    case Fallback => if s.producer.Retrying? then [s.producer.q] else []
    case _ => []
  }

  /** What the producer's steps of a run count as dropped, in order. */
  ghost function ProducerDrops(c: Config, s: Exporter, ls: seq<Label>): seq<Queued>
    decreases |ls|
  {
    if ls == [] || !Enabled(c, s, ls[0]) then []
    else DropOf(s, ls[0]) + ProducerDrops(c, Do(c, s, ls[0]), ls[1..])
  }

  /** What the worker's steps of a run count as dropped. */
  ghost function WorkerDrops(c: Config, s: Exporter, ls: seq<Label>): seq<Queued>
    decreases |ls|
  {
    if ls == [] || !Enabled(c, s, ls[0]) then []
    else (if ls[0].GiveUp? || ls[0].Interrupted? then [s.worker.q] else []) + WorkerDrops(c, Do(c, s, ls[0]), ls[1..])
  }

  lemma CountJoined(a: seq<Queued>, b: seq<Queued>, q: Queued)
    ensures Count(a + b, q) == Count(a, q) + Count(b, q)
  {
    if b == [] {
      assert a + b == a;
    } else {
      var n := |b| - 1;
      CountJoined(a, b[..n], q);
      CountAppend(a + b[..n], b[n], q);
      CountAppend(b[..n], b[n], q);
      assert a + b == (a + b[..n]) + [b[n]] && b == b[..n] + [b[n]];
    }
  }

  /** The dropped counter is the two sides' drops and nothing else. */
  lemma {:induction false} DropsAreSplit(c: Config, s: Exporter, ls: seq<Label>, t: Exporter, q: Queued)
    requires Runs(c, s, ls, t)
    ensures Count(t.dropped, q) ==
      Count(s.dropped, q) + Count(ProducerDrops(c, s, ls), q) + Count(WorkerDrops(c, s, ls), q)
    decreases |ls|
  {
    hide Count;
    if ls == [] {
      NothingCounted(q);
    } else {
      var u := Do(c, s, ls[0]);
      DropsAreSplit(c, u, ls[1..], t, q);
      var mine, its := DropOf(s, ls[0]), if ls[0].GiveUp? || ls[0].Interrupted? then [s.worker.q] else [];
      CountJoined(mine, ProducerDrops(c, u, ls[1..]), q);
      CountJoined(its, WorkerDrops(c, u, ls[1..]), q);
      CountJoined(s.dropped, mine, q);
      CountJoined(s.dropped, its, q);
      NothingCounted(q);
      assert u.dropped == s.dropped + mine + its;
      assert s.dropped + [] == s.dropped;
    }
  }

  lemma NothingCounted(q: Queued)
    ensures Count([], q) == 0
  {
  }

  // ---------------------------------------------------------------------------
  // Room in the queue
  // ---------------------------------------------------------------------------

  /** The call in progress found room, or is over. */
  predicate Roomy(c: Config, s: Exporter) {
    s.producer.Outside? || ((s.producer.Encoded? || s.producer.Locked?) && |s.queue| < c.capacity)
  }

  /** From a state with room in the queue, nothing is evicted before the next call:
      whatever runs in between, the first send finds the room. */
  lemma {:induction false} RoomMeansNoEviction(c: Config, s: Exporter, ls: seq<Label>, t: Exporter)
    requires Runs(c, s, ls, t) && Roomy(c, s) && forall l :: l in ls ==> !l.Call?
    ensures Evictions(ls) == 0
    decreases |ls|
  {
    if ls != [] {
      assert ls[0] in ls;
      RoomMeansNoEviction(c, Do(c, s, ls[0]), ls[1..], t);
    }
  }

  // ---------------------------------------------------------------------------
  // One call
  // ---------------------------------------------------------------------------

  /** How many calls a run from s to t took. */
  function NewCalls(s: Exporter, t: Exporter): int {
    |t.calls| - |s.calls|
  }

  /** What the rest of a call, from s on, may still cost the producer. */
  ghost predicate Costs(c: Config, s: Exporter, t: Exporter, drops: seq<Queued>) {
    match s.producer
    case Outside =>
      && (NewCalls(s, t) == 0 ==> drops == [] && |t.accepted| == |s.accepted|)
      && (NewCalls(s, t) == 1 && |t.accepted| == |s.accepted| ==> drops == [t.calls[|s.calls|]])
      && (NewCalls(s, t) == 1 && |t.accepted| > |s.accepted| ==>
            |drops| <= 1 && (|s.queue| < c.capacity ==> drops == []) && (drops != [] ==> drops[0] in s.queue))
    case Encoded(q) =>
      NewCalls(s, t) == 0 ==>
        if |t.accepted| == |s.accepted| then drops == [q]
        else |drops| <= 1 && (|s.queue| < c.capacity ==> drops == []) && (drops != [] ==> drops[0] in s.queue)
    case Locked(q) =>
      NewCalls(s, t) == 0 ==>
        && |t.accepted| > |s.accepted|
        && |drops| <= 1 && (|s.queue| < c.capacity ==> drops == []) && (drops != [] ==> drops[0] in s.queue)
    case Full(q) => NewCalls(s, t) == 0 ==> |t.accepted| > |s.accepted| && |drops| <= 1 && (drops != [] ==> drops[0] in s.queue)
    case Evicting(q, stale) => NewCalls(s, t) == 0 ==> |t.accepted| > |s.accepted| && drops == [stale]
    case Retrying(q) => NewCalls(s, t) == 0 ==> |t.accepted| > |s.accepted| && drops == []
  }

  lemma CallsGrow(c: Config, s: Exporter, ls: seq<Label>, t: Exporter)
    requires Runs(c, s, ls, t)
    ensures |s.calls| <= |t.calls| && t.calls[..|s.calls|] == s.calls && |s.accepted| <= |t.accepted|
    decreases |ls|
  {
    if ls != [] {
      CallsGrow(c, Do(c, s, ls[0]), ls[1..], t);
    }
  }

  lemma CostsStep(c: Config, s: Exporter, l: Label, t: Exporter, drops: seq<Queued>)
    requires ValidConfig(c) && Inv(c, s) && Enabled(c, s, l)
    requires |Do(c, s, l).calls| <= |t.calls| && t.calls[..|Do(c, s, l).calls|] == Do(c, s, l).calls
    requires |Do(c, s, l).accepted| <= |t.accepted|
    requires Costs(c, Do(c, s, l), t, drops)
    ensures Costs(c, s, t, DropOf(s, l) + drops)
  {
    if s.producer.Retrying? {
      RetryHasRoom(c, s);
    }
    hide Inv;
  }

  /** The cost of a call, over any run of it: a refused or unencodable batch is
      dropped itself; an accepted one costs at most one batch, one that was queued
      when the call began, and none if there was room. */
  lemma {:induction false} CallCosts(c: Config, s: Exporter, ls: seq<Label>, t: Exporter)
    requires ValidConfig(c) && Inv(c, s) && Runs(c, s, ls, t) && t.producer.Outside?
    ensures Costs(c, s, t, ProducerDrops(c, s, ls))
    decreases |ls|
  {
    hide Inv, Costs, DropOf;
    if ls == [] {
      NoCost(c, s);
    } else {
      var u := Do(c, s, ls[0]);
      OneLabel(c, s, ls[0]);
      InvHolds(c, s, [ls[0]], u);
      CallCosts(c, u, ls[1..], t);
      CallsGrow(c, u, ls[1..], t);
      CostsStep(c, s, ls[0], t, ProducerDrops(c, u, ls[1..]));
    }
  }

  lemma OneLabel(c: Config, s: Exporter, l: Label)
    requires Enabled(c, s, l)
    ensures Runs(c, s, [l], Do(c, s, l))
  {
    assert [l][1..] == [];
  }

  lemma NoCost(c: Config, s: Exporter)
    requires s.producer.Outside?
    ensures Costs(c, s, s, [])
  {
  }
}
