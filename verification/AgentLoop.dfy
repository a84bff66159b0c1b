/** The agent's cycle on its exporter: number, stamp and hand over a batch, while
    the exporter's worker and closer run between any two actions. */
module AgentLoop {
  import opened Wrappers
  import opened Wire
  import opened ExporterMachine
  import H = HttpExporter

  lemma ReachesOn(c: Config, s: Exporter, t: Exporter, u: Exporter)
    requires H.Reaches(c, s, t) && H.Reaches(c, t, u)
    ensures H.Reaches(c, s, u)
  {
    var ls :| Runs(c, s, ls, t);
    var ms :| Runs(c, t, ms, u);
    RunsConcat(c, s, ls, t, ms, u);
  }

  lemma CountedWithinCalls(c: Config, s: Exporter)
    requires Inv(c, s)
    ensures |s.exported| + |s.dropped| + |s.rejected| <= |s.calls|
  {
  }

  class Agent {
    const instance: string
    const exporter: H.HttpExporter
    var batchSeq: nat
    var stamped: seq<Batch>

    /** Batches are numbered from one without a gap, each counts only earlier
        ones, and the exporter was handed rising numbers, none above the last. */
    ghost predicate Valid()
      reads this, exporter
    {
      && exporter.Valid() && exporter.producer.Outside?
      && batchSeq == |stamped|
      && |exporter.log.calls| <= batchSeq
      && Increasing(exporter.log.calls) && AllBelow(exporter.log.calls, batchSeq + 1)
      && (forall i :: 0 <= i < |stamped| ==>
            stamped[i].batchSeq == i + 1 && stamped[i].instance == instance && StampedEarlier(stamped[i]))
    }

    constructor (id: string, exporter: H.HttpExporter)
      requires exporter.Valid() && exporter.View() == INITIAL
      ensures Valid() && instance == id && this.exporter == exporter && stamped == []
    {
      instance, this.exporter := id, exporter;
      batchSeq, stamped := 0, [];
    }

    /** The counters and the queue's depth, loaded one at a time while the worker
        counts on: each was current at some point, and together they are no more
        than the calls the exporter had taken. */
    method Snapshot(ghost start: Exporter, collected: nat, sched: nat -> seq<Label>) returns (s: AgentStats)
      requires exporter.Valid() && H.Reaches(exporter.config, start, exporter.View())
      modifies exporter
      ensures exporter.Valid() && H.Reaches(exporter.config, start, exporter.View())
      ensures exporter.producer == old(exporter.producer) && exporter.log.calls == old(exporter.log.calls)
      ensures s.collected == collected
      ensures s.exported + s.dropped + s.rejected <= |exporter.log.calls|
      ensures |old(exporter.counters.exported)| <= s.exported <= |exporter.counters.exported|
      ensures |old(exporter.counters.dropped)| <= s.dropped <= |exporter.counters.dropped|
      ensures |old(exporter.counters.rejected)| <= s.rejected <= |exporter.counters.rejected|
      ensures old(exporter.counters).retries <= s.retries <= exporter.counters.retries
      ensures s.queueDepth == |exporter.queue| <= |old(exporter.queue)|
    {
      hide Inv, H.Reaches;
      var sent := |exporter.counters.exported|;
      exporter.Interfere(start, H.ProducerSide, sched(0));
      var lost := |exporter.counters.dropped|;
      exporter.Interfere(start, H.ProducerSide, sched(1));
      var refused := |exporter.counters.rejected|;
      exporter.Interfere(start, H.ProducerSide, sched(2));
      var again := exporter.counters.retries;
      exporter.Interfere(start, H.ProducerSide, sched(3));
      s := AgentStats(collected, sent, lost, refused, again, |exporter.queue|);
      CountedWithinCalls(exporter.config, exporter.View());
    }

    /** One cycle, a run of the exporter's machine throughout. Nothing collected,
        or a shutdown during collection, consumes no number and no call; otherwise
        exactly one batch is stamped, with the next number, and handed over,
        unless the export context is done already. */
    method RunCycle(collected: Option<string>, stopping: bool, ctxDone: bool, encodes: bool,
                    before: seq<Label>, loading: nat -> seq<Label>, exporting: nat -> seq<Label>)
      requires Valid()
      modifies this`batchSeq, this`stamped, exporter
      ensures Valid()
      ensures H.Reaches(exporter.config, old(exporter.View()), exporter.View())
      ensures collected.None? || stopping ==> stamped == old(stamped) && exporter.log.calls == old(exporter.log.calls)
      ensures collected.Some? && !stopping ==>
        && |stamped| == old(|stamped|) + 1 && stamped[..|stamped| - 1] == old(stamped)
        && var b := stamped[|stamped| - 1];
           && b.content == collected.value && b.agent.collected == b.batchSeq
           && |old(exporter.counters.exported)| <= b.agent.exported <= |exporter.counters.exported|
           && |old(exporter.counters.dropped)| <= b.agent.dropped <= |exporter.counters.dropped|
           && |old(exporter.counters.rejected)| <= b.agent.rejected <= |exporter.counters.rejected|
           && old(exporter.counters).retries <= b.agent.retries <= exporter.counters.retries
           && b.agent.queueDepth <= |old(exporter.queue)|
           && exporter.log.calls == old(exporter.log.calls) + if ctxDone then [] else [Queued(b, IdempotencyKey(instance, b.batchSeq))]
    {
      hide Inv, H.Reaches, IdempotencyKey;
      ghost var start := exporter.View();
      H.ReachesSelf(exporter.config, start);
      exporter.Interfere(start, H.ProducerSide, before);
      if collected.None? || stopping {
        return;
      }
      batchSeq := batchSeq + 1;
      var stats := Snapshot(start, batchSeq, loading);
      var batch := Batch(instance, batchSeq, stats, collected.value);
      stamped := stamped + [batch];
      ghost var ready := exporter.View();
      var err := exporter.Export(ctxDone, encodes, Queued(batch, IdempotencyKey(instance, batchSeq)), exporting);
      ReachesOn(exporter.config, start, ready, exporter.View());
    }
  }
}
