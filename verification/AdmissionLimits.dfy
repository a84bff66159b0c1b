/** What the budget, the sample count and the key ceiling limit, stated on the
    entries, priorities and tallies of a section. */
module AdmissionLimits {
  import opened Wrappers
  import opened Admission
  import opened SectionOps

  /** A request-scoped failure has the best priority of all; of the others,
      authorization, unsupported, coordinator and transport failures come in that
      order before everything else, which alone is subject to a budget. */
  lemma PriorityOrder(f: Fault, g: Fault)
    ensures Priority(f, true) < Priority(g, false)
    ensures f.kind.Authorization? && g.kind.Unsupported? ==> Priority(f, false) < Priority(g, false)
    ensures f.kind.Unsupported? && g.kind.Coordinator? ==> Priority(f, false) < Priority(g, false)
    ensures f.kind.Coordinator? && g.kind.Transport? ==> Priority(f, false) < Priority(g, false)
    ensures f.kind.Transport? && g.kind.OtherKind? ==> Priority(f, false) < Priority(g, false)
    ensures Priority(g, false) == PRIO_ENTITY <==> g.kind.OtherKind?
  {
  }

  /** Two failures share a key exactly when they agree on API, kind, code and
      broker, a missing broker being no broker's number. */
  lemma KeyIdentity(f: Fault, g: Fault)
    requires f.broker.Some? ==> f.broker.value >= 0
    requires g.broker.Some? ==> g.broker.value >= 0
    ensures KeyOf(f) == KeyOf(g) <==> f.api == g.api && f.kind == g.kind && f.code == g.code && f.broker == g.broker
  {
  }

  /** A new key of entity priority is refused exactly when the section already has
      maxErrors entries, if a budget is set, or 256 keys: it leaves no entry and
      is counted as dropped. Every other new key gets an entry of its own,
      whatever the budget. */
  lemma NewKeyFate(s: Section, o: Occurrence)
    requires Indexed(s) && KeyOf(o.fault) !in s.keys
    ensures var t := Record(s, o);
            var entity := !o.requestScoped && o.fault.kind.OtherKind?;
            var full := (s.lim.maxErrors > 0 && |s.errs| >= s.lim.maxErrors) || |s.keys| >= 256;
            if entity && full then
              t.errs == s.errs && t.prios == s.prios && t.dropped == s.dropped + 1 && t.truncated && t.collapsed == s.collapsed
            else
              && t.errs == s.errs + [Entry(s.name, o.fault, 0)]
              && t.prios == s.prios + [Priority(o.fault, o.requestScoped)]
              && t.dropped == s.dropped && t.collapsed == s.collapsed && t.truncated == s.truncated
  {
  }

  /** A key with entries: another sample while the sample count allows it and, for
      the entity flood, the budget too; after that it is folded into the first
      entry. A key once refused swallows what follows. */
  lemma KnownKeyFate(s: Section, o: Occurrence)
    requires Counted(s) && KeyOf(o.fault) in s.keys
    ensures var t, k := Record(s, o), KeyOf(o.fault);
            var entity := !o.requestScoped && o.fault.kind.OtherKind?;
            var spent := s.lim.maxErrors > 0 && |s.errs| >= s.lim.maxErrors;
            var samples := if s.lim.maxErrorSamples < 1 then 1 else s.lim.maxErrorSamples;
            if s.keys[k].repIdx < 0 then
              t.errs == s.errs && t.prios == s.prios && t.dropped == s.dropped && t.collapsed == s.collapsed && t.truncated == s.truncated
            else if Sum(s.errs, One(k)) < samples && !(entity && spent) then
              && t.errs == s.errs + [Entry(s.name, o.fault, 0)]
              && t.prios == s.prios + [Priority(o.fault, o.requestScoped)]
              && t.dropped == s.dropped && t.collapsed == s.collapsed && t.truncated == s.truncated
            else
              && |t.errs| == |s.errs| && t.prios == s.prios
              && t.dropped == s.dropped && t.collapsed == s.collapsed + 1 && t.truncated
              && Sum(t.errs, WeightOf(k)) == Sum(s.errs, WeightOf(k)) + 1
  {
    hide Sum, Priority;
    assert KeyCounted(s, KeyOf(o.fault));
    RecordCounts(s, o);
    assert KeyAdvanced(s, o, KeyOf(o.fault));
    hide KeyAdvanced, KeyCounted;
    assert Priority(o.fault, o.requestScoped) == PRIO_ENTITY <==> !o.requestScoped && o.fault.kind.OtherKind? by {
      EntityPriority(o);
    }
  }

  lemma EntityPriority(o: Occurrence)
    ensures Priority(o.fault, o.requestScoped) == PRIO_ENTITY <==> !o.requestScoped && o.fault.kind.OtherKind?
  {
  }

  /** A request-scoped failure leaves the status alone; an entity-scoped one makes
      it partial unless it is worse already. */
  lemma RecordStatus(s: Section, o: Occurrence)
    requires Indexed(s)
    ensures Record(s, o).status ==
      if o.requestScoped || s.status.Partial? || s.status.Failed? || s.status.Unauthorized? then s.status else Partial
  {
  }

  // ---------------------------------------------------------------------------
  // Over any sequence of occurrences
  // ---------------------------------------------------------------------------

  function EntityEntries(prios: seq<nat>): nat {
    if prios == [] then 0 else EntityEntries(prios[..|prios| - 1]) + if prios[|prios| - 1] == PRIO_ENTITY then 1 else 0
  }

  lemma {:induction false} EntriesWithin(prios: seq<nat>, bound: nat)
    requires forall i :: 0 <= i < |prios| && prios[i] == PRIO_ENTITY ==> i < bound
    ensures EntityEntries(prios) <= bound && EntityEntries(prios) <= |prios|
  {
    if prios != [] {
      var n := |prios| - 1;
      if n < bound {
        EntriesWithin(prios[..n], n);
      } else {
        EntriesWithin(prios[..n], bound);
      }
    }
  }

  /** Entity-priority entries lie below the budget, and the truncated flag says
      exactly that something was folded, dropped, or cut on purpose. */
  ghost predicate Limited(s: Section, cut: bool) {
    && |s.prios| == |s.errs|
    && (s.lim.maxErrors > 0 ==> forall i :: 0 <= i < |s.prios| && s.prios[i] == PRIO_ENTITY ==> i < s.lim.maxErrors)
    && (s.truncated <==> s.collapsed > 0 || s.dropped > 0 || cut)
  }

  lemma RecordLimited(s: Section, o: Occurrence, cut: bool)
    requires Indexed(s) && Limited(s, cut)
    ensures Limited(Record(s, o), cut) && Record(s, o).lim == s.lim
  {
    hide Priority;
  }

  /** One occurrence of entity priority never takes the section past the budget. */
  lemma EntityStaysWithin(s: Section, o: Occurrence)
    requires Indexed(s) && s.lim.maxErrors > 0 && !o.requestScoped && o.fault.kind.OtherKind?
    ensures |Record(s, o).errs| == |s.errs| || |Record(s, o).errs| <= s.lim.maxErrors
  {
    EntityPriority(o);
    hide Priority;
  }

  lemma FreshLimited(name: string, lim: Limits)
    ensures Limited(Fresh(name, lim), false)
  {
  }

  lemma {:induction false} RunLimited(name: string, lim: Limits, os: seq<Occurrence>)
    ensures var s := RecordAll(Fresh(name, lim), os); Limited(s, false) && s.lim == lim
  {
    if os != [] {
      hide Limited, Record;
      RunLimited(name, lim, os[..|os| - 1]);
      RecordLimited(RecordAll(Fresh(name, lim), os[..|os| - 1]), os[|os| - 1], false);
    } else {
      FreshLimited(name, lim);
    }
  }

  /** So does every way a phase has of reporting. */
  lemma {:induction false} OpsLimited(name: string, lim: Limits, ops: seq<Op>)
    ensures Limited(ApplyAll(Fresh(name, lim), ops), CutRows in ops)
  {
    hide Apply, Limited;
    if ops == [] {
      FreshLimited(name, lim);
    } else {
      var before, last := ops[..|ops| - 1], ops[|ops| - 1];
      var s, cut := ApplyAll(Fresh(name, lim), before), CutRows in before;
      OpsLimited(name, lim, before);
      ApplyLimited(s, last, cut);
      assert ops == before + [last];
    }
  }

  lemma ApplyLimited(s: Section, op: Op, cut: bool)
    requires Indexed(s) && Limited(s, cut)
    ensures Limited(Apply(s, op), cut || op.CutRows?)
  {
    hide Record, RecordAll;
    match op
    case Add(fault) => RecordLimited(s, Occurrence(fault, false), cut);
    case OpRequest(api, err) => RequestLimited(s, api, err, cut);
    case OpRequestPartial(api, err, _) => RequestLimited(s, api, err, cut);
    case _ =>
  }

  lemma RequestLimited(s: Section, api: string, err: Option<ApiError>, cut: bool)
    requires Indexed(s) && Limited(s, cut)
    ensures Limited(Request(s, api, err).0, cut)
  {
    hide Record, RecordAll;
    match err
    case None =>
    case Some(ShardErrors(shards, _)) => AllLimited(s, ShardOccurrences(api, shards), cut);
    case Some(AuthError(code, detail)) => RecordLimited(s, Occurrence(Fault(api, Authorization, code, None, detail), true), cut);
    case Some(PlainError(kind, code, detail)) => RecordLimited(s, Occurrence(Fault(api, kind, code, None, detail), true), cut);
  }

  lemma {:induction false} AllLimited(s: Section, os: seq<Occurrence>, cut: bool)
    requires Indexed(s) && Limited(s, cut)
    ensures Limited(RecordAll(s, os), cut)
  {
    hide Record, Limited;
    if os != [] {
      AllLimited(s, os[..|os| - 1], cut);
      RecordLimited(RecordAll(s, os[..|os| - 1]), os[|os| - 1], cut);
    }
  }

  /** With a budget set, however the occurrences come: one of entity priority
      never takes the section past the budget, so the section never holds more
      than maxErrors entries of that priority; and it says it is truncated
      exactly when something was folded or dropped. */
  lemma BudgetHolds(name: string, lim: Limits, os: seq<Occurrence>, o: Occurrence)
    ensures var s := RecordAll(Fresh(name, lim), os);
            && (s.truncated <==> s.collapsed > 0 || s.dropped > 0)
            && (lim.maxErrors > 0 ==> EntityEntries(s.prios) <= lim.maxErrors)
            && (lim.maxErrors > 0 && !o.requestScoped && o.fault.kind.OtherKind? ==>
                  |Record(s, o).errs| == |s.errs| || |Record(s, o).errs| <= lim.maxErrors)
  {
    hide Record, EntityEntries;
    RunLimited(name, lim, os);
    var s := RecordAll(Fresh(name, lim), os);
    if lim.maxErrors > 0 {
      EntriesWithin(s.prios, lim.maxErrors);
      if !o.requestScoped && o.fault.kind.OtherKind? {
        EntityStaysWithin(s, o);
      }
    }
  }

  /** No key ever has more entries than the sample count. */
  ghost predicate Sampled(s: Section) {
    forall k :: k in s.keys ==> s.keys[k].samples <= s.lim.ErrorSamples()
  }

  lemma {:induction false} RunSampled(name: string, lim: Limits, os: seq<Occurrence>)
    ensures var s := RecordAll(Fresh(name, lim), os); Counted(s) && Sampled(s) && s.lim == lim
  {
    hide Counted;
    if os != [] {
      var before := RecordAll(Fresh(name, lim), os[..|os| - 1]);
      RunSampled(name, lim, os[..|os| - 1]);
      RecordCounts(before, os[|os| - 1]);
      RecordSampled(before, os[|os| - 1]);
      hide Record, Sampled;
    } else {
      FreshCounted(name, lim);
    }
  }

  lemma RecordSampled(s: Section, o: Occurrence)
    requires Indexed(s) && Sampled(s)
    ensures Sampled(Record(s, o)) && Record(s, o).lim == s.lim
  {
    hide Priority;
  }

  lemma FreshCounted(name: string, lim: Limits)
    ensures Counted(Fresh(name, lim))
  {
  }

  lemma SamplesBounded(name: string, lim: Limits, os: seq<Occurrence>, k: Key)
    ensures Sum(RecordAll(Fresh(name, lim), os).errs, One(k)) <= if lim.maxErrorSamples < 1 then 1 else lim.maxErrorSamples
  {
    hide Sum;
    RunSampled(name, lim, os);
    assert KeyCounted(RecordAll(Fresh(name, lim), os), k);
  }
}
