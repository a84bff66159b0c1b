/** The ways a collecting phase reports failures to its section, and the section
    as the object those calls update. */
module SectionOps {
  import opened Wrappers
  import opened Admission

  /** One failed shard of a sharded request; node is negative when the shard
      names no broker. */
  datatype Shard = Shard(node: int, kind: Kind, code: int, detail: string)

  /** The error of one API call as `request` tells them apart. */
  datatype ApiError =
    | ShardErrors(shards: seq<Shard>, allFailed: bool)
    | AuthError(code: int, detail: string)
    | PlainError(kind: Kind, code: int, detail: string)

  function ShardOccurrence(api: string, s: Shard): Occurrence {
    Occurrence(Fault(api, s.kind, s.code, if s.node >= 0 then Some(s.node) else None, s.detail), true)
  }

  function ShardOccurrences(api: string, shards: seq<Shard>): (os: seq<Occurrence>)
    ensures |os| == |shards|
  {
    if shards == [] then []
    else ShardOccurrences(api, shards[..|shards| - 1]) + [ShardOccurrence(api, shards[|shards| - 1])]
  }

  predicate AnyUnauthorized(shards: seq<Shard>) {
    exists i :: 0 <= i < |shards| && shards[i].kind.Authorization?
  }

  /** section.request: the new section and whether the response is usable. */
  function Request(s: Section, api: string, err: Option<ApiError>): (r: (Section, bool))
    requires Indexed(s)
    ensures Indexed(r.0)
  {
    match err
    case None => (s, true)
    case Some(ShardErrors(shards, allFailed)) =>
      var t := RecordAll(s, ShardOccurrences(api, shards));
      (Downgrade(t, if !allFailed then Partial else if AnyUnauthorized(shards) then Unauthorized else Failed), !allFailed)
    case Some(AuthError(code, detail)) =>
      (Downgrade(Record(s, Occurrence(Fault(api, Authorization, code, None, detail), true)), Unauthorized), false)
    case Some(PlainError(kind, code, detail)) =>
      (Downgrade(Record(s, Occurrence(Fault(api, kind, code, None, detail), true)),
                 if kind.Authorization? then Unauthorized else Failed), false)
  }

  /** section.requestPartial: with data in hand "failed" would be a lie. */
  function RequestPartial(s: Section, api: string, err: Option<ApiError>, gotData: bool): (r: (Section, bool))
    requires Indexed(s)
    ensures Indexed(r.0)
  {
    var (t, usable) := Request(s, api, err);
    if usable then (t, true)
    else if !gotData then (t, false)
    else (if t.status.Failed? || t.status.Unauthorized? then t.(status := Partial) else t, true)
  }

  /** What a call's own error says of its section: nothing when there is none,
      partial while some shard answered, and otherwise failed or unauthorized. */
  function Blames(err: ApiError): Status {
    match err
    case ShardErrors(shards, allFailed) =>
      if !allFailed then Partial else if exists s :: s in shards && s.kind.Authorization? then Unauthorized else Failed
    case AuthError(_, _) => Unauthorized
    case PlainError(kind, _, _) => if kind.Authorization? then Unauthorized else Failed
  }

  /** The response is usable exactly when the call succeeded or some shard did; a
      success changes nothing; and the status ends as the worse of what it was and
      what the error says. */
  lemma RequestOutcome(s: Section, api: string, err: Option<ApiError>)
    requires Indexed(s)
    ensures var (t, usable) := Request(s, api, err);
            && (usable <==> err.None? || (err.value.ShardErrors? && !err.value.allFailed))
            && (err.None? ==> t == s)
            && (err.Some? ==> t.status == if Rank(Blames(err.value)) > Rank(s.status) then Blames(err.value) else s.status)
  {
    hide Record;
    match err
    case None =>
    case Some(ShardErrors(shards, _)) =>
      ShardsScoped(api, shards);
      StatusKept(s, ShardOccurrences(api, shards));
    case Some(AuthError(code, detail)) =>
      RequestScopedKeepsStatus(s, Occurrence(Fault(api, Authorization, code, None, detail), true));
    case Some(PlainError(kind, code, detail)) =>
      RequestScopedKeepsStatus(s, Occurrence(Fault(api, kind, code, None, detail), true));
  }

  lemma RequestScopedKeepsStatus(s: Section, o: Occurrence)
    requires Indexed(s) && o.requestScoped
    ensures Record(s, o).status == s.status
  {
  }

  lemma {:induction false} StatusKept(s: Section, os: seq<Occurrence>)
    requires Indexed(s) && forall o :: o in os ==> o.requestScoped
    ensures RecordAll(s, os).status == s.status
  {
    hide Record;
    if os != [] {
      StatusKept(s, os[..|os| - 1]);
      RequestScopedKeepsStatus(RecordAll(s, os[..|os| - 1]), os[|os| - 1]);
    }
  }

  /** Every failed shard is recorded as a failure of the whole request, in order,
      with its own kind, code and, when it names one, broker. */
  lemma {:induction false} ShardsScoped(api: string, shards: seq<Shard>)
    ensures forall i :: 0 <= i < |shards| ==>
      var o := ShardOccurrences(api, shards)[i];
      && o.requestScoped && o.fault.api == api && o.fault.kind == shards[i].kind
      && o.fault.code == shards[i].code && o.fault.detail == shards[i].detail
      && o.fault.broker == (if shards[i].node < 0 then None else Some(shards[i].node))
  {
    if shards != [] {
      ShardsScoped(api, shards[..|shards| - 1]);
    }
  }

  /** With data in hand the response is usable whatever the error, and the section
      neither failed nor unauthorized for it; without data it is as Request says. */
  lemma PartialOutcome(s: Section, api: string, err: Option<ApiError>, gotData: bool)
    requires Indexed(s)
    ensures var (t, usable) := RequestPartial(s, api, err, gotData);
            var (u, answered) := Request(s, api, err);
            && (usable <==> answered || gotData)
            && (answered || !gotData ==> t == u)
            && (!answered && gotData ==> t == u.(status := t.status) && t.status.Partial?)
  {
    hide Record, RecordAll;
    RequestOutcome(s, api, err);
  }

  /** CutRows: a phase that left rows out on purpose says so. */
  datatype Op =
    | Add(fault: Fault)
    | OpRequest(api: string, err: Option<ApiError>)
    | OpRequestPartial(api: string, err: Option<ApiError>, gotData: bool)
    | Skip
    | CutRows

  function Apply(s: Section, op: Op): (t: Section)
    requires Indexed(s)
    ensures Indexed(t)
  {
    match op
    case Add(fault) => Record(s, Occurrence(fault, false))
    case OpRequest(api, err) => Request(s, api, err).0
    case OpRequestPartial(api, err, gotData) => RequestPartial(s, api, err, gotData).0
    case Skip => Downgrade(s, Skipped)
    case CutRows => s.(truncated := true)
  }

  function ApplyAll(s: Section, ops: seq<Op>): (t: Section)
    requires Indexed(s)
    ensures Indexed(t)
  {
    if ops == [] then s else Apply(ApplyAll(s, ops[..|ops| - 1]), ops[|ops| - 1])
  }

  /** The operation reports no failure. */
  predicate Quiet(op: Op) {
    op.CutRows? || ((op.OpRequest? || op.OpRequestPartial?) && op.err.None?)
  }

  /** The status an operation leaves behind. */
  lemma ApplyStatus(s: Section, op: Op)
    requires Indexed(s)
    ensures Quiet(op) ==> Apply(s, op).status == s.status
    ensures op.Skip? ==> Apply(s, op) == s.(status := if s.status.StatusOk? then Skipped else s.status)
    ensures !Quiet(op) && !op.Skip? ==> Rank(Apply(s, op).status) >= Rank(Partial)
  {
    match op
    case Add(fault) => AddStatus(s, fault);
    case OpRequest(api, err) => RequestOutcome(s, api, err);
    case OpRequestPartial(api, err, gotData) => RequestOutcome(s, api, err); PartialOutcome(s, api, err, gotData);
    case _ =>
  }

  lemma AddStatus(s: Section, fault: Fault)
    requires Indexed(s)
    ensures Rank(Record(s, Occurrence(fault, false)).status) >= Rank(Partial)
  {
    hide Priority;
  }

  /** A section ends ok exactly when its phase reported no failure, and skipped
      exactly when it reported nothing but that it was skipped. */
  lemma {:induction false} StatusTells(name: string, lim: Limits, ops: seq<Op>)
    ensures var status := ApplyAll(Fresh(name, lim), ops).status;
            && (status.StatusOk? <==> forall op :: op in ops ==> Quiet(op))
            && (status.Skipped? <==> (forall op :: op in ops ==> Quiet(op) || op.Skip?) && Skip in ops)
  {
    hide Apply, Quiet;
    if ops != [] {
      var before, last := ops[..|ops| - 1], ops[|ops| - 1];
      StatusTells(name, lim, before);
      ApplyStatus(ApplyAll(Fresh(name, lim), before), last);
      assert ops == before + [last];
    }
  }

  // ---------------------------------------------------------------------------
  // What every section built this way satisfies
  // ---------------------------------------------------------------------------

  /** Entries carry the section's name and an admissible priority, and counts
      are never negative. */
  ghost predicate WellFormed(s: Section) {
    && Counted(s)
    && (forall i :: 0 <= i < |s.errs| ==> s.errs[i].section == s.name && s.errs[i].count >= 0)
    && (forall i :: 0 <= i < |s.prios| ==> s.prios[i] <= PRIO_ENTITY)
    && s.globalDropped == 0
  }

  /** A section with errors, kept or refused, does not claim to be ok. */
  predicate Honest(s: Section) {
    (s.errs != [] || s.dropped > 0 ==> Rank(s.status) >= Rank(Partial))
  }

  lemma RecordWellFormed(s: Section, o: Occurrence)
    requires WellFormed(s)
    ensures WellFormed(Record(s, o)) && Record(s, o).name == s.name
  {
    hide Sum, KeyCounted, Priority;
    RecordCounts(s, o);
    if Judge(s, o).Folded? {
      FoldedCountPositive(s, KeyOf(o.fault));
    }
  }

  lemma FoldedCountPositive(s: Section, k: Key)
    requires Counted(s) && k in s.keys && s.keys[k].repIdx >= 0
    ensures s.keys[k].seen + 1 - (s.keys[k].samples - 1) >= 2
  {
    hide Sum;
    assert KeyCounted(s, k);
  }

  lemma {:induction false} RecordAllWellFormed(s: Section, os: seq<Occurrence>)
    requires WellFormed(s)
    ensures WellFormed(RecordAll(s, os)) && RecordAll(s, os).name == s.name
  {
    hide KeyCounted, Sum, Record;
    if os != [] {
      RecordAllWellFormed(s, os[..|os| - 1]);
      RecordWellFormed(RecordAll(s, os[..|os| - 1]), os[|os| - 1]);
    }
  }

  lemma DowngradeKeeps(s: Section, to: Status)
    requires WellFormed(s)
    ensures WellFormed(Downgrade(s, to))
    ensures Rank(Downgrade(s, to).status) >= Rank(to) && Rank(Downgrade(s, to).status) >= Rank(s.status)
  {
    hide Sum;
    assert forall k :: KeyCounted(Downgrade(s, to), k) <== KeyCounted(s, k);
  }

  lemma RequestKeeps(s: Section, api: string, err: Option<ApiError>)
    requires WellFormed(s) && Honest(s)
    ensures WellFormed(Request(s, api, err).0) && Honest(Request(s, api, err).0) && Request(s, api, err).0.name == s.name
  {
    hide KeyCounted, Sum, Record, RecordAll;
    match err
    case None =>
    case Some(ShardErrors(shards, allFailed)) =>
      var os := ShardOccurrences(api, shards);
      RecordAllWellFormed(s, os);
      DowngradeKeeps(RecordAll(s, os), if !allFailed then Partial else if AnyUnauthorized(shards) then Unauthorized else Failed);
    case Some(AuthError(code, detail)) =>
      var o := Occurrence(Fault(api, Authorization, code, None, detail), true);
      RecordWellFormed(s, o);
      DowngradeKeeps(Record(s, o), Unauthorized);
    case Some(PlainError(kind, code, detail)) =>
      var o := Occurrence(Fault(api, kind, code, None, detail), true);
      RecordWellFormed(s, o);
      DowngradeKeeps(Record(s, o), if kind.Authorization? then Unauthorized else Failed);
  }

  lemma CorrectionKeeps(s: Section)
    requires WellFormed(s)
    ensures WellFormed(s.(status := Partial))
  {
    hide Sum;
    assert forall k :: KeyCounted(s.(status := Partial), k) <== KeyCounted(s, k);
  }

  lemma CutKeeps(s: Section)
    requires WellFormed(s)
    ensures WellFormed(s.(truncated := true))
  {
    hide Sum;
    assert forall k :: KeyCounted(s.(truncated := true), k) <== KeyCounted(s, k);
  }

  lemma ApplyKeeps(s: Section, op: Op)
    requires WellFormed(s) && Honest(s)
    ensures WellFormed(Apply(s, op)) && Honest(Apply(s, op)) && Apply(s, op).name == s.name
  {
    hide Sum, KeyCounted;
    match op
    case Add(fault) =>
      RecordWellFormed(s, Occurrence(fault, false));
    case OpRequest(api, err) =>
      RequestKeeps(s, api, err);
    case OpRequestPartial(api, err, _) =>
      RequestKeeps(s, api, err);
      CorrectionKeeps(Request(s, api, err).0);
    case Skip =>
      DowngradeKeeps(s, Skipped);
    case CutRows =>
      CutKeeps(s);
  }

  /** Whatever a phase reports, in whatever order, its section ends well-formed
      and never "ok" while it holds or has refused an error. */
  lemma {:induction false} OpsKeepSections(name: string, lim: Limits, ops: seq<Op>)
    ensures var s := ApplyAll(Fresh(name, lim), ops);
            WellFormed(s) && Honest(s) && s.name == name
  {
    hide KeyCounted, Sum, Apply;
    if ops != [] {
      OpsKeepSections(name, lim, ops[..|ops| - 1]);
      ApplyKeeps(ApplyAll(Fresh(name, lim), ops[..|ops| - 1]), ops[|ops| - 1]);
    } else {
      FreshWellFormed(name, lim);
    }
  }

  lemma FreshWellFormed(name: string, lim: Limits)
    ensures WellFormed(Fresh(name, lim))
  {
  }
}
