/** How one section admits errors: deduplication with exemplars and samples, a
    budget for the entity-scoped flood, and a ceiling on remembered keys. */
module Admission {
  import opened Wrappers

  datatype Kind = Authorization | Coordinator | Transport | Unsupported | OtherKind

  datatype Status = StatusOk | Skipped | Partial | Failed | Unauthorized

  function Rank(s: Status): nat {
    match s
    case StatusOk => 0
    case Skipped => 1
    case Partial => 2
    case Failed => 3
    case Unauthorized => 4
  }

  /** What newError and its callers know of one failure; `detail` stands for the
      message and the topic, partition, group or directory it names. */
  datatype Fault = Fault(api: string, kind: Kind, code: int, broker: Option<int>, detail: string)

  /** One entry of errors[]. A count of 0 is absent on the wire and means 1. */
  datatype Entry = Entry(section: string, fault: Fault, count: int)

  function Weight(e: Entry): int {
    if e.count == 0 then 1 else e.count
  }

  /** The section budget and the sample count, as configured. */
  datatype Limits = Limits(maxErrors: int, maxErrorSamples: int) {
    function ErrorSamples(): nat {
      if maxErrorSamples < 1 then 1 else maxErrorSamples
    }

    predicate WithinBudget(n: nat) {
      maxErrors <= 0 || n < maxErrors
    }
  }

  const NO_BROKER := -0x8000_0000
  const MAX_DISTINCT_KEYS := 256

  datatype Key = Key(api: string, kind: Kind, code: int, broker: int)

  function KeyOf(f: Fault): Key {
    Key(f.api, f.kind, f.code, if f.broker.Some? then f.broker.value else NO_BROKER)
  }

  const PRIO_ENTITY: nat := 5

  /** Lower survives a budget. */
  function Priority(f: Fault, requestScoped: bool): (p: nat)
    ensures p <= PRIO_ENTITY
  {
    if requestScoped then 0
    else match f.kind
      case Authorization => 1
      case Unsupported => 2
      case Coordinator => 3
      case Transport => 4
      case OtherKind => PRIO_ENTITY
  }

  /** One deduplication key: the exemplar's index (-1 once refused), how many
      entries were emitted verbatim, how many occurrences were seen. */
  datatype Bucket = Bucket(repIdx: int, samples: nat, seen: nat)

  datatype Section = Section(
    name: string,
    lim: Limits,
    status: Status,
    errs: seq<Entry>,
    prios: seq<nat>,
    keys: map<Key, Bucket>,
    collapsed: nat,
    dropped: nat,
    truncated: bool,
    globalDropped: nat)

  function Fresh(name: string, lim: Limits): Section {
    Section(name, lim, StatusOk, [], [], map[], 0, 0, false, 0)
  }

  function Downgrade(s: Section, to: Status): Section {
    if Rank(to) > Rank(s.status) then s.(status := to) else s
  }

  /** One failure reaching the funnel. */
  datatype Occurrence = Occurrence(fault: Fault, requestScoped: bool)

  /** What becomes of an occurrence. `Refused` is counted in ErrorsDropped;
      `Swallowed` belongs to a key that was refused before. */
  datatype Verdict = Emitted | Folded | Refused | Swallowed

  function Judge(s: Section, o: Occurrence): Verdict {
    var prio, k := Priority(o.fault, o.requestScoped), KeyOf(o.fault);
    if k in s.keys then
      var b := s.keys[k];
      if b.repIdx < 0 then Swallowed
      else if b.samples < s.lim.ErrorSamples() && (prio < PRIO_ENTITY || s.lim.WithinBudget(|s.errs|)) then Emitted
      else Folded
    else if prio == PRIO_ENTITY && (!s.lim.WithinBudget(|s.errs|) || |s.keys| >= MAX_DISTINCT_KEYS) then Refused
    else Emitted
  }

  function Append(s: Section, o: Occurrence): Section {
    s.(errs := s.errs + [Entry(s.name, o.fault, 0)], prios := s.prios + [Priority(o.fault, o.requestScoped)])
  }

  /** Bucket indices stay inside errs. */
  predicate Indexed(s: Section) {
    forall k :: k in s.keys ==> s.keys[k].repIdx < |s.errs|
  }

  function Record(s: Section, o: Occurrence): (t: Section)
    requires Indexed(s)
    ensures Indexed(t)
  {
    var d := if o.requestScoped then s else Downgrade(s, Partial);
    var k := KeyOf(o.fault);
    match Judge(s, o)
    case Emitted =>
      if k in s.keys then
        var b := s.keys[k];
        Append(d, o).(keys := s.keys[k := b.(samples := b.samples + 1, seen := b.seen + 1)])
      else
        Append(d, o).(keys := s.keys[k := Bucket(|s.errs|, 1, 1)])
    case Folded =>
      var b := s.keys[k].(seen := s.keys[k].seen + 1);
      var exemplar := s.errs[b.repIdx];
      d.(errs := s.errs[b.repIdx := exemplar.(count := b.seen - (b.samples - 1))],
         keys := s.keys[k := b], collapsed := s.collapsed + 1, truncated := true)
    case Refused =>
      d.(dropped := s.dropped + 1, truncated := true,
         keys := if |s.keys| >= MAX_DISTINCT_KEYS then s.keys else s.keys[k := Bucket(-1, 0, 1)])
    case Swallowed =>
      d.(keys := s.keys[k := s.keys[k].(seen := s.keys[k].seen + 1)])
  }

  function RecordAll(s: Section, os: seq<Occurrence>): (t: Section)
    requires Indexed(s)
    ensures Indexed(t)
  {
    if os == [] then s else Record(RecordAll(s, os[..|os| - 1]), os[|os| - 1])
  }

  // ---------------------------------------------------------------------------
  // Sums over entries
  // ---------------------------------------------------------------------------

  function Sum(es: seq<Entry>, f: Entry -> int): int {
    if es == [] then 0 else Sum(es[..|es| - 1], f) + f(es[|es| - 1])
  }

  function WeightOf(k: Key): Entry -> int {
    (e: Entry) => if KeyOf(e.fault) == k then Weight(e) else 0
  }

  function One(k: Key): Entry -> int {
    (e: Entry) => if KeyOf(e.fault) == k then 1 else 0
  }

  lemma SumAppend(es: seq<Entry>, e: Entry, f: Entry -> int)
    ensures Sum(es + [e], f) == Sum(es, f) + f(e)
  {
    assert (es + [e])[..|es|] == es;
  }

  lemma {:induction false} SumUpdate(es: seq<Entry>, i: nat, e: Entry, f: Entry -> int)
    requires i < |es|
    ensures Sum(es[i := e], f) == Sum(es, f) - f(es[i]) + f(e)
  {
    var n := |es| - 1;
    if i == n {
      assert es[i := e][..n] == es[..n];
    } else {
      SumUpdate(es[..n], i, e, f);
      assert es[i := e][..n] == es[..n][i := e];
    }
  }

  // ---------------------------------------------------------------------------
  // One step
  // ---------------------------------------------------------------------------

  /** An admitted key's exemplar carries whatever its other entries, each one
      occurrence, do not; a key without an exemplar has no entries. */
  ghost predicate KeyCounted(s: Section, k: Key) {
    if k in s.keys && s.keys[k].repIdx >= 0 then
      var b := s.keys[k];
      && b.repIdx < |s.errs|
      && KeyOf(s.errs[b.repIdx].fault) == k
      && Sum(s.errs, WeightOf(k)) == b.seen
      && Sum(s.errs, One(k)) == b.samples
      && Weight(s.errs[b.repIdx]) + b.samples == b.seen + 1
      && b.seen >= b.samples
    else Sum(s.errs, One(k)) == 0 && Sum(s.errs, WeightOf(k)) == 0
  }

  ghost predicate Counted(s: Section) {
    && Indexed(s)
    && |s.prios| == |s.errs|
    && (forall k :: KeyCounted(s, k))
    && Sum(s.errs, Weight) == |s.errs| + s.collapsed
  }

  predicate Kept(v: Verdict) {
    v.Emitted? || v.Folded?
  }

  /** The effect of one occurrence on one key. */
  ghost predicate KeyAdvanced(s: Section, o: Occurrence, k: Key)
    requires Indexed(s)
  {
    var t := Record(s, o);
    && KeyCounted(t, k)
    && Sum(t.errs, WeightOf(k)) == Sum(s.errs, WeightOf(k)) + if Kept(Judge(s, o)) && KeyOf(o.fault) == k then 1 else 0
  }

  lemma EmitKey(s: Section, o: Occurrence, k: Key)
    requires Indexed(s) && KeyCounted(s, k) && Judge(s, o).Emitted?
    ensures KeyAdvanced(s, o, k)
  {
    hide Sum, Priority;
    var e := Entry(s.name, o.fault, 0);
    SumAppend(s.errs, e, WeightOf(k));
    SumAppend(s.errs, e, One(k));
  }

  lemma FoldKey(s: Section, o: Occurrence, k: Key)
    requires Indexed(s) && KeyCounted(s, k) && KeyCounted(s, KeyOf(o.fault)) && Judge(s, o).Folded?
    ensures KeyAdvanced(s, o, k)
  {
    hide Sum, Priority;
    var i := s.keys[KeyOf(o.fault)].repIdx;
    var e := Record(s, o).errs[i];
    SumUpdate(s.errs, i, e, WeightOf(k));
    SumUpdate(s.errs, i, e, One(k));
  }

  lemma LoseKey(s: Section, o: Occurrence, k: Key)
    requires Indexed(s) && KeyCounted(s, k) && !Kept(Judge(s, o))
    ensures KeyAdvanced(s, o, k)
  {
    hide Sum, Priority;
  }

  /** The section's own tallies, in step with the verdict. */
  lemma RecordTallies(s: Section, o: Occurrence)
    requires Counted(s)
    ensures var t, v := Record(s, o), Judge(s, o);
            && |t.prios| == |t.errs| == |s.errs| + (if v.Emitted? then 1 else 0)
            && t.collapsed == s.collapsed + (if v.Folded? then 1 else 0)
            && t.dropped == s.dropped + (if v.Refused? then 1 else 0)
            && Sum(t.errs, Weight) == |t.errs| + t.collapsed
  {
    hide Sum, Priority;
    assert KeyCounted(s, KeyOf(o.fault));
    if Judge(s, o).Emitted? {
      SumAppend(s.errs, Entry(s.name, o.fault, 0), Weight);
    } else if Judge(s, o).Folded? {
      var i := s.keys[KeyOf(o.fault)].repIdx;
      SumUpdate(s.errs, i, Record(s, o).errs[i], Weight);
    }
  }

  /** Each occurrence that is emitted or folded adds exactly one to its key's
      total; every other key's total is untouched. */
  lemma RecordCounts(s: Section, o: Occurrence)
    requires Counted(s)
    ensures Counted(Record(s, o))
    ensures forall k :: KeyAdvanced(s, o, k)
  {
    hide Sum, Priority, Judge, Record, KeyCounted, KeyAdvanced;
    RecordTallies(s, o);
    forall k ensures KeyAdvanced(s, o, k) && KeyCounted(Record(s, o), k) {
      assert KeyCounted(s, k) && KeyCounted(s, KeyOf(o.fault));
      match Judge(s, o)
      case Emitted => EmitKey(s, o, k); AdvancedIsCounted(s, o, k);
      case Folded => FoldKey(s, o, k); AdvancedIsCounted(s, o, k);
      case _ => LoseKey(s, o, k); AdvancedIsCounted(s, o, k);
    }
  }

  lemma AdvancedIsCounted(s: Section, o: Occurrence, k: Key)
    requires Indexed(s) && KeyAdvanced(s, o, k)
    ensures KeyCounted(Record(s, o), k)
  {
    hide Record, Judge;
  }
}
