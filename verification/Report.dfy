/** The errors, sections and truncation blocks of a finished batch, and what the
    ingest's validator re-derives from them. */
module Report {
  import opened Wrappers
  import opened Admission
  import opened SectionOps
  import opened AdmissionLimits
  import opened MergeErrors

  datatype Row = Row(name: string, status: Status, errorCount: int, collapsed: nat, dropped: nat, truncated: bool)

  datatype Truncation = Truncation(collapsed: nat, dropped: nat)

  datatype Blocks = Blocks(errors: seq<Entry>, sections: seq<Row>, truncation: Option<Truncation>)

  // ---------------------------------------------------------------------------
  // Assembly
  // ---------------------------------------------------------------------------

  /** The entries a row of the admission table keeps, in their order. */
  function Pick(es: seq<Entry>, row: seq<bool>): seq<Entry>
    requires |es| == |row|
  {
    if es == [] then []
    else Pick(es[..|es| - 1], row[..|row| - 1]) + if row[|row| - 1] then [es[|es| - 1]] else []
  }

  /** mergeErrors' write-back onto one section. */
  function Reject(s: Section, row: seq<bool>): Section
    requires |row| == |s.errs|
  {
    var rejected := |row| - CountRow(row);
    if rejected > 0 then s.(globalDropped := rejected, dropped := s.dropped + rejected, truncated := true) else s
  }

  function Finish(s: Section): Row {
    Row(s.name, s.status, |s.errs| - s.globalDropped, s.collapsed, s.dropped, s.truncated)
  }

  /** section.finish on a nil section. */
  const NIL_ROW := Row("", Skipped, 0, 0, 0, false)

  predicate Fits(secs: seq<Option<Section>>, table: seq<seq<bool>>) {
    && |table| == |secs|
    && forall i :: 0 <= i < |secs| ==> |table[i]| == if secs[i].Some? then |secs[i].value.errs| else 0
  }

  function RowOf(s: Option<Section>, row: seq<bool>): Row
    requires s.Some? ==> |row| == |s.value.errs|
  {
    if s.None? then NIL_ROW else Finish(Reject(s.value, row))
  }

  function KeptOf(s: Option<Section>, row: seq<bool>): seq<Entry>
    requires s.Some? ==> |row| == |s.value.errs|
  {
    if s.None? then [] else Pick(s.value.errs, row)
  }

  /** errors[], in canonical order. */
  function Errors(secs: seq<Option<Section>>, table: seq<seq<bool>>): seq<Entry>
    requires Fits(secs, table)
  {
    if secs == [] then []
    else
      var n := |secs| - 1;
      Errors(secs[..n], table[..n]) + KeptOf(secs[n], table[n])
  }

  function Rows(secs: seq<Option<Section>>, table: seq<seq<bool>>): seq<Row>
    requires Fits(secs, table)
  {
    seq(|secs|, i requires 0 <= i < |secs| => RowOf(secs[i], table[i]))
  }

  function CollapsedOver(rows: seq<Row>): nat {
    if rows == [] then 0 else CollapsedOver(rows[..|rows| - 1]) + rows[|rows| - 1].collapsed
  }

  function DroppedOver(rows: seq<Row>): nat {
    if rows == [] then 0 else DroppedOver(rows[..|rows| - 1]) + rows[|rows| - 1].dropped
  }

  function TruncationOver(rows: seq<Row>): Option<Truncation> {
    var t := Truncation(CollapsedOver(rows), DroppedOver(rows));
    if t == Truncation(0, 0) then None else Some(t)
  }

  /** finalize, once the cap has drawn its table. */
  function Assemble(secs: seq<Option<Section>>, table: seq<seq<bool>>): Blocks
    requires Fits(secs, table)
  {
    Blocks(Errors(secs, table), Rows(secs, table), TruncationOver(Rows(secs, table)))
  }

  // ---------------------------------------------------------------------------
  // What the validator asks
  // ---------------------------------------------------------------------------

  function CountNamed(es: seq<Entry>, name: string): nat {
    if es == [] then 0 else CountNamed(es[..|es| - 1], name) + if es[|es| - 1].section == name then 1 else 0
  }

  predicate NamesDistinct(b: Blocks) {
    && (forall i :: 0 <= i < |b.sections| ==> b.sections[i].name != "")
    && forall i, j :: 0 <= i < j < |b.sections| ==> b.sections[i].name != b.sections[j].name
  }

  predicate ErrorCountsExact(b: Blocks) {
    forall i :: 0 <= i < |b.sections| ==> b.sections[i].errorCount == CountNamed(b.errors, b.sections[i].name)
  }

  predicate HasSection(b: Blocks, name: string) {
    exists i :: 0 <= i < |b.sections| && b.sections[i].name == name
  }

  predicate SectionsKnown(b: Blocks) {
    forall k :: 0 <= k < |b.errors| ==> HasSection(b, b.errors[k].section)
  }

  predicate NoOkWithErrors(b: Blocks) {
    forall i :: 0 <= i < |b.sections| ==> !(b.sections[i].status.StatusOk? && b.sections[i].errorCount > 0)
  }

  predicate CountsNotNegative(b: Blocks) {
    forall k :: 0 <= k < |b.errors| ==> b.errors[k].count >= 0
  }

  predicate TruncationAgrees(b: Blocks) {
    match b.truncation
    case None => true
    case Some(t) => t != Truncation(0, 0) && t.collapsed == CollapsedOver(b.sections) && t.dropped == DroppedOver(b.sections)
  }

  predicate Conforms(b: Blocks) {
    NamesDistinct(b) && ErrorCountsExact(b) && SectionsKnown(b) && NoOkWithErrors(b)
    && CountsNotNegative(b) && TruncationAgrees(b)
  }

  // ---------------------------------------------------------------------------
  // Assembled blocks conform
  // ---------------------------------------------------------------------------

  lemma CountNamedConcat(xs: seq<Entry>, ys: seq<Entry>, name: string)
    ensures CountNamed(xs + ys, name) == CountNamed(xs, name) + CountNamed(ys, name)
  {
    if ys == [] {
      assert xs + ys == xs;
    } else {
      CountNamedConcat(xs, ys[..|ys| - 1], name);
      assert (xs + ys)[..|xs + ys| - 1] == xs + ys[..|ys| - 1];
    }
  }

  /** All of one owner's entries, with sane counts. */
  predicate OwnedBy(es: seq<Entry>, owner: string) {
    forall i :: 0 <= i < |es| ==> es[i].section == owner && es[i].count >= 0
  }

  lemma {:induction false} PickCounts(es: seq<Entry>, row: seq<bool>)
    requires |es| == |row|
    ensures |Pick(es, row)| == CountRow(row)
    ensures forall k :: 0 <= k < |Pick(es, row)| ==> Pick(es, row)[k] in es
  {
    if es != [] {
      PickCounts(es[..|es| - 1], row[..|row| - 1]);
    }
  }

  lemma {:induction false} CountOwned(es: seq<Entry>, owner: string, name: string)
    requires OwnedBy(es, owner)
    ensures CountNamed(es, name) == if owner == name then |es| else 0
  {
    if es != [] {
      CountOwned(es[..|es| - 1], owner, name);
    }
  }

  ghost predicate AllSound(secs: seq<Option<Section>>) {
    forall i :: 0 <= i < |secs| ==> secs[i].Some? && WellFormed(secs[i].value) && Honest(secs[i].value)
  }

  predicate Named(secs: seq<Option<Section>>, i: nat, name: string) {
    i < |secs| && secs[i].Some? && secs[i].value.name == name
  }

  lemma KeptFacts(secs: seq<Option<Section>>, table: seq<seq<bool>>, i: nat, name: string)
    requires Fits(secs, table) && AllSound(secs) && i < |secs|
    ensures OwnedBy(KeptOf(secs[i], table[i]), secs[i].value.name)
    ensures CountNamed(KeptOf(secs[i], table[i]), name) == if Named(secs, i, name) then CountRow(table[i]) else 0
  {
    hide Counted, Honest, CountNamed, CountRow, Pick;
    PickCounts(secs[i].value.errs, table[i]);
    CountOwned(KeptOf(secs[i], table[i]), secs[i].value.name, name);
  }

  /** A name no section has has no entry; a name only section i has has the
      entries i kept. */
  lemma {:induction false} ErrorsNamed(secs: seq<Option<Section>>, table: seq<seq<bool>>, name: string, i: nat)
    requires Fits(secs, table) && AllSound(secs)
    requires forall j: nat :: Named(secs, j, name) ==> j == i
    ensures CountNamed(Errors(secs, table), name) == if Named(secs, i, name) then CountRow(table[i]) else 0
  {
    hide WellFormed, Honest, KeptOf, CountRow, CountNamed;
    if secs == [] {
      NothingNamed(name);
    } else {
      var n := |secs| - 1;
      forall j: nat | Named(secs[..n], j, name) ensures j == i {
        assert Named(secs, j, name);
      }
      ErrorsNamed(secs[..n], table[..n], name, i);
      KeptFacts(secs, table, n, name);
      CountNamedConcat(Errors(secs[..n], table[..n]), KeptOf(secs[n], table[n]), name);
    }
  }

  lemma NothingNamed(name: string)
    ensures CountNamed([], name) == 0
  {
  }

  /** Every entry of errors[] belongs to one of the sections. */
  lemma {:induction false} ErrorsOwned(secs: seq<Option<Section>>, table: seq<seq<bool>>, k: nat)
    requires Fits(secs, table) && AllSound(secs) && k < |Errors(secs, table)|
    ensures Errors(secs, table)[k].count >= 0
    ensures exists j: nat :: Named(secs, j, Errors(secs, table)[k].section)
  {
    hide WellFormed, Honest, KeptOf;
    var n := |secs| - 1;
    var before := Errors(secs[..n], table[..n]);
    if k < |before| {
      ErrorsOwned(secs[..n], table[..n], k);
      var j: nat :| Named(secs[..n], j, before[k].section);
      assert Named(secs, j, before[k].section);
    } else {
      KeptFacts(secs, table, n, "");
      assert Named(secs, n, Errors(secs, table)[k].section);
    }
  }

  lemma SectionRow(secs: seq<Option<Section>>, table: seq<seq<bool>>, i: nat)
    requires Fits(secs, table) && AllSound(secs) && i < |secs|
    requires forall i, j :: 0 <= i < j < |secs| ==> secs[i].value.name != secs[j].value.name
    ensures var row := RowOf(secs[i], table[i]);
            && row.errorCount == CountNamed(Errors(secs, table), row.name)
            && !(row.status.StatusOk? && row.errorCount > 0)
  {
    hide Counted, CountNamed, Errors;
    var s := secs[i].value;
    ErrorsNamed(secs, table, s.name, i);
    assert Named(secs, i, s.name);
    assert CountRow(table[i]) <= |table[i]|;
  }

  /** Every batch built from sections with distinct non-empty names, each driven
      only through its own operations, passes the validator's error and
      truncation checks whatever the cap admitted; and the truncation block is
      present exactly when some section lost or folded something. */
  lemma AssembledConforms(secs: seq<Option<Section>>, table: seq<seq<bool>>)
    requires Fits(secs, table) && AllSound(secs)
    requires forall i :: 0 <= i < |secs| ==> secs[i].value.name != ""
    requires forall i, j :: 0 <= i < j < |secs| ==> secs[i].value.name != secs[j].value.name
    ensures Conforms(Assemble(secs, table))
    ensures Assemble(secs, table).truncation.Some? <==>
      exists i :: 0 <= i < |secs| && (Rows(secs, table)[i].collapsed > 0 || Rows(secs, table)[i].dropped > 0)
  {
    hide WellFormed, Honest, Errors, CountNamed, CollapsedOver, DroppedOver, Reject, CountRow;
    var b := Assemble(secs, table);
    forall i | 0 <= i < |secs|
      ensures b.sections[i].errorCount == CountNamed(b.errors, b.sections[i].name)
      ensures !(b.sections[i].status.StatusOk? && b.sections[i].errorCount > 0)
      ensures b.sections[i].name == secs[i].value.name
    {
      SectionRow(secs, table, i);
      RowName(secs[i].value, table[i]);
    }
    forall k | 0 <= k < |b.errors| ensures HasSection(b, b.errors[k].section) && b.errors[k].count >= 0 {
      ErrorsOwned(secs, table, k);
      var j: nat :| Named(secs, j, b.errors[k].section);
      assert b.sections[j].name == b.errors[k].section;
    }
    TotalsZero(b.sections);
  }

  /** errors[] is exactly as long as the table admits. */
  lemma {:induction false} ErrorsCount(secs: seq<Option<Section>>, table: seq<seq<bool>>)
    requires Fits(secs, table)
    ensures |Errors(secs, table)| == CountAll(table)
  {
    if secs != [] {
      var n := |secs| - 1;
      ErrorsCount(secs[..n], table[..n]);
      if secs[n].Some? {
        PickCounts(secs[n].value.errs, table[n]);
      }
    }
  }

  function AllEntries(secs: seq<Option<Section>>): seq<Entry> {
    if secs == [] then []
    else AllEntries(secs[..|secs| - 1]) + if secs[|secs| - 1].Some? then secs[|secs| - 1].value.errs else []
  }

  function AllBits(table: seq<seq<bool>>): seq<bool> {
    if table == [] then [] else AllBits(table[..|table| - 1]) + table[|table| - 1]
  }

  lemma {:induction false} PickConcat(xs: seq<Entry>, a: seq<bool>, ys: seq<Entry>, b: seq<bool>)
    requires |xs| == |a| && |ys| == |b|
    ensures Pick(xs + ys, a + b) == Pick(xs, a) + Pick(ys, b)
  {
    if ys == [] {
      assert xs + ys == xs && a + b == a;
    } else {
      var n := |ys| - 1;
      PickConcat(xs, a, ys[..n], b[..n]);
      assert (xs + ys)[..|xs| + n] == xs + ys[..n] && (a + b)[..|a| + n] == a + b[..n];
    }
  }

  /** errors[] is what the table admits out of all sections in canonical order,
      nothing reordered and nothing added. */
  lemma {:induction false} ErrorsAreASubsequence(secs: seq<Option<Section>>, table: seq<seq<bool>>)
    requires Fits(secs, table)
    ensures |AllEntries(secs)| == |AllBits(table)|
    ensures Errors(secs, table) == Pick(AllEntries(secs), AllBits(table))
  {
    if secs != [] {
      var n := |secs| - 1;
      ErrorsAreASubsequence(secs[..n], table[..n]);
      var errs := if secs[n].Some? then secs[n].value.errs else [];
      PickConcat(AllEntries(secs[..n]), AllBits(table[..n]), errs, table[n]);
    }
  }

  /** Per section, admitted and rejected are together what was recorded, and the
      rejected are added to what the section had dropped itself. */
  lemma SectionBalances(s: Section, row: seq<bool>)
    requires |row| == |s.errs| && s.globalDropped == 0
    ensures var t := Reject(s, row);
            && Finish(t).errorCount == |Pick(s.errs, row)|
            && Finish(t).errorCount + t.globalDropped == |s.errs|
            && t.dropped == s.dropped + t.globalDropped
            && (t.globalDropped > 0 ==> t.truncated)
            && Finish(t).name == s.name && Finish(t).status == s.status
            && Finish(t).dropped == s.dropped + |s.errs| - |Pick(s.errs, row)|
            && Finish(t).collapsed == s.collapsed
            && (Finish(t).truncated <==> s.truncated || |Pick(s.errs, row)| < |s.errs|)
  {
    PickCounts(s.errs, row);
  }

  /** A row of the finished batch, from the section's own operations: it says it is
      truncated exactly when it folded or dropped something, the cap's rejections
      included, or its phase left rows out on purpose. */
  lemma RowFlagExact(name: string, lim: Limits, ops: seq<Op>, row: seq<bool>)
    requires |row| == |ApplyAll(Fresh(name, lim), ops).errs|
    ensures var r := Finish(Reject(ApplyAll(Fresh(name, lim), ops), row));
            r.truncated <==> r.collapsed > 0 || r.dropped > 0 || CutRows in ops
  {
    OpsLimited(name, lim, ops);
    hide ApplyAll, CountRow;
  }

  /** The validator leaves no freedom: two conforming reports with the same errors
      agree on every section's error count, and two with the same sections on the
      truncation totals, where both have them. */
  lemma ConformingIsForced(a: Blocks, b: Blocks, i: nat)
    requires Conforms(a) && Conforms(b)
    ensures a.errors == b.errors && i < |a.sections| && i < |b.sections| && a.sections[i].name == b.sections[i].name ==>
      a.sections[i].errorCount == b.sections[i].errorCount
    ensures a.sections == b.sections && a.truncation.Some? && b.truncation.Some? ==> a.truncation == b.truncation
    ensures a.truncation.Some? ==> a.truncation.value.collapsed + a.truncation.value.dropped > 0
    ensures i < |a.sections| && a.sections[i].errorCount > 0 ==> !a.sections[i].status.StatusOk?
  {
    hide CountNamed, CollapsedOver, DroppedOver;
  }

  lemma RowName(s: Section, row: seq<bool>)
    requires |row| == |s.errs|
    ensures RowOf(Some(s), row).name == s.name
  {
  }

  lemma TotalsZero(rows: seq<Row>)
    ensures CollapsedOver(rows) > 0 || DroppedOver(rows) > 0 <==>
      exists i :: 0 <= i < |rows| && (rows[i].collapsed > 0 || rows[i].dropped > 0)
  {
    if rows != [] {
      TotalsZero(rows[..|rows| - 1]);
    }
  }

  /** From the collecting phases to the validator: sections named apart and built
      by any operations, cut by any admission table, make conforming blocks. */
  lemma CollectedBatchConforms(names: seq<string>, lim: Limits, ops: seq<seq<Op>>, secs: seq<Option<Section>>, table: seq<seq<bool>>)
    requires |names| == |ops| == |secs|
    requires forall i :: 0 <= i < |names| ==> names[i] != ""
    requires forall i, j :: 0 <= i < j < |names| ==> names[i] != names[j]
    requires forall i :: 0 <= i < |names| ==> secs[i] == Some(ApplyAll(Fresh(names[i], lim), ops[i]))
    requires Fits(secs, table)
    ensures Conforms(Assemble(secs, table))
    ensures Assemble(secs, table).truncation.Some? <==>
      exists i :: 0 <= i < |secs| && (Rows(secs, table)[i].collapsed > 0 || Rows(secs, table)[i].dropped > 0)
  {
    hide WellFormed, Honest, ApplyAll, Conforms, Assemble;
    forall i | 0 <= i < |secs| ensures WellFormed(secs[i].value) && Honest(secs[i].value) && secs[i].value.name == names[i] {
      OpsKeepSections(names[i], lim, ops[i]);
    }
    AssembledConforms(secs, table);
  }
}
