/** The ingest's own pass over errors[], sections[] and truncation: it rebuilds
    the totals from the wire with maps and loops, and finds nothing exactly when
    the blocks conform. */
module Validator {
  import opened Wrappers
  import opened Report

  /** One flag per failure code the pass can emit. */
  datatype Findings = Findings(
    badName: bool,
    unknownSection: bool,
    errorCount: bool,
    okWithErrors: bool,
    negativeCount: bool,
    truncation: bool)
  {
    predicate Clean() {
      !badName && !unknownSection && !errorCount && !okWithErrors && !negativeCount && !truncation
    }
  }

  /** The first row of each non-empty name; an empty or repeated name is a finding. */
  method IndexSections(rows: seq<Row>) returns (byName: map<string, Row>, bad: bool)
    ensures bad <==> !NamesDistinct(Blocks([], rows, None))
    ensures forall n :: n in byName <==> n != "" && exists i :: 0 <= i < |rows| && rows[i].name == n
    ensures forall n :: n in byName ==> byName[n] in rows && byName[n].name == n
  {
    byName, bad := map[], false;
    for i := 0 to |rows|
      invariant bad <==> exists j :: 0 <= j < i && (rows[j].name == "" || exists k :: 0 <= k < j && rows[k].name == rows[j].name)
      invariant forall n :: n in byName <==> n != "" && exists j :: 0 <= j < i && rows[j].name == n
      invariant forall n :: n in byName ==> byName[n] in rows && byName[n].name == n
    {
      if rows[i].name == "" {
        bad := true;
      } else if rows[i].name in byName {
        bad := true;
      } else {
        byName := byName[rows[i].name := rows[i]];
      }
    }
  }

  /** counted[e.Section]++ over errors[], with the per-entry checks. */
  method CountErrors(b: Blocks, byName: map<string, Row>) returns (counted: map<string, nat>, unknown: bool, negative: bool)
    ensures forall n :: CountNamed(b.errors, n) == if n in counted then counted[n] else 0
    ensures unknown <==> exists k :: 0 <= k < |b.errors| && b.errors[k].section !in byName
    ensures negative <==> !CountsNotNegative(b)
  {
    counted, unknown, negative := map[], false, false;
    for k := 0 to |b.errors|
      invariant forall n :: CountNamed(b.errors[..k], n) == if n in counted then counted[n] else 0
      invariant unknown <==> exists j :: 0 <= j < k && b.errors[j].section !in byName
      invariant negative <==> exists j :: 0 <= j < k && b.errors[j].count < 0
    {
      assert b.errors[..k + 1][..k] == b.errors[..k];
      var name := b.errors[k].section;
      counted := counted[name := (if name in counted then counted[name] else 0) + 1];
      if name !in byName {
        unknown := true;
      }
      if b.errors[k].count < 0 {
        negative := true;
      }
    }
    assert b.errors[..|b.errors|] == b.errors;
  }

  /** The loop over the indexed sections. */
  method CompareCounts(b: Blocks, byName: map<string, Row>, counted: map<string, nat>) returns (wrong: bool, okWithErrors: bool)
    requires forall n :: CountNamed(b.errors, n) == if n in counted then counted[n] else 0
    ensures wrong <==> exists n :: n in byName && byName[n].errorCount != CountNamed(b.errors, n)
    ensures okWithErrors <==> exists n :: n in byName && byName[n].status.StatusOk? && byName[n].errorCount > 0
  {
    wrong, okWithErrors := false, false;
    var todo := byName.Keys;
    while todo != {}
      invariant todo <= byName.Keys
      invariant wrong <==> exists n :: n in byName && n !in todo && byName[n].errorCount != CountNamed(b.errors, n)
      invariant okWithErrors <==> exists n :: n in byName && n !in todo && byName[n].status.StatusOk? && byName[n].errorCount > 0
      decreases |todo|
    {
      var n :| n in todo;
      var got := if n in counted then counted[n] else 0;
      if byName[n].errorCount != got {
        wrong := true;
      }
      if byName[n].status.StatusOk? && byName[n].errorCount > 0 {
        okWithErrors := true;
      }
      todo := todo - {n};
    }
  }

  method CheckTruncation(b: Blocks) returns (bad: bool)
    ensures bad <==> !TruncationAgrees(b)
  {
    if b.truncation.None? {
      return false;
    }
    var collapsed, dropped := 0, 0;
    for i := 0 to |b.sections|
      invariant collapsed == CollapsedOver(b.sections[..i]) && dropped == DroppedOver(b.sections[..i])
    {
      assert b.sections[..i + 1][..i] == b.sections[..i];
      collapsed, dropped := collapsed + b.sections[i].collapsed, dropped + b.sections[i].dropped;
    }
    assert b.sections[..|b.sections|] == b.sections;
    var t := b.truncation.value;
    bad := t == Truncation(0, 0) || t.collapsed != collapsed || t.dropped != dropped;
  }

  /** The whole pass. */
  method Check(b: Blocks) returns (f: Findings)
    ensures f.Clean() <==> Conforms(b)
  {
    hide CountNamed, CollapsedOver, DroppedOver;
    var byName, badName := IndexSections(b.sections);
    var counted, unknown, negative := CountErrors(b, byName);
    var wrong, okWithErrors := CompareCounts(b, byName, counted);
    var truncation := CheckTruncation(b);
    f := Findings(badName, unknown, wrong, okWithErrors, negative, truncation);
    if !badName {
      assert NamesDistinct(b);
      assert (exists k :: 0 <= k < |b.errors| && b.errors[k].section !in byName) <==> !SectionsKnown(b) by {
        assert forall k :: 0 <= k < |b.errors| ==> (b.errors[k].section in byName <== HasSection(b, b.errors[k].section) && b.errors[k].section != "");
        assert forall k :: 0 <= k < |b.errors| ==> (b.errors[k].section in byName ==> HasSection(b, b.errors[k].section));
      }
      forall i | 0 <= i < |b.sections| ensures b.sections[i].name in byName && byName[b.sections[i].name] == b.sections[i] {
        var j :| 0 <= j < |b.sections| && b.sections[j] == byName[b.sections[i].name];
      }
    }
  }
}
