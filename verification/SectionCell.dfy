/** A section as the object its collecting goroutine updates, and mergeErrors and
    finalize over those objects. */
module SectionCell {
  import opened Wrappers
  import A = Admission
  import O = SectionOps
  import M = MergeErrors
  import R = Report

  class Cell {
    const name: string
    const lim: A.Limits
    var status: A.Status
    var errs: seq<A.Entry>
    var prios: seq<nat>
    var keys: map<A.Key, A.Bucket>
    var collapsed: nat
    var dropped: nat
    var truncated: bool
    var globalDropped: nat

    function View(): A.Section
      reads this
    {
      A.Section(name, lim, status, errs, prios, keys, collapsed, dropped, truncated, globalDropped)
    }

    constructor (name: string, lim: A.Limits)
      ensures View() == A.Fresh(name, lim)
    {
      this.name, this.lim := name, lim;
      status, errs, prios, keys := A.StatusOk, [], [], map[];
      collapsed, dropped, truncated, globalDropped := 0, 0, false, 0;
    }

    method Downgrade(to: A.Status)
      modifies this`status
      ensures View() == A.Downgrade(old(View()), to)
    {
      if A.Rank(to) > A.Rank(status) {
        status := to;
      }
    }

    method Emit(o: A.Occurrence)
      modifies this`errs, this`prios
      ensures View() == A.Append(old(View()), o)
    {
      errs := errs + [A.Entry(name, o.fault, 0)];
      prios := prios + [A.Priority(o.fault, o.requestScoped)];
    }

    /** The single admission funnel. */
    method Record(o: A.Occurrence)
      requires A.Indexed(View())
      modifies this
      ensures View() == A.Record(old(View()), o)
    {
      if !o.requestScoped {
        Downgrade(A.Partial);
      }
      var prio := A.Priority(o.fault, o.requestScoped);
      var k := A.KeyOf(o.fault);
      if k in keys {
        var b := keys[k].(seen := keys[k].seen + 1);
        if b.repIdx < 0 {
          keys := keys[k := b];
          return;
        }
        if b.samples < lim.ErrorSamples() && (prio < A.PRIO_ENTITY || lim.WithinBudget(|errs|)) {
          Emit(o);
          keys := keys[k := b.(samples := b.samples + 1)];
          return;
        }
        errs := errs[b.repIdx := errs[b.repIdx].(count := b.seen - (b.samples - 1))];
        keys := keys[k := b];
        collapsed, truncated := collapsed + 1, true;
        return;
      }
      var mapFull := |keys| >= A.MAX_DISTINCT_KEYS;
      if prio == A.PRIO_ENTITY && (!lim.WithinBudget(|errs|) || mapFull) {
        dropped, truncated := dropped + 1, true;
        if !mapFull {
          keys := keys[k := A.Bucket(-1, 0, 1)];
        }
        return;
      }
      Emit(o);
      keys := keys[k := A.Bucket(|errs| - 1, 1, 1)];
    }

    /** Records one whole API call; false when none of the response is usable. */
    method Request(api: string, err: Option<O.ApiError>) returns (usable: bool)
      requires A.Indexed(View())
      modifies this
      ensures (View(), usable) == O.Request(old(View()), api, err)
    {
      hide A.Record, A.Indexed;
      match err {
        case None =>
          return true;
        case Some(ShardErrors(shards, allFailed)) =>
          var unauthorized := RecordShards(api, shards);
          Downgrade(if !allFailed then A.Partial else if unauthorized then A.Unauthorized else A.Failed);
          return !allFailed;
        case Some(AuthError(code, detail)) =>
          Record(A.Occurrence(A.Fault(api, A.Authorization, code, None, detail), true));
          Downgrade(A.Unauthorized);
          return false;
        case Some(PlainError(kind, code, detail)) =>
          Record(A.Occurrence(A.Fault(api, kind, code, None, detail), true));
          Downgrade(if kind.Authorization? then A.Unauthorized else A.Failed);
          return false;
      }
    }

    method RecordShards(api: string, shards: seq<O.Shard>) returns (unauthorized: bool)
      requires A.Indexed(View())
      modifies this
      ensures View() == A.RecordAll(old(View()), O.ShardOccurrences(api, shards))
      ensures unauthorized == O.AnyUnauthorized(shards)
    {
      hide A.Record, A.Indexed;
      unauthorized := false;
      for i := 0 to |shards|
        invariant A.Indexed(View())
        invariant View() == A.RecordAll(old(View()), O.ShardOccurrences(api, shards[..i]))
        invariant unauthorized == O.AnyUnauthorized(shards[..i])
      {
        assert shards[..i + 1][..i] == shards[..i];
        var os := O.ShardOccurrences(api, shards[..i]);
        assert (os + [O.ShardOccurrence(api, shards[i])])[..i] == os;
        if shards[i].kind.Authorization? {
          unauthorized := true;
        }
        Record(O.ShardOccurrence(api, shards[i]));
      }
      assert shards[..|shards|] == shards;
    }

    method RequestPartial(api: string, err: Option<O.ApiError>, gotData: bool) returns (usable: bool)
      requires A.Indexed(View())
      modifies this
      ensures (View(), usable) == O.RequestPartial(old(View()), api, err, gotData)
    {
      hide O.Request;
      usable := Request(api, err);
      if usable || !gotData {
        return;
      }
      if status.Failed? || status.Unauthorized? {
        status := A.Partial;
      }
      usable := true;
    }

    /** mergeErrors' write-back. */
    method Reject(row: seq<bool>)
      requires |row| == |errs|
      modifies this
      ensures View() == R.Reject(old(View()), row)
    {
      var rejected := 0;
      for j := 0 to |row|
        invariant rejected == j - M.CountRow(row[..j])
        invariant View() == old(View())
      {
        assert row[..j + 1][..j] == row[..j];
        if !row[j] {
          rejected := rejected + 1;
        }
      }
      assert row[..|row|] == row;
      if rejected > 0 {
        globalDropped, dropped, truncated := rejected, dropped + rejected, true;
      }
    }
  }

  function Views(secs: seq<Cell?>): (vs: seq<Option<A.Section>>)
    reads set i | 0 <= i < |secs| && secs[i] != null :: secs[i]
    ensures |vs| == |secs|
    ensures forall i :: 0 <= i < |secs| ==> vs[i] == if secs[i] == null then None else Some(secs[i].View())
  {
    if secs == [] then []
    else
      var c := secs[|secs| - 1];
      Views(secs[..|secs| - 1]) + [if c == null then None else Some(c.View())]
  }

  function PriosOf(vs: seq<Option<A.Section>>): (ps: seq<seq<nat>>)
    ensures |ps| == |vs|
    ensures forall i :: 0 <= i < |vs| ==> ps[i] == if vs[i].Some? then vs[i].value.prios else []
  {
    if vs == [] then []
    else PriosOf(vs[..|vs| - 1]) + [if vs[|vs| - 1].Some? then vs[|vs| - 1].value.prios else []]
  }

  ghost predicate Ready(secs: seq<Cell?>)
    reads set i | 0 <= i < |secs| && secs[i] != null :: secs[i]
  {
    && (forall i, j :: 0 <= i < j < |secs| && secs[i] != null ==> secs[i] != secs[j])
    && forall i :: 0 <= i < |secs| && secs[i] != null ==>
         |secs[i].prios| == |secs[i].errs| && forall j :: 0 <= j < |secs[i].prios| ==> secs[i].prios[j] <= A.PRIO_ENTITY
  }

  method CollectPrios(secs: seq<Cell?>) returns (prios: seq<seq<nat>>)
    ensures prios == PriosOf(Views(secs))
  {
    prios := [];
    for i := 0 to |secs|
      invariant |prios| == i
      invariant forall k :: 0 <= k < i ==> prios[k] == if secs[k] == null then [] else secs[k].prios
    {
      prios := prios + [if secs[i] == null then [] else secs[i].prios];
    }
  }

  method PickEntries(es: seq<A.Entry>, row: seq<bool>) returns (out: seq<A.Entry>)
    requires |es| == |row|
    ensures out == R.Pick(es, row)
  {
    out := [];
    for j := 0 to |es|
      invariant out == R.Pick(es[..j], row[..j])
    {
      assert es[..j + 1][..j] == es[..j] && row[..j + 1][..j] == row[..j];
      if row[j] {
        out := out + [es[j]];
      }
    }
    assert es[..|es|] == es && row[..|row|] == row;
  }

  /** The second half of mergeErrors: emission in canonical order, and the
      write-back. */
  method EmitAdmitted(secs: seq<Cell?>, table: seq<seq<bool>>, ghost vs: seq<Option<A.Section>>) returns (out: seq<A.Entry>)
    requires forall i, j :: 0 <= i < j < |secs| && secs[i] != null ==> secs[i] != secs[j]
    requires |vs| == |secs| && forall i :: 0 <= i < |secs| ==> vs[i] == if secs[i] == null then None else Some(secs[i].View())
    requires R.Fits(vs, table)
    modifies set i | 0 <= i < |secs| && secs[i] != null :: secs[i]
    ensures out == R.Errors(vs, table)
    ensures forall i :: 0 <= i < |secs| && secs[i] != null ==> secs[i].View() == R.Reject(vs[i].value, table[i])
  {
    hide R.Reject, R.Pick, R.Errors;
    out := [];
    NoErrors(vs, table);
    for i := 0 to |secs|
      invariant out == R.Errors(vs[..i], table[..i])
      invariant forall k :: i <= k < |secs| && secs[k] != null ==> unchanged(secs[k])
      invariant forall k :: 0 <= k < i && secs[k] != null ==> secs[k].View() == R.Reject(vs[k].value, table[k])
    {
      OneMoreSection(vs, table, i);
      if secs[i] != null {
        assert secs[i].View() == vs[i].value;
        var kept := PickEntries(secs[i].errs, table[i]);
        out := out + kept;
        secs[i].Reject(table[i]);
      }
    }
    assert vs[..|secs|] == vs && table[..|secs|] == table;
  }

  lemma NoErrors(vs: seq<Option<A.Section>>, table: seq<seq<bool>>)
    requires R.Fits(vs, table)
    ensures R.Errors(vs[..0], table[..0]) == []
  {
  }

  lemma OneMoreSection(vs: seq<Option<A.Section>>, table: seq<seq<bool>>, i: nat)
    requires R.Fits(vs, table) && i < |vs|
    ensures R.Errors(vs[..i + 1], table[..i + 1]) == R.Errors(vs[..i], table[..i]) + R.KeptOf(vs[i], table[i])
  {
    assert vs[..i + 1][..i] == vs[..i] && table[..i + 1][..i] == table[..i];
  }

  /** mergeErrors: the entries the cap keeps, in canonical order, with each
      section told how many of its own it lost. */
  method MergeErrors(secs: seq<Cell?>, ceiling: int) returns (out: seq<A.Entry>, table: seq<seq<bool>>)
    requires Ready(secs)
    modifies set i | 0 <= i < |secs| && secs[i] != null :: secs[i]
    ensures R.Fits(old(Views(secs)), table)
    ensures out == R.Errors(old(Views(secs)), table)
    ensures M.SameShape(PriosOf(old(Views(secs))), table) && M.BestFirst(PriosOf(old(Views(secs))), table)
    ensures |out| == M.Budget(M.Total(PriosOf(old(Views(secs)))), ceiling)
    ensures forall i :: 0 <= i < |secs| && secs[i] != null ==> secs[i].View() == R.Reject(old(Views(secs))[i].value, table[i])
  {
    hide M.BestFirst, R.Reject, R.Errors, M.CountAll, M.Total, Views, PriosOf;
    ghost var vs := Views(secs);
    var prios := CollectPrios(secs);
    table := M.Admit(prios, ceiling);
    out := EmitAdmitted(secs, table, vs);
    R.ErrorsCount(vs, table);
  }

  lemma NoTotals()
    ensures R.CollapsedOver([]) == 0 && R.DroppedOver([]) == 0
  {
  }

  lemma TotalsSnoc(rows: seq<R.Row>, row: R.Row)
    ensures R.CollapsedOver(rows + [row]) == R.CollapsedOver(rows) + row.collapsed
    ensures R.DroppedOver(rows + [row]) == R.DroppedOver(rows) + row.dropped
  {
    assert (rows + [row])[..|rows|] == rows;
  }

  /** The rows and the truncation totals, once the sections know their losses. */
  method FinishAll(secs: seq<Cell?>, ghost rowsSpec: seq<R.Row>) returns (rows: seq<R.Row>, truncation: Option<R.Truncation>)
    requires |rowsSpec| == |secs|
    requires forall i :: 0 <= i < |secs| ==> rowsSpec[i] == if secs[i] == null then R.NIL_ROW else R.Finish(secs[i].View())
    ensures rows == rowsSpec && truncation == R.TruncationOver(rowsSpec)
  {
    hide R.CollapsedOver, R.DroppedOver, R.Finish;
    rows := [];
    var collapsed, dropped := 0, 0;
    NoTotals();
    for i := 0 to |secs|
      invariant |rows| == i && forall k :: 0 <= k < i ==> rows[k] == rowsSpec[k]
      invariant collapsed == R.CollapsedOver(rows) && dropped == R.DroppedOver(rows)
    {
      var row := if secs[i] == null then R.NIL_ROW else R.Finish(secs[i].View());
      TotalsSnoc(rows, row);
      rows := rows + [row];
      collapsed, dropped := collapsed + row.collapsed, dropped + row.dropped;
    }
    assert rows == rowsSpec;
    truncation := if collapsed == 0 && dropped == 0 then None else Some(R.Truncation(collapsed, dropped));
  }

  /** finalize: the cap first, because it decides what finish reports. */
  method Finalize(secs: seq<Cell?>, ceiling: int) returns (blocks: R.Blocks, table: seq<seq<bool>>)
    requires Ready(secs)
    modifies set i | 0 <= i < |secs| && secs[i] != null :: secs[i]
    ensures R.Fits(old(Views(secs)), table)
    ensures blocks == R.Assemble(old(Views(secs)), table)
    ensures M.SameShape(PriosOf(old(Views(secs))), table) && M.BestFirst(PriosOf(old(Views(secs))), table)
    ensures |blocks.errors| == M.Budget(M.Total(PriosOf(old(Views(secs)))), ceiling)
  {
    hide M.BestFirst, R.Reject, R.Errors, M.CountAll, M.Total, Views, PriosOf, R.CollapsedOver, R.DroppedOver, R.Finish;
    ghost var vs := Views(secs);
    var errors;
    errors, table := MergeErrors(secs, ceiling);
    var rows, truncation := FinishAll(secs, R.Rows(vs, table));
    blocks := R.Blocks(errors, rows, truncation);
  }
}
