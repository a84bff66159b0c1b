/** The JSONL file exporter: what a rotation keeps, and what a failed reopen must
    not cost. On disk there is one place a generation: 0 is the live file, n the
    backup <name>.n; a place may be empty. */
module FileRotation {
  import opened Wrappers

  const MEGABYTE := 1024 * 1024
  const DEFAULT_MAX_MB := 100
  const DEFAULT_MAX_BACKUPS := 3

  /** One encoded batch, its newline included. */
  type Line = text: string | |text| > 0 witness "\n"

  type File = Option<seq<Line>>

  /** The live file and as many backups as the exporter keeps. */
  type Files = places: seq<File> | |places| > 0 witness [None]

  /** maxBytes 0 turns rotation off. */
  datatype Config = Config(maxBytes: nat, maxBackups: nat)

  function Configured(maxMB: int, maxBackups: int): Config {
    var mb := if maxMB == 0 then DEFAULT_MAX_MB else maxMB;
    Config(if mb > 0 then mb * MEGABYTE else 0, if maxBackups < 0 then DEFAULT_MAX_BACKUPS else maxBackups)
  }

  datatype Store = Store(files: Files, size: nat, needsReopen: bool, closed: bool, exported: nat, dropped: nat)

  /** One call of Export: whether its context is done, the encoded line unless
      encoding failed, and whether opening the live file works when a pending
      reopen, and when a rotation, tries it. */
  datatype Call = Call(cancelled: bool, line: Option<Line>, reopens: bool, opens: bool)

  datatype Outcome = Written | Cancelled | EncodeFailed | Closed | OpenFailed

  /** Close's error: the first of the flush's and the handle's. */
  datatype CloseResult = Fine | FlushFailed | HandleFailed

  function Bytes(lines: seq<Line>): nat {
    if lines == [] then 0 else Bytes(lines[..|lines| - 1]) + |lines[|lines| - 1]|
  }

  function Lines(f: File): seq<Line> {
    if f.Some? then f.value else []
  }

  /** Everything on disk, oldest first: <name>.n, ..., <name>.1, live. */
  function History(files: seq<File>): seq<Line> {
    if files == [] then [] else History(files[1..]) + Lines(files[0])
  }

  // ---------------------------------------------------------------------------
  // Specification
  // ---------------------------------------------------------------------------

  /** Every generation moves up by one, empty places included, and the last one
      goes. */
  function Shifted(files: Files): Files {
    [None] + files[..|files| - 1]
  }

  /** A shift part done: the last generation is gone and those above i have moved
      up. */
  function Partly(files: Files, i: int): (r: seq<File>)
    requires -1 <= i < |files| - 1
    ensures |r| == |files|
  {
    files[..i + 1] + [None] + files[i + 1..|files| - 1]
  }

  /** Renaming generation i is one step of the shift. */
  lemma OneRename(files: Files, i: nat)
    requires i < |files| - 1
    ensures var part := Partly(files, i);
            Partly(files, i - 1) == if part[i].Some? then part[i + 1 := part[i]][i := None] else part
  {
    var part := Partly(files, i);
    assert part[i] == files[i] && part[i + 1] == None;
    assert files[..i + 1] == files[..i] + [files[i]];
    assert files[i..|files| - 1] == [files[i]] + files[i + 1..|files| - 1];
  }

  lemma PartlyEnds(files: Files)
    requires |files| > 1
    ensures Partly(files, |files| - 2) == files[|files| - 1 := None]
    ensures Partly(files, -1) == Shifted(files)
  {
  }

  function Opened(s: Store): Store {
    var live := Lines(s.files[0]);
    s.(files := s.files[0 := Some(live)], size := Bytes(live), needsReopen := false)
  }

  predicate MustRotate(cfg: Config, s: Store, line: Line) {
    cfg.maxBytes > 0 && s.size > 0 && s.size + |line| > cfg.maxBytes
  }

  function Dropped(s: Store): Store {
    s.(dropped := s.dropped + 1)
  }

  function Appended(s: Store, line: Line): Store {
    s.(files := s.files[0 := Some(Lines(s.files[0]) + [line])], size := s.size + |line|, exported := s.exported + 1)
  }

  function AfterRotate(s: Store, call: Call): (Store, Outcome)
    requires call.line.Some?
  {
    var moved := s.(files := Shifted(s.files));
    if call.opens then (Appended(Opened(moved), call.line.value), Written)
    else (Dropped(moved.(needsReopen := true)), OpenFailed)
  }

  function AfterExport(cfg: Config, s: Store, call: Call): (Store, Outcome) {
    if call.cancelled then (s, Cancelled)
    else if call.line.None? then (Dropped(s), EncodeFailed)
    else if s.closed then (Dropped(s), Closed)
    else if s.needsReopen && !call.reopens then (Dropped(s), OpenFailed)
    else
      var ready := if s.needsReopen then Opened(s) else s;
      if MustRotate(cfg, ready, call.line.value) then AfterRotate(ready, call)
      else (Appended(ready, call.line.value), Written)
  }

  // ---------------------------------------------------------------------------
  // The exporter
  // ---------------------------------------------------------------------------

  class FileExporter {
    const cfg: Config
    var files: Files
    var size: nat
    var needsReopen: bool
    var closed: bool
    var handle: bool
    var exported: nat
    var dropped: nat

    /** The live file is held open exactly while the exporter is open and no
        reopen is pending. */
    ghost predicate Valid()
      reads this
    {
      && |files| == cfg.maxBackups + 1
      && (handle <==> !closed && !needsReopen)
    }

    ghost function View(): Store
      reads this
    {
      Store(files, size, needsReopen, closed, exported, dropped)
    }

    /** The file opens at startup, or there is no exporter. */
    constructor (maxMB: int, maxBackups: int, found: Files)
      requires |found| == Configured(maxMB, maxBackups).maxBackups + 1
      ensures cfg == Configured(maxMB, maxBackups) && Valid()
      ensures View() == Opened(Store(found, 0, false, false, 0, 0))
    {
      cfg := Configured(maxMB, maxBackups);
      files, size := found[0 := Some(Lines(found[0]))], Bytes(Lines(found[0]));
      needsReopen, closed, handle, exported, dropped := false, false, true, 0, 0;
    }

    method Open(works: bool) returns (ok: bool)
      modifies this`files, this`size, this`handle
      ensures ok <==> works
      ensures handle == (old(handle) || ok)
      ensures !ok ==> View() == old(View())
      ensures ok ==> View() == Opened(old(View())).(needsReopen := old(needsReopen))
    {
      if !works {
        return false;
      }
      files := files[0 := Some(Lines(files[0]))];
      size := Bytes(Lines(files[0]));
      handle := true;
      return true;
    }

    method Reopen(works: bool) returns (ok: bool)
      modifies this`files, this`size, this`handle, this`needsReopen
      ensures ok <==> works
      ensures handle == (old(handle) || ok)
      ensures View() == if ok then Opened(old(View())) else old(View()).(needsReopen := true)
    {
      needsReopen := true;
      ok := Open(works);
      if ok {
        needsReopen := false;
      }
    }

    /** The live file is closed; then the destructive shift, oldest generation
        first; then a reopen. */
    method Rotate(works: bool) returns (ok: bool)
      requires Valid() && !closed
      modifies this`files, this`size, this`handle, this`needsReopen
      ensures Valid() && (ok <==> works)
      ensures var moved := old(View()).(files := Shifted(old(files)));
              View() == if ok then Opened(moved) else moved.(needsReopen := true)
    {
      hide Partly;
      var n := cfg.maxBackups;
      ghost var before, moved := files, View().(files := Shifted(files));
      handle := false;
      if n == 0 {
        files := files[0 := None];
        assert files == Shifted(before) && View() == moved;
        ok := Reopen(works);
        return;
      }
      files := files[n := None];
      PartlyEnds(before);
      var i := n - 1;
      while i >= 1
        invariant 0 <= i < n
        invariant files == Partly(before, i)
        modifies this`files
      {
        OneRename(before, i);
        if files[i].Some? {
          files := files[i + 1 := files[i]][i := None];
        }
        i := i - 1;
      }
      OneRename(before, 0);
      if files[0].Some? {
        files := files[1 := files[0]][0 := None];
      }
      assert files == Shifted(before) && View() == moved;
      ok := Reopen(works);
    }

    method Export(call: Call) returns (outcome: Outcome)
      requires Valid()
      modifies this
      ensures Valid()
      ensures (View(), outcome) == AfterExport(cfg, old(View()), call)
    {
      if call.cancelled {
        return Cancelled;
      }
      if call.line.None? {
        dropped := dropped + 1;
        return EncodeFailed;
      }
      if closed {
        dropped := dropped + 1;
        return Closed;
      }
      var line := call.line.value;
      if needsReopen {
        var ok := Open(call.reopens);
        if !ok {
          dropped := dropped + 1;
          return OpenFailed;
        }
        needsReopen := false;
      }
      if cfg.maxBytes > 0 && size > 0 && size + |line| > cfg.maxBytes {
        var ok := Rotate(call.opens);
        if !ok {
          dropped := dropped + 1;
          return OpenFailed;
        }
      }
      files := files[0 := Some(Lines(files[0]) + [line])];
      size := size + |line|;
      exported := exported + 1;
      return Written;
    }

    /** The first call flushes and gives the handle up, whatever fails, and
        reports the first failure; a pending reopen has no handle to close. Every
        later call does nothing and reports nothing. */
    method Close(flushes: bool, closes: bool) returns (r: CloseResult)
      requires Valid()
      modifies this`closed, this`handle
      ensures Valid() && closed && !handle
      ensures View() == old(View()).(closed := true)
      ensures old(closed) ==> r == Fine
      ensures !old(closed) ==> (r == Fine <==> flushes && (closes || old(needsReopen)))
      ensures !old(closed) ==> (r == FlushFailed <==> !flushes)
    {
      if closed {
        return Fine;
      }
      closed := true;
      r := if flushes then Fine else FlushFailed;
      if handle && !closes && r == Fine {
        r := HandleFailed;
      }
      handle := false;
    }
  }

  // ---------------------------------------------------------------------------
  // What every run of exports keeps
  // ---------------------------------------------------------------------------

  /** The size field is the live file's length; a pending reopen has no live file
      to measure. */
  predicate Measured(s: Store) {
    if s.needsReopen then s.files[0] == None else s.files[0].Some? && s.size == Bytes(s.files[0].value)
  }

  function RunAll(cfg: Config, s: Store, calls: seq<Call>): Store {
    if calls == [] then s else AfterExport(cfg, RunAll(cfg, s, calls[..|calls| - 1]), calls[|calls| - 1]).0
  }

  /** The lines of the calls that were written, in order. */
  function WrittenLines(cfg: Config, s: Store, calls: seq<Call>): seq<Line> {
    if calls == [] then []
    else
      var before, call := calls[..|calls| - 1], calls[|calls| - 1];
      var written := WrittenLines(cfg, s, before);
      if AfterExport(cfg, RunAll(cfg, s, before), call).1 == Written && call.line.Some? then written + [call.line.value]
      else written
  }

  predicate Shifts(cfg: Config, s: Store, call: Call) {
    && !call.cancelled && call.line.Some? && !s.closed && (s.needsReopen ==> call.reopens)
    && MustRotate(cfg, if s.needsReopen then Opened(s) else s, call.line.value)
  }

  /** How often the backups were shifted. */
  function ShiftCount(cfg: Config, s: Store, calls: seq<Call>): nat {
    if calls == [] then 0
    else
      var before := calls[..|calls| - 1];
      ShiftCount(cfg, s, before) + if Shifts(cfg, RunAll(cfg, s, before), calls[|calls| - 1]) then 1 else 0
  }

  predicate IsSuffix(part: seq<Line>, whole: seq<Line>) {
    |part| <= |whole| && whole[|whole| - |part|..] == part
  }

  lemma BytesSnoc(lines: seq<Line>, line: Line)
    ensures Bytes(lines + [line]) == Bytes(lines) + |line|
  {
    assert (lines + [line])[..|lines|] == lines;
  }

  lemma ExportMeasured(cfg: Config, s: Store, call: Call)
    requires Measured(s)
    ensures Measured(AfterExport(cfg, s, call).0)
  {
    if call.line.Some? {
      BytesSnoc(Lines(s.files[0]), call.line.value);
      BytesSnoc([], call.line.value);
    }
  }

  lemma {:induction false} HistoryWithoutOldest(files: Files)
    ensures History(files) == Lines(files[|files| - 1]) + History(files[..|files| - 1])
  {
    if |files| > 1 {
      HistoryWithoutOldest(files[1..]);
      assert files[1..][..|files| - 2] == files[..|files| - 1][1..];
    }
  }

  lemma LiveLast(files: Files, f: File)
    ensures History(files[0 := f]) == History(files[1..]) + Lines(f)
  {
    assert files[0 := f][1..] == files[1..];
  }

  /** What is on disk once the oldest generation is gone. */
  function Younger(files: Files): seq<Line> {
    History(files[..|files| - 1])
  }

  lemma ShiftedHistory(files: Files)
    ensures History(Shifted(files)) == Younger(files)
  {
    assert Shifted(files)[1..] == files[..|files| - 1];
  }

  /** One call: a shift drops exactly the oldest generation, a written line goes
      last, and nothing else changes what is on disk. */
  lemma ExportHistory(cfg: Config, s: Store, call: Call)
    ensures var (t, outcome) := AfterExport(cfg, s, call);
            var kept := if Shifts(cfg, s, call) then Younger(s.files) else History(s.files);
            && (outcome == Written ==> call.line.Some?)
            && History(t.files) == (if outcome == Written then kept + [call.line.value] else kept)
  {
    if call.line.Some? && !call.cancelled && !s.closed && (s.needsReopen ==> call.reopens) {
      var ready := if s.needsReopen then Opened(s) else s;
      OpenKeepsHistory(s);
      if MustRotate(cfg, ready, call.line.value) {
        ReadyYounger(s);
        ShiftedHistory(ready.files);
        var moved := ready.(files := Shifted(ready.files));
        OpenKeepsHistory(moved);
        AppendedLast(Opened(moved), call.line.value);
      } else {
        AppendedLast(ready, call.line.value);
      }
    }
  }

  lemma OpenKeepsHistory(s: Store)
    ensures History(Opened(s).files) == History(s.files)
  {
    LiveLast(s.files, Some(Lines(s.files[0])));
  }

  lemma ReadyYounger(s: Store)
    ensures Younger(Opened(s).files) == Younger(s.files)
  {
    var n := |s.files| - 1;
    if n > 0 {
      LiveLast(s.files[..n], Some(Lines(s.files[0])));
      assert Opened(s).files[..n] == s.files[..n][0 := Some(Lines(s.files[0]))];
    }
  }

  lemma AppendedLast(s: Store, line: Line)
    ensures History(Appended(s, line).files) == History(s.files) + [line]
  {
    LiveLast(s.files, Some(Lines(s.files[0]) + [line]));
  }

  lemma SuffixGrows(part: seq<Line>, whole: seq<Line>, line: Line)
    requires IsSuffix(part, whole)
    ensures IsSuffix(part + [line], whole + [line])
  {
    var w := whole + [line];
    assert w[|w| - |part| - 1..] == whole[|whole| - |part|..] + [line];
  }

  lemma SuffixOfSuffix(a: seq<Line>, b: seq<Line>, whole: seq<Line>)
    requires IsSuffix(a, b) && IsSuffix(b, whole)
    ensures IsSuffix(a, whole)
  {
    assert whole[|whole| - |a|..] == whole[|whole| - |b|..][|b| - |a|..];
  }

  lemma SuffixOfItself(whole: seq<Line>)
    ensures IsSuffix(whole, whole)
  {
  }

  lemma YoungerIsSuffix(files: Files)
    ensures IsSuffix(Younger(files), History(files))
  {
    HistoryWithoutOldest(files);
  }

  /** A shift is followed by a written line or leaves a reopen pending, and a
      pending reopen is never followed by another shift. */
  lemma ShiftsArePaid(cfg: Config, s: Store, call: Call)
    requires Measured(s)
    ensures var (t, outcome) := AfterExport(cfg, s, call);
            (if s.needsReopen then 1 else 0) + (if Shifts(cfg, s, call) then 1 else 0)
            <= (if outcome == Written then 1 else 0) + (if t.needsReopen then 1 else 0)
  {
  }

  /** Over any calls, whatever reopens fail: what is on disk, oldest generation
      first, is a suffix of what was there followed by every line written since,
      in order; the size field keeps up; and the backups are shifted at most once
      more than lines are written, because a failed reopen is retried alone. */
  lemma {:induction false} NothingButTheOldestGoes(cfg: Config, s: Store, calls: seq<Call>)
    requires Measured(s)
    ensures var t := RunAll(cfg, s, calls);
            && Measured(t)
            && IsSuffix(History(t.files), History(s.files) + WrittenLines(cfg, s, calls))
            && ShiftCount(cfg, s, calls) <= |WrittenLines(cfg, s, calls)| + if t.needsReopen then 1 else 0
  {
    hide AfterExport, History, Measured, IsSuffix, Shifts, Younger;
    var start := History(s.files);
    if calls == [] {
      SuffixOfItself(start);
      assert start + [] == start;
    } else {
      var before, call := calls[..|calls| - 1], calls[|calls| - 1];
      NothingButTheOldestGoes(cfg, s, before);
      var u := RunAll(cfg, s, before);
      ExportMeasured(cfg, u, call);
      ExportHistory(cfg, u, call);
      ShiftsArePaid(cfg, u, call);
      var all := start + WrittenLines(cfg, s, before);
      var (t, outcome) := AfterExport(cfg, u, call);
      var kept := if Shifts(cfg, u, call) then Younger(u.files) else History(u.files);
      YoungerIsSuffix(u.files);
      SuffixOfItself(History(u.files));
      SuffixOfSuffix(kept, History(u.files), all);
      if outcome == Written {
        SuffixGrows(kept, all, call.line.value);
        assert all + [call.line.value] == start + (WrittenLines(cfg, s, before) + [call.line.value]);
      }
    }
  }

  /** After a written line the live file is within the limit or holds that line
      alone, and the line is the last on disk. */
  lemma LiveWithinLimit(cfg: Config, s: Store, call: Call)
    requires Measured(s)
    ensures var (t, outcome) := AfterExport(cfg, s, call);
            outcome == Written ==>
              && call.line.Some? && t.files[0].Some? && t.files[0].value != []
              && t.files[0].value[|t.files[0].value| - 1] == call.line.value
              && (cfg.maxBytes > 0 ==> Bytes(t.files[0].value) <= cfg.maxBytes || t.files[0].value == [call.line.value])
  {
    ExportMeasured(cfg, s, call);
    if s.files[0].Some? && s.files[0].value != [] {
      assert Bytes(s.files[0].value) > 0;
    }
  }

  /** Once closed, no call writes: every call that is not cancelled is counted as
      dropped, and everything on disk stays. */
  lemma {:induction false} ClosedWritesNothing(cfg: Config, s: Store, calls: seq<Call>)
    requires s.closed
    ensures RunAll(cfg, s, calls) == s.(dropped := s.dropped + Uncancelled(calls))
    ensures WrittenLines(cfg, s, calls) == []
  {
    if calls != [] {
      ClosedWritesNothing(cfg, s, calls[..|calls| - 1]);
    }
  }

  function Uncancelled(calls: seq<Call>): nat {
    if calls == [] then 0 else Uncancelled(calls[..|calls| - 1]) + if calls[|calls| - 1].cancelled then 0 else 1
  }

  /** When a call writes: it is not cancelled, its batch was encoded, the exporter
      is open, a pending reopen works, and so does the one after a rotation. It
      rotates exactly when a limit is set and the line would take a live file that
      is not empty past it. Without a rotation the line joins the live file and
      nothing else changes; with one, every generation moves up and the line
      starts the new live file. A call that writes nothing is counted as dropped
      unless it was cancelled. */
  lemma WrittenWhere(cfg: Config, s: Store, call: Call)
    requires Measured(s)
    ensures var (t, outcome) := AfterExport(cfg, s, call);
            var live := Lines(s.files[0]);
            var turns := call.line.Some? && cfg.maxBytes > 0 && Bytes(live) > 0 && Bytes(live) + |call.line.value| > cfg.maxBytes;
            && (outcome == Written <==>
                  !call.cancelled && call.line.Some? && !s.closed && (s.needsReopen ==> call.reopens) && (turns ==> call.opens))
            && (outcome == Written && !turns ==> t.files == s.files[0 := Some(live + [call.line.value])])
            && (outcome == Written && turns ==> t.files == [Some([call.line.value])] + s.files[..|s.files| - 1])
            && t.exported == s.exported + (if outcome == Written then 1 else 0)
            && t.dropped == s.dropped + (if outcome == Written || call.cancelled then 0 else 1)
            && (outcome == Cancelled <==> call.cancelled)
  {
    if call.line.Some? {
      var first, older := Some([call.line.value]), s.files[..|s.files| - 1];
      assert [] + [call.line.value] == [call.line.value];
      assert Shifted(s.files)[0 := Some([])][0 := first] == [first] + older;
    }
  }

  /** The configured limit, as MB: unset means a hundred, and with a negative one no
      line ever rotates; a negative number of backups means three. */
  lemma ConfiguredLimits(maxMB: int, maxBackups: int, s: Store, line: Line)
    ensures maxMB < 0 ==> !MustRotate(Configured(maxMB, maxBackups), s, line)
    ensures maxMB >= 0 ==>
      (MustRotate(Configured(maxMB, maxBackups), s, line) <==>
        s.size > 0 && s.size + |line| > (if maxMB == 0 then 104_857_600 else maxMB * 1_048_576))
    ensures Configured(maxMB, maxBackups).maxBackups == if maxBackups < 0 then 3 else maxBackups
  {
  }

  /** While reopening keeps failing, no file changes, however often it is tried. */
  lemma {:induction false} FailedReopensTouchNothing(cfg: Config, s: Store, calls: seq<Call>)
    requires s.needsReopen && !s.closed
    requires forall i :: 0 <= i < |calls| ==> !calls[i].reopens
    ensures RunAll(cfg, s, calls).files == s.files && RunAll(cfg, s, calls).needsReopen
    ensures !RunAll(cfg, s, calls).closed && RunAll(cfg, s, calls).exported == s.exported
  {
    if calls != [] {
      FailedReopensTouchNothing(cfg, s, calls[..|calls| - 1]);
    }
  }
}
