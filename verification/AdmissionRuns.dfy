/** What a whole sequence of recorded errors leaves behind: which occurrences
    the counts on the wire stand for, and which they do not. */
module AdmissionRuns {
  import opened Wrappers
  import opened Admission

  function Occurrences(os: seq<Occurrence>, k: Key): nat {
    if os == [] then 0
    else Occurrences(os[..|os| - 1], k) + if KeyOf(os[|os| - 1].fault) == k then 1 else 0
  }

  /** The verdict on the first occurrence of k. */
  function FirstVerdict(s: Section, os: seq<Occurrence>, k: Key): Option<Verdict>
    requires Indexed(s)
  {
    if os == [] then None
    else
      var before := os[..|os| - 1];
      var earlier := FirstVerdict(s, before, k);
      if earlier.Some? || KeyOf(os[|os| - 1].fault) != k then earlier
      else Some(Judge(RecordAll(s, before), os[|os| - 1]))
  }

  predicate Full(s: Section) {
    |s.keys| >= MAX_DISTINCT_KEYS
  }

  /** What the first verdict on k means for everything that came after it. */
  ghost predicate Story(s: Section, first: Option<Verdict>, occurrences: nat, k: Key) {
    var weight := Sum(s.errs, WeightOf(k));
    match first
    case None => k !in s.keys && occurrences == 0 && weight == 0
    case Some(Emitted) => k in s.keys && s.keys[k].repIdx >= 0 && weight == occurrences
    case Some(Refused) => 0 <= weight < occurrences && (Full(s) || (k in s.keys && s.keys[k].repIdx < 0))
    case _ => false
  }

  lemma StoryStep(s: Section, o: Occurrence, first: Option<Verdict>, occurrences: nat, k: Key)
    requires Counted(s) && Story(s, first, occurrences, k)
    ensures var here := KeyOf(o.fault) == k;
            Story(Record(s, o),
                  if first.None? && here then Some(Judge(s, o)) else first,
                  occurrences + (if here then 1 else 0), k)
  {
    hide Sum, Priority, KeyCounted;
    RecordCounts(s, o);
    assert KeyAdvanced(s, o, k);
  }

  lemma {:induction false} StoryHolds(name: string, lim: Limits, os: seq<Occurrence>, k: Key)
    ensures var s := RecordAll(Fresh(name, lim), os);
            Counted(s) && Story(s, FirstVerdict(Fresh(name, lim), os, k), Occurrences(os, k), k)
  {
    if os != [] {
      var before := os[..|os| - 1];
      StoryHolds(name, lim, before, k);
      var s := RecordAll(Fresh(name, lim), before);
      RecordCounts(s, os[|os| - 1]);
      StoryStep(s, os[|os| - 1], FirstVerdict(Fresh(name, lim), before, k), Occurrences(before, k), k);
    }
  }

  /** However request- and entity-scoped occurrences interleave and whatever the
      budget and the sample count, the counts of k's entries (absent meaning 1)
      sum to its occurrences exactly unless its first occurrence was refused;
      and over the section they sum to the entries plus the collapsed. */
  lemma CountsSumToOccurrences(name: string, lim: Limits, os: seq<Occurrence>, k: Key)
    ensures var s := RecordAll(Fresh(name, lim), os);
            && (Sum(s.errs, WeightOf(k)) == Occurrences(os, k)
                <==> FirstVerdict(Fresh(name, lim), os, k) != Some(Refused))
            && Sum(s.errs, Weight) == |s.errs| + s.collapsed
  {
    hide Sum;
    StoryHolds(name, lim, os, k);
  }

  /** Below the ceiling on remembered keys every key is all or nothing: an
      admitted key's counts sum to its occurrences, a refused one has no entry. */
  lemma BelowTheCeilingAllOrNothing(name: string, lim: Limits, os: seq<Occurrence>, k: Key)
    requires !Full(RecordAll(Fresh(name, lim), os))
    ensures var s := RecordAll(Fresh(name, lim), os);
            if k in s.keys && s.keys[k].repIdx >= 0
            then Sum(s.errs, WeightOf(k)) == Occurrences(os, k)
            else Sum(s.errs, WeightOf(k)) == 0
  {
    hide Sum;
    StoryHolds(name, lim, os, k);
    assert KeyCounted(RecordAll(Fresh(name, lim), os), k);
  }

  // ---------------------------------------------------------------------------
  // Past the ceiling
  // ---------------------------------------------------------------------------

  function Coded(code: int, requestScoped: bool): Occurrence {
    Occurrence(Fault("ListOffsets", OtherKind, code, None, ""), requestScoped)
  }

  function Flood(n: nat): seq<Occurrence> {
    if n == 0 then [] else Flood(n - 1) + [Coded(n - 1, true)]
  }

  lemma {:induction false} FloodFills(name: string, lim: Limits, n: nat)
    ensures var s := RecordAll(Fresh(name, lim), Flood(n));
            |s.keys| == n && forall k :: k in s.keys ==> k.code < n
    ensures forall k: Key :: k.code >= n ==> Occurrences(Flood(n), k) == 0
  {
    if n > 0 {
      FloodFills(name, lim, n - 1);
      assert Flood(n)[..|Flood(n)| - 1] == Flood(n - 1);
      assert Flood(n)[|Flood(n)| - 1] == Coded(n - 1, true);
    }
  }

  /** After n = 256 distinct request failures, an entity-scoped failure is refused
      without being remembered; the same failure of a whole request is then
      admitted as new, and its count of 1 stands for two occurrences. */
  lemma CeilingUndercounts(lim: Limits, n: nat)
    requires n == MAX_DISTINCT_KEYS
    ensures var k := KeyOf(Coded(n, true).fault);
            var os := (Flood(n) + [Coded(n, false)]) + [Coded(n, true)];
            var s := RecordAll(Fresh("topics", lim), os);
            && k in s.keys && s.keys[k].repIdx >= 0
            && Occurrences(os, k) == 2
            && Sum(s.errs, WeightOf(k)) == 1
  {
    hide Sum, Flood, Record, Counted;
    var k := KeyOf(Coded(n, true).fault);
    var os1 := Flood(n) + [Coded(n, false)];
    var os2 := os1 + [Coded(n, true)];
    FloodFills("topics", lim, n);
    StoryHolds("topics", lim, Flood(n), k);
    UndercountFrom(RecordAll(Fresh("topics", lim), Flood(n)), k, n);
    assert os1[..|os1| - 1] == Flood(n) && os2[..|os2| - 1] == os1;
    assert os1[|os1| - 1] == Coded(n, false) && os2[|os2| - 1] == Coded(n, true);
  }

  lemma UndercountFrom(s: Section, k: Key, n: nat)
    requires Counted(s) && Full(s) && k == KeyOf(Coded(n, true).fault) && k !in s.keys
    ensures var t := Record(Record(s, Coded(n, false)), Coded(n, true));
            k in t.keys && t.keys[k].repIdx >= 0 && Sum(t.errs, WeightOf(k)) == 1
  {
    hide Sum;
    assert KeyCounted(s, k);
    RecordCounts(s, Coded(n, false));
    var u := Record(s, Coded(n, false));
    assert KeyAdvanced(s, Coded(n, false), k);
    RecordCounts(u, Coded(n, true));
    assert KeyAdvanced(u, Coded(n, true), k);
  }
}
