/** Which committed offsets call for a leader-epoch probe, and in which order: the
    retained ones must not depend on the order in which they were found. */
module EpochTriggers {
  import opened Wrappers
  import opened EpochRounds
  import opened EpochProbes

  /** A partition as this batch ships it. */
  datatype Current = Current(topicId: string, epoch: int)

  /** One partition of one group's offsets; no offset, no commit. */
  datatype Commit = Commit(tp: TopicPartition, offset: Option<nat>, epoch: int)

  datatype GroupCommits = GroupCommits(group: string, commits: seq<Commit>)

  /** The group committed there, both epochs are known, and they differ. */
  predicate Mismatch(current: map<TopicPartition, Current>, c: Commit) {
    && c.offset.Some? && c.epoch >= 0
    && c.tp in current && current[c.tp].epoch >= 0
    && current[c.tp].epoch != c.epoch
  }

  function TriggerFor(current: map<TopicPartition, Current>, group: string, c: Commit): Trigger
    requires Mismatch(current, c)
  {
    Trigger(c.tp, current[c.tp].topicId, group, c.offset.value, c.epoch, current[c.tp].epoch)
  }

  function OfGroup(current: map<TopicPartition, Current>, group: string, commits: seq<Commit>): seq<Trigger> {
    if commits == [] then []
    else
      var c := commits[|commits| - 1];
      OfGroup(current, group, commits[..|commits| - 1]) + if Mismatch(current, c) then [TriggerFor(current, group, c)] else []
  }

  /** Every mismatch, in the order found. */
  function Found(current: map<TopicPartition, Current>, groups: seq<GroupCommits>): seq<Trigger> {
    if groups == [] then []
    else
      var g := groups[|groups| - 1];
      Found(current, groups[..|groups| - 1]) + OfGroup(current, g.group, g.commits)
  }

  // ---------------------------------------------------------------------------
  // Order
  // ---------------------------------------------------------------------------

  predicate Less(a: string, b: string) {
    if a == [] then b != []
    else b != [] && (a[0] < b[0] || (a[0] == b[0] && Less(a[1..], b[1..])))
  }

  lemma {:induction false} LessTotal(a: string, b: string)
    ensures Less(a, b) || a == b || Less(b, a)
    ensures !(Less(a, b) && Less(b, a)) && !Less(a, a)
  {
    if a != [] && b != [] {
      LessTotal(a[1..], b[1..]);
      assert a == [a[0]] + a[1..] && b == [b[0]] + b[1..];
    }
    if a != [] {
      LessTotal(a[1..], a[1..]);
    }
  }

  lemma {:induction false} LessTransitive(a: string, b: string, c: string)
    requires Less(a, b) && Less(b, c)
    ensures Less(a, c)
  {
    if a != [] && a[0] == b[0] == c[0] {
      LessTransitive(a[1..], b[1..], c[1..]);
    }
  }

  /** By topic, then partition, then group. */
  predicate Before(t: Trigger, u: Trigger) {
    || Less(t.tp.topic, u.tp.topic)
    || (t.tp.topic == u.tp.topic && t.tp.partition < u.tp.partition)
    || (t.tp == u.tp && Less(t.group, u.group))
  }

  predicate SameKey(t: Trigger, u: Trigger) {
    t.tp == u.tp && t.group == u.group
  }

  lemma BeforeTotal(t: Trigger, u: Trigger)
    ensures Before(t, u) || SameKey(t, u) || Before(u, t)
    ensures !(Before(t, u) && Before(u, t)) && !Before(t, t)
  {
    hide Less;
    LessTotal(t.tp.topic, u.tp.topic);
    LessTotal(t.group, u.group);
    LessTotal(t.tp.topic, t.tp.topic);
    LessTotal(t.group, t.group);
  }

  lemma BeforeTransitive(t: Trigger, u: Trigger, v: Trigger)
    requires Before(t, u) && Before(u, v)
    ensures Before(t, v)
  {
    hide Less;
    if Less(t.tp.topic, u.tp.topic) && Less(u.tp.topic, v.tp.topic) {
      LessTransitive(t.tp.topic, u.tp.topic, v.tp.topic);
    }
    if Less(t.group, u.group) && Less(u.group, v.group) {
      LessTransitive(t.group, u.group, v.group);
    }
  }

  /** Nothing comes before something ahead of it. */
  predicate Sorted(ts: seq<Trigger>) {
    forall i, j :: 0 <= i < j < |ts| ==> !Before(ts[j], ts[i])
  }

  predicate KeysDistinct(ts: seq<Trigger>) {
    forall i, j :: 0 <= i < j < |ts| ==> !SameKey(ts[i], ts[j])
  }

  // ---------------------------------------------------------------------------
  // The computation
  // ---------------------------------------------------------------------------

  method FindAll(current: map<TopicPartition, Current>, groups: seq<GroupCommits>) returns (ts: seq<Trigger>)
    ensures ts == Found(current, groups)
  {
    hide Mismatch;
    ts := [];
    for i := 0 to |groups|
      invariant ts == Found(current, groups[..i])
    {
      assert groups[..i + 1][..i] == groups[..i];
      var g := groups[i];
      ghost var before := ts;
      for n := 0 to |g.commits|
        invariant ts == before + OfGroup(current, g.group, g.commits[..n])
      {
        assert g.commits[..n + 1][..n] == g.commits[..n];
        if Mismatch(current, g.commits[n]) {
          ts := ts + [TriggerFor(current, g.group, g.commits[n])];
        }
      }
      assert g.commits[..|g.commits|] == g.commits;
    }
    assert groups[..|groups|] == groups;
  }

  /** Where t goes among sorted triggers. */
  method Position(ts: seq<Trigger>, t: Trigger) returns (k: nat)
    ensures k <= |ts|
    ensures forall i :: k <= i < |ts| ==> Before(t, ts[i])
    ensures k > 0 ==> !Before(t, ts[k - 1])
  {
    hide Before;
    k := |ts|;
    while k > 0 && Before(t, ts[k - 1])
      invariant k <= |ts|
      invariant forall i :: k <= i < |ts| ==> Before(t, ts[i])
    {
      k := k - 1;
    }
  }

  function Inserted(ts: seq<Trigger>, t: Trigger, k: nat): seq<Trigger>
    requires k <= |ts|
  {
    ts[..k] + [t] + ts[k..]
  }

  lemma InsertedContents(ts: seq<Trigger>, t: Trigger, k: nat)
    requires k <= |ts|
    ensures multiset(Inserted(ts, t, k)) == multiset(ts) + multiset{t}
  {
    assert ts == ts[..k] + ts[k..];
  }

  lemma InsertedSorted(ts: seq<Trigger>, t: Trigger, k: nat)
    requires Sorted(ts) && k <= |ts|
    requires forall i :: k <= i < |ts| ==> Before(t, ts[i])
    requires k > 0 ==> !Before(t, ts[k - 1])
    ensures Sorted(Inserted(ts, t, k))
  {
    hide Before;
    forall i | 0 <= i < k ensures !Before(t, ts[i]) {
      if Before(t, ts[i]) && i < k - 1 {
        NotBefore(t, ts[i], ts[k - 1]);
      }
    }
    forall i | k <= i < |ts| ensures !Before(ts[i], t) {
      BeforeTotal(t, ts[i]);
    }
  }

  /** What comes before u comes before anything u is not after. */
  lemma NotBefore(t: Trigger, u: Trigger, v: Trigger)
    requires Before(t, u) && !Before(v, u)
    ensures Before(t, v)
  {
    BeforeTotal(u, v);
    if Before(u, v) {
      BeforeTransitive(t, u, v);
    }
  }

  method Sort(ts: seq<Trigger>) returns (out: seq<Trigger>)
    ensures Sorted(out) && multiset(out) == multiset(ts)
  {
    hide Before, Inserted;
    out := [];
    assert Sorted(out);
    hide Sorted;
    for i := 0 to |ts|
      invariant Sorted(out) && multiset(out) == multiset(ts[..i])
    {
      assert ts[..i + 1] == ts[..i] + [ts[i]];
      var k := Position(out, ts[i]);
      InsertedSorted(out, ts[i], k);
      InsertedContents(out, ts[i], k);
      out := Inserted(out, ts[i], k);
    }
    assert ts[..|ts|] == ts;
  }

  /** all is found, put in order. */
  predicate InOrder(found: seq<Trigger>, all: seq<Trigger>) {
    Sorted(all) && multiset(all) == multiset(found)
  }

  /** epochTriggers: the mismatches in order, cut at the cap. */
  method Triggers(current: map<TopicPartition, Current>, groups: seq<GroupCommits>) returns (ts: seq<Trigger>, dropped: bool)
    ensures exists all :: InOrder(Found(current, groups), all) && ts == Capped(all)
    ensures dropped <==> |Found(current, groups)| > MAX_PROBES
  {
    var found := FindAll(current, groups);
    var sorted := Sort(found);
    assert |sorted| == |multiset(sorted)| == |multiset(found)| == |found|;
    assert InOrder(found, sorted);
    ts := if |sorted| <= MAX_PROBES then sorted else sorted[..MAX_PROBES];
    dropped := |sorted| > MAX_PROBES;
  }

  // ---------------------------------------------------------------------------
  // What it guarantees
  // ---------------------------------------------------------------------------

  lemma {:induction false} OfGroupMeaning(current: map<TopicPartition, Current>, group: string, commits: seq<Commit>, t: Trigger)
    ensures t in OfGroup(current, group, commits) <==>
      exists c :: c in commits && Mismatch(current, c) && t == TriggerFor(current, group, c)
  {
    hide Mismatch;
    if commits != [] {
      var n := |commits| - 1;
      OfGroupMeaning(current, group, commits[..n], t);
      assert commits == commits[..n] + [commits[n]];
    }
  }

  /** A trigger is found exactly when some group's commit mismatches its
      partition's current epoch. */
  lemma {:induction false} FoundMeaning(current: map<TopicPartition, Current>, groups: seq<GroupCommits>, t: Trigger)
    ensures t in Found(current, groups) <==>
      exists g, c :: g in groups && c in g.commits && Mismatch(current, c) && t == TriggerFor(current, g.group, c)
  {
    hide Mismatch, OfGroup;
    if groups != [] {
      var n := |groups| - 1;
      FoundMeaning(current, groups[..n], t);
      OfGroupMeaning(current, groups[n].group, groups[n].commits, t);
      assert groups == groups[..n] + [groups[n]];
    }
  }

  /** A mismatch is a commit whose epoch is known, on a partition whose current
      epoch is known and another; its trigger carries both, with the group and
      the offset committed there. */
  lemma MismatchMeaning(current: map<TopicPartition, Current>, group: string, c: Commit)
    ensures Mismatch(current, c) <==>
      c.offset != None && 0 <= c.epoch && c.tp in current && 0 <= current[c.tp].epoch && current[c.tp].epoch != c.epoch
    ensures Mismatch(current, c) ==>
      var t := TriggerFor(current, group, c);
      && t.tp == c.tp && t.group == group && Some(t.committedOffset) == c.offset
      && t.committedEpoch == c.epoch && t.currentEpoch == current[c.tp].epoch && t.topicId == current[c.tp].topicId
  {
  }

  /** Sorted triggers come topic by topic, within a topic partition by partition,
      and within a partition group by group. */
  lemma SortedMeaning(ts: seq<Trigger>, i: nat, j: nat)
    requires Sorted(ts) && i < j < |ts|
    ensures Less(ts[i].tp.topic, ts[j].tp.topic) || ts[i].tp.topic == ts[j].tp.topic
    ensures ts[i].tp.topic == ts[j].tp.topic ==> ts[i].tp.partition <= ts[j].tp.partition
    ensures ts[i].tp == ts[j].tp ==> Less(ts[i].group, ts[j].group) || ts[i].group == ts[j].group
  {
    hide Less;
    LessTotal(ts[i].tp.topic, ts[j].tp.topic);
    LessTotal(ts[i].group, ts[j].group);
  }

  /** The cap cuts at the end: nothing it leaves out comes before what it keeps. */
  lemma CutKeepsTheFirst(all: seq<Trigger>, kept: Trigger, left: Trigger)
    requires Sorted(all) && kept in Capped(all) && left in all && left !in Capped(all)
    ensures !Before(left, kept) && |Capped(all)| == MAX_PROBES
  {
    hide Before;
    var i :| 0 <= i < |Capped(all)| && Capped(all)[i] == kept;
    var j :| 0 <= j < |all| && all[j] == left;
    assert all[i] == kept;
    assert j < |Capped(all)| ==> Capped(all)[j] == left;
  }

  /** What settled triggers are taken out of keeps its order, and so do the rows:
      those of a cycle over sorted triggers are sorted. */
  lemma RowsInOrder(ts: seq<Trigger>, seen: set<ProbeKey>, rounds: seq<Round>, respond: Round -> Response, i: nat, j: nat)
    requires Sorted(ts) && i < j < |RowsFor(Fresh(Capped(ts), seen), rounds, respond)|
    ensures var rows := RowsFor(Fresh(Capped(ts), seen), rounds, respond);
            !Before(rows[j].trigger, rows[i].trigger)
  {
    assert Sorted(Capped(ts));
    hide Before, Sorted;
    FreshSorted(Capped(ts), seen);
    RowsSorted(Fresh(Capped(ts), seen), rounds, respond, i, j);
  }

  lemma {:induction false} FreshSorted(ts: seq<Trigger>, seen: set<ProbeKey>)
    requires Sorted(ts)
    ensures Sorted(Fresh(ts, seen))
  {
    hide Before;
    if ts != [] {
      var n := |ts| - 1;
      FreshSorted(ts[..n], seen);
      forall t | t in Fresh(ts[..n], seen) ensures !Before(ts[n], t) {
        var k :| 0 <= k < n && ts[..n][k] == t;
        assert ts[k] == t;
      }
    }
  }

  lemma {:induction false} RowsSorted(ts: seq<Trigger>, rounds: seq<Round>, respond: Round -> Response, i: nat, j: nat)
    requires Sorted(ts) && i < j < |RowsFor(ts, rounds, respond)|
    ensures !Before(RowsFor(ts, rounds, respond)[j].trigger, RowsFor(ts, rounds, respond)[i].trigger)
  {
    hide Before, Filed;
    var n := |ts| - 1;
    if j < |RowsFor(ts[..n], rounds, respond)| {
      RowsSorted(ts[..n], rounds, respond, i, j);
    } else {
      RowTriggered(ts[..n], rounds, respond, i);
      var t := RowsFor(ts[..n], rounds, respond)[i].trigger;
      var k :| 0 <= k < n && ts[..n][k] == t;
      assert ts[k] == t;
    }
  }

  lemma {:induction false} RowTriggered(ts: seq<Trigger>, rounds: seq<Round>, respond: Round -> Response, i: nat)
    requires i < |RowsFor(ts, rounds, respond)|
    ensures RowsFor(ts, rounds, respond)[i].trigger in ts
  {
    hide Filed;
    var n := |ts| - 1;
    if i < |RowsFor(ts[..n], rounds, respond)| {
      RowTriggered(ts[..n], rounds, respond, i);
    }
  }

  /** Triggers with distinct keys have one sorted order. */
  lemma {:induction false} SortedOnce(a: seq<Trigger>, b: seq<Trigger>)
    requires Sorted(a) && Sorted(b) && KeysDistinct(a) && multiset(a) == multiset(b)
    ensures a == b
  {
    hide Before, SameKey;
    assert |a| == |multiset(a)| == |multiset(b)| == |b|;
    if a != [] {
      FirstIsLeast(a, b);
      assert a == [a[0]] + a[1..] && b == [b[0]] + b[1..];
      assert multiset(a[1..]) == multiset(a) - multiset{a[0]} == multiset(b) - multiset{b[0]} == multiset(b[1..]);
      SortedOnce(a[1..], b[1..]);
    }
  }

  lemma FirstIsLeast(a: seq<Trigger>, b: seq<Trigger>)
    requires Sorted(a) && Sorted(b) && KeysDistinct(a) && multiset(a) == multiset(b) && a != [] && b != []
    ensures a[0] == b[0]
  {
    hide Before;
    assert a[0] in multiset(b) && b[0] in multiset(a);
    var i :| 0 <= i < |a| && a[i] == b[0];
    var j :| 0 <= j < |b| && b[j] == a[0];
    BeforeTotal(a[0], b[0]);
    assert j > 0 ==> !Before(b[j], b[0]);
    assert i > 0 ==> !Before(a[i], a[0]) && !SameKey(a[0], a[i]);
  }

  /** Whatever order the groups and partitions came in: as long as each group
      reports a partition once, the same mismatches keep the same triggers, cap
      included. */
  lemma RetainedWhateverTheOrder(found: seq<Trigger>, again: seq<Trigger>, a: seq<Trigger>, b: seq<Trigger>)
    requires multiset(found) == multiset(again) && KeysDistinct(found)
    requires InOrder(found, a) && InOrder(again, b)
    ensures Capped(a) == Capped(b)
  {
    DistinctPermuted(found, a);
    SortedOnce(a, b);
  }

  lemma DistinctPermuted(a: seq<Trigger>, b: seq<Trigger>)
    requires KeysDistinct(a) && multiset(a) == multiset(b)
    ensures KeysDistinct(b)
  {
    forall i, j | 0 <= i < j < |b| ensures !SameKey(b[i], b[j]) {
      if SameKey(b[i], b[j]) {
        assert b[i] in multiset(a) && b[j] in multiset(a);
        var x :| 0 <= x < |a| && a[x] == b[i];
        var y :| 0 <= y < |a| && a[y] == b[j];
        if x == y {
          TwiceInside(b, i, j);
          OnceInside(a, x);
        }
      }
    }
  }

  lemma TwiceInside(b: seq<Trigger>, i: nat, j: nat)
    requires i < j < |b| && b[i] == b[j]
    ensures multiset(b)[b[i]] >= 2
  {
    assert b == b[..j] + [b[j]] + b[j + 1..];
    assert b[..j][i] == b[i];
    assert b[i] in multiset(b[..j]);
  }

  lemma OnceInside(a: seq<Trigger>, x: nat)
    requires KeysDistinct(a) && x < |a|
    ensures multiset(a)[a[x]] == 1
  {
    var t := a[x];
    assert a == a[..x] + [t] + a[x + 1..];
    forall k | 0 <= k < x ensures a[..x][k] != t {
      assert !SameKey(a[k], a[x]);
    }
    var after := a[x + 1..];
    forall k | 0 <= k < |after| ensures after[k] != t {
      assert !SameKey(a[x], a[x + 1 + k]);
    }
    assert t !in a[..x] && t !in a[x + 1..];
    assert multiset(a) == multiset(a[..x]) + multiset{t} + multiset(a[x + 1..]);
  }
}
