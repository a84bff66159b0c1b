/** What the probe phase's memory guarantees over any number of cycles. */
module EpochConvergence {
  import opened Wrappers
  import opened EpochRounds
  import opened EpochProbes

  /** One cycle's questions packed, asked, and their rows. */
  ghost predicate IsCycle(ts: seq<Trigger>, seen: set<ProbeKey>, respond: Round -> Response, rounds: seq<Round>, rows: seq<Row>) {
    && (exists dropped :: Packed(Questions(Fresh(Capped(ts), seen)), rounds, dropped))
    && rows == RowsFor(Fresh(Capped(ts), seen), rounds, respond)
  }

  function KeySet(ts: seq<Trigger>): set<ProbeKey> {
    set t | t in ts :: KeyOf(t)
  }

  // ---------------------------------------------------------------------------
  // One cycle
  // ---------------------------------------------------------------------------

  lemma {:induction false} FiledFrom(rounds: seq<Round>, respond: Round -> Response, q: Question)
    ensures Filed(rounds, respond, q).Some? <==> exists i :: 0 <= i < |rounds| && q in rounds[i].keys
    ensures Filed(rounds, respond, q).Some? ==>
      exists i :: 0 <= i < |rounds| && q in rounds[i].keys && Filed(rounds, respond, q).value == AnswerIn(respond(rounds[i]), q)
  {
    if rounds != [] {
      var n := |rounds| - 1;
      FiledFrom(rounds[..n], respond, q);
      if q !in rounds[n].keys && Filed(rounds[..n], respond, q).Some? {
        var i :| 0 <= i < n && q in rounds[..n][i].keys && Filed(rounds[..n], respond, q).value == AnswerIn(respond(rounds[..n][i]), q);
        assert rounds[i] == rounds[..n][i];
      }
    }
  }

  lemma {:induction false} RowsMeaning(pending: seq<Trigger>, rounds: seq<Round>, respond: Round -> Response, k: nat)
    requires k < |RowsFor(pending, rounds, respond)|
    ensures var row := RowsFor(pending, rounds, respond)[k];
            row.trigger in pending && Filed(rounds, respond, QuestionOf(row.trigger)) == Some(row.answer)
  {
    var n := |pending| - 1;
    if k < |RowsFor(pending[..n], rounds, respond)| {
      RowsMeaning(pending[..n], rounds, respond, k);
    }
  }

  lemma {:induction false} SettledHasRow(rows: seq<Row>, k: ProbeKey)
    ensures k in SettledKeys(rows) <==> exists i :: 0 <= i < |rows| && Settles(rows[i].answer) && KeyOf(rows[i].trigger) == k
  {
    if rows != [] {
      var n := |rows| - 1;
      SettledHasRow(rows[..n], k);
      if k in SettledKeys(rows[..n]) {
        var i :| 0 <= i < n && Settles(rows[..n][i].answer) && KeyOf(rows[..n][i].trigger) == k;
        assert rows[i] == rows[..n][i];
      }
      if exists i :: 0 <= i < |rows| && Settles(rows[i].answer) && KeyOf(rows[i].trigger) == k {
        var i :| 0 <= i < |rows| && Settles(rows[i].answer) && KeyOf(rows[i].trigger) == k;
        if i < n {
          assert rows[..n][i] == rows[i];
        }
      }
    }
  }

  lemma {:induction false} RememberedFrom(seen: set<ProbeKey>, ks: seq<ProbeKey>)
    ensures forall k :: k in RememberAll(seen, ks) ==> k in seen || k in ks
    ensures ks != [] ==> ks[|ks| - 1] in RememberAll(seen, ks)
  {
    if ks != [] {
      RememberedFrom(seen, ks[..|ks| - 1]);
    }
  }

  lemma {:induction false} MemoryBounded(seen: set<ProbeKey>, ks: seq<ProbeKey>)
    requires |seen| <= MAX_PROBED
    ensures |RememberAll(seen, ks)| <= MAX_PROBED
  {
    if ks != [] {
      MemoryBounded(seen, ks[..|ks| - 1]);
      var before := RememberAll(seen, ks[..|ks| - 1]);
      if |before| < MAX_PROBED {
        assert |before + {ks[|ks| - 1]}| <= |before| + 1;
      }
    }
  }

  /** A leader answered question q in round i: the request's response is usable,
      it names the partition, and the partition carries no error. */
  predicate AnsweredIn(rounds: seq<Round>, respond: Round -> Response, q: Question, i: nat) {
    && i < |rounds| && q in rounds[i].keys
    && respond(rounds[i]).usable
    && q.tp in respond(rounds[i]).replies && !respond(rounds[i]).replies[q.tp].failed
  }

  lemma SettlesMeaning(response: Response, q: Question)
    ensures Settles(AnswerIn(response, q)) <==> response.usable && q.tp in response.replies && !response.replies[q.tp].failed
  {
  }

  /** Whatever the leaders answer: the memory stays within its bound, and a
      question it newly holds is one of this cycle's fresh triggers, asked in a
      round whose leader answered it without an error. */
  lemma OnlySettledIsRemembered(ts: seq<Trigger>, seen: set<ProbeKey>, respond: Round -> Response, rounds: seq<Round>, rows: seq<Row>, k: ProbeKey)
    requires IsCycle(ts, seen, respond, rounds, rows) && |seen| <= MAX_PROBED
    ensures |RememberAll(seen, SettledKeys(rows))| <= MAX_PROBED
    ensures k in RememberAll(seen, SettledKeys(rows)) && k !in seen ==>
      exists t, i: nat :: t in Fresh(Capped(ts), seen) && KeyOf(t) == k && AnsweredIn(rounds, respond, QuestionOf(t), i)
  {
    MemoryBounded(seen, SettledKeys(rows));
    RememberedFrom(seen, SettledKeys(rows));
    if k in RememberAll(seen, SettledKeys(rows)) && k !in seen {
      SettledHasRow(rows, k);
      var n :| 0 <= n < |rows| && Settles(rows[n].answer) && KeyOf(rows[n].trigger) == k;
      RowsMeaning(Fresh(Capped(ts), seen), rounds, respond, n);
      var t := rows[n].trigger;
      FiledFrom(rounds, respond, QuestionOf(t));
      var i: nat :| i < |rounds| && QuestionOf(t) in rounds[i].keys
        && Filed(rounds, respond, QuestionOf(t)).value == AnswerIn(respond(rounds[i]), QuestionOf(t));
      SettlesMeaning(respond(rounds[i]), QuestionOf(t));
      assert AnsweredIn(rounds, respond, QuestionOf(t), i);
      assert t in Fresh(Capped(ts), seen);
    }
  }

  /** How many rows trigger t has. */
  function RowCount(rows: seq<Row>, t: Trigger): nat {
    if rows == [] then 0 else RowCount(rows[..|rows| - 1], t) + if rows[|rows| - 1].trigger == t then 1 else 0
  }

  function TriggerCount(ts: seq<Trigger>, t: Trigger): nat {
    if ts == [] then 0 else TriggerCount(ts[..|ts| - 1], t) + if ts[|ts| - 1] == t then 1 else 0
  }

  /** Every asked trigger gets exactly one row and every unasked one none. */
  lemma {:induction false} OneRowPerAskedTrigger(pending: seq<Trigger>, rounds: seq<Round>, respond: Round -> Response, t: Trigger)
    ensures RowCount(RowsFor(pending, rounds, respond), t) ==
      if exists i :: 0 <= i < |rounds| && QuestionOf(t) in rounds[i].keys then TriggerCount(pending, t) else 0
  {
    if pending != [] {
      var n := |pending| - 1;
      OneRowPerAskedTrigger(pending[..n], rounds, respond, t);
      var before := RowsFor(pending[..n], rounds, respond);
      var last := pending[n];
      FiledFrom(rounds, respond, QuestionOf(last));
      var filed := Filed(rounds, respond, QuestionOf(last));
      hide Filed;
      if filed.Some? {
        assert (before + [Row(last, filed.value)])[..|before|] == before;
      } else {
        assert before + [] == before;
      }
    }
  }

  // ---------------------------------------------------------------------------
  // A fixed set of mismatches whose requests are all answered
  // ---------------------------------------------------------------------------

  lemma {:induction false} RowFor(rows: seq<Row>, t: Trigger)
    requires RowCount(rows, t) > 0
    ensures exists i :: 0 <= i < |rows| && rows[i].trigger == t
  {
    var n := |rows| - 1;
    if rows[n].trigger != t {
      RowFor(rows[..n], t);
      var i :| 0 <= i < n && rows[..n][i].trigger == t;
      assert rows[i].trigger == t;
    }
  }

  lemma {:induction false} TriggerCounted(ts: seq<Trigger>, t: Trigger)
    requires t in ts
    ensures TriggerCount(ts, t) > 0
  {
    var n := |ts| - 1;
    if ts[n] != t {
      var i :| 0 <= i < |ts| && ts[i] == t;
      assert ts[..n][i] == t;
      TriggerCounted(ts[..n], t);
    }
  }

  /** Every question asked is answered by its leader without an error. */
  ghost predicate Answered(rounds: seq<Round>, respond: Round -> Response) {
    forall i, q :: 0 <= i < |rounds| && q in rounds[i].keys ==> Settles(AnswerIn(respond(rounds[i]), q))
  }

  /** A cycle over ts in which every request was answered, retiring ks. */
  ghost predicate HealthyCycle(ts: seq<Trigger>, seen: set<ProbeKey>, ks: seq<ProbeKey>) {
    exists respond, rounds, rows ::
      IsCycle(ts, seen, respond, rounds, rows) && Answered(rounds, respond) && ks == SettledKeys(rows)
  }

  predicate Skipped(ts: seq<Trigger>, seen: set<ProbeKey>) {
    Fresh(Capped(ts), seen) == []
  }

  lemma SkippedMeaning(ts: seq<Trigger>, seen: set<ProbeKey>)
    ensures Skipped(ts, seen) <==> KeySet(Capped(ts)) <= seen
  {
    hide Fresh, Capped;
    var pending := Fresh(Capped(ts), seen);
    if pending == [] {
      forall t | t in Capped(ts) ensures KeyOf(t) in seen {
        assert t in pending <==> KeyOf(t) !in seen;
      }
    } else {
      assert pending[0] in pending;
      assert KeyOf(pending[0]) in KeySet(Capped(ts));
    }
  }

  /** A trigger whose question goes out in the first round, which asks the first
      epoch of every partition. */
  lemma FirstRoundAsksSome(pending: seq<Trigger>, rounds: seq<Round>, dropped: bool) returns (t: Trigger)
    requires pending != [] && Packed(Questions(pending), rounds, dropped)
    ensures |rounds| > 0 && t in pending && QuestionOf(t) in rounds[0].keys
  {
    hide Distinct;
    var qs := Questions(pending);
    var tp := qs[0].tp;
    assert Question(tp, qs[0].epoch) in qs;
    assert |Distinct(qs, tp)| > 0;
    assert AsksRank(qs, rounds[0], 0);
    var q := Question(tp, Distinct(qs, tp)[0]);
    assert q in qs;
    var i :| 0 <= i < |qs| && qs[i] == q;
    t := pending[i];
    assert tp in rounds[0].req;
  }

  lemma AnsweredRowSettles(pending: seq<Trigger>, rounds: seq<Round>, respond: Round -> Response, t: Trigger, i: nat)
    requires Answered(rounds, respond) && t in pending && i < |rounds| && QuestionOf(t) in rounds[i].keys
    ensures KeyOf(t) in SettledKeys(RowsFor(pending, rounds, respond))
  {
    hide RowsFor, Filed, RowCount, TriggerCount, SettledKeys, Settles;
    var rows := RowsFor(pending, rounds, respond);
    OneRowPerAskedTrigger(pending, rounds, respond, t);
    TriggerCounted(pending, t);
    RowFor(rows, t);
    var n :| 0 <= n < |rows| && rows[n].trigger == t;
    RowsMeaning(pending, rounds, respond, n);
    FiledFrom(rounds, respond, QuestionOf(t));
    SettledHasRow(rows, KeyOf(t));
  }

  /** An answered cycle retires only fresh questions of the retained triggers,
      and at least one unless it is skipped. */
  lemma CycleRetires(ts: seq<Trigger>, seen: set<ProbeKey>, ks: seq<ProbeKey>)
    requires HealthyCycle(ts, seen, ks)
    ensures forall k :: k in ks ==> k in KeySet(Capped(ts)) && k !in seen
    ensures Skipped(ts, seen) <==> ks == []
  {
    hide Fresh, Capped, RowsFor, SettledKeys, Filed, Settles, Packed;
    var respond: Round -> Response, rounds: seq<Round>, rows: seq<Row> :|
      IsCycle(ts, seen, respond, rounds, rows) && Answered(rounds, respond) && ks == SettledKeys(rows);
    var pending := Fresh(Capped(ts), seen);
    forall k | k in ks ensures k in KeySet(Capped(ts)) && k !in seen && pending != [] {
      SettledHasRow(rows, k);
      var n :| 0 <= n < |rows| && Settles(rows[n].answer) && KeyOf(rows[n].trigger) == k;
      RowsMeaning(pending, rounds, respond, n);
    }
    if pending != [] {
      var dropped :| Packed(Questions(pending), rounds, dropped);
      var t := FirstRoundAsksSome(pending, rounds, dropped);
      AnsweredRowSettles(pending, rounds, respond, t, 0);
    }
    assert ks != [] ==> ks[0] in ks;
  }

  /** Remembering keeps everything that was held and adds every key, as long as
      nothing is evicted. */
  lemma {:induction false} RememberedAll(seen: set<ProbeKey>, ks: seq<ProbeKey>)
    requires Evictions(seen, ks) == 0
    ensures RememberAll(seen, ks) == seen + (set k | k in ks)
  {
    if ks != [] {
      RememberedAll(seen, ks[..|ks| - 1]);
    }
  }

  /** Two triggers with one key ask one question. */
  lemma KeyIdentity(t: Trigger, u: Trigger)
    ensures KeyOf(t) == KeyOf(u) <==>
      t.tp == u.tp && t.topicId == u.topicId && t.committedEpoch == u.committedEpoch && t.currentEpoch == u.currentEpoch
    ensures KeyOf(t) == KeyOf(u) ==> QuestionOf(t) == QuestionOf(u)
    ensures QuestionOf(t) == QuestionOf(u) <==> t.tp == u.tp && t.committedEpoch == u.committedEpoch
  {
  }

  /** A fresh question is asked in at most one round. */
  lemma OneRoundAsks(pending: seq<Trigger>, rounds: seq<Round>, dropped: bool, t: Trigger, i: nat, j: nat)
    requires Packed(Questions(pending), rounds, dropped) && t in pending
    requires i < |rounds| && QuestionOf(t) in rounds[i].keys && j < |rounds| && QuestionOf(t) in rounds[j].keys
    ensures i == j
  {
    hide Distinct;
    var qs, tp := Questions(pending), t.tp;
    assert AsksRank(qs, rounds[i], i) && AsksRank(qs, rounds[j], j);
    assert Distinct(qs, tp)[i] == t.committedEpoch == Distinct(qs, tp)[j];
  }

  /** A fresh question of this cycle is retired exactly when a leader answered it
      without an error, unless the memory was wiped meanwhile; one whose request
      failed, whose partition was omitted or in error, or that was refused a
      request is fresh again in the next cycle. */
  lemma AnsweredExactlyRetired(ts: seq<Trigger>, seen: set<ProbeKey>, respond: Round -> Response, rounds: seq<Round>, rows: seq<Row>, t: Trigger)
    requires IsCycle(ts, seen, respond, rounds, rows) && |seen| <= MAX_PROBED && t in Fresh(Capped(ts), seen)
    ensures var after := RememberAll(seen, SettledKeys(rows));
            && (Evictions(seen, SettledKeys(rows)) == 0 && (exists i: nat :: AnsweredIn(rounds, respond, QuestionOf(t), i)) ==>
                  KeyOf(t) in after && t !in Fresh(Capped(ts), after))
            && (!(exists i: nat :: AnsweredIn(rounds, respond, QuestionOf(t), i)) ==>
                  KeyOf(t) !in after && t in Fresh(Capped(ts), after))
  {
    hide RowsFor, SettledKeys, RememberAll, Evictions, Filed, Packed, RowCount, TriggerCount, Settles;
    var pending, ks := Fresh(Capped(ts), seen), SettledKeys(rows);
    if exists i: nat :: AnsweredIn(rounds, respond, QuestionOf(t), i) {
      var i: nat :| AnsweredIn(rounds, respond, QuestionOf(t), i);
      RetiredIfAnswered(ts, seen, respond, rounds, rows, t, i);
      if Evictions(seen, ks) == 0 {
        RememberedAll(seen, ks);
      }
    } else {
      OnlySettledIsRemembered(ts, seen, respond, rounds, rows, KeyOf(t));
      forall u | u in pending && KeyOf(u) == KeyOf(t) ensures QuestionOf(u) == QuestionOf(t) {
        KeyIdentity(t, u);
      }
    }
  }

  lemma RetiredIfAnswered(ts: seq<Trigger>, seen: set<ProbeKey>, respond: Round -> Response, rounds: seq<Round>, rows: seq<Row>, t: Trigger, i: nat)
    requires IsCycle(ts, seen, respond, rounds, rows) && t in Fresh(Capped(ts), seen)
    requires AnsweredIn(rounds, respond, QuestionOf(t), i)
    ensures KeyOf(t) in SettledKeys(rows)
  {
    hide RowsFor, SettledKeys, Filed, Packed, RowCount, TriggerCount, Settles, Fresh, Capped;
    var pending, q := Fresh(Capped(ts), seen), QuestionOf(t);
    var dropped :| Packed(Questions(pending), rounds, dropped);
    OneRowPerAskedTrigger(pending, rounds, respond, t);
    TriggerCounted(pending, t);
    RowFor(rows, t);
    var n: nat :| n < |rows| && rows[n].trigger == t;
    RowsMeaning(pending, rounds, respond, n);
    FiledFrom(rounds, respond, q);
    var j: nat :| j < |rounds| && q in rounds[j].keys && Filed(rounds, respond, q).value == AnswerIn(respond(rounds[j]), q);
    OneRoundAsks(pending, rounds, dropped, t, i, j);
    SettlesMeaning(respond(rounds[i]), q);
    SettledHasRow(rows, KeyOf(t));
  }

  /** How far the memory is from holding every retained question: lexicographic
      in whether foreign keys, and so an eviction, are still possible, and in
      how many questions are unanswered. */
  function Distance(q: set<ProbeKey>, seen: set<ProbeKey>): nat {
    (if seen <= q then 0 else |q| + 1) + |q - seen|
  }

  lemma {:induction false} WithinNoEviction(q: set<ProbeKey>, seen: set<ProbeKey>, ks: seq<ProbeKey>)
    requires |q| < MAX_PROBED && seen <= q && forall k :: k in ks ==> k in q
    ensures RememberAll(seen, ks) == seen + (set k | k in ks)
    ensures Evictions(seen, ks) == 0
  {
    if ks != [] {
      var n := |ks| - 1;
      WithinNoEviction(q, seen, ks[..n]);
      SubsetSize(RememberAll(seen, ks[..n]), q);
    }
  }

  lemma SubsetSize<T>(a: set<T>, b: set<T>)
    requires a <= b
    ensures |a| <= |b|
    ensures a != b ==> |a| < |b|
  {
    assert b == a + (b - a) && a !! (b - a);
    assert |b| == |a| + |b - a|;
    if b - a == {} {
      assert a == b;
    }
  }

  /** Remembering questions of q either evicts nothing and adds them all, or
      evicts once and leaves only questions of q. */
  lemma {:induction false} OneEviction(q: set<ProbeKey>, seen: set<ProbeKey>, ks: seq<ProbeKey>)
    requires |q| < MAX_PROBED && forall k :: k in ks ==> k in q
    ensures Evictions(seen, ks) <= 1
    ensures Evictions(seen, ks) == 0 ==> RememberAll(seen, ks) == seen + (set k | k in ks)
    ensures Evictions(seen, ks) == 1 ==> RememberAll(seen, ks) <= q && !(seen <= q)
  {
    if ks != [] {
      var n := |ks| - 1;
      OneEviction(q, seen, ks[..n]);
      var before := RememberAll(seen, ks[..n]);
      if before <= q {
        SubsetSize(before, q);
      }
    }
  }

  /** A cycle that asks something brings the memory strictly closer; a cycle
      that asks nothing leaves it alone. */
  lemma CycleApproaches(ts: seq<Trigger>, seen: set<ProbeKey>, ks: seq<ProbeKey>)
    requires HealthyCycle(ts, seen, ks)
    ensures Skipped(ts, seen) ==> RememberAll(seen, ks) == seen && Evictions(seen, ks) == 0
    ensures !Skipped(ts, seen) ==> Distance(KeySet(Capped(ts)), RememberAll(seen, ks)) < Distance(KeySet(Capped(ts)), seen)
    ensures Evictions(seen, ks) <= if seen <= KeySet(Capped(ts)) then 0 else 1
    ensures seen <= KeySet(Capped(ts)) || Evictions(seen, ks) == 1 ==> RememberAll(seen, ks) <= KeySet(Capped(ts))
  {
    hide HealthyCycle, Skipped, Capped, KeySet;
    var q := KeySet(Capped(ts));
    KeysWithinCap(ts);
    CycleRetires(ts, seen, ks);
    if ks != [] {
      hide RememberAll, Evictions;
      OneEviction(q, seen, ks);
      var after := RememberAll(seen, ks);
      assert ks[0] in ks;
      if Evictions(seen, ks) == 0 {
        assert ks[0] in (q - seen) - (q - after);
        SubsetSize(q - after, q - seen);
        if seen <= q {
          assert after <= q;
        }
      } else {
        SubsetSize(q - after, q);
      }
    }
  }

  lemma {:induction false} KeySetSize(ts: seq<Trigger>)
    ensures |KeySet(ts)| <= |ts|
  {
    if ts != [] {
      var n := |ts| - 1;
      KeySetSize(ts[..n]);
      assert ts == ts[..n] + [ts[n]];
      assert KeySet(ts) == KeySet(ts[..n]) + {KeyOf(ts[n])};
    }
  }

  lemma KeysWithinCap(ts: seq<Trigger>)
    ensures |KeySet(Capped(ts))| <= MAX_PROBES
  {
    KeySetSize(Capped(ts));
  }

  /** A run of answered cycles over the same mismatches: the memory before,
      between and after them, and what each retired. */
  ghost predicate HealthyRun(ts: seq<Trigger>, states: seq<set<ProbeKey>>, retired: seq<seq<ProbeKey>>) {
    && |states| == |retired| + 1
    && forall i :: 0 <= i < |retired| ==>
         HealthyCycle(ts, states[i], retired[i]) && states[i + 1] == RememberAll(states[i], retired[i])
  }

  function TotalEvictions(states: seq<set<ProbeKey>>, retired: seq<seq<ProbeKey>>): nat
    requires |states| == |retired| + 1
  {
    if retired == [] then 0
    else
      var n := |retired| - 1;
      TotalEvictions(states[..n + 1], retired[..n]) + Evictions(states[n], retired[n])
  }

  lemma {:induction false} RunApproaches(ts: seq<Trigger>, states: seq<set<ProbeKey>>, retired: seq<seq<ProbeKey>>)
    requires HealthyRun(ts, states, retired)
    ensures var q := KeySet(Capped(ts)); var n := |retired|;
            && (Skipped(ts, states[n]) || Distance(q, states[n]) + n <= Distance(q, states[0]))
            && TotalEvictions(states, retired) <= (if states[0] <= q then 0 else 1)
            && (TotalEvictions(states, retired) == 1 || states[0] <= q ==> states[n] <= q)
  {
    hide Skipped, Capped, KeySet, RememberAll, Evictions, HealthyCycle, Distance;
    if retired != [] {
      var n := |retired| - 1;
      assert HealthyRun(ts, states[..n + 1], retired[..n]);
      RunApproaches(ts, states[..n + 1], retired[..n]);
      CycleApproaches(ts, states[n], retired[n]);
    }
  }

  /** However full the memory starts, repeated answered cycles over the same
      mismatches reach a memory that holds every retained question within
      2 * 1024 + 1 cycles; from then on the phase is skipped and the memory does
      not change, and on the way the memory was wiped at most once. */
  lemma ProbingConverges(ts: seq<Trigger>, states: seq<set<ProbeKey>>, retired: seq<seq<ProbeKey>>)
    requires HealthyRun(ts, states, retired)
    ensures TotalEvictions(states, retired) <= 1
    ensures forall j :: 2 * MAX_PROBES + 1 <= j < |states| ==> Skipped(ts, states[j])
    ensures forall j :: 0 <= j < |retired| && Skipped(ts, states[j]) ==> states[j + 1] == states[j]
    ensures forall j :: 0 <= j < |states| && Skipped(ts, states[j]) && |ts| <= MAX_PROBES ==> KeySet(ts) <= states[j]
  {
    hide Skipped, RememberAll, Evictions, HealthyCycle, TotalEvictions, Capped, KeySet;
    RunApproaches(ts, states, retired);
    KeysWithinCap(ts);
    forall j | 2 * MAX_PROBES + 1 <= j < |states| ensures Skipped(ts, states[j]) {
      assert HealthyRun(ts, states[..j + 1], retired[..j]);
      RunApproaches(ts, states[..j + 1], retired[..j]);
      DistanceBounds(KeySet(Capped(ts)), states[0]);
      DistanceBounds(KeySet(Capped(ts)), states[j]);
      SkippedMeaning(ts, states[j]);
    }
    forall j | 0 <= j < |retired| && Skipped(ts, states[j]) ensures states[j + 1] == states[j] {
      CycleApproaches(ts, states[j], retired[j]);
    }
    forall j | 0 <= j < |states| && Skipped(ts, states[j]) && |ts| <= MAX_PROBES ensures KeySet(ts) <= states[j] {
      SkippedMeaning(ts, states[j]);
    }
  }

  lemma DistanceBounds(q: set<ProbeKey>, seen: set<ProbeKey>)
    ensures Distance(q, seen) <= 2 * |q| + 1
    ensures Distance(q, seen) == 0 ==> q <= seen
  {
    SubsetSize(q - seen, q);
    if q - seen == {} {
      forall k | k in q ensures k in seen {
        assert k in q - seen <==> k !in seen;
      }
    }
  }

  /** The cap is applied before answered questions are dropped, so a question no
      retained trigger asks is never answered, however long the agent runs: once
      probing from an empty memory has settled, every question is answered
      exactly when the retained triggers already ask them all. */
  lemma StarvedBeyondTheCap(ts: seq<Trigger>, states: seq<set<ProbeKey>>, retired: seq<seq<ProbeKey>>)
    requires HealthyRun(ts, states, retired) && states[0] == {}
    ensures states[|retired|] <= KeySet(Capped(ts))
    ensures Skipped(ts, states[|retired|]) ==> (KeySet(ts) <= states[|retired|] <==> KeySet(ts) <= KeySet(Capped(ts)))
  {
    hide Skipped, Capped, KeySet, RememberAll, Evictions, HealthyCycle, Distance, TotalEvictions;
    RunApproaches(ts, states, retired);
    SkippedMeaning(ts, states[|retired|]);
  }

  /** One mismatch more than the cap, each on its own partition: the last one's
      question is never answered in any run of answered cycles from an empty
      memory. */
  lemma StarvationExample(states: seq<set<ProbeKey>>, retired: seq<seq<ProbeKey>>) returns (ts: seq<Trigger>)
    ensures |ts| == MAX_PROBES + 1
    ensures HealthyRun(ts, states, retired) && states[0] == {} ==> KeyOf(ts[MAX_PROBES]) !in states[|retired|]
  {
    ts := seq(MAX_PROBES + 1, i => Trigger(TopicPartition("orders", i), "", "billing", 0, 1, 2));
    assert KeyOf(ts[MAX_PROBES]).tp.partition == MAX_PROBES;
    assert KeyOf(ts[MAX_PROBES]) !in KeySet(Capped(ts));
    if HealthyRun(ts, states, retired) && states[0] == {} {
      StarvedBeyondTheCap(ts, states, retired);
    }
  }
}
