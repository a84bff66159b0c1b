/** Packing leader-epoch questions into requests. A request maps each partition
    to one epoch, so a partition's distinct epochs need distinct requests. */
module EpochRounds {

  const MAX_ROUNDS := 4

  datatype TopicPartition = TopicPartition(topic: string, partition: int)

  /** An epoch asked about for one partition. */
  datatype Question = Question(tp: TopicPartition, epoch: int)

  /** One request and the questions it carries, in order. */
  datatype Round = Round(req: map<TopicPartition, int>, keys: seq<Question>)

  /** The distinct epochs asked about tp, in order of first appearance. */
  function Distinct(qs: seq<Question>, tp: TopicPartition): (es: seq<int>)
    ensures forall e :: e in es <==> Question(tp, e) in qs
    ensures forall i, j :: 0 <= i < j < |es| ==> es[i] != es[j]
  {
    if qs == [] then []
    else
      var before := Distinct(qs[..|qs| - 1], tp);
      var q := qs[|qs| - 1];
      if q.tp == tp && q.epoch !in before then before + [q.epoch] else before
  }

  /** Round i asks every partition for its i-th distinct epoch, once. */
  ghost predicate AsksRank(qs: seq<Question>, round: Round, i: nat) {
    && (forall tp :: tp in round.req <==> i < |Distinct(qs, tp)|)
    && (forall tp :: tp in round.req ==> round.req[tp] == Distinct(qs, tp)[i])
    && (forall q :: q in round.keys <==> q.tp in round.req && round.req[q.tp] == q.epoch)
    && (forall a, b :: 0 <= a < b < |round.keys| ==> round.keys[a] != round.keys[b])
  }

  /** n is exactly as many rounds as some partition needs, up to the cap. */
  ghost predicate Needed(qs: seq<Question>, n: nat, dropped: bool) {
    && n <= MAX_ROUNDS
    && (forall tp :: |Distinct(qs, tp)| <= n || n == MAX_ROUNDS)
    && (n > 0 ==> exists tp :: |Distinct(qs, tp)| >= n)
    && (dropped <==> exists tp :: |Distinct(qs, tp)| > MAX_ROUNDS)
  }

  ghost predicate Packed(qs: seq<Question>, rounds: seq<Round>, dropped: bool) {
    && Needed(qs, |rounds|, dropped)
    && forall i :: 0 <= i < |rounds| ==> AsksRank(qs, rounds[i], i)
  }

  lemma DistinctSnoc(qs: seq<Question>, q: Question, tp: TopicPartition)
    ensures Distinct(qs + [q], tp) ==
      if q.tp == tp && q.epoch !in Distinct(qs, tp) then Distinct(qs, tp) + [q.epoch] else Distinct(qs, tp)
  {
    assert (qs + [q])[..|qs|] == qs;
  }

  /** Where first fit puts q: its rank among its partition's epochs. */
  method Place(ghost qs: seq<Question>, q: Question, rounds: seq<Round>) returns (i: nat)
    requires forall j :: 0 <= j < |rounds| ==> AsksRank(qs, rounds[j], j)
    ensures i <= |rounds|
    ensures var d := Distinct(qs, q.tp);
            && (i < |rounds| && i < |d| ==> d[i] == q.epoch)
            && (forall j :: 0 <= j < i && j < |d| ==> d[j] != q.epoch)
            && i <= |d|
  {
    hide Distinct;
    i := 0;
    while i < |rounds| && q.tp in rounds[i].req && rounds[i].req[q.tp] != q.epoch
      invariant i <= |rounds| && i <= |Distinct(qs, q.tp)|
      invariant forall j :: 0 <= j < i ==> Distinct(qs, q.tp)[j] != q.epoch
    {
      assert AsksRank(qs, rounds[i], i);
      i := i + 1;
    }
  }

  /** Whether q brings its partition an epoch not asked before. */
  predicate Novel(qs: seq<Question>, q: Question) {
    q.epoch !in Distinct(qs, q.tp)
  }

  /** A round keeps its rank unless it is the one q belongs to. */
  lemma RoundKept(qs: seq<Question>, q: Question, round: Round, i: nat)
    requires AsksRank(qs, round, i) && (Novel(qs, q) ==> i != |Distinct(qs, q.tp)|)
    ensures AsksRank(qs + [q], round, i)
  {
    hide Distinct;
    forall tp ensures
      && (tp in round.req <==> i < |Distinct(qs + [q], tp)|)
      && (tp in round.req ==> round.req[tp] == Distinct(qs + [q], tp)[i])
    {
      DistinctSnoc(qs, q, tp);
    }
  }

  /** The round after the last of q's partition takes q in. */
  lemma RoundGrown(qs: seq<Question>, q: Question, round: Round, i: nat)
    requires AsksRank(qs, round, i) && Novel(qs, q) && i == |Distinct(qs, q.tp)|
    ensures AsksRank(qs + [q], Round(round.req[q.tp := q.epoch], round.keys + [q]), i)
  {
    hide Distinct;
    var req := round.req[q.tp := q.epoch];
    forall tp ensures
      && (tp in req <==> i < |Distinct(qs + [q], tp)|)
      && (tp in req ==> req[tp] == Distinct(qs + [q], tp)[i])
    {
      DistinctSnoc(qs, q, tp);
    }
  }

  lemma Widths(qs: seq<Question>, q: Question)
    ensures forall tp :: |Distinct(qs + [q], tp)| == |Distinct(qs, tp)| + if q.tp == tp && Novel(qs, q) then 1 else 0
  {
    hide Distinct;
    forall tp ensures |Distinct(qs + [q], tp)| == |Distinct(qs, tp)| + if q.tp == tp && Novel(qs, q) then 1 else 0 {
      DistinctSnoc(qs, q, tp);
    }
  }

  lemma NeededPlaced(qs: seq<Question>, q: Question, n: nat, dropped: bool)
    requires Needed(qs, n, dropped) && n > 0 && (Novel(qs, q) ==> |Distinct(qs, q.tp)| < n)
    ensures Needed(qs + [q], n, dropped)
  {
    hide Distinct, Novel;
    Widths(qs, q);
    var widest :| |Distinct(qs, widest)| >= n;
    assert |Distinct(qs + [q], widest)| >= n;
    forall tp ensures |Distinct(qs + [q], tp)| > MAX_ROUNDS <==> |Distinct(qs, tp)| > MAX_ROUNDS {
    }
  }

  lemma NeededMore(qs: seq<Question>, q: Question, n: nat, dropped: bool)
    requires Needed(qs, n, dropped) && n < MAX_ROUNDS && Novel(qs, q) && |Distinct(qs, q.tp)| == n
    ensures Needed(qs + [q], n + 1, dropped)
  {
    hide Distinct, Novel;
    Widths(qs, q);
    assert |Distinct(qs + [q], q.tp)| == n + 1;
    forall tp ensures |Distinct(qs + [q], tp)| > MAX_ROUNDS <==> |Distinct(qs, tp)| > MAX_ROUNDS {
    }
  }

  /** First fit found q's round. */
  lemma PackedPlaced(qs: seq<Question>, q: Question, rounds: seq<Round>, dropped: bool, i: nat)
    requires Packed(qs, rounds, dropped) && i < |rounds| && i <= |Distinct(qs, q.tp)|
    requires i < |Distinct(qs, q.tp)| ==> Distinct(qs, q.tp)[i] == q.epoch
    requires forall j :: 0 <= j < i ==> Distinct(qs, q.tp)[j] != q.epoch
    ensures q.tp in rounds[i].req <==> i < |Distinct(qs, q.tp)|
    ensures Packed(qs + [q],
                   if q.tp in rounds[i].req then rounds
                   else rounds[i := Round(rounds[i].req[q.tp := q.epoch], rounds[i].keys + [q])],
                   dropped)
  {
    hide Distinct;
    RankAt(qs, rounds[i], i, q.tp);
    assert Novel(qs, q) <==> i == |Distinct(qs, q.tp)|;
    NeededPlaced(qs, q, |rounds|, dropped);
    hide AsksRank, Novel, Needed;
    forall j | 0 <= j < |rounds| && (j != i || !Novel(qs, q)) ensures AsksRank(qs + [q], rounds[j], j) {
      RoundKept(qs, q, rounds[j], j);
    }
    if Novel(qs, q) {
      RoundGrown(qs, q, rounds[i], i);
    }
  }

  lemma RankAt(qs: seq<Question>, round: Round, i: nat, tp: TopicPartition)
    requires AsksRank(qs, round, i)
    ensures tp in round.req <==> i < |Distinct(qs, tp)|
  {
  }

  /** q needs a request of its own, and there is room for one. */
  lemma PackedNewRound(qs: seq<Question>, q: Question, rounds: seq<Round>, dropped: bool)
    requires Packed(qs, rounds, dropped) && |rounds| < MAX_ROUNDS && |Distinct(qs, q.tp)| >= |rounds|
    requires forall j :: 0 <= j < |rounds| ==> Distinct(qs, q.tp)[j] != q.epoch
    ensures Packed(qs + [q], rounds + [Round(map[q.tp := q.epoch], [q])], dropped)
  {
    hide Distinct, AsksRank, Novel;
    NovelAt(qs, q, |rounds|);
    EmptyRound(qs, |rounds|);
    RoundGrown(qs, q, Round(map[], []), |rounds|);
    assert map[][q.tp := q.epoch] == map[q.tp := q.epoch] && [] + [q] == [q];
    NeededMore(qs, q, |rounds|, dropped);
    hide Needed;
    forall j | 0 <= j < |rounds| ensures AsksRank(qs + [q], rounds[j], j) {
      RoundKept(qs, q, rounds[j], j);
    }
  }

  lemma NovelAt(qs: seq<Question>, q: Question, n: nat)
    requires |Distinct(qs, q.tp)| == n && forall j :: 0 <= j < n ==> Distinct(qs, q.tp)[j] != q.epoch
    ensures Novel(qs, q)
  {
  }

  lemma EmptyRound(qs: seq<Question>, i: nat)
    requires forall tp :: |Distinct(qs, tp)| <= i
    ensures AsksRank(qs, Round(map[], []), i)
  {
  }

  /** q needs a fifth request. */
  lemma PackedRefused(qs: seq<Question>, q: Question, rounds: seq<Round>, dropped: bool)
    requires Packed(qs, rounds, dropped) && |rounds| == MAX_ROUNDS && |Distinct(qs, q.tp)| >= MAX_ROUNDS
    requires forall j :: 0 <= j < MAX_ROUNDS ==> Distinct(qs, q.tp)[j] != q.epoch
    ensures Packed(qs + [q], rounds, true)
  {
    hide Distinct, AsksRank, Novel;
    if |Distinct(qs, q.tp)| == MAX_ROUNDS {
      NovelAt(qs, q, MAX_ROUNDS);
    }
    Widths(qs, q);
    forall j | 0 <= j < |rounds| ensures AsksRank(qs + [q], rounds[j], j) {
      RoundKept(qs, q, rounds[j], j);
    }
    assert |Distinct(qs + [q], q.tp)| > MAX_ROUNDS;
  }

  /** epochRounds. */
  method Pack(qs: seq<Question>) returns (rounds: seq<Round>, dropped: bool)
    ensures Packed(qs, rounds, dropped)
  {
    hide Distinct, AsksRank;
    rounds, dropped := [], false;
    PackedNothing();
    for n := 0 to |qs|
      invariant Packed(qs[..n], rounds, dropped)
    {
      var q := qs[n];
      assert qs[..n + 1] == qs[..n] + [q];
      var i := Place(qs[..n], q, rounds);
      if i < |rounds| {
        PackedPlaced(qs[..n], q, rounds, dropped, i);
        if q.tp !in rounds[i].req {
          rounds := rounds[i := Round(rounds[i].req[q.tp := q.epoch], rounds[i].keys + [q])];
        }
      } else if |rounds| >= MAX_ROUNDS {
        PackedRefused(qs[..n], q, rounds, dropped);
        dropped := true;
      } else {
        PackedNewRound(qs[..n], q, rounds, dropped);
        rounds := rounds + [Round(map[q.tp := q.epoch], [q])];
      }
    }
    assert qs[..|qs|] == qs;
  }

  lemma PackedNothing()
    ensures Packed([], [], false)
  {
  }

  // ---------------------------------------------------------------------------
  // What the packing means
  // ---------------------------------------------------------------------------

  /** Each question is asked in exactly one round, or refused; it is refused
      exactly when four other epochs of its partition came first. */
  lemma EachQuestionOnce(qs: seq<Question>, rounds: seq<Round>, dropped: bool, q: Question, rank: nat)
    requires Packed(qs, rounds, dropped) && rank < |Distinct(qs, q.tp)| && Distinct(qs, q.tp)[rank] == q.epoch
    ensures forall i :: 0 <= i < |rounds| ==> (q in rounds[i].keys <==> i == rank)
    ensures rank < |rounds| <==> rank < MAX_ROUNDS
    ensures !dropped ==> rank < |rounds|
  {
    hide Distinct;
    forall i | 0 <= i < |rounds| ensures q in rounds[i].keys <==> i == rank {
      assert AsksRank(qs, rounds[i], i);
    }
  }

  /** Only questions that were triggered are asked. */
  lemma OnlyTriggered(qs: seq<Question>, rounds: seq<Round>, dropped: bool, i: nat, q: Question)
    requires Packed(qs, rounds, dropped) && i < |rounds| && q in rounds[i].keys
    ensures q in qs
  {
    assert AsksRank(qs, rounds[i], i);
    assert Distinct(qs, q.tp)[i] in Distinct(qs, q.tp);
  }

  predicate Asks(req: map<TopicPartition, int>, tp: TopicPartition, epoch: int) {
    tp in req && req[tp] == epoch
  }

  lemma {:induction false} EpochsNeedRequests(reqs: seq<map<TopicPartition, int>>, tp: TopicPartition, es: seq<int>)
    requires forall i, j :: 0 <= i < j < |es| ==> es[i] != es[j]
    requires forall e :: e in es ==> exists r :: 0 <= r < |reqs| && Asks(reqs[r], tp, e)
    ensures |es| <= |reqs|
  {
    if es != [] {
      var first := es[0];
      assert first in es;
      assert exists r :: 0 <= r < |reqs| && Asks(reqs[r], tp, first);
      var some :| 0 <= some < |reqs| && Asks(reqs[some], tp, first);
      var n := |reqs| - 1;
      var rest := reqs[..n];
      if tp in reqs[n] && reqs[n][tp] in es {
        var k :| 0 <= k < |es| && es[k] == reqs[n][tp];
        var others := es[..k] + es[k + 1..];
        forall e | e in others ensures exists r :: 0 <= r < |rest| && Asks(rest[r], tp, e) {
          assert e in es;
          var r :| 0 <= r < |reqs| && Asks(reqs[r], tp, e);
          assert r != n;
          assert rest[r] == reqs[r];
        }
        EpochsNeedRequests(rest, tp, others);
      } else {
        forall e | e in es ensures exists r :: 0 <= r < |rest| && Asks(rest[r], tp, e) {
          var r :| 0 <= r < |reqs| && Asks(reqs[r], tp, e);
          assert r != n;
          assert rest[r] == reqs[r];
        }
        EpochsNeedRequests(rest, tp, es);
      }
    }
  }

  /** First fit is optimal: no list of requests, however packed, asks the questions
      of these rounds in fewer of them, even when others had to be refused. */
  lemma FewestRounds(qs: seq<Question>, rounds: seq<Round>, dropped: bool, reqs: seq<map<TopicPartition, int>>)
    requires Packed(qs, rounds, dropped)
    requires forall i, q :: 0 <= i < |rounds| && q in rounds[i].keys ==> exists r :: 0 <= r < |reqs| && Asks(reqs[r], q.tp, q.epoch)
    ensures |rounds| <= |reqs|
  {
    hide Distinct;
    if |rounds| > 0 {
      var tp :| |Distinct(qs, tp)| >= |rounds|;
      var es := Distinct(qs, tp)[..|rounds|];
      forall e | e in es ensures exists r :: 0 <= r < |reqs| && Asks(reqs[r], tp, e) {
        var i :| 0 <= i < |es| && es[i] == e;
        assert AsksRank(qs, rounds[i], i);
        assert Question(tp, e) in rounds[i].keys;
      }
      EpochsNeedRequests(reqs, tp, es);
    }
  }
}
