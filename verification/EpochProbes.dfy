/** The leader-epoch probe phase: which mismatches are asked about, what each
    answer settles, and the memory that stops the asking. */
module EpochProbes {
  import opened Wrappers
  import opened EpochRounds

  const MAX_PROBES := 1024
  const MAX_PROBED := 8192

  /** One group's mismatch on one partition. */
  datatype Trigger = Trigger(
    tp: TopicPartition,
    topicId: string,
    group: string,
    committedOffset: nat,
    committedEpoch: int,
    currentEpoch: int)

  /** The exact question a trigger asks, as the memory identifies it. */
  datatype ProbeKey = ProbeKey(tp: TopicPartition, topicId: string, committed: int, current: int)

  function QuestionOf(t: Trigger): Question {
    Question(t.tp, t.committedEpoch)
  }

  function KeyOf(t: Trigger): ProbeKey {
    ProbeKey(t.tp, t.topicId, t.committedEpoch, t.currentEpoch)
  }

  /** A partition's reply: its error, if any, else the returned epoch (-1 is an
      answer) and end offset. */
  datatype Reply = Reply(failed: bool, epoch: int, endOffset: int)

  /** One request's outcome: whether any of the response is usable, and the
      replies it carried. */
  datatype Response = Response(usable: bool, replies: map<TopicPartition, Reply>)

  datatype Answer = Answer(usable: bool, reply: Option<Reply>)

  /** Only a leader that answered this partition without an error retires a
      question. */
  predicate Settles(a: Answer) {
    a.usable && a.reply.Some? && !a.reply.value.failed
  }

  datatype Row = Row(trigger: Trigger, answer: Answer)

  // ---------------------------------------------------------------------------
  // The memory
  // ---------------------------------------------------------------------------

  function Remember(seen: set<ProbeKey>, k: ProbeKey): set<ProbeKey> {
    (if |seen| >= MAX_PROBED then {} else seen) + {k}
  }

  function RememberAll(seen: set<ProbeKey>, ks: seq<ProbeKey>): set<ProbeKey> {
    if ks == [] then seen else Remember(RememberAll(seen, ks[..|ks| - 1]), ks[|ks| - 1])
  }

  /** How often the memory is wiped while ks are remembered. */
  function Evictions(seen: set<ProbeKey>, ks: seq<ProbeKey>): nat {
    if ks == [] then 0
    else
      Evictions(seen, ks[..|ks| - 1]) + if |RememberAll(seen, ks[..|ks| - 1])| >= MAX_PROBED then 1 else 0
  }

  /** The keys of the rows whose answers settle, in row order. */
  function SettledKeys(rows: seq<Row>): seq<ProbeKey> {
    if rows == [] then []
    else
      var last := rows[|rows| - 1];
      SettledKeys(rows[..|rows| - 1]) + if Settles(last.answer) then [KeyOf(last.trigger)] else []
  }

  // ---------------------------------------------------------------------------
  // One cycle
  // ---------------------------------------------------------------------------

  function Capped(ts: seq<Trigger>): (r: seq<Trigger>)
    ensures |ts| <= MAX_PROBES ==> r == ts
  {
    if |ts| <= MAX_PROBES then ts else ts[..MAX_PROBES]
  }

  /** The triggers whose question no leader has answered yet. */
  function Fresh(ts: seq<Trigger>, seen: set<ProbeKey>): (r: seq<Trigger>)
    ensures forall t :: t in r <==> t in ts && KeyOf(t) !in seen
  {
    if ts == [] then []
    else
      var last := ts[|ts| - 1];
      Fresh(ts[..|ts| - 1], seen) + if KeyOf(last) in seen then [] else [last]
  }

  function Questions(ts: seq<Trigger>): (qs: seq<Question>)
    ensures |qs| == |ts| && forall i :: 0 <= i < |ts| ==> qs[i] == QuestionOf(ts[i])
  {
    seq(|ts|, i requires 0 <= i < |ts| => QuestionOf(ts[i]))
  }

  function AnswerIn(response: Response, q: Question): Answer {
    Answer(response.usable, if q.tp in response.replies then Some(response.replies[q.tp]) else None)
  }

  /** The answer filed for q after every round was asked, if any round asked it. */
  function Filed(rounds: seq<Round>, respond: Round -> Response, q: Question): Option<Answer> {
    if rounds == [] then None
    else
      var last := rounds[|rounds| - 1];
      if q in last.keys then Some(AnswerIn(respond(last), q)) else Filed(rounds[..|rounds| - 1], respond, q)
  }

  /** The rows of a cycle: one per fresh trigger whose question was asked, in
      trigger order. */
  function RowsFor(pending: seq<Trigger>, rounds: seq<Round>, respond: Round -> Response): seq<Row> {
    if pending == [] then []
    else
      var last := pending[|pending| - 1];
      var filed := Filed(rounds, respond, QuestionOf(last));
      RowsFor(pending[..|pending| - 1], rounds, respond) + if filed.Some? then [Row(last, filed.value)] else []
  }

  /** The memory and the phase, as one object. */
  class Prober {
    var seen: set<ProbeKey>

    constructor ()
      ensures seen == {}
    {
      seen := {};
    }

    method Retire(k: ProbeKey)
      modifies this
      ensures seen == Remember(old(seen), k)
    {
      if |seen| >= MAX_PROBED {
        seen := {};
      }
      seen := seen + {k};
    }

    method FreshOf(ts: seq<Trigger>) returns (pending: seq<Trigger>)
      ensures pending == Fresh(ts, seen)
    {
      pending := [];
      for i := 0 to |ts|
        invariant pending == Fresh(ts[..i], seen)
      {
        assert ts[..i + 1][..i] == ts[..i];
        if KeyOf(ts[i]) !in seen {
          pending := pending + [ts[i]];
        }
      }
      assert ts[..|ts|] == ts;
    }

    /** collectEpochProbes on the sorted triggers of a cycle. `skipped` means
        nothing was asked. Every fresh trigger that was asked gets exactly one
        row and every other none, and the memory gains exactly the keys of the
        rows a leader settled. */
    method Cycle(ts: seq<Trigger>, respond: Round -> Response) returns (rows: seq<Row>, skipped: bool, truncated: bool, rounds: seq<Round>)
      modifies this
      ensures skipped <==> Fresh(Capped(ts), old(seen)) == []
      ensures skipped ==> rows == [] && rounds == [] && seen == old(seen)
      ensures exists dropped :: Packed(Questions(Fresh(Capped(ts), old(seen))), rounds, dropped)
                && (truncated <==> |ts| > MAX_PROBES || dropped)
      ensures rows == RowsFor(Fresh(Capped(ts), old(seen)), rounds, respond)
      ensures seen == RememberAll(old(seen), SettledKeys(rows))
    {
      var capped := Capped(ts);
      truncated := |ts| > MAX_PROBES;
      var pending := FreshOf(capped);
      if |pending| == 0 {
        rows, skipped, rounds := [], true, [];
        PackedNothing();
        assert Questions(pending) == [];
        return;
      }
      skipped := false;
      var roundDropped;
      rounds, roundDropped := Pack(Questions(pending));
      truncated := truncated || roundDropped;
      var asked := AskAll(rounds, respond);
      rows := MakeRows(pending, rounds, respond, asked);
    }

    /** The rows, in trigger order; a settled question is retired as its row is
        made. */
    method MakeRows(pending: seq<Trigger>, rounds: seq<Round>, respond: Round -> Response, asked: map<Question, Answer>) returns (rows: seq<Row>)
      requires forall q :: Filed(rounds, respond, q) == if q in asked then Some(asked[q]) else None
      modifies this
      ensures rows == RowsFor(pending, rounds, respond)
      ensures seen == RememberAll(old(seen), SettledKeys(rows))
    {
      hide Filed;
      rows := [];
      for k := 0 to |pending|
        invariant rows == RowsFor(pending[..k], rounds, respond)
        invariant seen == RememberAll(old(seen), SettledKeys(rows))
      {
        assert pending[..k + 1][..k] == pending[..k];
        var t := pending[k];
        assert Filed(rounds, respond, QuestionOf(t)) == if QuestionOf(t) in asked then Some(asked[QuestionOf(t)]) else None;
        if QuestionOf(t) in asked {
          var row := Row(t, asked[QuestionOf(t)]);
          assert (rows + [row])[..|rows|] == rows;
          ghost var keys := SettledKeys(rows);
          rows := rows + [row];
          if Settles(row.answer) {
            assert (keys + [KeyOf(t)])[..|keys|] == keys;
            Retire(KeyOf(t));
          } else {
            assert keys + [] == keys;
          }
        }
      }
      assert pending[..|pending|] == pending;
    }
  }

  /** One request per round, its answers filed by question. */
  method AskAll(rounds: seq<Round>, respond: Round -> Response) returns (asked: map<Question, Answer>)
    ensures forall q :: Filed(rounds, respond, q) == if q in asked then Some(asked[q]) else None
  {
    asked := map[];
    for i := 0 to |rounds|
      invariant forall q :: Filed(rounds[..i], respond, q) == if q in asked then Some(asked[q]) else None
    {
      assert rounds[..i + 1][..i] == rounds[..i];
      var response := respond(rounds[i]);
      var before := asked;
      for n := 0 to |rounds[i].keys|
        invariant forall q :: q in asked <==> q in before || q in rounds[i].keys[..n]
        invariant forall q :: q in asked ==> asked[q] == if q in rounds[i].keys[..n] then AnswerIn(response, q) else before[q]
      {
        var q := rounds[i].keys[n];
        asked := asked[q := AnswerIn(response, q)];
      }
      assert rounds[i].keys[..|rounds[i].keys|] == rounds[i].keys;
    }
    assert rounds[..|rounds|] == rounds;
  }
}
