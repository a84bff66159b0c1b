/** What travels between the agent, its exporter and the ingest: the stamped
    batch envelope and the Idempotency-Key derived from it. */
module Wire {

  /** The exporter's counters as one batch carries them. */
  datatype AgentStats = AgentStats(
    collected: nat,
    exported: nat,
    dropped: nat,
    rejected: nat,
    retries: nat,
    queueDepth: nat)

  /** A stamped batch. `content` stands for everything the collector measured;
      marshalling and gzip are a one-to-one encoding of the whole value. */
  datatype Batch = Batch(instance: string, batchSeq: nat, agent: AgentStats, content: string)

  /** One batch encoded for the wire, as the export queue holds it. */
  datatype Queued = Queued(body: Batch, key: string) {
    function Seq(): nat {
      body.batchSeq
    }
  }

  /** strconv.FormatUint(n, 10). */
  function Decimal(n: nat): (s: string)
    ensures |s| > 0
    ensures forall i :: 0 <= i < |s| ==> '0' <= s[i] <= '9'
  {
    var digit := ['0' + (n % 10) as char];
    if n < 10 then digit else Decimal(n / 10) + digit
  }

  function InstanceOrUnknown(id: string): string {
    if id == "" then "unknown" else id
  }

  /** The key the exporter sends and the ingest recomputes. */
  function IdempotencyKey(id: string, seqNo: nat): string {
    InstanceOrUnknown(id) + "-" + Decimal(seqNo)
  }

  lemma {:induction false} DecimalInjective(a: nat, b: nat)
    requires Decimal(a) == Decimal(b)
    ensures a == b
  {
    var s, t := Decimal(a), Decimal(b);
    assert s[|s| - 1] == '0' + (a % 10) as char;
    assert t[|t| - 1] == '0' + (b % 10) as char;
    assert (a % 10) as char == (b % 10) as char;
    assert a % 10 == b % 10;
    if a < 10 {
      assert |s| == 1;
      assert b < 10;
    } else {
      assert |s| > 1 && b >= 10;
      assert Decimal(a / 10) == s[..|s| - 1] == t[..|t| - 1] == Decimal(b / 10);
      DecimalInjective(a / 10, b / 10);
    }
  }

  /** A decimal number holds no '-', so the last '-' of a key ends the id. */
  lemma SplitAtLastDash(x: string, y: string, m: string, n: string)
    requires '-' !in m && '-' !in n
    requires x + "-" + m == y + "-" + n
    ensures x == y && m == n
  {
    var k := x + "-" + m;
    assert forall i :: |x| < i < |k| ==> k[i] == m[i - |x| - 1];
    assert forall i :: |y| < i < |k| ==> k[i] == n[i - |y| - 1];
    assert k[|x|] == '-' && k[|y|] == '-';
    assert x == k[..|x|] && y == k[..|y|];
    assert m == k[|x| + 1..] && n == k[|y| + 1..];
  }

  /** Two batches share a key exactly when they are the same boot and sequence
      number, where the empty id counts as the literal "unknown". */
  lemma KeyIdentifiesBatch(id1: string, seq1: nat, id2: string, seq2: nat)
    ensures IdempotencyKey(id1, seq1) == IdempotencyKey(id2, seq2)
      <==> InstanceOrUnknown(id1) == InstanceOrUnknown(id2) && seq1 == seq2
  {
    if IdempotencyKey(id1, seq1) == IdempotencyKey(id2, seq2) {
      SplitAtLastDash(InstanceOrUnknown(id1), InstanceOrUnknown(id2), Decimal(seq1), Decimal(seq2));
      DecimalInjective(seq1, seq2);
    }
  }

  /** What the ingest's checkAgent rejects a batch for. */
  predicate AgentConforms(b: Batch) {
    && b.agent.collected == b.batchSeq
    && b.agent.exported < b.batchSeq
    && b.agent.exported + b.agent.dropped + b.agent.rejected <= b.agent.collected
  }

  /** A batch conforms, and its counters count only batches numbered before it. */
  predicate StampedEarlier(b: Batch) {
    AgentConforms(b) && b.agent.exported + b.agent.dropped + b.agent.rejected < b.batchSeq
  }

  /** Strictly increasing batch_seq. */
  ghost predicate Increasing(qs: seq<Queued>) {
    forall i, j :: 0 <= i < j < |qs| ==> qs[i].Seq() < qs[j].Seq()
  }

  ghost predicate AllBelow(qs: seq<Queued>, bound: nat) {
    forall q :: q in qs ==> q.Seq() < bound
  }
}
