/** The global error cap: which entries of all sections survive, and the
    write-back of what was rejected. */
module MergeErrors {
  import opened Admission

  // ---------------------------------------------------------------------------
  // Admission under the cap, on the table of priorities
  // ---------------------------------------------------------------------------

  /** A position in the table, ordered by priority, then section, then entry. */
  predicate Lex(p1: nat, i1: nat, j1: nat, p2: nat, i2: nat, j2: nat) {
    p1 < p2 || (p1 == p2 && (i1 < i2 || (i1 == i2 && j1 < j2)))
  }

  predicate SameShape(prios: seq<seq<nat>>, table: seq<seq<bool>>) {
    |table| == |prios| && forall i :: 0 <= i < |prios| ==> |table[i]| == |prios[i]|
  }

  /** Exactly the entries before (p, i, j) in that order are admitted. */
  ghost predicate AdmitsUpTo(prios: seq<seq<nat>>, table: seq<seq<bool>>, p: nat, i: nat, j: nat)
    requires SameShape(prios, table)
  {
    forall a, b :: 0 <= a < |prios| && 0 <= b < |prios[a]| ==> (table[a][b] <==> Lex(prios[a][b], a, b, p, i, j))
  }

  /** Priority first, ties by canonical order: nothing rejected precedes anything
      admitted. */
  ghost predicate BestFirst(prios: seq<seq<nat>>, table: seq<seq<bool>>)
    requires SameShape(prios, table)
  {
    forall a, b, c, d ::
      0 <= a < |prios| && 0 <= b < |prios[a]| && 0 <= c < |prios| && 0 <= d < |prios[c]| && table[a][b] && !table[c][d]
      ==> Lex(prios[a][b], a, b, prios[c][d], c, d)
  }

  function CountRow(row: seq<bool>): (n: nat)
    ensures n <= |row|
  {
    if row == [] then 0 else CountRow(row[..|row| - 1]) + if row[|row| - 1] then 1 else 0
  }

  function CountAll(table: seq<seq<bool>>): nat {
    if table == [] then 0 else CountAll(table[..|table| - 1]) + CountRow(table[|table| - 1])
  }

  function Total<T>(rows: seq<seq<T>>): nat {
    if rows == [] then 0 else Total(rows[..|rows| - 1]) + |rows[|rows| - 1]|
  }

  lemma {:induction false} CountRowSet(row: seq<bool>, j: nat)
    requires j < |row| && !row[j]
    ensures CountRow(row[j := true]) == CountRow(row) + 1
  {
    var n := |row| - 1;
    if j == n {
      assert row[j := true][..n] == row[..n];
    } else {
      CountRowSet(row[..n], j);
      assert row[j := true][..n] == row[..n][j := true];
    }
  }

  lemma {:induction false} CountAllSet(table: seq<seq<bool>>, i: nat, j: nat)
    requires i < |table| && j < |table[i]| && !table[i][j]
    ensures CountAll(table[i := table[i][j := true]]) == CountAll(table) + 1
  {
    var n := |table| - 1;
    var row := table[i][j := true];
    if i == n {
      CountRowSet(table[i], j);
      assert table[i := row][..n] == table[..n];
    } else {
      CountAllSet(table[..n], i, j);
      assert table[i := row][..n] == table[..n][i := row];
    }
  }

  lemma {:induction false} CountRowAll(row: seq<bool>)
    ensures (forall j :: 0 <= j < |row| ==> row[j]) ==> CountRow(row) == |row|
    ensures (forall j :: 0 <= j < |row| ==> !row[j]) ==> CountRow(row) == 0
  {
    if row != [] {
      CountRowAll(row[..|row| - 1]);
    }
  }

  lemma {:induction false} CountAllUniform(prios: seq<seq<nat>>, table: seq<seq<bool>>)
    requires SameShape(prios, table)
    ensures (forall i, j :: 0 <= i < |table| && 0 <= j < |table[i]| ==> table[i][j]) ==> CountAll(table) == Total(prios)
    ensures (forall i, j :: 0 <= i < |table| && 0 <= j < |table[i]| ==> !table[i][j]) ==> CountAll(table) == 0
  {
    if table != [] {
      var n := |table| - 1;
      CountAllUniform(prios[..n], table[..n]);
      CountRowAll(table[n]);
    }
  }

  lemma CutIsBestFirst(prios: seq<seq<nat>>, table: seq<seq<bool>>, p: nat, i: nat, j: nat)
    requires SameShape(prios, table) && AdmitsUpTo(prios, table, p, i, j)
    ensures BestFirst(prios, table)
  {
  }

  /** A cut past the last priority admits everything. */
  lemma CutPastTheEnd(prios: seq<seq<nat>>, table: seq<seq<bool>>)
    requires SameShape(prios, table) && AdmitsUpTo(prios, table, PRIO_ENTITY + 1, 0, 0)
    requires forall i, j :: 0 <= i < |prios| && 0 <= j < |prios[i]| ==> prios[i][j] <= PRIO_ENTITY
    ensures CountAll(table) == Total(prios)
  {
    CountAllUniform(prios, table);
  }

  /** How many entries the cap lets through: as many as there are and, unless it is
      off, as it allows. */
  function Budget(total: nat, ceiling: int): (n: nat)
    ensures n <= total && (ceiling > 0 ==> n <= ceiling)
    ensures n < total ==> n == ceiling && ceiling > 0
  {
    if 0 < ceiling < total then ceiling else total
  }

  /** The first half of mergeErrors. It admits exactly the budget, and always the
      best entries: by priority, ties in canonical order. */
  method Admit(prios: seq<seq<nat>>, ceiling: int) returns (table: seq<seq<bool>>)
    requires forall i, j :: 0 <= i < |prios| && 0 <= j < |prios[i]| ==> prios[i][j] <= PRIO_ENTITY
    ensures SameShape(prios, table)
    ensures CountAll(table) == Budget(Total(prios), ceiling)
    ensures BestFirst(prios, table)
  {
    hide BestFirst, Budget, CountAll, Total;
    table := seq(|prios|, i requires 0 <= i < |prios| => seq(|prios[i]|, _ => false));
    var total := TotalOf(prios);
    var left := Budget(total, ceiling);
    CountAllUniform(prios, table);
    ghost var cut := (0, 0, 0);
    var prio := 0;
    while prio <= PRIO_ENTITY && left > 0
      invariant prio <= PRIO_ENTITY + 1 && SameShape(prios, table)
      invariant CountAll(table) + left == Budget(total, ceiling)
      invariant AdmitsUpTo(prios, table, cut.0, cut.1, cut.2)
      invariant left > 0 ==> cut == (prio, 0, 0)
    {
      table, left, cut := AdmitPriority(prios, table, prio, left);
      prio := prio + 1;
    }
    if left > 0 {
      CutPastTheEnd(prios, table);
    }
    CutIsBestFirst(prios, table, cut.0, cut.1, cut.2);
  }

  method TotalOf(prios: seq<seq<nat>>) returns (total: nat)
    ensures total == Total(prios)
  {
    total := 0;
    for i := 0 to |prios|
      invariant total == Total(prios[..i])
    {
      assert prios[..i + 1][..i] == prios[..i];
      total := total + |prios[i]|;
    }
    assert prios[..|prios|] == prios;
  }

  /** One level of the priority loop. */
  method AdmitPriority(prios: seq<seq<nat>>, before: seq<seq<bool>>, prio: nat, budget: nat)
    returns (table: seq<seq<bool>>, left: nat, ghost cut: (nat, nat, nat))
    requires SameShape(prios, before) && AdmitsUpTo(prios, before, prio, 0, 0) && budget > 0
    ensures SameShape(prios, table)
    ensures CountAll(table) + left == CountAll(before) + budget
    ensures AdmitsUpTo(prios, table, cut.0, cut.1, cut.2)
    ensures left > 0 ==> cut == (prio + 1, 0, 0)
  {
    table, left, cut := before, budget, (prio, 0, 0);
    for i := 0 to |prios|
      invariant SameShape(prios, table)
      invariant CountAll(table) + left == CountAll(before) + budget
      invariant AdmitsUpTo(prios, table, cut.0, cut.1, cut.2)
      invariant left > 0 ==> cut == (prio, i, 0)
    {
      var j := 0;
      while j < |prios[i]| && left > 0
        invariant j <= |prios[i]| && SameShape(prios, table)
        invariant CountAll(table) + left == CountAll(before) + budget
        invariant AdmitsUpTo(prios, table, cut.0, cut.1, cut.2)
        invariant left > 0 ==> cut == (prio, i, j)
      {
        if prios[i][j] == prio {
          CountAllSet(table, i, j);
          table := table[i := table[i][j := true]];
          left := left - 1;
        }
        j := j + 1;
        cut := (prio, i, j);
      }
      if left > 0 {
        cut := (prio, i + 1, 0);
      }
    }
    if left > 0 {
      cut := (prio + 1, 0, 0);
    }
  }
}
