/** The transaction history view: every row of the table, newest date first. */
module History {
  import opened LedgerTypes

  /** Dates never increase from one row to the next. */
  predicate NewestFirst(rs: seq<Transaction>) {
    forall i, j :: 0 <= i < j < |rs| ==> rs[i].date >= rs[j].date
  }

  /** Puts t into a newest-first sequence, before the first row not newer than it. */
  function InsertByDate(t: Transaction, rs: seq<Transaction>): (r: seq<Transaction>)
    requires NewestFirst(rs)
    ensures NewestFirst(r)
    ensures multiset(r) == multiset(rs) + multiset{t}
    ensures |r| == |rs| + 1 && (r[0] == t || (rs != [] && r[0] == rs[0]))
    decreases |rs|
  {
    if rs == [] || t.date >= rs[0].date then
      [t] + rs
    else
      var tail := InsertByDate(t, rs[1..]);
      assert rs == [rs[0]] + rs[1..];
      assert tail[0].date <= rs[0].date;
      [rs[0]] + tail
  }

  /** The rows in display order: the same rows, dates non-increasing. */
  function SortNewestFirst(ts: seq<Transaction>): (r: seq<Transaction>)
    ensures NewestFirst(r)
    ensures multiset(r) == multiset(ts)
  {
    if ts == [] then []
    else
      assert ts == [ts[0]] + ts[1..];
      InsertByDate(ts[0], SortNewestFirst(ts[1..]))
  }
}
