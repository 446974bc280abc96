/** `ORDER BY tanggal DESC, id DESC`: the order in which the cash-flow page
    lists its rows and in which it discovers categories. */
module Ordering {
  import opened Calendar
  import opened Transactions
  import opened Filters

  /** `a` may be listed before `b`: a later date, or the same date and an id
      at least as large. */
  predicate ListedFirst(a: Transaction, b: Transaction) {
    Before(b.tanggal, a.tanggal) || (a.tanggal == b.tanggal && a.id >= b.id)
  }

  /** Each row may be listed before the next one. */
  predicate Newest(s: seq<Transaction>) {
    forall i :: 0 < i < |s| ==> ListedFirst(s[i - 1], s[i])
  }

  function Insert(x: Transaction, s: seq<Transaction>): (r: seq<Transaction>)
    requires Newest(s)
    ensures Newest(r)
    ensures multiset(r) == multiset(s) + multiset{x}
    ensures r[0] == x || (s != [] && r[0] == s[0])
  {
    if s == [] then [x]
    else if ListedFirst(x, s[0]) then [x] + s
    else
      var rest := Insert(x, s[1..]);
      assert s == [s[0]] + s[1..];
      assert ListedFirst(s[0], rest[0]);
      var r := [s[0]] + rest;
      assert forall i :: 0 <= i < |rest| ==> r[i + 1] == rest[i];
      r
  }

  /** The rows in listing order (insertion sort; with unique ids the order is
      total, so the result is the one SQLite returns). */
  function SortNewest(s: seq<Transaction>): (r: seq<Transaction>)
    ensures Newest(r)
    ensures multiset(r) == multiset(s)
  {
    if s == [] then []
    else
      assert s == s[..|s| - 1] + [s[|s| - 1]];
      Insert(s[|s| - 1], SortNewest(s[..|s| - 1]))
  }

  /** `SELECT * FROM transactions WHERE ... ORDER BY tanggal DESC, id DESC`. */
  function Query(table: seq<Transaction>, f: CashflowFilter): (r: seq<Transaction>)
    ensures Newest(r)
    ensures forall t :: t in r <==> t in table && Matches(f, t)
  {
    var r := SortNewest(Select(table, f));
    assert forall t :: t in r <==> t in multiset(Select(table, f));
    r
  }

  /** The totals over the ordered result are the totals over the matching rows. */
  lemma QueryTotals(table: seq<Transaction>, f: CashflowFilter)
    ensures TotalPendapatan(Query(table, f)) == TotalPendapatan(Select(table, f))
    ensures TotalPengeluaran(Query(table, f)) == TotalPengeluaran(Select(table, f))
  {
    SumOfTipePermutation(Query(table, f), Select(table, f), Pendapatan);
    SumOfTipePermutation(Query(table, f), Select(table, f), Pengeluaran);
  }

  lemma ListedFirstTransitive(a: Transaction, b: Transaction, c: Transaction)
    requires ListedFirst(a, b) && ListedFirst(b, c)
    ensures ListedFirst(a, c)
  {
  }

  /** Adjacent order gives order between any two positions. */
  lemma {:induction false} NewestPairwise(s: seq<Transaction>, i: int, j: int)
    requires Newest(s) && 0 <= i < j < |s|
    ensures ListedFirst(s[i], s[j])
    decreases j - i
  {
    if i + 1 < j {
      NewestPairwise(s, i + 1, j);
      ListedFirstTransitive(s[i], s[i + 1], s[j]);
    }
  }
}
