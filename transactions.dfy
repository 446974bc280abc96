/** The `transactions` table: one row per dated cash movement, and the sums
    the route handlers take over a set of rows. */
module Transactions {
  import opened Wrappers
  import opened Calendar

  const Pendapatan: string := "pendapatan"   // income
  const Pengeluaran: string := "pengeluaran" // expense

  /** A row of `transactions`. `tipe` is free text in the table; only the two
      constants above are ever summed. `satuan` (unit) is NULL unless set. */
  datatype Transaction = Transaction(
    id: int,
    tanggal: Day,
    tipe: string,
    kategori: string,
    deskripsi: string,
    jumlah: int,
    satuan: Option<string>,
    userId: int)

  /** `sum([t['jumlah'] for t in rows if t['tipe'] == tipe])`. */
  function SumOfTipe(rows: seq<Transaction>, tipe: string): int {
    if rows == [] then 0
    else
      var t := rows[|rows| - 1];
      SumOfTipe(rows[..|rows| - 1], tipe) + (if t.tipe == tipe then t.jumlah else 0)
  }

  /** `len([t for t in rows if t['tipe'] == tipe])`. */
  function CountOfTipe(rows: seq<Transaction>, tipe: string): nat {
    if rows == [] then 0
    else
      var t := rows[|rows| - 1];
      CountOfTipe(rows[..|rows| - 1], tipe) + (if t.tipe == tipe then 1 else 0)
  }

  /** The sum of `jumlah` over every row, whatever its `tipe`. */
  function SumAll(rows: seq<Transaction>): int {
    if rows == [] then 0 else SumAll(rows[..|rows| - 1]) + rows[|rows| - 1].jumlah
  }

  /** The sum of `jumlah` over rows whose `tipe` is neither income nor expense. */
  function SumOther(rows: seq<Transaction>): int {
    if rows == [] then 0
    else
      var t := rows[|rows| - 1];
      SumOther(rows[..|rows| - 1]) + (if t.tipe != Pendapatan && t.tipe != Pengeluaran then t.jumlah else 0)
  }

  function TotalPendapatan(rows: seq<Transaction>): int {
    SumOfTipe(rows, Pendapatan)
  }

  function TotalPengeluaran(rows: seq<Transaction>): int {
    SumOfTipe(rows, Pengeluaran)
  }

  /** `net_profit = total_revenue - total_expense`. */
  function NetProfit(revenue: int, expense: int): (net: int)
    ensures net + expense == revenue
    ensures net < 0 <==> expense > revenue
  {
    revenue - expense
  }

  /** `(net_profit / total_revenue * 100) if total_revenue > 0 else 0`, in exact
      arithmetic. */
  function ProfitMargin(revenue: int, expense: int): (m: real)
    ensures revenue <= 0 ==> m == 0.0
    ensures revenue > 0 ==> m * (revenue as real) == (NetProfit(revenue, expense) as real) * 100.0
  {
    if revenue > 0 then (NetProfit(revenue, expense) as real) / (revenue as real) * 100.0 else 0.0
  }

  // ---------------------------------------------------------------------------
  // Lemmas

  lemma {:induction false} SumOfTipeAppend(a: seq<Transaction>, b: seq<Transaction>, tipe: string)
    ensures SumOfTipe(a + b, tipe) == SumOfTipe(a, tipe) + SumOfTipe(b, tipe)
    decreases |b|
  {
    if b == [] {
      assert a + b == a;
    } else {
      assert (a + b)[..|a + b| - 1] == a + b[..|b| - 1];
      SumOfTipeAppend(a, b[..|b| - 1], tipe);
    }
  }

  /** The totals do not depend on the order the rows come in. */
  lemma {:induction false} SumOfTipePermutation(a: seq<Transaction>, b: seq<Transaction>, tipe: string)
    requires multiset(a) == multiset(b)
    ensures SumOfTipe(a, tipe) == SumOfTipe(b, tipe)
    decreases |a|
  {
    if a != [] {
      var x := a[|a| - 1];
      assert a == a[..|a| - 1] + [x];
      assert x in multiset(b);
      var k :| 0 <= k < |b| && b[k] == x;
      assert b == b[..k] + [x] + b[k + 1..];
      var rest := b[..k] + b[k + 1..];
      assert multiset(a[..|a| - 1]) == multiset(rest) by {
        assert multiset(a) == multiset(a[..|a| - 1]) + multiset{x};
        assert multiset(b) == multiset(b[..k]) + multiset{x} + multiset(b[k + 1..]);
        assert multiset(rest) == multiset(b[..k]) + multiset(b[k + 1..]);
        assert multiset(a[..|a| - 1]) == multiset(a) - multiset{x};
        assert multiset(rest) == multiset(b) - multiset{x};
      }
      SumOfTipePermutation(a[..|a| - 1], rest, tipe);
      SumOfTipeAppend(b[..k] + [x], b[k + 1..], tipe);
      SumOfTipeAppend(b[..k], [x], tipe);
      SumOfTipeAppend(b[..k], b[k + 1..], tipe);
    }
  }

  /** Every row counts in exactly one of income, expense or neither: the
      totals partition the rows by `tipe` with no overlap. */
  lemma {:induction false} TotalsPartition(rows: seq<Transaction>)
    ensures SumAll(rows) == TotalPendapatan(rows) + TotalPengeluaran(rows) + SumOther(rows)
  {
    if rows != [] {
      TotalsPartition(rows[..|rows| - 1]);
    }
  }

  /** A row of any other `tipe` changes neither total. */
  lemma OtherTipeCountsInNeither(rows: seq<Transaction>, t: Transaction)
    requires t.tipe != Pendapatan && t.tipe != Pengeluaran
    ensures TotalPendapatan(rows + [t]) == TotalPendapatan(rows)
    ensures TotalPengeluaran(rows + [t]) == TotalPengeluaran(rows)
  {
    assert (rows + [t])[..|rows|] == rows;
  }

  /** With income and no expense the margin is 100; with expense at most the
      income it lies in [0, 100]; it is negative exactly when there is a loss. */
  lemma MarginBounds(revenue: int, expense: int)
    requires revenue > 0
    ensures 0 <= expense ==> ProfitMargin(revenue, expense) <= 100.0
    ensures expense == 0 ==> ProfitMargin(revenue, expense) == 100.0
    ensures ProfitMargin(revenue, expense) < 0.0 <==> expense > revenue
  {
    var m := ProfitMargin(revenue, expense);
    var r := revenue as real;
    assert m * r == ((revenue - expense) as real) * 100.0;
    assert r > 0.0;
    if expense == 0 {
      assert r / r == 1.0;
    }
  }
}
