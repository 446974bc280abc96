/** The per-category expense summary of the cash-flow page: a defaultdict
    keyed by `kategori`, filled in one pass over the listed rows. */
module Breakdown {
  import opened Wrappers
  import opened Text
  import opened Transactions

  predicate IsExpense(t: Transaction) {
    t.tipe == Pengeluaran
  }

  predicate ExpenseIn(t: Transaction, c: string) {
    IsExpense(t) && t.kategori == c
  }

  /** The expense categories, each once, in order of first occurrence (the key
      order of a Python dict). */
  function Categories(rows: seq<Transaction>): seq<string> {
    if rows == [] then []
    else
      var cats := Categories(rows[..|rows| - 1]);
      var t := rows[|rows| - 1];
      if IsExpense(t) && t.kategori !in cats then cats + [t.kategori] else cats
  }

  /** The sum of `jumlah` over the expense rows of category `c`. */
  function CatTotal(rows: seq<Transaction>, c: string): int {
    if rows == [] then 0
    else
      var t := rows[|rows| - 1];
      CatTotal(rows[..|rows| - 1], c) + (if ExpenseIn(t, c) then t.jumlah else 0)
  }

  /** The number of expense rows of category `c`. */
  function CatCount(rows: seq<Transaction>, c: string): nat {
    if rows == [] then 0
    else
      var t := rows[|rows| - 1];
      CatCount(rows[..|rows| - 1], c) + (if ExpenseIn(t, c) then 1 else 0)
  }

  /** The index of the first expense row of category `c`, or `|rows|`. */
  function FirstAt(rows: seq<Transaction>, c: string): (k: nat)
    ensures k <= |rows|
    ensures k < |rows| ==> ExpenseIn(rows[k], c)
  {
    if rows == [] then 0
    else
      var p := rows[..|rows| - 1];
      var k := FirstAt(p, c);
      if k < |p| then k
      else if ExpenseIn(rows[|rows| - 1], c) then |p|
      else |rows|
  }

  /** No expense row of `c` comes before `FirstAt(rows, c)`. */
  lemma {:induction false} FirstAtIsFirst(rows: seq<Transaction>, c: string, q: int)
    requires 0 <= q < FirstAt(rows, c) && q < |rows|
    ensures !ExpenseIn(rows[q], c)
  {
    var p := rows[..|rows| - 1];
    if q < |p| && q < FirstAt(p, c) {
      FirstAtIsFirst(p, c, q);
    }
  }

  /** Whether an expense row adds to its category's quantity text: the
      category is "Bahan Pokok" or "Barang", and `satuan` and `jumlah` are
      both truthy. */
  predicate CountsQuantity(t: Transaction) {
    && (t.kategori == "Bahan Pokok" || t.kategori == "Barang")
    && t.satuan.Some? && t.satuan.value != ""
    && t.jumlah != 0
  }

  /** `f"{quantity} {unit}"`. */
  function Segment(t: Transaction): (s: string)
    requires t.satuan.Some?
    ensures |s| >= 2
  {
    IntToString(t.jumlah) + " " + t.satuan.value
  }

  /** The quantity segments of category `c`, in row order. */
  function Segments(rows: seq<Transaction>, c: string): seq<string> {
    if rows == [] then []
    else
      var t := rows[|rows| - 1];
      Segments(rows[..|rows| - 1], c)
        + (if ExpenseIn(t, c) && CountsQuantity(t) then [Segment(t)] else [])
  }

  /** `total_quantity`: '-' when no row contributed, else the segments joined
      by " + ". */
  function Quantity(rows: seq<Transaction>, c: string): string {
    var segs := Segments(rows, c);
    if segs == [] then "-" else Join(segs, " + ")
  }

  datatype CategorySummary = CategorySummary(
    kategori: string,
    totalHarga: int,
    totalItems: nat,
    totalQuantity: string)

  function SummaryOf(rows: seq<Transaction>, c: string): CategorySummary {
    CategorySummary(c, CatTotal(rows, c), CatCount(rows, c), Quantity(rows, c))
  }

  /** The summaries of the categories `cs`, in that order. */
  function Entries(rows: seq<Transaction>, cs: seq<string>): (es: seq<CategorySummary>)
    ensures |es| == |cs|
  {
    if cs == [] then []
    else Entries(rows, cs[..|cs| - 1]) + [SummaryOf(rows, cs[|cs| - 1])]
  }

  /** `category_breakdown`. */
  function BreakdownOf(rows: seq<Transaction>): seq<CategorySummary> {
    Entries(rows, Categories(rows))
  }

  function SumHarga(es: seq<CategorySummary>): int {
    if es == [] then 0 else SumHarga(es[..|es| - 1]) + es[|es| - 1].totalHarga
  }

  function SumItems(es: seq<CategorySummary>): int {
    if es == [] then 0 else SumItems(es[..|es| - 1]) + es[|es| - 1].totalItems
  }

  // ---------------------------------------------------------------------------
  // The handler's loop (lines 251-276)

  datatype Acc = Acc(totalHarga: int, totalItems: nat, totalQuantity: string)

  /** The accumulator the loop holds for category `c` after `rows`. */
  function AccOf(rows: seq<Transaction>, c: string): Acc {
    Acc(CatTotal(rows, c), CatCount(rows, c), Quantity(rows, c))
  }

  /** The loop's update of one accumulator by one expense row. */
  function AddRow(a: Acc, t: Transaction): Acc {
    var q := if !CountsQuantity(t) then a.totalQuantity
             else if a.totalQuantity == "-" then Segment(t)
             else a.totalQuantity + " + " + Segment(t);
    Acc(a.totalHarga + t.jumlah, a.totalItems + 1, q)
  }

  /** `summary` and `order` are what the loop holds after the rows `seen`. */
  ghost predicate Tracks(summary: map<string, Acc>, order: seq<string>, seen: seq<Transaction>) {
    && order == Categories(seen)
    && (forall c :: c in summary <==> c in order)
    && (forall c :: c in summary ==> summary[c] == AccOf(seen, c))
  }

  /** The body of the loop of lines 251-270 for one row `t`. */
  method AddToSummary(summary: map<string, Acc>, order: seq<string>, t: Transaction, ghost seen: seq<Transaction>)
    returns (summary': map<string, Acc>, order': seq<string>)
    requires Tracks(summary, order, seen)
    ensures Tracks(summary', order', seen + [t])
  {
    summary', order' := summary, order;
    CategoriesStep(seen, t);
    if t.tipe == Pengeluaran {
      var cat := t.kategori;
      if cat !in summary' {
        CategoriesMembership(seen, cat);
        summary' := summary'[cat := Acc(0, 0, "-")];
        order' := order' + [cat];
      }
      var a := summary'[cat];
      assert a == AccOf(seen, cat);
      var q := a.totalQuantity;
      if (cat == "Bahan Pokok" || cat == "Barang") && t.satuan.Some? && t.satuan.value != "" && t.jumlah != 0 {
        var seg := IntToString(t.jumlah) + " " + t.satuan.value;
        if q == "-" {
          q := seg;
        } else {
          q := q + " + " + seg;
        }
      }
      assert Acc(a.totalHarga + t.jumlah, a.totalItems + 1, q) == AddRow(a, t);
      summary' := summary'[cat := Acc(a.totalHarga + t.jumlah, a.totalItems + 1, q)];
      AccStep(seen, t, cat);
    }
    forall c | c in summary' && !ExpenseIn(t, c)
      ensures summary'[c] == AccOf(seen + [t], c)
    {
      assert summary'[c] == summary[c];
      AccStep(seen, t, c);
    }
  }

  /** The loop of lines 251-270: one pass filling a dict keyed by category,
      whose keys remember their insertion order in `order`. */
  method Accumulate(rows: seq<Transaction>) returns (summary: map<string, Acc>, order: seq<string>)
    ensures order == Categories(rows)
    ensures forall c :: c in summary <==> c in order
    ensures forall c :: c in summary ==> summary[c] == AccOf(rows, c)
  {
    summary, order := map[], [];
    var i := 0;
    while i < |rows|
      invariant 0 <= i <= |rows|
      invariant Tracks(summary, order, rows[..i])
    {
      assert rows[..i + 1] == rows[..i] + [rows[i]];
      summary, order := AddToSummary(summary, order, rows[i], rows[..i]);
      i := i + 1;
    }
    assert rows[..|rows|] == rows;
  }

  /** `category_breakdown` (lines 251-276): the accumulated dict turned into
      a list of summaries in key order. */
  method CategoryBreakdown(rows: seq<Transaction>) returns (breakdown: seq<CategorySummary>)
    ensures breakdown == BreakdownOf(rows)
  {
    var summary, order := Accumulate(rows);
    breakdown := [];
    var k := 0;
    while k < |order|
      invariant 0 <= k <= |order|
      invariant breakdown == Entries(rows, order[..k])
    {
      var c := order[k];
      assert c in summary;
      var a := summary[c];
      assert CategorySummary(c, a.totalHarga, a.totalItems, a.totalQuantity) == SummaryOf(rows, c);
      assert Entries(rows, order[..k + 1]) == Entries(rows, order[..k]) + [SummaryOf(rows, c)] by {
        assert order[..k + 1][..k] == order[..k];
      }
      breakdown := breakdown + [CategorySummary(c, a.totalHarga, a.totalItems, a.totalQuantity)];
      k := k + 1;
    }
    assert order[..|order|] == order;
  }

  // ---------------------------------------------------------------------------
  // Lemmas

  lemma {:induction false} JoinLong(parts: seq<string>, sep: string)
    requires parts != [] && forall i :: 0 <= i < |parts| ==> |parts[i]| >= 2
    ensures |Join(parts, sep)| >= 2
  {
    if |parts| > 1 {
      JoinLong(parts[..|parts| - 1], sep);
    }
  }

  lemma SegmentsLong(rows: seq<Transaction>, c: string)
    ensures forall i :: 0 <= i < |Segments(rows, c)| ==> |Segments(rows, c)[i]| >= 2
  {
    if rows != [] { SegmentsLong(rows[..|rows| - 1], c); }
  }

  /** The quantity text is '-' exactly when no row contributed a segment. */
  lemma QuantityDashIffNoSegment(rows: seq<Transaction>, c: string)
    ensures Quantity(rows, c) == "-" <==> Segments(rows, c) == []
  {
    if Segments(rows, c) != [] {
      SegmentsLong(rows, c);
      JoinLong(Segments(rows, c), " + ");
    }
  }

  /** Only "Bahan Pokok" and "Barang" ever get a quantity. */
  lemma {:induction false} NoQuantityOutsideUnitCategories(rows: seq<Transaction>, c: string)
    requires c != "Bahan Pokok" && c != "Barang"
    ensures Segments(rows, c) == [] && Quantity(rows, c) == "-"
  {
    if rows != [] { NoQuantityOutsideUnitCategories(rows[..|rows| - 1], c); }
  }

  lemma CategoriesStep(rows: seq<Transaction>, t: Transaction)
    ensures Categories(rows + [t]) ==
      if IsExpense(t) && t.kategori !in Categories(rows) then Categories(rows) + [t.kategori] else Categories(rows)
  {
    assert (rows + [t])[..|rows|] == rows;
  }

  /** One more row changes only its own category's accumulator, as the loop
      body does. */
  lemma AccStep(rows: seq<Transaction>, t: Transaction, c: string)
    ensures AccOf(rows + [t], c) == if ExpenseIn(t, c) then AddRow(AccOf(rows, c), t) else AccOf(rows, c)
  {
    assert (rows + [t])[..|rows|] == rows;
    var segs := Segments(rows, c);
    if ExpenseIn(t, c) && CountsQuantity(t) {
      assert Segments(rows + [t], c) == segs + [Segment(t)];
      QuantityDashIffNoSegment(rows, c);
      if segs != [] {
        assert (segs + [Segment(t)])[..|segs|] == segs;
      }
    } else {
      assert Segments(rows + [t], c) == segs;
    }
  }

  /** A category is listed iff some expense row has it; listing and first
      occurrence agree. */
  lemma {:induction false} CategoriesMembership(rows: seq<Transaction>, c: string)
    ensures c in Categories(rows) <==> CatCount(rows, c) > 0
    ensures c in Categories(rows) <==> FirstAt(rows, c) < |rows|
    ensures CatCount(rows, c) == 0 ==> CatTotal(rows, c) == 0 && Segments(rows, c) == []
  {
    if rows != [] {
      CategoriesMembership(rows[..|rows| - 1], c);
    }
  }

  /** No category is listed twice. */
  lemma {:induction false} CategoriesDistinct(rows: seq<Transaction>)
    ensures forall i, j :: 0 <= i < j < |Categories(rows)| ==> Categories(rows)[i] != Categories(rows)[j]
  {
    if rows != [] {
      CategoriesDistinct(rows[..|rows| - 1]);
    }
  }

  /** Categories appear in the order of their first expense row. */
  lemma {:induction false} CategoriesInFirstOccurrenceOrder(rows: seq<Transaction>, i: int, j: int)
    requires 0 <= i < j < |Categories(rows)|
    ensures FirstAt(rows, Categories(rows)[i]) < FirstAt(rows, Categories(rows)[j])
  {
    var p := rows[..|rows| - 1];
    var cats := Categories(p);
    var ci, cj := Categories(rows)[i], Categories(rows)[j];
    CategoriesMembership(p, ci);
    CategoriesMembership(p, cj);
    if j < |cats| {
      CategoriesInFirstOccurrenceOrder(p, i, j);
    }
  }

  /** Adding one row to every summary in `cs` adds its amount once, when its
      category is among them. */
  lemma {:induction false} EntriesStep(rows: seq<Transaction>, t: Transaction, cs: seq<string>)
    requires forall i, j :: 0 <= i < j < |cs| ==> cs[i] != cs[j]
    ensures SumHarga(Entries(rows + [t], cs)) ==
      SumHarga(Entries(rows, cs)) + (if IsExpense(t) && t.kategori in cs then t.jumlah else 0)
    ensures SumItems(Entries(rows + [t], cs)) ==
      SumItems(Entries(rows, cs)) + (if IsExpense(t) && t.kategori in cs then 1 else 0)
  {
    if cs != [] {
      var init := cs[..|cs| - 1];
      var c := cs[|cs| - 1];
      assert cs == init + [c];
      EntriesStep(rows, t, init);
      assert (rows + [t])[..|rows|] == rows;
      assert t.kategori in cs <==> t.kategori in init || t.kategori == c;
      assert t.kategori == c ==> t.kategori !in init;
    }
  }

  lemma SumsOfAppendedEntry(rows: seq<Transaction>, cs: seq<string>, c: string)
    ensures SumHarga(Entries(rows, cs + [c])) == SumHarga(Entries(rows, cs)) + CatTotal(rows, c)
    ensures SumItems(Entries(rows, cs + [c])) == SumItems(Entries(rows, cs)) + CatCount(rows, c)
  {
    assert (cs + [c])[..|cs|] == cs;
    var es := Entries(rows, cs + [c]);
    assert es[..|es| - 1] == Entries(rows, cs);
  }

  /** One more row adds its amount and one item to the summed breakdown when
      it is an expense, and nothing otherwise. */
  lemma BreakdownStep(p: seq<Transaction>, t: Transaction)
    ensures SumHarga(BreakdownOf(p + [t])) == SumHarga(BreakdownOf(p)) + (if IsExpense(t) then t.jumlah else 0)
    ensures SumItems(BreakdownOf(p + [t])) == SumItems(BreakdownOf(p)) + (if IsExpense(t) then 1 else 0)
  {
    var cs := Categories(p);
    CategoriesDistinct(p);
    EntriesStep(p, t, cs);
    CategoriesStep(p, t);
    if IsExpense(t) && t.kategori !in cs {
      NewCategoryEntry(p, t);
    }
  }

  lemma NewCategoryEntry(p: seq<Transaction>, t: Transaction)
    requires IsExpense(t) && t.kategori !in Categories(p)
    ensures SumHarga(Entries(p + [t], Categories(p) + [t.kategori])) == SumHarga(Entries(p + [t], Categories(p))) + t.jumlah
    ensures SumItems(Entries(p + [t], Categories(p) + [t.kategori])) == SumItems(Entries(p + [t], Categories(p))) + 1
  {
    CategoriesMembership(p, t.kategori);
    SumsOfAppendedEntry(p + [t], Categories(p), t.kategori);
    assert (p + [t])[..|p|] == p;
  }

  /** Summed over the categories, `total_harga` is `total_pengeluaran` and
      `total_items` is the number of expense rows: no row is counted twice or
      left out. */
  lemma {:induction false} BreakdownTotals(rows: seq<Transaction>)
    ensures SumHarga(BreakdownOf(rows)) == TotalPengeluaran(rows)
    ensures SumItems(BreakdownOf(rows)) == CountOfTipe(rows, Pengeluaran)
  {
    if rows != [] {
      var p := rows[..|rows| - 1];
      assert rows == p + [rows[|rows| - 1]];
      BreakdownTotals(p);
      BreakdownStep(p, rows[|rows| - 1]);
    }
  }

  lemma {:induction false} EntriesAt(rows: seq<Transaction>, cs: seq<string>, i: int)
    requires 0 <= i < |cs|
    ensures Entries(rows, cs)[i] == SummaryOf(rows, cs[i])
  {
    if i < |cs| - 1 {
      EntriesAt(rows, cs[..|cs| - 1], i);
    }
  }

  /** Each summary's figures are those of its own category's rows. */
  lemma BreakdownEntries(rows: seq<Transaction>, i: int)
    requires 0 <= i < |BreakdownOf(rows)|
    ensures BreakdownOf(rows)[i].kategori == Categories(rows)[i]
    ensures BreakdownOf(rows)[i].totalHarga == CatTotal(rows, Categories(rows)[i])
    ensures BreakdownOf(rows)[i].totalItems == CatCount(rows, Categories(rows)[i]) > 0
  {
    EntriesAt(rows, Categories(rows), i);
    CategoriesMembership(rows, Categories(rows)[i]);
  }

  /** No category is listed exactly when there is no expense row. */
  lemma {:induction false} CategoriesEmpty(rows: seq<Transaction>)
    ensures Categories(rows) == [] <==> forall i :: 0 <= i < |rows| ==> !IsExpense(rows[i])
  {
    if rows != [] {
      var p := rows[..|rows| - 1];
      CategoriesEmpty(p);
      if Categories(p) != [] {
        CategoriesMembership(rows, Categories(p)[0]);
        CategoriesMembership(p, Categories(p)[0]);
        CatCountPositive(rows, Categories(p)[0]);
      }
    }
  }

  /** A positive count has a row behind it. */
  lemma {:induction false} CatCountPositive(rows: seq<Transaction>, c: string)
    requires CatCount(rows, c) > 0
    ensures exists i :: 0 <= i < |rows| && ExpenseIn(rows[i], c)
  {
    var p := rows[..|rows| - 1];
    if !ExpenseIn(rows[|rows| - 1], c) {
      CatCountPositive(p, c);
      var i :| 0 <= i < |p| && ExpenseIn(p[i], c);
      assert rows[i] == p[i];
    }
  }

  // ---------------------------------------------------------------------------
  // The loop as written

  /** Line 260 calls `transaction.get('satuan')` on a `sqlite3.Row`, which
      has no `get`: the handler raises AttributeError at the first expense
      row of "Bahan Pokok" or "Barang". */
  predicate ReachesRowGet(t: Transaction) {
    IsExpense(t) && (t.kategori == "Bahan Pokok" || t.kategori == "Barang")
  }

  /** The breakdown the code as written produces: `None` where it raises. */
  function BreakdownAsWritten(rows: seq<Transaction>): (r: Option<seq<CategorySummary>>)
    ensures r.None? <==> exists i :: 0 <= i < |rows| && ReachesRowGet(rows[i])
    ensures r.Some? ==> r.value == BreakdownOf(rows) && forall i :: 0 <= i < |r.value| ==> r.value[i].totalQuantity == "-"
  {
    if exists i :: 0 <= i < |rows| && ReachesRowGet(rows[i]) then None
    else
      forall i | 0 <= i < |BreakdownOf(rows)| ensures BreakdownOf(rows)[i].totalQuantity == "-" {
        EntriesAt(rows, Categories(rows), i);
        var c := Categories(rows)[i];
        if c == "Bahan Pokok" || c == "Barang" {
          CategoriesMembership(rows, c);
          CatCountPositive(rows, c);
          assert false;
        } else {
          NoQuantityOutsideUnitCategories(rows, c);
        }
      }
      Some(BreakdownOf(rows))
  }
}
