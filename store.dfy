/** The `transactions` table as the cash-flow routes change it: add (lines
    309-327), edit lookup (329-340), update (342-360), delete (362-370). */
module Store {
  import opened Wrappers
  import opened Calendar
  import opened Transactions
  import opened Auth

  /** `UPDATE transactions SET tanggal=?, tipe=?, kategori=?, deskripsi=?,
      jumlah=? WHERE id=?`: `id`, `satuan` and `user_id` are not set. */
  function UpdatedRows(rows: seq<Transaction>, id: int, tanggal: Day, tipe: string, kategori: string,
                       deskripsi: string, jumlah: int): (r: seq<Transaction>)
    ensures |r| == |rows|
    ensures forall i :: 0 <= i < |rows| && rows[i].id != id ==> r[i] == rows[i]
    ensures forall i :: 0 <= i < |rows| && rows[i].id == id ==>
      r[i] == Transaction(id, tanggal, tipe, kategori, deskripsi, jumlah, rows[i].satuan, rows[i].userId)
  {
    if rows == [] then []
    else
      var t := rows[|rows| - 1];
      var t' := if t.id != id then t
                else t.(tanggal := tanggal, tipe := tipe, kategori := kategori, deskripsi := deskripsi, jumlah := jumlah);
      UpdatedRows(rows[..|rows| - 1], id, tanggal, tipe, kategori, deskripsi, jumlah) + [t']
  }

  /** `DELETE FROM transactions WHERE id = ?`. */
  function WithoutRow(rows: seq<Transaction>, id: int): (r: seq<Transaction>)
    ensures forall t :: t in r <==> t in rows && t.id != id
    ensures |r| <= |rows|
  {
    if rows == [] then []
    else
      var t := rows[|rows| - 1];
      WithoutRow(rows[..|rows| - 1], id) + (if t.id != id then [t] else [])
  }

  /** `SELECT * FROM transactions WHERE id = ?` with `fetchone()`. */
  function FindRow(rows: seq<Transaction>, id: int): (r: Option<Transaction>)
    ensures r.Some? ==> r.value in rows && r.value.id == id
    ensures r.None? <==> forall i :: 0 <= i < |rows| ==> rows[i].id != id
  {
    if rows == [] then None
    else if rows[0].id == id then Some(rows[0])
    else FindRow(rows[1..], id)
  }

  predicate UniqueIds(rows: seq<Transaction>) {
    forall i, j :: 0 <= i < j < |rows| ==> rows[i].id != rows[j].id
  }

  /** What `edit_transaksi` renders: the row, or a redirect to the cash-flow
      page with 'Transaksi tidak ditemukan'. */
  datatype EditPage = EditForm(row: Transaction) | NotFound

  class TransactionStore {
    var rows: seq<Transaction>
    var nextId: int

    /** Ids are unique and below the next one to hand out. */
    ghost predicate Valid()
      reads this
    {
      UniqueIds(rows) && forall i :: 0 <= i < |rows| ==> rows[i].id < nextId
    }

    constructor ()
      ensures Valid() && rows == [] && nextId == 1
    {
      rows := [];
      nextId := 1;
    }

    /** `add_transaction`: a fresh id, no `satuan`, and the session's
        `user_id` (a demo sign-in has none and the handler raises). */
    method Add(tanggal: Day, tipe: string, kategori: string, deskripsi: string, jumlah: int, s: Session)
      returns (id: int)
      requires Valid() && s.userId.Some?
      modifies this
      ensures Valid()
      ensures id == old(nextId) && nextId == old(nextId) + 1
      ensures forall t :: t in old(rows) ==> t.id != id
      ensures rows == old(rows) + [Transaction(id, tanggal, tipe, kategori, deskripsi, jumlah, None, s.userId.value)]
    {
      id := nextId;
      rows := rows + [Transaction(id, tanggal, tipe, kategori, deskripsi, jumlah, None, s.userId.value)];
      nextId := nextId + 1;
    }

    /** `edit_transaksi`. */
    function Edit(id: int): (p: EditPage)
      reads this
      ensures p.NotFound? <==> forall i :: 0 <= i < |rows| ==> rows[i].id != id
      ensures p.EditForm? ==> p.row in rows && p.row.id == id
    {
      var r := FindRow(rows, id);
      if r.Some? then EditForm(r.value) else NotFound
    }

    /** `update_transaksi`. */
    method Update(id: int, tanggal: Day, tipe: string, kategori: string, deskripsi: string, jumlah: int)
      requires Valid()
      modifies this
      ensures Valid() && nextId == old(nextId)
      ensures rows == UpdatedRows(old(rows), id, tanggal, tipe, kategori, deskripsi, jumlah)
    {
      rows := UpdatedRows(rows, id, tanggal, tipe, kategori, deskripsi, jumlah);
    }

    /** `delete_transaction`: always `{'success': True}`. */
    method Delete(id: int) returns (success: bool)
      requires Valid()
      modifies this
      ensures Valid() && nextId == old(nextId)
      ensures success
      ensures rows == WithoutRow(old(rows), id)
    {
      WithoutRowKeepsUnique(rows, id);
      rows := WithoutRow(rows, id);
      success := true;
    }
  }

  // ---------------------------------------------------------------------------
  // Lemmas

  /** Updating an id that is not in the table changes nothing. */
  lemma UpdateAbsentIsNoop(rows: seq<Transaction>, id: int, tanggal: Day, tipe: string, kategori: string,
                           deskripsi: string, jumlah: int)
    requires forall i :: 0 <= i < |rows| ==> rows[i].id != id
    ensures UpdatedRows(rows, id, tanggal, tipe, kategori, deskripsi, jumlah) == rows
  {
  }

  /** After an update of a present id, the edit page shows the new values
      with the old `satuan` and `user_id`. */
  lemma {:induction false} UpdateThenFind(rows: seq<Transaction>, k: int, tanggal: Day, tipe: string, kategori: string,
                                          deskripsi: string, jumlah: int)
    requires UniqueIds(rows) && 0 <= k < |rows|
    ensures FindRow(UpdatedRows(rows, rows[k].id, tanggal, tipe, kategori, deskripsi, jumlah), rows[k].id)
      == Some(Transaction(rows[k].id, tanggal, tipe, kategori, deskripsi, jumlah, rows[k].satuan, rows[k].userId))
  {
    var id := rows[k].id;
    var r := UpdatedRows(rows, id, tanggal, tipe, kategori, deskripsi, jumlah);
    FindRowFirst(r, k, id);
  }

  /** In a table with one row of the id `id` at `k`, the lookup returns it. */
  lemma {:induction false} FindRowFirst(rows: seq<Transaction>, k: int, id: int)
    requires 0 <= k < |rows| && rows[k].id == id
    requires forall i :: 0 <= i < k ==> rows[i].id != id
    ensures FindRow(rows, id) == Some(rows[k])
  {
    if k > 0 {
      FindRowFirst(rows[1..], k - 1, id);
    }
  }

  /** After a delete the id is gone and every other row is still there. */
  lemma DeleteThenFind(rows: seq<Transaction>, id: int)
    ensures FindRow(WithoutRow(rows, id), id).None?
    ensures forall t :: t in rows && t.id != id ==> t in WithoutRow(rows, id)
  {
    var r := WithoutRow(rows, id);
    assert forall i :: 0 <= i < |r| ==> r[i] in r;
  }

  lemma {:induction false} WithoutRowKeepsUnique(rows: seq<Transaction>, id: int)
    requires UniqueIds(rows)
    ensures UniqueIds(WithoutRow(rows, id))
  {
    if rows != [] {
      var p := rows[..|rows| - 1];
      var t := rows[|rows| - 1];
      WithoutRowKeepsUnique(p, id);
      forall v | v in WithoutRow(p, id) ensures v.id != t.id {
        var k :| 0 <= k < |p| && p[k] == v;
        assert rows[k] == v;
      }
    }
  }
}
