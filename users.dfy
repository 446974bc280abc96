/** The `users` table as the user-management routes change it (lines
    560-626). `username` is UNIQUE in the table: an INSERT or UPDATE that
    would repeat one fails with IntegrityError and changes nothing. */
module Users {
  import opened Wrappers
  import opened Auth

  predicate NameTaken(rows: seq<StoredUser>, username: string) {
    exists i :: 0 <= i < |rows| && rows[i].username == username
  }

  predicate IdPresent(rows: seq<StoredUser>, id: int) {
    exists i :: 0 <= i < |rows| && rows[i].id == id
  }

  /** Another row than `id` already has the name. */
  predicate NameTakenByOther(rows: seq<StoredUser>, id: int, username: string) {
    exists i :: 0 <= i < |rows| && rows[i].username == username && rows[i].id != id
  }

  /** `UPDATE users SET username=?, [password=?,] role=? WHERE id=?`; an
      empty `password` keeps the stored hash. */
  function EditedUsers(rows: seq<StoredUser>, id: int, username: string, password: string, hashed: string, role: string)
    : (r: seq<StoredUser>)
    ensures |r| == |rows|
    ensures forall i :: 0 <= i < |rows| ==> r[i].id == rows[i].id
    ensures forall i :: 0 <= i < |rows| && rows[i].id != id ==> r[i] == rows[i]
    ensures forall i :: 0 <= i < |rows| && rows[i].id == id ==>
      && r[i].username == username && r[i].role == role
      && r[i].passwordHash == (if password == "" then rows[i].passwordHash else hashed)
  {
    if rows == [] then []
    else
      var u := rows[|rows| - 1];
      var u' := if u.id != id then u
                else u.(username := username, role := role,
                        passwordHash := if password == "" then u.passwordHash else hashed);
      EditedUsers(rows[..|rows| - 1], id, username, password, hashed, role) + [u']
  }

  /** `DELETE FROM users WHERE id = ?`. */
  function WithoutUser(rows: seq<StoredUser>, id: int): (r: seq<StoredUser>)
    ensures forall u :: u in r <==> u in rows && u.id != id
    ensures |r| <= |rows|
  {
    if rows == [] then []
    else
      var u := rows[|rows| - 1];
      WithoutUser(rows[..|rows| - 1], id) + (if u.id != id then [u] else [])
  }

  datatype UserNotice =
    | UserAdded(name: string)     // f'User {username} berhasil ditambahkan'
    | UsernameTaken(name: string) // f'Username {username} sudah ada'
    | UserUpdated                 // 'User berhasil diupdate'

  /** The reply of `delete_user`. */
  datatype DeleteReply = DeleteReply(success: bool, message: Option<string>)

  const SelfDeleteMessage: string := "Tidak dapat menghapus user sendiri"

  class UserTable {
    var rows: seq<StoredUser>
    var nextId: int

    /** Names and ids are unique and every id is below the next one. */
    ghost predicate Valid()
      reads this
    {
      && UniqueNamesAndIds(rows)
      && (forall i :: 0 <= i < |rows| ==> rows[i].id < nextId)
    }

    constructor ()
      ensures Valid() && rows == [] && nextId == 1
    {
      rows := [];
      nextId := 1;
    }

    /** `add_user`; `hashed` is `generate_password_hash(password)`. */
    method AddUser(username: string, hashed: string, role: string) returns (notice: UserNotice)
      requires Valid()
      modifies this
      ensures Valid()
      ensures NameTaken(old(rows), username) ==>
        rows == old(rows) && nextId == old(nextId) && notice == UsernameTaken(username)
      ensures !NameTaken(old(rows), username) ==>
        && rows == old(rows) + [StoredUser(old(nextId), username, hashed, role)]
        && nextId == old(nextId) + 1
        && notice == UserAdded(username)
    {
      if exists i :: 0 <= i < |rows| && rows[i].username == username {
        notice := UsernameTaken(username);
      } else {
        rows := rows + [StoredUser(nextId, username, hashed, role)];
        nextId := nextId + 1;
        notice := UserAdded(username);
      }
    }

    /** `edit_user`. When the row `id` exists and another row holds the new
        name, the UPDATE raises IntegrityError, which the handler does not
        catch (`None`: an error page, nothing changed). An UPDATE that
        matches no row writes nothing, so UNIQUE is not tested: an absent
        id changes nothing and still reports success. */
    method EditUser(id: int, username: string, password: string, hashed: string, role: string)
      returns (notice: Option<UserNotice>)
      requires Valid()
      modifies this
      ensures Valid() && nextId == old(nextId)
      ensures IdPresent(old(rows), id) && NameTakenByOther(old(rows), id, username) ==>
        rows == old(rows) && notice.None?
      ensures !(IdPresent(old(rows), id) && NameTakenByOther(old(rows), id, username)) ==>
        rows == EditedUsers(old(rows), id, username, password, hashed, role) && notice == Some(UserUpdated)
    {
      if (exists i :: 0 <= i < |rows| && rows[i].id == id)
         && (exists i :: 0 <= i < |rows| && rows[i].username == username && rows[i].id != id) {
        notice := None;
      } else {
        var r := EditedUsers(rows, id, username, password, hashed, role);
        assert forall i, j :: 0 <= i < j < |r| ==> r[i].username != r[j].username by {
          forall i, j | 0 <= i < j < |r| ensures r[i].username != r[j].username {
            if rows[i].id == id { assert rows[j].id != id; }
          }
        }
        rows := r;
        notice := Some(UserUpdated);
      }
    }

    /** `delete_user`: the signed-in user cannot delete themself. The
        handler reads `session['user_id']`, which raises for a demo
        sign-in. */
    method DeleteUser(id: int, s: Session) returns (reply: DeleteReply)
      requires Valid() && s.userId.Some?
      modifies this
      ensures Valid() && nextId == old(nextId)
      ensures id == s.userId.value ==> rows == old(rows) && reply == DeleteReply(false, Some(SelfDeleteMessage))
      ensures id != s.userId.value ==> rows == WithoutUser(old(rows), id) && reply == DeleteReply(true, None)
    {
      if id == s.userId.value {
        reply := DeleteReply(false, Some(SelfDeleteMessage));
        return;
      }
      WithoutUserKeepsUnique(rows, id);
      rows := WithoutUser(rows, id);
      reply := DeleteReply(true, None);
    }
  }

  predicate UniqueNamesAndIds(rows: seq<StoredUser>) {
    && (forall i, j :: 0 <= i < j < |rows| ==> rows[i].username != rows[j].username)
    && (forall i, j :: 0 <= i < j < |rows| ==> rows[i].id != rows[j].id)
  }

  /** Deleting rows keeps names and ids unique. */
  lemma {:induction false} WithoutUserKeepsUnique(rows: seq<StoredUser>, id: int)
    requires UniqueNamesAndIds(rows)
    ensures UniqueNamesAndIds(WithoutUser(rows, id))
  {
    if rows != [] {
      var p := rows[..|rows| - 1];
      var u := rows[|rows| - 1];
      assert UniqueNamesAndIds(p);
      WithoutUserKeepsUnique(p, id);
      var rp := WithoutUser(p, id);
      forall v | v in rp ensures v.username != u.username && v.id != u.id {
        var k :| 0 <= k < |p| && p[k] == v;
        assert rows[k] == v;
      }
    }
  }

  /** Editing an id that no row has changes no row, whatever the new name. */
  lemma EditAbsentIsNoop(rows: seq<StoredUser>, id: int, username: string, password: string, hashed: string, role: string)
    requires !IdPresent(rows, id)
    ensures EditedUsers(rows, id, username, password, hashed, role) == rows
  {
    var r := EditedUsers(rows, id, username, password, hashed, role);
    assert forall i :: 0 <= i < |rows| ==> r[i] == rows[i];
  }

  /** A user added under a fresh name is the row sign-in finds for it. */
  lemma {:induction false} AddedUserIsFound(rows: seq<StoredUser>, u: StoredUser)
    requires !NameTaken(rows, u.username)
    ensures FindUser(rows + [u], u.username) == Some(u)
  {
    if rows != [] {
      assert rows[0].username != u.username;
      assert (rows + [u])[1..] == rows[1..] + [u];
      assert !NameTaken(rows[1..], u.username) by {
        forall i | 0 <= i < |rows[1..]| ensures rows[1..][i].username != u.username {
          assert rows[1..][i] == rows[i + 1];
        }
      }
      AddedUserIsFound(rows[1..], u);
    }
  }
}
