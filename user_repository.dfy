/** `UserRepository` (src/main/kotlin/com/re100io/repository/UserRepository.kt): the
    MyBatis mapper over the `users` table, read as the semantics of its SQL. The
    table is a sequence of rows in insertion order; the identity sequence that
    numbers them is `nextId`; the unique constraints on `username` and `email`
    (src/main/kotlin/com/re100io/entity/User.kt) are part of the table's invariant,
    and a statement that would break one fails with a duplicate-key error that
    names the column. */
module UserRepositories {
  import opened Wrappers
  import opened Jvm
  import opened Text
  import opened Users
  import opened GlobalExceptionHandler

  const UsernameColumn: string := "username"
  const EmailColumn: string := "email"

  // ---------------------------------------------------------------------------
  // SQL semantics over a sequence of rows

  /** The WHERE clauses of the mapper's statements. */
  datatype Criterion =
    | IdIs(id: Long)
    | UsernameIs(username: string)
    | EmailIs(email: string)
    | IsActive
    | UsernameOrEmailContains(keyword: string)

  predicate Matches(u: User, c: Criterion) {
    match c
    case IdIs(id) => u.id == Some(id)
    case UsernameIs(username) => u.username == username
    case EmailIs(email) => u.email == email
    case IsActive => u.isActive
    case UsernameOrEmailContains(keyword) => Contains(u.username, keyword, false) || Contains(u.email, keyword, false)
  }

  /** The rows for which `Matches(u, c) == keep`, in table order: with `keep` the
      result of `SELECT ... WHERE c`, without it what `DELETE ... WHERE c` leaves. */
  function Select(rows: seq<User>, c: Criterion, keep: bool): (r: seq<User>)
    ensures |r| <= |rows|
    ensures forall u :: u in r <==> u in rows && Matches(u, c) == keep
    decreases |rows|
  {
    if |rows| == 0 then []
    else (if Matches(rows[0], c) == keep then [rows[0]] else []) + Select(rows[1..], c, keep)
  }

  function Where(rows: seq<User>, c: Criterion): seq<User> {
    Select(rows, c, true)
  }

  function First(rows: seq<User>): (r: Option<User>)
    ensures r.Some? <==> |rows| > 0
    ensures r.Some? ==> r.value == rows[0]
  {
    if |rows| == 0 then None else Some(rows[0])
  }

  predicate HasId(rows: seq<User>, id: Long) {
    exists i :: 0 <= i < |rows| && rows[i].id == Some(id)
  }

  predicate HasUsername(rows: seq<User>, username: string) {
    exists i :: 0 <= i < |rows| && rows[i].username == username
  }

  predicate HasEmail(rows: seq<User>, email: string) {
    exists i :: 0 <= i < |rows| && rows[i].email == email
  }

  /** A query returns something exactly when some row matches. */
  lemma WhereNonEmpty(rows: seq<User>, c: Criterion)
    ensures |Where(rows, c)| > 0 <==> exists i :: 0 <= i < |rows| && Matches(rows[i], c)
  {
    if i :| 0 <= i < |rows| && Matches(rows[i], c) {
      assert rows[i] in Where(rows, c);
    }
    if |Where(rows, c)| > 0 {
      assert Where(rows, c)[0] in Where(rows, c);
    }
  }

  /** Two rows in table order: ids ascending, usernames and emails different. */
  predicate InOrder(a: User, b: User) {
    a.id.Some? && b.id.Some? && a.id.value < b.id.value && a.username != b.username && a.email != b.email
  }

  /** The table's invariant: every row has an id, ids ascend in insertion order,
      and no two rows share a username or an email. */
  predicate WellFormed(rows: seq<User>) {
    && (forall i :: 0 <= i < |rows| ==> rows[i].id.Some?)
    && (forall i, j :: 0 <= i < j < |rows| ==> InOrder(rows[i], rows[j]))
  }

  /** Dropping rows keeps the table well formed. */
  lemma {:induction false} SelectKeepsWellFormed(rows: seq<User>, c: Criterion, keep: bool)
    requires WellFormed(rows)
    ensures WellFormed(Select(rows, c, keep))
    decreases |rows|
  {
    if |rows| > 0 {
      var rest := Select(rows[1..], c, keep);
      SelectKeepsWellFormed(rows[1..], c, keep);
      forall j | 0 <= j < |rest|
        ensures InOrder(rows[0], rest[j])
      {
        assert rest[j] in rows[1..];
      }
    }
  }

  /** A criterion splits the table: every row is either selected or left behind
      by a delete, never both. */
  lemma {:induction false} SelectPartitions(rows: seq<User>, c: Criterion)
    ensures |Select(rows, c, true)| + |Select(rows, c, false)| == |rows|
    decreases |rows|
  {
    if |rows| > 0 {
      SelectPartitions(rows[1..], c);
    }
  }

  /** A criterion on a unique column selects at most one row of a well-formed table,
      so `COUNT(*)` on it is 0 or 1. */
  lemma UniqueKeySelectsAtMostOne(rows: seq<User>, c: Criterion)
    requires WellFormed(rows)
    requires c.IdIs? || c.UsernameIs? || c.EmailIs?
    ensures |Where(rows, c)| <= 1
  {
    var r := Where(rows, c);
    SelectKeepsWellFormed(rows, c, true);
    assert |r| >= 2 ==> r[0] in r && r[1] in r && InOrder(r[0], r[1]);
  }

  /** In a well-formed table the row carrying a unique key is all a query on that
      key returns. */
  lemma UniqueKeySelectsTheRow(rows: seq<User>, c: Criterion, i: int)
    requires WellFormed(rows)
    requires c.IdIs? || c.UsernameIs? || c.EmailIs?
    requires 0 <= i < |rows| && Matches(rows[i], c)
    ensures Where(rows, c) == [rows[i]]
  {
    UniqueKeySelectsAtMostOne(rows, c);
    assert rows[i] in Where(rows, c);
  }

  /** The same, for every row at once, in any table: when the table is well formed,
      a query on a unique key returns just the row that carries it. */
  lemma UniqueKeyFindsTheRow(rows: seq<User>, c: Criterion)
    requires c.IdIs? || c.UsernameIs? || c.EmailIs?
    ensures WellFormed(rows) ==> forall i :: 0 <= i < |rows| && Matches(rows[i], c) ==> Where(rows, c) == [rows[i]]
  {
    if WellFormed(rows) {
      forall i | 0 <= i < |rows| && Matches(rows[i], c)
        ensures Where(rows, c) == [rows[i]]
      {
        UniqueKeySelectsTheRow(rows, c, i);
      }
    }
  }

  /** `DELETE ... WHERE id = ?` removes one row when the id is present and none otherwise. */
  lemma DeleteCount(rows: seq<User>, id: Long)
    requires WellFormed(rows)
    ensures |rows| - |Select(rows, IdIs(id), false)| == (if HasId(rows, id) then 1 else 0)
  {
    SelectPartitions(rows, IdIs(id));
    UniqueKeySelectsAtMostOne(rows, IdIs(id));
    if HasId(rows, id) {
      var i :| 0 <= i < |rows| && rows[i].id == Some(id);
      assert rows[i] in Where(rows, IdIs(id));
    } else {
      WhereNonEmpty(rows, IdIs(id));
    }
  }

  /** Some other row already holds the email an update would write. */
  predicate EmailTakenByOther(rows: seq<User>, user: User) {
    exists i :: 0 <= i < |rows| && rows[i].id != user.id && rows[i].email == user.email
  }

  /** In a well-formed table no other row holds the email of a row, so writing a
      row's own email back, or an email nobody holds, takes no one else's. */
  lemma EmailFreeForRow(rows: seq<User>, user: User)
    requires WellFormed(rows)
    requires !HasEmail(rows, user.email)
      || exists k :: 0 <= k < |rows| && rows[k].id == user.id && rows[k].email == user.email
    ensures !EmailTakenByOther(rows, user)
  {
    if k :| 0 <= k < |rows| && rows[k].id == user.id && rows[k].email == user.email {
      forall i | 0 <= i < |rows| && rows[i].id != user.id
        ensures rows[i].email != user.email
      {
        assert i < k ==> InOrder(rows[i], rows[k]);
        assert k < i ==> InOrder(rows[k], rows[i]);
      }
    }
  }

  /** `UPDATE users SET full_name, email, updated_at WHERE id = user.id`: the row with
      that id takes the three new values; everything else stays as it was. */
  function UpdateRows(rows: seq<User>, user: User): (r: seq<User>)
    ensures |r| == |rows|
    ensures forall i :: 0 <= i < |rows| ==>
      && r[i].id == rows[i].id && r[i].username == rows[i].username && r[i].password == rows[i].password
      && r[i].isActive == rows[i].isActive && r[i].createdAt == rows[i].createdAt
    ensures forall i :: 0 <= i < |rows| && rows[i].id != user.id ==> r[i] == rows[i]
    ensures forall i :: 0 <= i < |rows| && rows[i].id == user.id ==>
      r[i].fullName == user.fullName && r[i].email == user.email && r[i].updatedAt == user.updatedAt
  {
    seq(|rows|, i requires 0 <= i < |rows| =>
      if rows[i].id == user.id
      then rows[i].(fullName := user.fullName, email := user.email, updatedAt := user.updatedAt)
      else rows[i])
  }

  /** An update that writes no other row's email keeps the table well formed. */
  lemma UpdateKeepsWellFormed(rows: seq<User>, user: User)
    requires WellFormed(rows) && !EmailTakenByOther(rows, user)
    ensures WellFormed(UpdateRows(rows, user))
  {
    var r := UpdateRows(rows, user);
    forall i, j | 0 <= i < j < |r|
      ensures InOrder(r[i], r[j])
    {
      assert InOrder(rows[i], rows[j]);
    }
  }

  // ---------------------------------------------------------------------------
  // The mapper

  class UserRepository {
    /** The `users` table, in insertion order. */
    var rows: seq<User>
    /** The value the identity sequence hands out next. */
    var nextId: int

    ghost predicate Valid()
      reads this
    {
      && WellFormed(rows)
      && 1 <= nextId
      && forall i :: 0 <= i < |rows| ==> rows[i].id.value < nextId
    }

    constructor ()
      ensures Valid() && rows == [] && nextId == 1
    {
      rows := [];
      nextId := 1;
    }

    /** `findById`: the row with that id, or null. */
    function FindById(id: Long): (r: Option<User>)
      reads this
      ensures r.Some? <==> HasId(rows, id)
      ensures r.Some? ==> r.value in rows && r.value.id == Some(id)
      ensures WellFormed(rows) ==> forall i :: 0 <= i < |rows| && rows[i].id == Some(id) ==> r == Some(rows[i])
    {
      var found := Where(rows, IdIs(id));
      assert |found| > 0 ==> found[0] in found;
      WhereNonEmpty(rows, IdIs(id));
      UniqueKeyFindsTheRow(rows, IdIs(id));
      First(found)
    }

    /** `findByUsername`: the row with that username, or null. */
    function FindByUsername(username: string): (r: Option<User>)
      reads this
      ensures r.Some? <==> HasUsername(rows, username)
      ensures r.Some? ==> r.value in rows && r.value.username == username
      ensures WellFormed(rows) ==> forall i :: 0 <= i < |rows| && rows[i].username == username ==> r == Some(rows[i])
    {
      var found := Where(rows, UsernameIs(username));
      assert |found| > 0 ==> found[0] in found;
      WhereNonEmpty(rows, UsernameIs(username));
      UniqueKeyFindsTheRow(rows, UsernameIs(username));
      First(found)
    }

    /** `findByEmail`: the row with that email, or null. */
    function FindByEmail(email: string): (r: Option<User>)
      reads this
      ensures r.Some? <==> HasEmail(rows, email)
      ensures r.Some? ==> r.value in rows && r.value.email == email
      ensures WellFormed(rows) ==> forall i :: 0 <= i < |rows| && rows[i].email == email ==> r == Some(rows[i])
    {
      var found := Where(rows, EmailIs(email));
      assert |found| > 0 ==> found[0] in found;
      WhereNonEmpty(rows, EmailIs(email));
      UniqueKeyFindsTheRow(rows, EmailIs(email));
      First(found)
    }

    /** `existsByUsername`: `COUNT(*)` of rows with that username, 0 or 1. */
    function ExistsByUsername(username: string): (n: nat)
      reads this
      requires Valid()
      ensures n > 0 <==> HasUsername(rows, username)
      ensures n <= 1
    {
      var found := Where(rows, UsernameIs(username));
      assert |found| > 0 ==> found[0] in found;
      WhereNonEmpty(rows, UsernameIs(username));
      UniqueKeySelectsAtMostOne(rows, UsernameIs(username));
      |found|
    }

    /** `existsByEmail`: `COUNT(*)` of rows with that email, 0 or 1. */
    function ExistsByEmail(email: string): (n: nat)
      reads this
      requires Valid()
      ensures n > 0 <==> HasEmail(rows, email)
      ensures n <= 1
    {
      var found := Where(rows, EmailIs(email));
      assert |found| > 0 ==> found[0] in found;
      WhereNonEmpty(rows, EmailIs(email));
      UniqueKeySelectsAtMostOne(rows, EmailIs(email));
      |found|
    }

    /** `existsById`: `COUNT(*)` of rows with that id, 0 or 1. */
    function ExistsById(id: Long): (n: nat)
      reads this
      requires Valid()
      ensures n > 0 <==> HasId(rows, id)
      ensures n <= 1
    {
      var found := Where(rows, IdIs(id));
      assert |found| > 0 ==> found[0] in found;
      WhereNonEmpty(rows, IdIs(id));
      UniqueKeySelectsAtMostOne(rows, IdIs(id));
      |found|
    }

    /** `findAll`: the whole table. */
    function FindAll(): (r: seq<User>)
      reads this
      ensures r == rows
    {
      rows
    }

    /** `findAllActiveUsers`: exactly the active rows. */
    function FindAllActiveUsers(): (r: seq<User>)
      reads this
      ensures forall u :: u in r <==> u in rows && u.isActive
    {
      Where(rows, IsActive)
    }

    /** `searchUsers(keyword)`: exactly the rows whose username or email contains
        the keyword (case-sensitive). */
    function SearchUsers(keyword: string): (r: seq<User>)
      reads this
      ensures forall u :: u in r <==> u in rows && (Contains(u.username, keyword, false) || Contains(u.email, keyword, false))
    {
      Where(rows, UsernameOrEmailContains(keyword))
    }

    /** `insert(user)`: draws an id from the sequence, then either appends the row
        with that id or, if the username or email is taken, fails naming the column
        (username checked first). The drawn id is spent either way; an exhausted
        sequence fails before anything is checked. */
    method Insert(user: User) returns (r: Result<User, Failure>)
      requires Valid()
      modifies this
      ensures Valid()
      ensures old(nextId) > LongMax ==> r == Err(Sql(None)) && rows == old(rows) && nextId == old(nextId)
      ensures old(nextId) <= LongMax && HasUsername(old(rows), user.username) ==>
        r == Err(DuplicateKey(Some(UsernameColumn))) && rows == old(rows) && nextId == old(nextId) + 1
      ensures old(nextId) <= LongMax && !HasUsername(old(rows), user.username) && HasEmail(old(rows), user.email) ==>
        r == Err(DuplicateKey(Some(EmailColumn))) && rows == old(rows) && nextId == old(nextId) + 1
      ensures old(nextId) <= LongMax && !HasUsername(old(rows), user.username) && !HasEmail(old(rows), user.email) ==>
        && r == Ok(user.(id := Some(old(nextId) as Long)))
        && rows == old(rows) + [r.value]
        && nextId == old(nextId) + 1
    {
      if nextId > LongMax {
        return Err(Sql(None));
      }
      var id: Long := nextId;
      var usernameCount := ExistsByUsername(user.username);
      var emailCount := ExistsByEmail(user.email);
      nextId := nextId + 1;
      if usernameCount > 0 {
        return Err(DuplicateKey(Some(UsernameColumn)));
      }
      if emailCount > 0 {
        return Err(DuplicateKey(Some(EmailColumn)));
      }
      var stored := user.(id := Some(id));
      rows := rows + [stored];
      return Ok(stored);
    }

    /** `update(user)`: the number of rows changed. No row has a null id or a
        missing one, so nothing changes then; otherwise the row takes the new full
        name, email and update time, unless another row holds that email. */
    method Update(user: User) returns (r: Result<nat, Failure>)
      requires Valid()
      modifies this
      ensures Valid() && nextId == old(nextId)
      ensures user.id.None? || !HasId(old(rows), user.id.value) ==> r == Ok(0) && rows == old(rows)
      ensures user.id.Some? && HasId(old(rows), user.id.value) && EmailTakenByOther(old(rows), user) ==>
        r == Err(DuplicateKey(Some(EmailColumn))) && rows == old(rows)
      ensures user.id.Some? && HasId(old(rows), user.id.value) && !EmailTakenByOther(old(rows), user) ==>
        r == Ok(1) && rows == UpdateRows(old(rows), user)
    {
      if user.id.None? || ExistsById(user.id.value) == 0 {
        return Ok(0);
      }
      if EmailTakenByOther(rows, user) {
        return Err(DuplicateKey(Some(EmailColumn)));
      }
      UpdateKeepsWellFormed(rows, user);
      rows := UpdateRows(rows, user);
      return Ok(1);
    }

    /** `deleteById(id)`: removes the row with that id, if any, and reports how many
        rows went (0 or 1). */
    method DeleteById(id: Long) returns (count: nat)
      requires Valid()
      modifies this
      ensures Valid() && nextId == old(nextId)
      ensures rows == Select(old(rows), IdIs(id), false)
      ensures count == (if HasId(old(rows), id) then 1 else 0)
      ensures |rows| == |old(rows)| - count
      ensures !HasId(rows, id)
    {
      var before := rows;
      SelectKeepsWellFormed(rows, IdIs(id), false);
      DeleteCount(rows, id);
      rows := Select(rows, IdIs(id), false);
      assert forall i :: 0 <= i < |rows| ==> rows[i] in before;
      count := |before| - |rows|;
    }
  }

  /** After a delete, `findById` finds nothing, and every other row is still there. */
  lemma DeleteRemovesOnlyThatRow(rows: seq<User>, id: Long)
    ensures !HasId(Select(rows, IdIs(id), false), id)
    ensures forall u :: u in rows && u.id != Some(id) ==> u in Select(rows, IdIs(id), false)
  {
    var r := Select(rows, IdIs(id), false);
    assert forall i :: 0 <= i < |r| ==> r[i] in r;
  }
}
