/** `UserService` (src/main/kotlin/com/re100io/service/UserService.kt): the user
    use cases over the repository. A thrown exception is an `Err` carrying the
    `Failure` the exception handler receives; the clock read by `User(...)` and
    `LocalDateTime.now()` is the parameter `now`. */
module UserServices {
  import opened Wrappers
  import opened Jvm
  import opened Text
  import ApiCodes
  import opened BusinessExceptions
  import opened GlobalExceptionHandler
  import opened Users
  import opened UserRepositories

  const CreateFailedPrefix: string := "创建用户失败: "

  /** `mapToUserResponse(user)`: every column but the password. `user.id!!`
      demands an id. */
  function MapToUserResponse(u: User): (r: UserResponse)
    requires u.id.Some?
    ensures r.id == u.id.value && r.username == u.username && r.email == u.email && r.fullName == u.fullName
    ensures r.isActive == u.isActive && r.createdAt == u.createdAt && r.updatedAt == u.updatedAt
  {
    UserResponse(u.id.value, u.username, u.email, u.fullName, u.isActive, u.createdAt, u.updatedAt)
  }

  /** The response loses the password and nothing else: two users map to the same
      response exactly when they differ at most in their password. */
  lemma ResponseHidesOnlyPassword(u: User, v: User)
    requires u.id.Some? && v.id.Some?
    ensures MapToUserResponse(u) == MapToUserResponse(v) <==> u == v.(password := u.password)
  {
  }

  /** `list.map { mapToUserResponse(it) }`: one response per row, in order. */
  function MapAll(users: seq<User>): (r: seq<UserResponse>)
    requires forall i :: 0 <= i < |users| ==> users[i].id.Some?
    ensures |r| == |users|
    ensures forall i :: 0 <= i < |users| ==> r[i] == MapToUserResponse(users[i])
  {
    seq(|users|, i requires 0 <= i < |users| => MapToUserResponse(users[i]))
  }

  /** `user.copy(fullName = request.fullName ?: user.fullName, email = request.email
      ?: user.email, updatedAt = now)`: a null field keeps the current value. */
  function Patched(user: User, request: UpdateUserRequest, now: Timestamp): (r: User)
    ensures r.id == user.id && r.username == user.username && r.password == user.password
    ensures r.isActive == user.isActive && r.createdAt == user.createdAt && r.updatedAt == now
    ensures r.fullName == (if request.fullName.Some? then request.fullName else user.fullName)
    ensures r.email == (if request.email.Some? then request.email.value else user.email)
  {
    user.(fullName := if request.fullName.Some? then request.fullName else user.fullName,
          email := if request.email.Some? then request.email.value else user.email,
          updatedAt := now)
  }

  /** The row a successful create stores: the request's fields, active, both
      timestamps `now`, and the id the sequence handed out. */
  function Created(request: CreateUserRequest, now: Timestamp, id: Long): (u: User)
    ensures u.id == Some(id) && u.isActive && u.createdAt == now && u.updatedAt == now
    ensures u.username == request.username && u.password == request.password
    ensures u.email == request.email && u.fullName == request.fullName
  {
    NewUser(request.username, request.password, request.email, request.fullName, now).(id := Some(id))
  }

  class UserService {
    const repository: UserRepository

    constructor (repository: UserRepository)
      ensures this.repository == repository
    {
      this.repository := repository;
    }

    /** `createUser`: a taken username is reported before a taken email, and neither
        check changes the table or draws an id; otherwise the user is stored with
        the id the sequence hands out and returned as stored. The fallback for a stored user that cannot be found
        again is unreachable. */
    method CreateUser(request: CreateUserRequest, now: Timestamp) returns (r: Result<UserResponse, Failure>)
      requires repository.Valid()
      modifies repository
      ensures repository.Valid()
      ensures HasUsername(old(repository.rows), request.username) ==>
        && r == Err(Business(UsernameExists(request.username)))
        && repository.rows == old(repository.rows) && repository.nextId == old(repository.nextId)
      ensures !HasUsername(old(repository.rows), request.username) && HasEmail(old(repository.rows), request.email) ==>
        && r == Err(Business(EmailExists(request.email)))
        && repository.rows == old(repository.rows) && repository.nextId == old(repository.nextId)
      ensures !HasUsername(old(repository.rows), request.username) && !HasEmail(old(repository.rows), request.email) ==>
        if old(repository.nextId) <= LongMax then
          && repository.rows == old(repository.rows) + [Created(request, now, old(repository.nextId))]
          && repository.nextId == old(repository.nextId) + 1
          && r == Ok(MapToUserResponse(Created(request, now, old(repository.nextId))))
        else
          && r == Err(Sql(None))
          && repository.rows == old(repository.rows) && repository.nextId == old(repository.nextId)
    {
      if repository.ExistsByUsername(request.username) > 0 {
        return Err(Business(UsernameExists(request.username)));
      }
      if repository.ExistsByEmail(request.email) > 0 {
        return Err(Business(EmailExists(request.email)));
      }
      var user := NewUser(request.username, request.password, request.email, request.fullName, now);
      var inserted := repository.Insert(user);
      if inserted.Err? {
        return Err(inserted.error);
      }
      var savedUser := repository.FindByUsername(user.username);
      assert repository.rows[|repository.rows| - 1].username == user.username;
      if savedUser.None? {
        // `BusinessException(USER_NOT_FOUND, CreateFailedPrefix + username)`: the row
        // just appended carries this username, so the lookup always finds it.
        assert false;
      }
      return Ok(MapToUserResponse(savedUser.value));
    }

    /** `getUserById`: the user with that id, or the user-not-found error naming it. */
    function GetUserById(id: Long): (r: Result<UserResponse, Failure>)
      reads repository
      requires repository.Valid()
      ensures r.Ok? <==> HasId(repository.rows, id)
      ensures r.Err? ==> r.error == Business(UserNotFound(Some(id)))
      ensures r.Ok? ==> r.value.id == id
      ensures r.Ok? ==>
        exists i :: (0 <= i < |repository.rows| && repository.rows[i].id == Some(id)
                     && r.value == MapToUserResponse(repository.rows[i]))
    {
      match repository.FindById(id)
      case None => Err(Business(UserNotFound(Some(id))))
      case Some(user) => Ok(MapToUserResponse(user))
    }

    /** `getAllUsers`: one response per row, in table order. */
    function GetAllUsers(): (r: seq<UserResponse>)
      reads repository
      requires repository.Valid()
      ensures |r| == |repository.rows|
      ensures forall i :: 0 <= i < |r| ==> r[i] == MapToUserResponse(repository.rows[i])
    {
      MapAll(repository.FindAll())
    }

    /** `getActiveUsers`: one response per active row. */
    function GetActiveUsers(): (r: seq<UserResponse>)
      reads repository
      requires repository.Valid()
      ensures var active := repository.FindAllActiveUsers();
        && |r| == |active|
        && forall i :: 0 <= i < |r| ==>
             (active[i] in repository.rows && active[i].isActive && r[i] == MapToUserResponse(active[i]))
    {
      var active := repository.FindAllActiveUsers();
      assert forall i :: 0 <= i < |active| ==> active[i] in active;
      MapAll(active)
    }

    /** `searchUsers(keyword)`: one response per row whose username or email
        contains the keyword. */
    function SearchUsers(keyword: string): (r: seq<UserResponse>)
      reads repository
      requires repository.Valid()
      ensures var found := repository.SearchUsers(keyword);
        && |r| == |found|
        && forall i :: 0 <= i < |r| ==>
             (found[i] in repository.rows
              && (Contains(found[i].username, keyword, false) || Contains(found[i].email, keyword, false))
              && r[i] == MapToUserResponse(found[i]))
    {
      var found := repository.SearchUsers(keyword);
      assert forall i :: 0 <= i < |found| ==> found[i] in found;
      MapAll(found)
    }

    /** `updateUser`: a missing id is reported; a new email is refused only when
        another user holds it (keeping one's own email is allowed); otherwise the
        patched user is written and returned. Both refusals leave the table as it
        was, and the repository's own duplicate-key error is unreachable. */
    method UpdateUser(id: Long, request: UpdateUserRequest, now: Timestamp) returns (r: Result<UserResponse, Failure>)
      requires repository.Valid()
      modifies repository
      ensures repository.Valid()
      ensures repository.nextId == old(repository.nextId)
      ensures !HasId(old(repository.rows), id) ==>
        r == Err(Business(UserNotFound(Some(id)))) && repository.rows == old(repository.rows)
      ensures HasId(old(repository.rows), id) ==>
        var current := old(repository.FindById(id)).value;
        if request.email.Some? && HasEmail(old(repository.rows), request.email.value) && current.email != request.email.value then
          r == Err(Business(EmailExists(request.email.value))) && repository.rows == old(repository.rows)
        else
          && repository.rows == UpdateRows(old(repository.rows), Patched(current, request, now))
          && r == Ok(MapToUserResponse(Patched(current, request, now)))
    {
      var found := repository.FindById(id);
      if found.None? {
        return Err(Business(UserNotFound(Some(id))));
      }
      var user := found.value;
      if request.email.Some? {
        var email := request.email.value;
        if repository.ExistsByEmail(email) > 0 && user.email != email {
          return Err(Business(EmailExists(email)));
        }
      }
      var updatedUser := Patched(user, request, now);
      var k :| 0 <= k < |repository.rows| && repository.rows[k] == user;
      assert repository.rows[k].id == updatedUser.id;
      assert updatedUser.email == user.email || !HasEmail(repository.rows, updatedUser.email);
      EmailFreeForRow(repository.rows, updatedUser);
      var updated := repository.Update(updatedUser);
      if updated.Err? {
        // The DuplicateKeyException the update would throw: ruled out above.
        assert false;
      }
      return Ok(MapToUserResponse(updatedUser));
    }

    /** `deleteUser`: a missing id is reported and nothing changes; otherwise
        exactly the row with that id goes. */
    method DeleteUser(id: Long) returns (r: Result<(), Failure>)
      requires repository.Valid()
      modifies repository
      ensures repository.Valid()
      ensures repository.nextId == old(repository.nextId)
      ensures !HasId(old(repository.rows), id) ==>
        r == Err(Business(UserNotFound(Some(id)))) && repository.rows == old(repository.rows)
      ensures HasId(old(repository.rows), id) ==>
        && r == Ok(())
        && repository.rows == Select(old(repository.rows), IdIs(id), false)
        && |repository.rows| == |old(repository.rows)| - 1
        && !HasId(repository.rows, id)
    {
      if repository.ExistsById(id) == 0 {
        return Err(Business(UserNotFound(Some(id))));
      }
      var _ := repository.DeleteById(id);
      return Ok(());
    }
  }

  /** A request for a user who does not exist reaches the client as HTTP 400 with
      code 2001 and the id in the message, not as 404: `userNotFound` is a business
      error, and business errors map to 400. */
  lemma MissingUserIsBadRequest(service: UserService, id: Long, now: Timestamp)
    requires service.repository.Valid() && !HasId(service.repository.rows, id)
    ensures var response := Handle(service.GetUserById(id).error, now);
      && response.status == StatusBadRequest
      && response.body.Some?
      && response.body.value.code == 2001
      && response.body.value.message == UserNotFoundPrefix + Decimal(id)
  {
    var e := UserNotFound(Some(id));
    assert Handle(Business(e), now) == HandleBusinessException(e, now);
    assert ApiCodes.IsBusinessError(ApiCodes.ApiCode.UserNotFound.Code());
  }

  /** Registering a taken username reaches the client as HTTP 400 with code 2002,
      the message naming the username. */
  lemma DuplicateUsernameIsBadRequest(username: string, now: Timestamp)
    ensures var response := Handle(Business(UsernameExists(username)), now);
      && response.status == StatusBadRequest
      && response.body.Some?
      && response.body.value.code == 2002
      && response.body.value.message == UsernameExistsPrefix + username
  {
    var e := UsernameExists(username);
    assert Handle(Business(e), now) == HandleBusinessException(e, now);
    assert ApiCodes.IsBusinessError(ApiCodes.ApiCode.UsernameExists.Code());
  }
}
