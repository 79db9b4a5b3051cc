/** The user record and its request/response shapes
    (src/main/kotlin/com/re100io/entity/User.kt, src/main/kotlin/com/re100io/dto/UserDto.kt).
    Timestamps are opaque clock readings. */
module Users {
  import opened Wrappers
  import opened Jvm

  /** A row of the `users` table. `id` is null until the database assigns one. */
  datatype User = User(
    id: Option<Long>,
    username: string,
    password: string,
    email: string,
    fullName: Option<string>,
    isActive: bool,
    createdAt: Timestamp,
    updatedAt: Timestamp)

  /** `User(username, password, email, fullName)` with the remaining defaults: no id,
      active, and both timestamps read from the clock at construction (`now`). */
  function NewUser(username: string, password: string, email: string, fullName: Option<string>, now: Timestamp): (u: User)
    ensures u.id.None? && u.isActive && u.createdAt == now && u.updatedAt == now
    ensures u.username == username && u.password == password && u.email == email && u.fullName == fullName
  {
    User(None, username, password, email, fullName, true, now, now)
  }

  datatype CreateUserRequest = CreateUserRequest(username: string, password: string, email: string, fullName: Option<string>)

  /** A partial update: a null field means "keep the current value". */
  datatype UpdateUserRequest = UpdateUserRequest(fullName: Option<string>, email: Option<string>)

  /** What the API returns for a user: every column but the password. */
  datatype UserResponse = UserResponse(
    id: Long,
    username: string,
    email: string,
    fullName: Option<string>,
    isActive: bool,
    createdAt: Timestamp,
    updatedAt: Timestamp)
}
