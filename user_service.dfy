/** Reading and partially updating a user's profile
    (backend/.../service/UserService.java). The user table is a sequence of user
    rows; ids, usernames and emails are unique (the table's constraints). */
module UserService {
  import opened Wrappers
  import opened Failures

  /** A user row. `roles` are the names of the user's roles. */
  datatype User = User(
    id: int, username: string, password: string, email: string,
    mobileNumber: Option<string>, roles: seq<string>)

  datatype UserResponse = UserResponse(username: string, email: string, mobileNumber: Option<string>)

  /** Every field may be null (`None`). */
  datatype UserRequest = UserRequest(username: Option<string>, password: Option<string>, mobileNumber: Option<string>)

  /** The unique keys a user row is looked up by: findById and findByEmail. */
  datatype UserKey = Id(id: int) | Email(email: string)

  predicate HasKey(u: User, key: UserKey) {
    match key
    case Id(id) => u.id == id
    case Email(email) => u.email == email
  }

  /** The position of the first row with this key, if any. */
  function IndexOf(users: seq<User>, key: UserKey): (r: Option<nat>)
    ensures r.Some? ==> r.value < |users| && HasKey(users[r.value], key)
                        && forall j :: 0 <= j < r.value ==> !HasKey(users[j], key)
    ensures r.None? ==> forall i :: 0 <= i < |users| ==> !HasKey(users[i], key)
  {
    if users == [] then None
    else if HasKey(users[0], key) then Some(0)
    else match IndexOf(users[1..], key)
      case None => None
      case Some(i) => Some(i + 1)
  }

  /** existsByUsername, ignoring the row at position `except`. */
  predicate UsernameTaken(users: seq<User>, username: string, except: Option<nat>) {
    exists i :: 0 <= i < |users| && Some(i) != except && users[i].username == username
  }

  /** Ids, usernames and emails are unique. */
  predicate UsersValid(users: seq<User>) {
    forall i, j :: 0 <= i < j < |users| ==>
      users[i].id != users[j].id && users[i].username != users[j].username && users[i].email != users[j].email
  }

  /** A text field is copied when it is non-null and non-empty. */
  predicate AcceptsText(s: Option<string>) {
    s.Some? && |s.value| > 0
  }

  /** The row after the rules of updateUser. The password is stored exactly as
      given, without hashing; the email is never touched. */
  function ApplyUserUpdate(u: User, req: UserRequest): (v: User)
    ensures v.id == u.id && v.email == u.email && v.roles == u.roles
    ensures v.username == (if AcceptsText(req.username) then req.username.value else u.username)
    ensures v.password == (if AcceptsText(req.password) then req.password.value else u.password)
    ensures v.mobileNumber == (if AcceptsText(req.mobileNumber) then req.mobileNumber else u.mobileNumber)
  {
    u.(username := if AcceptsText(req.username) then req.username.value else u.username,
       password := if AcceptsText(req.password) then req.password.value else u.password,
       mobileNumber := if AcceptsText(req.mobileNumber) then req.mobileNumber else u.mobileNumber)
  }

  /** Updating twice with the same request is the same as updating once. */
  lemma UserUpdateIsIdempotent(u: User, req: UserRequest)
    ensures ApplyUserUpdate(ApplyUserUpdate(u, req), req) == ApplyUserUpdate(u, req)
  {
  }

  /** A request of nulls and empty strings changes nothing. */
  lemma EmptyUserRequestChangesNothing(u: User, req: UserRequest)
    requires !AcceptsText(req.username) && !AcceptsText(req.password) && !AcceptsText(req.mobileNumber)
    ensures ApplyUserUpdate(u, req) == u
  {
  }

  class UserService {
    var users: seq<User>

    predicate Valid()
      reads this
    {
      UsersValid(users)
    }

    constructor (users: seq<User>)
      requires UsersValid(users)
      ensures this.users == users && Valid()
    {
      this.users := users;
    }

    /** getUser: username, email and mobile number of the user with this id. */
    function GetUser(userId: int): (r: Option<UserResponse>)
      reads this
      ensures r.None? <==> forall i :: 0 <= i < |users| ==> users[i].id != userId
      ensures r.Some? ==> exists i :: 0 <= i < |users| && users[i].id == userId
                                      && r.value == UserResponse(users[i].username, users[i].email, users[i].mobileNumber)
    {
      match IndexOf(users, Id(userId))
      case None => None
      case Some(i) => Some(UserResponse(users[i].username, users[i].email, users[i].mobileNumber))
    }

    /** updateUser: nothing happens, and nothing is raised, for an unknown user.
        A username already held by another user violates the unique constraint on
        save (not an ApiException) and nothing is stored. */
    method UpdateUser(userId: int, req: UserRequest) returns (failure: Option<Failure>)
      requires Valid()
      modifies this`users
      ensures Valid()
      ensures IndexOf(old(users), Id(userId)).None? ==> failure.None? && users == old(users)
      ensures IndexOf(old(users), Id(userId)).Some? ==>
                var i := IndexOf(old(users), Id(userId)).value;
                if AcceptsText(req.username) && UsernameTaken(old(users), req.username.value, Some(i))
                then failure.Some? && failure.value.RuntimeException? && users == old(users)
                else failure.None? && users == old(users)[i := ApplyUserUpdate(old(users)[i], req)]
    {
      var found := IndexOf(users, Id(userId));
      if found.None? {
        return None;
      }
      var i := found.value;
      if AcceptsText(req.username) && UsernameTaken(users, req.username.value, Some(i)) {
        return Some(RuntimeException("duplicate username"));
      }
      users := users[i := ApplyUserUpdate(users[i], req)];
      return None;
    }
  }
}
