/** The in-memory user table of temp_backup/auth.py: a module-level
    dictionary from username to (password hash, role, reset token) that
    `register` inserts into and the password-reset routes update in place.
    Hashing is symbolic, the JWT signer and the random reset token are
    parameters, and a hashing call that raises on a missing password is
    the server error it becomes. */
module ResetAuth {
  import opened Wrappers
  import opened Values

  /** `generate_password_hash(password)`: the password with the salt drawn
      for it. */
  datatype PasswordHash = PasswordHash(password: string, salt: nat)

  /** `check_password_hash(hash, password)`; a missing password makes it
      raise, which `Login` handles before calling this. */
  predicate CheckPassword(h: PasswordHash, password: string) {
    h.password == password
  }

  /** One value of `users`. The role is whatever the request held,
      `None` for an explicit JSON null. */
  datatype Entry = Entry(hash: PasswordHash, role: Option<string>, resetToken: Option<string>)

  /** The dictionary; its keys are `data.get('username')`, so `None` is a
      key like any other. */
  type Table = map<Option<string>, Entry>

  /** The replies of the four routes. */
  datatype Reply =
    | UserExists
    | Registered
    | InvalidCredentials
    | LoggedIn(token: string, role: Option<string>)
    | UserNotFound
    | ResetIssued(resetToken: string)
    | InvalidToken
    | PasswordChanged
    | ServerError
  {
    function Status(): int {
      match this
      case UserExists => 400
      case Registered => 201
      case InvalidCredentials => 401
      case LoggedIn(_, _) => 200
      case UserNotFound => 404
      case ResetIssued(_) => 200
      case InvalidToken => 400
      case PasswordChanged => 200
      case ServerError => 500
    }
  }

  /** `register`: 400 for a taken name; otherwise a new entry with the
      hashed password, the role (default "student") and no reset token.
      A missing password makes the hashing raise before anything is stored. */
  function Register(users: Table, username: Field, password: Field, role: Field, salt: nat): (Reply, Table) {
    var name := Get(username);
    if name in users then (UserExists, users)
    else if Get(password).None? then (ServerError, users)
    else (Registered, users[name := Entry(PasswordHash(Get(password).value, salt), GetOr(role, "student"), None)])
  }

  /** `login`: the same 401 for an unknown user and a wrong password; a
      missing password for a known user makes the check raise. `sign`
      stands for `jwt.encode` of the name and role at the current time. */
  function Login(users: Table, username: Field, password: Field, sign: (Option<string>, Option<string>) -> string): Reply {
    var name := Get(username);
    if name !in users then InvalidCredentials
    else if Get(password).None? then ServerError
    else if !CheckPassword(users[name].hash, Get(password).value) then InvalidCredentials
    else LoggedIn(sign(name, users[name].role), users[name].role)
  }

  /** `request_password_reset`: 404 for an unknown user, otherwise the
      user's token is overwritten with `issued`, the value of
      `secrets.token_urlsafe(16)`. */
  function RequestPasswordReset(users: Table, username: Field, issued: string): (Reply, Table) {
    var name := Get(username);
    if name !in users then (UserNotFound, users)
    else (ResetIssued(issued), users[name := users[name].(resetToken := Some(issued))])
  }

  /** `reset_password`: 400 unless the user exists and the request's token
      equals the stored one (both may be `None`); then the new password is
      hashed and the token cleared. */
  function ResetPassword(users: Table, username: Field, resetToken: Field, newPassword: Field, salt: nat): (Reply, Table) {
    var name := Get(username);
    if name !in users || users[name].resetToken != Get(resetToken) then (InvalidToken, users)
    else if Get(newPassword).None? then (ServerError, users)
    else (PasswordChanged, users[name := users[name].(hash := PasswordHash(Get(newPassword).value, salt), resetToken := None)])
  }

  /** The module-level `users` dictionary and the routes that update it. */
  class UserTable {
    var users: Table

    /** The table starts empty. */
    constructor()
      ensures users == map[]
    {
      users := map[];
    }

    method HandleRegister(username: Field, password: Field, role: Field, salt: nat) returns (reply: Reply)
      modifies this
      ensures (reply, users) == Register(old(users), username, password, role, salt)
    {
      var name := Get(username);
      if name in users {
        return UserExists;
      }
      var pw := Get(password);
      if pw.None? {
        return ServerError;
      }
      users := users[name := Entry(PasswordHash(pw.value, salt), GetOr(role, "student"), None)];
      reply := Registered;
    }

    method HandleLogin(username: Field, password: Field, sign: (Option<string>, Option<string>) -> string) returns (reply: Reply)
      ensures reply == Login(users, username, password, sign)
    {
      var name := Get(username);
      if name !in users {
        return InvalidCredentials;
      }
      var user := users[name];
      var pw := Get(password);
      if pw.None? {
        return ServerError;
      }
      if !CheckPassword(user.hash, pw.value) {
        return InvalidCredentials;
      }
      reply := LoggedIn(sign(name, user.role), user.role);
    }

    method HandleRequestPasswordReset(username: Field, issued: string) returns (reply: Reply)
      modifies this
      ensures (reply, users) == RequestPasswordReset(old(users), username, issued)
    {
      var name := Get(username);
      if name !in users {
        return UserNotFound;
      }
      users := users[name := users[name].(resetToken := Some(issued))];
      reply := ResetIssued(issued);
    }

    method HandleResetPassword(username: Field, resetToken: Field, newPassword: Field, salt: nat) returns (reply: Reply)
      modifies this
      ensures (reply, users) == ResetPassword(old(users), username, resetToken, newPassword, salt)
    {
      var name := Get(username);
      if name !in users || users[name].resetToken != Get(resetToken) {
        return InvalidToken;
      }
      var pw := Get(newPassword);
      if pw.None? {
        return ServerError;
      }
      var user := users[name];
      users := users[name := user.(hash := PasswordHash(pw.value, salt), resetToken := None)];
      reply := PasswordChanged;
    }
  }

  /** Registering a taken name is refused with 400 and changes nothing;
      registering a new one succeeds exactly when a password is given. */
  lemma RegisterOutcome(users: Table, username: Field, password: Field, role: Field, salt: nat)
    ensures Get(username) in users ==> Register(users, username, password, role, salt) == (UserExists, users)
    ensures Register(users, username, password, role, salt).0.Status() == 201 <==>
      Get(username) !in users && password.Text?
  {
  }

  /** A new user gets the hashed password, the requested role or
      "student" when none is sent, and no pending reset. */
  lemma RegisterNewEntry(users: Table, username: Field, password: string, role: Field, salt: nat)
    requires Get(username) !in users
    ensures var (reply, next) := Register(users, username, Text(password), role, salt);
      reply == Registered && Get(username) in next
      && next[Get(username)].hash.password == password
      && next[Get(username)].resetToken == None
      && (role.Absent? ==> next[Get(username)].role == Some("student"))
  {
  }

  /** Login fails with 401 for an unknown user and for a wrong password,
      with the same reply, and succeeds with the stored role otherwise. */
  lemma LoginOutcome(users: Table, username: Field, password: string, sign: (Option<string>, Option<string>) -> string)
    ensures Login(users, username, Text(password), sign).LoggedIn? <==>
      Get(username) in users && users[Get(username)].hash.password == password
    ensures !Login(users, username, Text(password), sign).LoggedIn? ==>
      Login(users, username, Text(password), sign) == InvalidCredentials
    ensures Login(users, username, Text(password), sign).LoggedIn? ==>
      Login(users, username, Text(password), sign).role == users[Get(username)].role
  {
  }

  /** A registered user can log in with the password just registered and
      with no other. */
  lemma RegisterThenLogin(users: Table, username: Field, password: string, role: Field, salt: nat,
                          attempt: string, sign: (Option<string>, Option<string>) -> string)
    requires Get(username) !in users
    ensures var next := Register(users, username, Text(password), role, salt).1;
      Login(next, username, Text(attempt), sign).LoggedIn? <==> attempt == password
  {
  }

  /** An unknown user gets 404; a known one gets the issued token stored and
      returned, replacing any earlier one. */
  lemma RequestResetOutcome(users: Table, username: Field, issued: string)
    ensures Get(username) !in users ==> RequestPasswordReset(users, username, issued) == (UserNotFound, users)
    ensures Get(username) in users ==>
      var (reply, next) := RequestPasswordReset(users, username, issued);
      reply == ResetIssued(issued) && next[Get(username)].resetToken == Some(issued)
      && next[Get(username)].hash == users[Get(username)].hash
  {
  }

  /** A reset succeeds exactly when the user exists, the token matches the
      stored one and a new password is given; it then stores the new hash
      and clears the token. */
  lemma ResetOutcome(users: Table, username: Field, resetToken: Field, newPassword: Field, salt: nat)
    ensures ResetPassword(users, username, resetToken, newPassword, salt).0 == PasswordChanged <==>
      Get(username) in users && users[Get(username)].resetToken == Get(resetToken) && newPassword.Text?
    ensures ResetPassword(users, username, resetToken, newPassword, salt).0 == PasswordChanged ==>
      var next := ResetPassword(users, username, resetToken, newPassword, salt).1;
      next[Get(username)].hash.password == newPassword.s && next[Get(username)].resetToken == None
  {
  }

  /** A reset token works at most once: after it has been used, the same
      token is refused. */
  lemma TokenSingleUse(users: Table, username: Field, token: string, p1: Field, s1: nat, p2: Field, s2: nat)
    requires ResetPassword(users, username, Text(token), p1, s1).0 == PasswordChanged
    ensures var next := ResetPassword(users, username, Text(token), p1, s1).1;
      ResetPassword(next, username, Text(token), p2, s2) == (InvalidToken, next)
  {
  }

  /** The issued token resets the password, after which the new password
      logs in and, if different, the old one no longer does. */
  lemma ResetFlow(users: Table, username: Field, issued: string, newPassword: string, salt: nat,
                  oldPassword: string, sign: (Option<string>, Option<string>) -> string)
    requires Get(username) in users
    ensures var t1 := RequestPasswordReset(users, username, issued).1;
      var (reply, t2) := ResetPassword(t1, username, Text(issued), Text(newPassword), salt);
      reply == PasswordChanged
      && Login(t2, username, Text(newPassword), sign).LoggedIn?
      && (oldPassword != newPassword ==> Login(t2, username, Text(oldPassword), sign) == InvalidCredentials)
  {
  }

  /** New users have no token and a request without one reads as `None`,
      so a reset that sends no token succeeds for any user with no reset
      pending: anyone who knows the name can set the password. */
  lemma ResetWithoutTokenSucceeds(users: Table, username: Field, password: string, role: Field, salt: nat,
                                  newPassword: string, salt2: nat)
    requires Get(username) !in users
    ensures var t1 := Register(users, username, Text(password), role, salt).1;
      ResetPassword(t1, username, Absent, Text(newPassword), salt2).0 == PasswordChanged
  {
  }

  /** Every route changes at most the entry of the name in its request. */
  lemma OthersUnchanged(users: Table, username: Field, other: Option<string>, password: Field, role: Field,
                        token: Field, issued: string, salt: nat)
    requires other != Get(username)
    ensures var next := Register(users, username, password, role, salt).1;
      (other in next <==> other in users) && (other in users ==> next[other] == users[other])
    ensures var next := RequestPasswordReset(users, username, issued).1;
      (other in next <==> other in users) && (other in users ==> next[other] == users[other])
    ensures var next := ResetPassword(users, username, token, password, salt).1;
      (other in next <==> other in users) && (other in users ==> next[other] == users[other])
  {
  }

  /** No route removes a user. */
  lemma NoUserRemoved(users: Table, username: Field, password: Field, role: Field, token: Field, issued: string, salt: nat)
    ensures users.Keys <= Register(users, username, password, role, salt).1.Keys
    ensures users.Keys == RequestPasswordReset(users, username, issued).1.Keys
    ensures users.Keys == ResetPassword(users, username, token, password, salt).1.Keys
  {
  }
}
