/** The decision logic of the three routes of backend-1/auth.py over the
    user documents of UserStore. Token signing and verification are
    parameters standing for `generate_token` and `verify_token`. */
module MongoAuth {
  import opened Wrappers
  import opened Text
  import opened Values
  import opened UserStore

  /** The fields `profile` returns: never the password. */
  datatype Profile = Profile(username: string, email: string)

  datatype Reply =
    | MissingFields
    | CreateFailed(message: string)
    | RegisteredUser
    | InvalidLogin
    | Token(token: string)
    | MissingBearer
    | InvalidToken
    | UserNotFound
    | ProfileOf(profile: Profile)
    | ServerError
  {
    function Status(): int {
      match this
      case MissingFields => 400
      case CreateFailed(_) => 400
      case RegisteredUser => 201
      case InvalidLogin => 401
      case Token(_) => 200
      case MissingBearer => 401
      case InvalidToken => 401
      case UserNotFound => 404
      case ProfileOf(_) => 200
      case ServerError => 500
    }
  }

  /** `register`: 400 "Missing fields" unless all three fields are
      truthy, then whatever `create_user` decides. */
  function Register(docs: seq<UserDoc>, username: Field, password: Field, email: Field, salt: nat): (Reply, seq<UserDoc>) {
    if !(PyTruthy(Get(username)) && PyTruthy(Get(password)) && PyTruthy(Get(email))) then (MissingFields, docs)
    else
      var (created, next) := CreateUser(docs, username.s, password.s, email.s, salt);
      if !created.success then (CreateFailed(created.message), next)
      else (RegisteredUser, next)
  }

  /** `login`: one 401 for an unknown user and for a wrong password; a
      missing password for a known user makes `check_password` raise. */
  function Login(docs: seq<UserDoc>, username: Field, password: Field, sign: string -> string): Reply {
    match FindUser(docs, Get(username))
    case None => InvalidLogin
    case Some(user) =>
      if Get(password).None? then ServerError
      else if !UserStore.CheckPassword(Get(password).value, user.password) then InvalidLogin
      else Token(sign(user.username))
  }

  const BearerPrefix := "Bearer "

  /** `profile`: the header (empty when absent) must start with "Bearer ";
      the token is the header with every "Bearer " removed; `verify` gives
      the token's username, `None` for an invalid or expired token. */
  function GetProfile(docs: seq<UserDoc>, header: Option<string>, verify: string -> Option<string>): Reply {
    var h := header.GetOr("");
    if !StartsWith(h, BearerPrefix) then MissingBearer
    else
      var name := verify(RemoveAll(h, BearerPrefix));
      if !PyTruthy(name) then InvalidToken
      else match FindUser(docs, name)
        case None => UserNotFound
        case Some(user) => ProfileOf(Profile(user.username, user.email))
  }

  /** Registration is refused with "Missing fields" exactly when a field
      is absent, null or empty, and then nothing is stored. */
  lemma RegisterMissingFields(docs: seq<UserDoc>, username: Field, password: Field, email: Field, salt: nat)
    ensures Register(docs, username, password, email, salt).0 == MissingFields <==>
      !(username.Text? && username.s != "" && password.Text? && password.s != "" && email.Text? && email.s != "")
    ensures Register(docs, username, password, email, salt).0 == MissingFields ==>
      Register(docs, username, password, email, salt).1 == docs
  {
  }

  /** With all fields present, a taken name gives `create_user`'s message
      as a 400 and a new one gives 201 with one document added. */
  lemma RegisterPassesCreateResult(docs: seq<UserDoc>, username: string, password: string, email: string, salt: nat)
    requires username != "" && password != "" && email != ""
    ensures var (reply, next) := Register(docs, Text(username), Text(password), Text(email), salt);
      (reply == CreateFailed(ExistsMessage) <==> exists i :: 0 <= i < |docs| && docs[i].username == username)
      && (reply == CreateFailed(ExistsMessage) ==> next == docs)
      && (reply != CreateFailed(ExistsMessage) ==>
            reply == RegisteredUser && reply.Status() == 201 && |next| == |docs| + 1)
  {
    CreateUserOutcome(docs, username, password, email, salt);
  }

  /** Every registration keeps usernames unique. */
  lemma RegisterKeepsUnique(docs: seq<UserDoc>, username: Field, password: Field, email: Field, salt: nat)
    requires UniqueNames(docs)
    ensures UniqueNames(Register(docs, username, password, email, salt).1)
  {
    if PyTruthy(Get(username)) && PyTruthy(Get(password)) && PyTruthy(Get(email)) {
      CreateUserKeepsUnique(docs, username.s, password.s, email.s, salt);
    }
  }

  /** An unknown user and a wrong password are indistinguishable; a token
      is issued exactly for a stored name with its password. */
  lemma LoginOutcome(docs: seq<UserDoc>, username: Field, password: string, sign: string -> string)
    ensures Login(docs, username, Text(password), sign).Token? <==>
      FindUser(docs, Get(username)).Some? && FindUser(docs, Get(username)).value.password.password == password
    ensures !Login(docs, username, Text(password), sign).Token? ==> Login(docs, username, Text(password), sign) == InvalidLogin
  {
  }

  /** A user who has just registered logs in with that password and with
      no other. */
  lemma RegisterThenLogin(docs: seq<UserDoc>, username: string, password: string, email: string, salt: nat,
                          attempt: string, sign: string -> string)
    requires UniqueNames(docs)
    requires username != "" && password != "" && email != ""
    requires Register(docs, Text(username), Text(password), Text(email), salt).0 == RegisteredUser
    ensures var next := Register(docs, Text(username), Text(password), Text(email), salt).1;
      Login(next, Text(username), Text(attempt), sign).Token? <==> attempt == password
  {
    CreateThenGet(docs, username, password, email, salt);
  }

  /** Without the "Bearer " prefix the profile is refused with 401, before
      any token check. */
  lemma ProfileNeedsBearer(docs: seq<UserDoc>, header: Option<string>, verify: string -> Option<string>)
    ensures GetProfile(docs, header, verify) == MissingBearer <==>
      !(header.Some? && StartsWith(header.value, BearerPrefix))
  {
  }

  /** A successful profile carries the stored name and email of the
      token's user and nothing else; a valid token for an unknown name
      gives 404. */
  lemma ProfileOutcome(docs: seq<UserDoc>, token: string, verify: string -> Option<string>)
    requires !Contains(token, BearerPrefix)
    ensures var reply := GetProfile(docs, Some(BearerPrefix + token), verify);
      (reply.ProfileOf? <==> PyTruthy(verify(token)) && FindUser(docs, verify(token)).Some?)
      && (reply.ProfileOf? ==>
            exists i :: 0 <= i < |docs| && Some(docs[i].username) == verify(token)
              && reply.profile == Profile(docs[i].username, docs[i].email))
      && (reply == UserNotFound <==> PyTruthy(verify(token)) && FindUser(docs, verify(token)).None?)
  {
    RemoveAllPrefix(BearerPrefix, token);
    assert StartsWith(BearerPrefix + token, BearerPrefix) by {
      assert (BearerPrefix + token)[..|BearerPrefix|] == BearerPrefix;
    }
    var reply := GetProfile(docs, Some(BearerPrefix + token), verify);
    if reply.ProfileOf? {
      var user := FindUser(docs, verify(token)).value;
      var i :| 0 <= i < |docs| && docs[i] == user;
    }
  }

  /** Every "Bearer " in the header is removed, not only the leading one. */
  lemma EveryBearerRemoved()
    ensures RemoveAll("Bearer aBearer b", BearerPrefix) == "ab"
  {
    assert "aBearer b"[1..] == "Bearer b";
    assert "Bearer b"[7..] == "b";
    assert "Bearer aBearer b"[7..] == "aBearer b";
  }
}
