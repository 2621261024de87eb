/** The user documents of backend-1/models/user.py: `create_user` looks a
    username up in `users_collection` and inserts a new document only when
    none is found; `get_user` returns the first document with that
    username. The collection is the sequence of its documents in insertion
    order, and bcrypt is symbolic. */
module UserStore {
  import opened Wrappers

  /** `bcrypt.hashpw(password, bcrypt.gensalt())`: the password with the
      salt drawn for it. */
  datatype Bcrypt = Bcrypt(password: string, salt: nat)

  /** `check_password(password, hashed)`, comparing whole passwords:
      bcrypt's use of only the first 72 bytes is not modelled. */
  predicate CheckPassword(password: string, hashed: Bcrypt) {
    hashed.password == password
  }

  /** `{"username": ..., "password": hashed, "email": ...}`. */
  datatype UserDoc = UserDoc(username: string, password: Bcrypt, email: string)

  /** No two documents share a username. */
  predicate UniqueNames(docs: seq<UserDoc>) {
    forall i, j :: 0 <= i < j < |docs| ==> docs[i].username != docs[j].username
  }

  /** `find_one({"username": name})`: the first matching document. A
      `None` name matches no stored document, each of which has a string
      username. */
  function FindUser(docs: seq<UserDoc>, name: Option<string>): (r: Option<UserDoc>)
    ensures r.Some? ==> r.value in docs && Some(r.value.username) == name
    ensures r.None? <==> forall i :: 0 <= i < |docs| ==> Some(docs[i].username) != name
  {
    if docs == [] then None
    else if Some(docs[0].username) == name then Some(docs[0])
    else FindUser(docs[1..], name)
  }

  /** The outcome of `create_user`: its flag and message. */
  datatype Created = Created(success: bool, message: string)

  const ExistsMessage := "Username already exists"
  const CreatedMessage := "User created"

  /** `create_user` on the documents `docs`, with the salt bcrypt draws. */
  function CreateUser(docs: seq<UserDoc>, username: string, password: string, email: string, salt: nat): (Created, seq<UserDoc>) {
    if FindUser(docs, Some(username)).Some? then (Created(false, ExistsMessage), docs)
    else (Created(true, CreatedMessage), docs + [UserDoc(username, Bcrypt(password, salt), email)])
  }

  /** `users_collection` and the two functions over it. */
  class UserCollection {
    var docs: seq<UserDoc>

    constructor()
      ensures docs == []
    {
      docs := [];
    }

    method HandleCreateUser(username: string, password: string, email: string, salt: nat) returns (result: Created)
      modifies this
      ensures (result, docs) == CreateUser(old(docs), username, password, email, salt)
    {
      var existing := FindUser(docs, Some(username));
      if existing.Some? {
        return Created(false, ExistsMessage);
      }
      var hashed := Bcrypt(password, salt);
      docs := docs + [UserDoc(username, hashed, email)];
      result := Created(true, CreatedMessage);
    }

    method GetUser(username: Option<string>) returns (user: Option<UserDoc>)
      ensures user.Some? ==> user.value in docs && Some(user.value.username) == username
      ensures user.None? <==> forall i :: 0 <= i < |docs| ==> Some(docs[i].username) != username
    {
      user := FindUser(docs, username);
    }
  }

  /** `create_user` fails with "Username already exists" and inserts
      nothing exactly when the name is stored; otherwise it appends exactly
      one document holding the name, the hash of the password and the
      email. */
  lemma CreateUserOutcome(docs: seq<UserDoc>, username: string, password: string, email: string, salt: nat)
    ensures var (result, next) := CreateUser(docs, username, password, email, salt);
      (!result.success <==> exists i :: 0 <= i < |docs| && docs[i].username == username)
      && (!result.success ==> result.message == ExistsMessage && next == docs)
      && (result.success ==>
            result.message == CreatedMessage && next == docs + [UserDoc(username, Bcrypt(password, salt), email)])
  {
    var (result, next) := CreateUser(docs, username, password, email, salt);
    if !result.success {
      var d := FindUser(docs, Some(username)).value;
      var i :| 0 <= i < |docs| && docs[i] == d;
    }
  }

  /** The stored password is the bcrypt hash of the given one, which
      checks against it. */
  lemma StoredPasswordIsHash(docs: seq<UserDoc>, username: string, password: string, email: string, salt: nat)
    requires CreateUser(docs, username, password, email, salt).0.success
    ensures var next := CreateUser(docs, username, password, email, salt).1;
      next[|docs|].password == Bcrypt(password, salt) && CheckPassword(password, next[|docs|].password)
  {
  }

  /** `create_user` keeps usernames unique, so the collection never holds
      two documents with the same username. */
  lemma CreateUserKeepsUnique(docs: seq<UserDoc>, username: string, password: string, email: string, salt: nat)
    requires UniqueNames(docs)
    ensures UniqueNames(CreateUser(docs, username, password, email, salt).1)
  {
  }

  /** In a collection with unique names `get_user` returns the one
      document with that name, wherever it sits. */
  lemma {:induction false} FindUserUnique(docs: seq<UserDoc>, i: nat)
    requires UniqueNames(docs) && i < |docs|
    ensures FindUser(docs, Some(docs[i].username)) == Some(docs[i])
  {
    if i > 0 {
      assert docs[0].username != docs[i].username;
      FindUserUnique(docs[1..], i - 1);
    }
  }

  /** After a successful `create_user`, `get_user` finds the new document. */
  lemma CreateThenGet(docs: seq<UserDoc>, username: string, password: string, email: string, salt: nat)
    requires UniqueNames(docs)
    requires CreateUser(docs, username, password, email, salt).0.success
    ensures FindUser(CreateUser(docs, username, password, email, salt).1, Some(username))
      == Some(UserDoc(username, Bcrypt(password, salt), email))
  {
    var next := CreateUser(docs, username, password, email, salt).1;
    CreateUserKeepsUnique(docs, username, password, email, salt);
    FindUserUnique(next, |docs|);
  }
}
