/** The account handlers: signup, login, the current-user lookup and the
    theme update, over a store of accounts keyed by identifier and looked
    up by email. Password hashing and matching belong to the account model
    and are parameters here; a token is modelled by the claims it signs. */
module AuthRoutes {
  import opened Common

  /** A stored account. `passwordHash` is whatever the account model's save
      hook made of the plaintext password. */
  datatype User = User(id: Id, email: string, passwordHash: string, themeMode: string)

  /** What a response reveals about an account. */
  datatype PublicUser = PublicUser(id: Id, email: string, themeMode: string)

  const DefaultTheme := "light"
  const DefaultExpiry := "7d"

  const MissingFieldsMessage := "Please provide email and password"
  const DuplicateMessage := "User already exists"
  const InvalidCredentialsMessage := "Invalid credentials"
  const UserNotFoundMessage := "User not found"
  /** The TypeError raised when the theme update dereferences a missing account. */
  const NullUserMessage := "Cannot read properties of null (reading '_id')"

  /** The claims of a signed token: the account identifier and the
      lifetime passed as `expiresIn`. The signature itself is not modelled. */
  datatype Token = Token(id: Id, expiresIn: string)

  /** `generateToken`: the lifetime is the configured `JWT_EXPIRE` when it
      is set and non-empty, and seven days otherwise. */
  function GenerateToken(id: Id, jwtExpire: Option<string>): (t: Token)
    ensures t.id == id
    ensures Truthy(jwtExpire) ==> t.expiresIn == jwtExpire.value
    ensures !Truthy(jwtExpire) ==> t.expiresIn == "7d"
  {
    Token(id, OrElse(jwtExpire, DefaultExpiry))
  }

  function PublicView(u: User): PublicUser
  {
    PublicUser(u.id, u.email, u.themeMode)
  }

  /** A response reveals nothing of the password: two accounts that differ
      only in their password hash look the same. */
  lemma PublicViewHidesPassword(u: User, otherHash: string)
    ensures PublicView(u.(passwordHash := otherHash)) == PublicView(u)
    ensures PublicView(u).id == u.id && PublicView(u).email == u.email && PublicView(u).themeMode == u.themeMode
  {
  }

  /** A response: a success status with an optional token and the public
      view of one account, or a failure status with a message. */
  datatype AuthReply =
    | Success(status: nat, token: Option<Token>, user: PublicUser)
    | Failure(status: nat, message: string)

  /** A reply together with the account store after the request. */
  datatype Handled = Handled(reply: AuthReply, users: map<Id, User>)

  predicate IdsMatch(users: map<Id, User>)
  {
    forall k :: k in users ==> users[k].id == k
  }

  predicate IdsBelow(users: map<Id, User>, n: nat)
  {
    forall k :: k in users ==> k < n
  }

  /** No two accounts share an email. */
  predicate EmailsUnique(users: map<Id, User>)
  {
    forall a, b :: a in users && b in users && users[a].email == users[b].email ==> a == b
  }

  predicate Registered(users: map<Id, User>, email: string)
  {
    exists k :: k in users && users[k].email == email
  }

  /** `findOne({email})` over the identifiers below `n`: the account with
      the lowest identifier holding that email, if any. */
  function FindByEmail(users: map<Id, User>, email: string, n: nat): (r: Option<Id>)
    ensures r.Some? ==> r.value < n && r.value in users && users[r.value].email == email
    ensures r.None? ==> forall k :: k < n && k in users ==> users[k].email != email
  {
    if n == 0 then None
    else
      var below := FindByEmail(users, email, n - 1);
      if below.Some? then below
      else if n - 1 in users && users[n - 1].email == email then Some(n - 1)
      else None
  }

  /** POST /signup. `hash` is the account model's save hook. */
  function PostSignup(users: map<Id, User>, nextId: Id, email: Option<string>, password: Option<string>,
                      hash: string -> string, jwtExpire: Option<string>): (h: Handled)
    requires IdsBelow(users, nextId)
    ensures !Truthy(email) || !Truthy(password) ==> h == Handled(Failure(400, MissingFieldsMessage), users)
    ensures Truthy(email) && Truthy(password) && Registered(users, email.value)
            ==> h == Handled(Failure(400, DuplicateMessage), users)
    ensures h.reply.Success? <==> Truthy(email) && Truthy(password) && !Registered(users, email.value)
    ensures h.reply.Failure? ==> h.users == users
    ensures h.reply.Success? ==>
              var u := User(nextId, email.value, hash(password.value), DefaultTheme);
              && h.users == users[nextId := u]
              && h.reply == Success(201, Some(GenerateToken(nextId, jwtExpire)), PublicView(u))
    ensures IdsMatch(users) ==> IdsMatch(h.users)
    ensures EmailsUnique(users) ==> EmailsUnique(h.users)
  {
    if !Truthy(email) || !Truthy(password) then Handled(Failure(400, MissingFieldsMessage), users)
    else if FindByEmail(users, email.value, nextId).Some? then Handled(Failure(400, DuplicateMessage), users)
    else
      var u := User(nextId, email.value, hash(password.value), DefaultTheme);
      Handled(Success(201, Some(GenerateToken(u.id, jwtExpire)), PublicView(u)), users[nextId := u])
  }

  /** POST /login. `matches(plain, hash)` is the account model's password
      check. An unknown email and a wrong password give the same reply. */
  function PostLogin(users: map<Id, User>, nextId: Id, email: Option<string>, password: Option<string>,
                     matches: (string, string) -> bool, jwtExpire: Option<string>): (r: AuthReply)
    requires IdsBelow(users, nextId) && IdsMatch(users) && EmailsUnique(users)
    ensures !Truthy(email) || !Truthy(password) ==> r == Failure(400, MissingFieldsMessage)
    ensures r.Success? <==>
              && Truthy(email) && Truthy(password)
              && exists k :: k in users && users[k].email == email.value
                                        && matches(password.value, users[k].passwordHash)
    ensures r.Success? ==>
              && r.user.id in users && r.user == PublicView(users[r.user.id])
              && r.user.email == email.value
              && r == Success(200, Some(GenerateToken(r.user.id, jwtExpire)), r.user)
    ensures Truthy(email) && Truthy(password) && r.Failure? ==> r == Failure(401, InvalidCredentialsMessage)
  {
    if !Truthy(email) || !Truthy(password) then Failure(400, MissingFieldsMessage)
    else
      var found := FindByEmail(users, email.value, nextId);
      if found.None? then Failure(401, InvalidCredentialsMessage)
      else
        var u := users[found.value];
        if !matches(password.value, u.passwordHash) then Failure(401, InvalidCredentialsMessage)
        else Success(200, Some(GenerateToken(u.id, jwtExpire)), PublicView(u))
  }

  /** GET /me for the identifier the middleware resolved. */
  function GetMe(users: map<Id, User>, requester: Id): (r: AuthReply)
    ensures r.Failure? <==> requester !in users
    ensures r.Failure? ==> r == Failure(404, UserNotFoundMessage)
    ensures r.Success? ==> r.status == 200 && r.token.None? && r.user == PublicView(users[requester])
  {
    if requester !in users then Failure(404, UserNotFoundMessage)
    else Success(200, None, PublicView(users[requester]))
  }

  /** PUT /theme: the caller's `theme_mode` becomes the requested value
      (any string: no validation runs on this update). For an identifier
      that no longer resolves the handler dereferences null and answers 500. */
  function PutTheme(users: map<Id, User>, requester: Id, themeMode: string): (h: Handled)
    ensures requester !in users ==> h == Handled(Failure(500, NullUserMessage), users)
    ensures requester in users ==>
              && h.users == users[requester := users[requester].(themeMode := themeMode)]
              && h.reply == Success(200, None, PublicView(h.users[requester]))
    ensures h.users.Keys == users.Keys
    ensures forall k :: k in users && k != requester ==> h.users[k] == users[k]
    ensures forall k :: k in users ==> h.users[k].(themeMode := users[k].themeMode) == users[k]
    ensures EmailsUnique(users) ==> EmailsUnique(h.users)
  {
    if requester !in users then Handled(Failure(500, NullUserMessage), users)
    else
      var updated := users[requester := users[requester].(themeMode := themeMode)];
      Handled(Success(200, None, PublicView(updated[requester])), updated)
  }

  /** The account collection of the document store, changed in place by
      signup and by the theme update. */
  class UserStore {
    var users: map<Id, User>
    var nextId: Id

    ghost predicate Valid()
      reads this
    {
      IdsMatch(users) && IdsBelow(users, nextId) && EmailsUnique(users)
    }

    constructor ()
      ensures Valid() && users == map[] && nextId == 0
    {
      users := map[];
      nextId := 0;
    }

    method SignUp(email: Option<string>, password: Option<string>, hash: string -> string, jwtExpire: Option<string>)
      returns (reply: AuthReply)
      requires Valid()
      modifies this
      ensures Valid()
      ensures var h := PostSignup(old(users), old(nextId), email, password, hash, jwtExpire);
              reply == h.reply && users == h.users
      ensures reply.Failure? ==> nextId == old(nextId)
    {
      if !Truthy(email) || !Truthy(password) {
        return Failure(400, MissingFieldsMessage);
      }
      var existing := FindByEmail(users, email.value, nextId);
      if existing.Some? {
        return Failure(400, DuplicateMessage);
      }
      var u := User(nextId, email.value, hash(password.value), DefaultTheme);
      users := users[nextId := u];
      nextId := nextId + 1;
      reply := Success(201, Some(GenerateToken(u.id, jwtExpire)), PublicView(u));
    }

    method UpdateTheme(requester: Id, themeMode: string) returns (reply: AuthReply)
      requires Valid()
      modifies this
      ensures Valid() && nextId == old(nextId)
      ensures var h := PutTheme(old(users), requester, themeMode);
              reply == h.reply && users == h.users
    {
      if requester !in users {
        return Failure(500, NullUserMessage);
      }
      users := users[requester := users[requester].(themeMode := themeMode)];
      reply := Success(200, None, PublicView(users[requester]));
    }
  }

  /** Sign up, log in with the right and the wrong password, sign up again
      with the same email. */
  method AccountScenario(hash: string -> string, matches: (string, string) -> bool)
    requires forall p :: matches(p, hash(p))
    requires forall p, q :: p != q ==> !matches(q, hash(p))
  {
    var store := new UserStore();
    var reply := store.SignUp(Some("a@x.com"), Some("pw1"), hash, None);
    assert reply.Success? && reply.status == 201;
    var id := reply.user.id;
    assert store.users[id].email == "a@x.com";
    var login := PostLogin(store.users, store.nextId, Some("a@x.com"), Some("pw1"), matches, None);
    assert matches("pw1", store.users[id].passwordHash);
    assert login.Success? && login.user.id == id;
    var wrong := PostLogin(store.users, store.nextId, Some("a@x.com"), Some("wrong"), matches, None);
    assert wrong == Failure(401, InvalidCredentialsMessage);
    var again := store.SignUp(Some("a@x.com"), Some("pw2"), hash, None);
    assert again == Failure(400, DuplicateMessage);
  }
}
