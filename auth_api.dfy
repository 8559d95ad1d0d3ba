/** The request logic of backend/app.py: the `token_required` gate in front
    of the protected routes, and the `signup` and `login` routes over the
    users collection. Password hashing and JWT signing are uninterpreted:
    a hash remembers the password it was made from, an issued token is
    represented by the claims it carries, and decoding a token is a
    parameter of the gate. */
module AuthApi {
  import opened Wrappers
  import opened Json
  import opened Bson
  import SignupForm

  /** `generate_password_hash(p)`; `check_password_hash(h, q)` accepts
      exactly the password the hash was made from. */
  datatype PasswordHash = PasswordHash(of: string)

  predicate CheckPasswordHash(h: PasswordHash, password: string)
  {
    h.of == password
  }

  /** A user document as `signup` writes it. */
  datatype User = User(id: ObjectId, name: Json, email: Json, password: PasswordHash, createdAt: int)

  /** `timedelta(days=7)` in seconds. */
  const TokenLifetime: int := 7 * 24 * 60 * 60

  /** The claims `jwt.encode` signs at signup and login. */
  function Claims(id: ObjectId, now: int): (c: map<string, Json>)
    ensures c.Keys == {"user_id", "exp"}
    ensures c["user_id"] == JStr(IdString(id))
    ensures c["exp"] == JNum(now + 604800)
  {
    map["user_id" := JStr(IdString(id)), "exp" := JNum(now + TokenLifetime)]
  }

  /** The `user` object of a reply: id, name and email, never the hash. */
  function PublicUser(u: User): (m: map<string, Json>)
    ensures m.Keys == {"id", "name", "email"}
    ensures "password" !in m
  {
    map["id" := JStr(IdString(u.id)), "name" := u.name, "email" := u.email]
  }

  /** A route's JSON reply: the status code, its `message`, and for the
      successful routes the token's claims and the public user. */
  datatype Reply = Reply(status: int, message: string, token: Option<map<string, Json>>, user: Option<map<string, Json>>)

  function Error(status: int, message: string): Reply
  {
    Reply(status, message, None, None)
  }

  /** What Flask answers when a route raises. */
  const ServerError: Reply := Error(500, "Internal Server Error")

  /** `users.find_one({'email': email})`: the first user with that email. */
  function FindByEmail(users: seq<User>, email: Json): (r: Option<User>)
    ensures r.None? <==> forall i :: 0 <= i < |users| ==> users[i].email != email
    ensures r.Some? ==> r.value in users && r.value.email == email
  {
    if |users| == 0 then None
    else if users[0].email == email then Some(users[0])
    else FindByEmail(users[1..], email)
  }

  /** `users.find_one({'_id': id})`. */
  function FindById(users: seq<User>, id: ObjectId): (r: Option<User>)
    ensures r.None? <==> forall i :: 0 <= i < |users| ==> users[i].id != id
    ensures r.Some? ==> r.value in users && r.value.id == id
  {
    if |users| == 0 then None
    else if users[0].id == id then Some(users[0])
    else FindById(users[1..], id)
  }

  // ---------------------------------------------------------------- token gate

  /** The header value with one leading "Bearer " removed, if present. */
  function StripBearer(header: string): (t: string)
    ensures |header| >= 7 && header[..7] == "Bearer " ==> t == header[7..]
    ensures !(|header| >= 7 && header[..7] == "Bearer ") ==> t == header
  {
    if |header| >= 7 && header[..7] == "Bearer " then header[7..] else header
  }

  /** The prefix is removed exactly once: a token that itself starts with
      "Bearer " keeps it. */
  lemma StripBearerOnce(token: string)
    ensures StripBearer("Bearer " + token) == token
  {
    assert ("Bearer " + token)[..7] == "Bearer ";
    assert ("Bearer " + token)[7..] == token;
  }

  /** The gate either calls the route with the current user or answers 401
      with one of three messages. */
  datatype GateOutcome = Proceed(user: User) | Reject(message: string)

  const MissingToken: string := "Token is missing"
  const InvalidToken: string := "Token is invalid"
  const UserNotFound: string := "User not found"

  /** `token_required` for an `Authorization` header (`None` when absent).
      `decode` is `jwt.decode` with the server's key, `None` when it raises.
      The `user_id` claim goes through `ObjectId(...)`: a hex string is
      parsed, `None` makes a brand-new id that matches no stored user, and
      anything else raises. */
  function TokenGate(header: Option<string>, decode: string -> Option<map<string, Json>>, users: seq<User>): (r: GateOutcome)
    ensures header.None? || header == Some("") ==> r == Reject(MissingToken)
    ensures header.Some? && header != Some("") && decode(StripBearer(header.value)).None? ==> r == Reject(InvalidToken)
    ensures r.Proceed? ==>
              header.Some? && decode(StripBearer(header.value)).Some?
              && var claims := decode(StripBearer(header.value)).value;
                 "user_id" in claims && claims["user_id"].JStr?
                 && ParseObjectId(claims["user_id"].s) == Some(r.user.id)
                 && r.user in users
    ensures header.Some? && header != Some("") && decode(StripBearer(header.value)).Some? ==>
              var claims := decode(StripBearer(header.value)).value;
              && ("user_id" !in claims ==> r == Reject(InvalidToken))
              && ("user_id" in claims && claims["user_id"] == JNull ==> r == Reject(UserNotFound))
              && ("user_id" in claims && !claims["user_id"].JStr? && claims["user_id"] != JNull ==> r == Reject(InvalidToken))
              && ("user_id" in claims && claims["user_id"].JStr? && ParseObjectId(claims["user_id"].s).None? ==> r == Reject(InvalidToken))
    ensures header.Some? && header != Some("") && decode(StripBearer(header.value)).Some? ==>
              var claims := decode(StripBearer(header.value)).value;
              "user_id" in claims && claims["user_id"].JStr? && ParseObjectId(claims["user_id"].s).Some? ==>
                var id := ParseObjectId(claims["user_id"].s).value;
                && (FindById(users, id).None? ==> r == Reject(UserNotFound))
                && (FindById(users, id).Some? ==> r == Proceed(FindById(users, id).value))
    ensures r.Reject? ==> r.message in {MissingToken, InvalidToken, UserNotFound}
  {
    if header.None? || header.value == "" then Reject(MissingToken)
    else
      match decode(StripBearer(header.value))
      case None => Reject(InvalidToken)
      case Some(claims) =>
        if "user_id" !in claims then Reject(InvalidToken)
        else
          match claims["user_id"]
          case JNull => Reject(UserNotFound)
          case JStr(s) =>
            (match ParseObjectId(s)
             case None => Reject(InvalidToken)
             case Some(id) =>
               match FindById(users, id)
               case None => Reject(UserNotFound)
               case Some(u) => Proceed(u))
          case _ => Reject(InvalidToken)
  }

  /** A token issued for a stored user opens the gate for that user, with or
      without the "Bearer " prefix, for as long as `decode` accepts it. */
  lemma IssuedTokenOpensGate(token: string, decode: string -> Option<map<string, Json>>, users: seq<User>, u: User, issuedAt: int)
    requires decode(token) == Some(Claims(u.id, issuedAt))
    requires FindById(users, u.id) == Some(u)
    ensures TokenGate(Some("Bearer " + token), decode, users) == Proceed(u)
  {
    StripBearerOnce(token);
    ParseIdString(u.id);
  }

  // -------------------------------------------------------------- signup/login

  datatype SignupResult = SignupResult(reply: Reply, users: seq<User>)

  /** `signup` for request body `data`, at time `now`, with `newId` the id
      the database gives the inserted document. */
  function SignupSpec(users: seq<User>, data: map<string, Json>, now: int, newId: ObjectId): (r: SignupResult)
    ensures r.reply.status == 400 <==>
              !Truthy(Get(data, "email")) || !Truthy(Get(data, "password")) || !Truthy(Get(data, "name"))
    ensures r.reply.status == 409 <==>
              Truthy(Get(data, "email")) && Truthy(Get(data, "password")) && Truthy(Get(data, "name"))
              && FindByEmail(users, data["email"]).Some?
    ensures r.reply.status == 500 <==>
              Truthy(Get(data, "email")) && Truthy(Get(data, "password")) && Truthy(Get(data, "name"))
              && FindByEmail(users, data["email"]).None? && !data["password"].JStr?
    ensures r.reply.status != 201 ==> r.users == users && r.reply.token.None? && r.reply.user.None?
    ensures r.reply.status == 201 <==>
              Truthy(Get(data, "email")) && Truthy(Get(data, "password")) && Truthy(Get(data, "name"))
              && FindByEmail(users, data["email"]).None? && data["password"].JStr?
    ensures r.reply.status == 201 ==>
              var u := User(newId, data["name"], data["email"], PasswordHash(data["password"].s), now);
              r.users == users + [u]
              && r.reply.token == Some(Claims(newId, now))
              && r.reply.user == Some(PublicUser(u))
    ensures r.reply.status in {201, 400, 409, 500}
  {
    if !Truthy(Get(data, "email")) || !Truthy(Get(data, "password")) || !Truthy(Get(data, "name")) then
      SignupResult(Error(400, "Missing required fields"), users)
    else if FindByEmail(users, data["email"]).Some? then
      SignupResult(Error(409, "User already exists"), users)
    else if !data["password"].JStr? then
      SignupResult(ServerError, users)
    else
      var u := User(newId, data["name"], data["email"], PasswordHash(data["password"].s), now);
      SignupResult(Reply(201, "User created successfully", Some(Claims(newId, now)), Some(PublicUser(u))), users + [u])
  }

  const BadCredentials: string := "Invalid credentials"

  /** `login` for request body `data` at time `now`. An unknown email and a
      wrong password get the same answer. */
  function Login(users: seq<User>, data: map<string, Json>, now: int): (r: Reply)
    ensures r.status == 400 <==> !Truthy(Get(data, "email")) || !Truthy(Get(data, "password"))
    ensures r.status == 401 <==>
              Truthy(Get(data, "email")) && Truthy(Get(data, "password"))
              && (FindByEmail(users, data["email"]).None?
                  || (data["password"].JStr? && !CheckPasswordHash(FindByEmail(users, data["email"]).value.password, data["password"].s)))
    ensures r.status == 401 ==> r == Error(401, BadCredentials)
    ensures r.status == 200 <==>
              Truthy(Get(data, "email")) && Truthy(Get(data, "password"))
              && FindByEmail(users, data["email"]).Some? && data["password"].JStr?
              && CheckPasswordHash(FindByEmail(users, data["email"]).value.password, data["password"].s)
    ensures r.status == 200 ==>
              var u := FindByEmail(users, data["email"]).value;
              r.token == Some(Claims(u.id, now)) && r.user == Some(PublicUser(u))
    ensures r.status == 500 <==>
              Truthy(Get(data, "email")) && Truthy(Get(data, "password"))
              && FindByEmail(users, data["email"]).Some? && !data["password"].JStr?
    ensures r.status in {200, 400, 401, 500}
  {
    if !Truthy(Get(data, "email")) || !Truthy(Get(data, "password")) then
      Error(400, "Missing email or password")
    else
      match FindByEmail(users, data["email"])
      case None => Error(401, BadCredentials)
      case Some(u) =>
        if !data["password"].JStr? then ServerError
        else if !CheckPasswordHash(u.password, data["password"].s) then Error(401, BadCredentials)
        else Reply(200, "Login successful", Some(Claims(u.id, now)), Some(PublicUser(u)))
  }

  /** Signing up and then logging in with the same email and password
      succeeds, for the user just created. */
  lemma {:induction false} LoginAfterSignup(users: seq<User>, data: map<string, Json>, now: int, newId: ObjectId, later: int)
    requires SignupSpec(users, data, now, newId).reply.status == 201
    ensures var after := SignupSpec(users, data, now, newId).users;
            var login := Login(after, map["email" := data["email"], "password" := data["password"]], later);
            login.status == 200 && login.token == Some(Claims(newId, later))
  {
    var u := User(newId, data["name"], data["email"], PasswordHash(data["password"].s), now);
    FindAppended(users, u);
  }

  lemma {:induction false} FindAppended(users: seq<User>, u: User)
    requires FindByEmail(users, u.email).None?
    ensures FindByEmail(users + [u], u.email) == Some(u)
  {
    if |users| > 0 {
      assert (users + [u])[1..] == users[1..] + [u];
      FindAppended(users[1..], u);
    } else {
      assert users + [u] == [u];
    }
  }

  /** The body both signup pages post carries `first_name` and `last_name`
      but no `name`, so this route answers 400 to every one of them and
      stores nothing. */
  lemma FrontendSignupRejected(users: seq<User>, d: SignupForm.SignupData, now: int, newId: ObjectId)
    ensures SignupSpec(users, SignupForm.RequestBody(d), now, newId).reply.status == 400
    ensures SignupSpec(users, SignupForm.RequestBody(d), now, newId).users == users
  {
    assert "name" !in SignupForm.RequestBody(d);
  }

  /** Emails are unique among stored users, and so are ids. */
  ghost predicate UniqueUsers(users: seq<User>)
  {
    forall i, j :: 0 <= i < j < |users| ==> users[i].email != users[j].email && users[i].id != users[j].id
  }

  /** With unique emails, looking a stored user up by their email finds
      that very user. */
  lemma UniqueEmailLookup(users: seq<User>, i: int)
    requires UniqueUsers(users)
    requires 0 <= i < |users|
    ensures FindByEmail(users, users[i].email) == Some(users[i])
  {
    var r := FindByEmail(users, users[i].email);
    assert r.Some?;
    var j :| 0 <= j < |users| && users[j] == r.value;
    assert j == i;
  }

  /** In a store that keeps emails unique, every stored user logs in with
      the password their hash was made from, and receives a token for
      their own id. */
  lemma LoginStoredUser(users: seq<User>, i: int, now: int)
    requires UniqueUsers(users)
    requires 0 <= i < |users|
    requires Truthy(users[i].email) && users[i].password.of != ""
    ensures var login := Login(users, map["email" := users[i].email, "password" := JStr(users[i].password.of)], now);
            login.status == 200
            && login.token == Some(Claims(users[i].id, now))
            && login.user == Some(PublicUser(users[i]))
  {
    UniqueEmailLookup(users, i);
  }

  /** The users collection as the two routes see it. */
  class UserStore {
    var users: seq<User>

    ghost predicate Valid()
      reads this
    {
      UniqueUsers(users)
    }

    constructor ()
      ensures users == [] && Valid()
    {
      users := [];
    }

    /** The `signup` route: validation, the duplicate check, then one
        `insert_one`. `newId` is the id the database assigns, which no
        stored user has. */
    method Signup(data: map<string, Json>, now: int, newId: ObjectId) returns (reply: Reply)
      requires Valid()
      requires forall i :: 0 <= i < |users| ==> users[i].id != newId
      modifies this
      ensures Valid()
      ensures reply == SignupSpec(old(users), data, now, newId).reply
      ensures users == SignupSpec(old(users), data, now, newId).users
    {
      if !Truthy(Get(data, "email")) || !Truthy(Get(data, "password")) || !Truthy(Get(data, "name")) {
        return Error(400, "Missing required fields");
      }
      var existing := FindByEmail(users, data["email"]);
      if existing.Some? {
        return Error(409, "User already exists");
      }
      if !data["password"].JStr? {
        return ServerError;
      }
      var hashed := PasswordHash(data["password"].s);
      var user := User(newId, data["name"], data["email"], hashed, now);
      users := users + [user];
      reply := Reply(201, "User created successfully", Some(Claims(newId, now)), Some(PublicUser(user)));
    }
  }
}
