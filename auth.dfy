/** Registration, login and current-user resolution over the `user`
    collection. */
module Auth {
  import opened Wrappers
  import opened Errors
  import opened ObjectIds
  import opened Documents
  import opened Schemas
  import opened Store
  import opened Crypto

  const ACCESS_TOKEN_EXPIRE_MINUTES: int := 60 * 24
  /** The same window in seconds, the unit of `now` and of the `exp` claim. */
  const TOKEN_LIFETIME: int := ACCESS_TOKEN_EXPIRE_MINUTES * 60

  /** The collection users are kept in. */
  const USERS := HandlerCollection(UserKind)
  const DEFAULT_ROLE := "volunteer"

  const DB_UNAVAILABLE := HttpError(500, "Database not available")
  const EMAIL_TAKEN := HttpError(400, "Email already registered")
  const INVALID_CREDENTIALS := HttpError(400, "Invalid credentials")
  const INACTIVE := HttpError(403, "User is inactive")
  const UNAUTHORIZED := HttpError(401, "Could not validate credentials")

  /** The users collection is the one the `User` record names. */
  lemma UsersCollection()
    ensures USERS == CollectionName(UserKind) == "user"
  {
    CollectionNameOf(UserKind);
  }

  /** The body of `/auth/register`. */
  datatype RegisterPayload = RegisterPayload(
    name: string, email: string, phone: Option<string>, role: string, password: string)

  function ParseRegisterPayload(d: Doc): (r: Parsed<RegisterPayload>)
    ensures r.Success? ==> "name" in d && "email" in d && "password" in d
    ensures r.Success? && "role" !in d ==> r.value.role == DEFAULT_ROLE
    ensures r.Success? && "phone" !in d ==> r.value.phone.None?
  {
    var name :- ReqStr(d, "name");
    var email :- ReqStr(d, "email");
    var phone :- OptStr(d, "phone");
    var role :- StrOr(d, "role", DEFAULT_ROLE);
    var password :- ReqStr(d, "password");
    Success(RegisterPayload(name, email, phone, role, password))
  }

  function DumpRegisterPayload(p: RegisterPayload): (d: Doc)
    ensures d.Keys == {"name", "email", "phone", "role", "password"}
  {
    map["name" := VStr(p.name), "email" := VStr(p.email), "phone" := OptStrValue(p.phone),
        "role" := VStr(p.role), "password" := VStr(p.password)]
  }

  lemma RegisterPayloadRoundTrip(p: RegisterPayload)
    ensures ParseRegisterPayload(DumpRegisterPayload(p)) == Success(p)
  {
  }

  /** The body `/auth/login` answers with. */
  datatype Token = Token(accessToken: string, tokenType: string)

  function EmailFilter(email: string): Doc {
    map["email" := VStr(email)]
  }

  /** `{"email": email}` matches exactly the documents with that email. */
  lemma EmailFilterMatches(d: Doc, email: string)
    ensures Matches(d, EmailFilter(email)) <==> "email" in d && d["email"] == VStr(email)
  {
  }

  /** Some user of the collection has this email. */
  ghost predicate EmailRegistered(users: seq<Doc>, email: string) {
    exists d :: d in users && Matches(d, EmailFilter(email))
  }

  /** The user document `register` inserts: the payload with the password
      replaced by its digest and `is_active` set. */
  function NewUserDoc(s: PasswordScheme, p: RegisterPayload, salt: Salt): (d: Doc)
    ensures ID_FIELD !in d
    ensures forall k :: k in d <==> k in DumpRegisterPayload(p) || k == "is_active"
    ensures d["password"] == VStr(s.hash(p.password, salt))
    ensures d["is_active"] == VBool(true)
    ensures d["email"] == VStr(p.email) && d["role"] == VStr(p.role)
  {
    DumpRegisterPayload(p)["password" := VStr(s.hash(p.password, salt))]["is_active" := VBool(true)]
  }

  /** `user.get("password", "")` */
  function PasswordOf(u: Doc): (v: Value)
    ensures "password" in u ==> v == u["password"]
    ensures "password" !in u ==> v == VStr("")
  {
    Get(u, "password", VStr(""))
  }

  /** `user.get("is_active", True)`, as a condition */
  predicate IsActive(u: Doc)
    ensures "is_active" !in u ==> IsActive(u)
    ensures "is_active" in u ==> (IsActive(u) <==> Truthy(u["is_active"]))
  {
    Truthy(Get(u, "is_active", VBool(true)))
  }

  /** `user.get("role", "volunteer")` */
  function RoleOf(u: Doc): (v: Value)
    ensures "role" in u ==> v == u["role"]
    ensures "role" !in u ==> v == VStr(DEFAULT_ROLE)
  {
    Get(u, "role", VStr(DEFAULT_ROLE))
  }

  /** `create_access_token(data)` before signing: the claims with `exp` set to
      the end of the access-token window. */
  function AccessClaims(data: Doc, now: int): (c: Doc)
    ensures c.Keys == data.Keys + {"exp"}
    ensures c["exp"] == VInt(now + ACCESS_TOKEN_EXPIRE_MINUTES * 60)
    ensures forall k :: k in data && k != "exp" ==> c[k] == data[k]
  {
    data["exp" := VInt(now + TOKEN_LIFETIME)]
  }

  /** The claims `login` issues for a user. */
  function LoginClaims(u: Doc, now: int): (c: Doc)
    requires Stored(u)
    ensures c.Keys == {"sub", "role", "exp"}
    ensures c["sub"] == VStr(OidString(IdOf(u)))
    ensures c["role"] == RoleOf(u)
    ensures c["exp"] == VInt(now + TOKEN_LIFETIME)
  {
    AccessClaims(map["sub" := VStr(OidString(IdOf(u))), "role" := RoleOf(u)], now)
  }

  /** What `login` answers once the user lookup by email has given `found`:
      the password is checked first, then whether the user is active; signing
      raises when the stored role is not a JSON value. */
  function LoginOutcome(s: PasswordScheme, c: TokenCodec, found: Option<Doc>, password: string, now: int)
    : (r: Result<Token, Failure>)
    requires found.Some? ==> Stored(found.value)
    ensures found.None? ==> r == Failure(INVALID_CREDENTIALS)
    ensures found.Some? && VerifyPassword(s, password, PasswordOf(found.value)) == Success(false) ==>
      r == Failure(INVALID_CREDENTIALS)
    ensures r == Failure(INACTIVE) <==>
      found.Some? && VerifyPassword(s, password, PasswordOf(found.value)) == Success(true) && !IsActive(found.value)
    ensures found.Some? && VerifyPassword(s, password, PasswordOf(found.value)) == Success(true) && IsActive(found.value)
            && !JsonEncodable(RoleOf(found.value)) ==>
      r == Failure(Crash("TypeError"))
    ensures r.Success? <==>
      && found.Some? && VerifyPassword(s, password, PasswordOf(found.value)) == Success(true) && IsActive(found.value)
      && JsonEncodable(RoleOf(found.value))
    ensures r.Success? ==> r.value == Token(c.encode(LoginClaims(found.value, now)), "bearer")
    ensures found.Some? && VerifyPassword(s, password, PasswordOf(found.value)).Failure? ==>
      r == Failure(VerifyPassword(s, password, PasswordOf(found.value)).error)
  {
    match found
    case None => Failure(INVALID_CREDENTIALS)
    case Some(u) =>
      match VerifyPassword(s, password, PasswordOf(u))
      case Failure(e) => Failure(e)
      case Success(ok) =>
        if !ok then Failure(INVALID_CREDENTIALS)
        else if !IsActive(u) then Failure(INACTIVE)
        else if !JsonEncodable(RoleOf(u)) then Failure(Crash("TypeError"))
        else Success(Token(c.encode(LoginClaims(u, now)), "bearer"))
  }

  /** What `get_current_user` answers for a token at time `now`, given the
      user collection (`None` when there is no database handle). */
  function ResolveOutcome(c: TokenCodec, token: string, now: int, users: Option<seq<Doc>>)
    : (r: Result<Doc, Failure>)
    requires users.Some? ==> WellFormed(users.value)
    ensures JwtDecode(c, token, now).None? ==> r == Failure(UNAUTHORIZED)
    ensures JwtDecode(c, token, now).Some? && "sub" !in JwtDecode(c, token, now).value ==> r == Failure(UNAUTHORIZED)
    ensures users.Some? && JwtDecode(c, token, now).Some? && "sub" in JwtDecode(c, token, now).value ==>
      var sub := JwtDecode(c, token, now).value["sub"].s;
      ParseOid(sub).Some? && !IdInUse(users.value, ParseOid(sub).value) ==> r == Failure(UNAUTHORIZED)
    ensures users.None? && JwtDecode(c, token, now).Some? && "sub" in JwtDecode(c, token, now).value ==>
      r == Failure(Crash("TypeError"))
    ensures users.Some? && JwtDecode(c, token, now).Some? && "sub" in JwtDecode(c, token, now).value ==>
      var sub := JwtDecode(c, token, now).value["sub"].s;
      ParseOid(sub).None? ==> r == Failure(Crash("InvalidId"))
    ensures users.Some? && JwtDecode(c, token, now).Some? && "sub" in JwtDecode(c, token, now).value ==>
      var sub := JwtDecode(c, token, now).value["sub"].s;
      ParseOid(sub).Some? && LookupById(users.value, ParseOid(sub).value).Some? ==>
        r == Success(Serialized(LookupById(users.value, ParseOid(sub).value).value))
    ensures r.Success? ==>
      && users.Some? && JwtDecode(c, token, now).Some? && "sub" in JwtDecode(c, token, now).value
      && var sub := JwtDecode(c, token, now).value["sub"].s;
         exists u :: u in users.value && ParseOid(sub) == Some(IdOf(u)) && r.value == Serialized(u)
  {
    match JwtDecode(c, token, now)
    case None => Failure(UNAUTHORIZED)
    case Some(payload) =>
      if "sub" !in payload then Failure(UNAUTHORIZED)
      else if users.None? then Failure(Crash("TypeError"))
      else
        match ParseOid(payload["sub"].s)
        case None => Failure(Crash("InvalidId"))
        case Some(o) =>
          match LookupById(users.value, o)
          case None => Failure(UNAUTHORIZED)
          case Some(u) => Success(Serialized(u))
  }

  /** `register`: the email must be new; exactly one document is added. */
  method Register(db: DocumentStore?, s: PasswordScheme, payload: RegisterPayload, salt: Salt, generated: Oid)
    returns (r: Result<string, Failure>)
    requires db != null ==> db.Valid()
    modifies db
    ensures db == null ==> r == Failure(DB_UNAVAILABLE)
    ensures db != null ==> db.Valid()
    ensures db != null && EmailRegistered(old(db.Collection(USERS)), payload.email) ==>
      r == Failure(EMAIL_TAKEN) && db.collections == old(db.collections)
    ensures db != null && !EmailRegistered(old(db.Collection(USERS)), payload.email)
            && IdInUse(old(db.Collection(USERS)), generated) ==>
      r == Failure(Crash("DuplicateKeyError")) && db.collections == old(db.collections)
    ensures db != null && !EmailRegistered(old(db.Collection(USERS)), payload.email)
            && !IdInUse(old(db.Collection(USERS)), generated) ==>
      && r == Success(OidString(generated))
      && db.collections == old(db.collections)[USERS := old(db.Collection(USERS)) + [WithId(NewUserDoc(s, payload, salt), generated)]]
  {
    if db == null {
      return Failure(DB_UNAVAILABLE);
    }
    var existing := db.FindOne(USERS, EmailFilter(payload.email));
    if existing.Some? {
      return Failure(EMAIL_TAKEN);
    }
    var userData := NewUserDoc(s, payload, salt);
    var inserted := db.InsertOne(USERS, userData, generated);
    if inserted.Failure? {
      return Failure(inserted.error);
    }
    r := Success(OidString(inserted.value));
  }

  /** `login`: changes nothing; answers as `LoginOutcome` does for whichever
      user with that email the lookup finds. */
  method Login(db: DocumentStore?, s: PasswordScheme, c: TokenCodec, username: string, password: string, now: int)
    returns (r: Result<Token, Failure>)
    requires db != null ==> db.Valid()
    ensures db == null ==> r == Failure(DB_UNAVAILABLE)
    ensures db != null && !EmailRegistered(db.Collection(USERS), username) ==> r == Failure(INVALID_CREDENTIALS)
    ensures db != null && EmailRegistered(db.Collection(USERS), username) ==>
      exists u :: u in db.Collection(USERS) && Matches(u, EmailFilter(username)) && Stored(u)
               && r == LoginOutcome(s, c, Some(u), password, now)
  {
    if db == null {
      return Failure(DB_UNAVAILABLE);
    }
    var user := db.FindOne(USERS, EmailFilter(username));
    if user.Some? {
      StoredMember(db.Collection(USERS), user.value);
    }
    r := LoginOutcome(s, c, user, password, now);
  }

  lemma StoredMember(docs: seq<Doc>, d: Doc)
    requires WellFormed(docs) && d in docs
    ensures Stored(d)
  {
  }

  /** `get_current_user`: changes nothing; answers as `ResolveOutcome`, with
      the user as a new dictionary. */
  method GetCurrentUser(db: DocumentStore?, c: TokenCodec, token: string, now: int)
    returns (r: Result<Document, Failure>)
    requires db != null ==> db.Valid()
    ensures r.Success? ==> fresh(r.value)
    ensures r.Success? ==>
      ResolveOutcome(c, token, now, if db == null then None else Some(db.Collection(USERS))) == Success(r.value.fields)
    ensures r.Failure? ==>
      ResolveOutcome(c, token, now, if db == null then None else Some(db.Collection(USERS))) == Failure(r.error)
  {
    var payload := JwtDecode(c, token, now);
    if payload.None? || "sub" !in payload.value {
      return Failure(UNAUTHORIZED);
    }
    var userId := payload.value["sub"].s;
    if db == null {
      return Failure(Crash("TypeError"));
    }
    var oid := ParseOid(userId);
    if oid.None? {
      return Failure(Crash("InvalidId"));
    }
    var user := db.FindOne(USERS, IdFilter(oid.value));
    if user.None? {
      if LookupById(db.Collection(USERS), oid.value).Some? {
        LookupByIdMatches(db.Collection(USERS), oid.value, LookupById(db.Collection(USERS), oid.value).value);
      }
      return Failure(UNAUTHORIZED);
    }
    LookupByIdMatches(db.Collection(USERS), oid.value, user.value);
    var found := new Document(user.value);
    var serialized := SerializeDoc(found);
    r := Success(serialized);
  }

  /** `read_users_me`: drops `password` from the dictionary it is given, in
      place, and answers with that dictionary. */
  method ReadUsersMe(currentUser: Document) returns (r: Document)
    modifies currentUser
    ensures r == currentUser
    ensures r.fields == old(currentUser.fields) - {"password"}
  {
    currentUser.Pop("password");
    r := currentUser;
  }

  /** `GET /auth/me`: the current user, never with a password. */
  method AuthMe(db: DocumentStore?, c: TokenCodec, token: string, now: int)
    returns (r: Result<Document, Failure>)
    requires db != null ==> db.Valid()
    ensures r.Success? ==> "password" !in r.value.fields
    ensures r.Success? ==>
      var resolved := ResolveOutcome(c, token, now, if db == null then None else Some(db.Collection(USERS)));
      resolved.Success? && r.value.fields == resolved.value - {"password"}
    ensures r.Failure? ==>
      ResolveOutcome(c, token, now, if db == null then None else Some(db.Collection(USERS))) == Failure(r.error)
  {
    var current := GetCurrentUser(db, c, token, now);
    if current.Failure? {
      return Failure(current.error);
    }
    var me := ReadUsersMe(current.value);
    r := Success(me);
  }

  // ----- Properties of the flow -----

  /** A user record without an `is_active` field is treated as active: once
      its password verifies, it is never refused with the 403, and it gets a
      token whenever its role can be signed. */
  lemma MissingIsActiveCountsAsActive(s: PasswordScheme, c: TokenCodec, u: Doc, password: string, now: int)
    requires Stored(u) && "is_active" !in u
    requires VerifyPassword(s, password, PasswordOf(u)) == Success(true)
    ensures LoginOutcome(s, c, Some(u), password, now) != Failure(INACTIVE)
    ensures JsonEncodable(RoleOf(u)) ==>
      LoginOutcome(s, c, Some(u), password, now) == Success(Token(c.encode(LoginClaims(u, now)), "bearer"))
  {
  }

  /** A user that `register` stored logs in with the password it registered
      with, and the token names that user and its role. */
  lemma RegisteredUserLogsIn(s: PasswordScheme, c: TokenCodec, p: RegisterPayload, salt: Salt, o: Oid, now: int)
    requires SoundScheme(s)
    ensures
      var u := WithId(NewUserDoc(s, p, salt), o);
      && LoginOutcome(s, c, Some(u), p.password, now) == Success(Token(c.encode(LoginClaims(u, now)), "bearer"))
      && LoginClaims(u, now)["sub"] == VStr(OidString(o))
      && LoginClaims(u, now)["role"] == VStr(p.role)
  {
    var u := WithId(NewUserDoc(s, p, salt), o);
    assert PasswordOf(u) == VStr(s.hash(p.password, salt));
    VerifyOwnHash(s, p.password, salt);
  }

  /** What `/auth/me` shows of a user `register` stored: the payload's
      fields, `is_active` and the string `id`, and neither the password nor
      `_id`. */
  lemma RegisteredUserAsServed(s: PasswordScheme, p: RegisterPayload, salt: Salt, o: Oid)
    ensures Serialized(WithId(NewUserDoc(s, p, salt), o)) - {"password"}
         == map["name" := VStr(p.name), "email" := VStr(p.email), "phone" := OptStrValue(p.phone),
                "role" := VStr(p.role), "is_active" := VBool(true), PUBLIC_ID_FIELD := VStr(OidString(o))]
  {
    var d1 := NewUserDoc(s, p, salt);
    var idv := VStr(OidString(o));
    SerializedWithFreshId(d1, o);
    NewUserDocWithoutPassword(s, p, salt);
    assert d1[PUBLIC_ID_FIELD := idv] - {"password"} == (d1 - {"password"})[PUBLIC_ID_FIELD := idv];
  }

  lemma SerializedWithFreshId(d: Doc, o: Oid)
    requires ID_FIELD !in d
    ensures Serialized(WithId(d, o)) == d[PUBLIC_ID_FIELD := VStr(OidString(o))]
  {
    assert WithId(d, o) - {ID_FIELD} == d;
  }

  lemma NewUserDocWithoutPassword(s: PasswordScheme, p: RegisterPayload, salt: Salt)
    ensures NewUserDoc(s, p, salt) - {"password"}
         == map["name" := VStr(p.name), "email" := VStr(p.email), "phone" := OptStrValue(p.phone),
                "role" := VStr(p.role), "is_active" := VBool(true)]
  {
    var base := map["name" := VStr(p.name), "email" := VStr(p.email), "phone" := OptStrValue(p.phone), "role" := VStr(p.role)];
    assert DumpRegisterPayload(p) - {"password"} == base;
  }

  /** After `register` added the first user with an email, the lookup by that
      email can only find that user. */
  lemma RegisteredEmailFindsNewUser(users: seq<Doc>, email: string, d: Doc, u: Doc)
    requires !EmailRegistered(users, email)
    requires "email" in d && d["email"] == VStr(email)
    requires u in users + [d] && Matches(u, EmailFilter(email))
    ensures u == d
  {
  }

  /** A token `login` issued resolves, until it expires, to the user it was
      issued for, as `serialize_doc` renders it. */
  lemma {:induction false} IssuedTokenResolves(
    s: PasswordScheme, c: TokenCodec, users: seq<Doc>, u: Doc, password: string, now: int, later: int)
    requires SoundCodec(c)
    requires WellFormed(users) && u in users
    requires SignableValue(RoleOf(u))
    requires LoginOutcome(s, c, Some(u), password, now).Success?
    requires later <= now + TOKEN_LIFETIME
    ensures ResolveOutcome(c, LoginOutcome(s, c, Some(u), password, now).value.accessToken, later, Some(users))
         == Success(Serialized(u))
  {
    var claims := LoginClaims(u, now);
    var token := LoginOutcome(s, c, Some(u), password, now).value.accessToken;
    assert Signable(claims);
    assert c.decode(c.encode(claims)) == Some(claims);
    assert JwtDecode(c, token, later) == Some(claims);
    ParseOidString(IdOf(u));
    LookupByIdMatches(users, IdOf(u), u);
  }

  /** Once the access-token window has passed, the same token is refused with
      the same 401 as any other bad token. */
  lemma IssuedTokenExpires(
    s: PasswordScheme, c: TokenCodec, users: Option<seq<Doc>>, u: Doc, password: string, now: int, later: int)
    requires SoundCodec(c)
    requires users.Some? ==> WellFormed(users.value)
    requires Stored(u) && SignableValue(RoleOf(u)) && LoginOutcome(s, c, Some(u), password, now).Success?
    requires later > now + TOKEN_LIFETIME
    ensures ResolveOutcome(c, LoginOutcome(s, c, Some(u), password, now).value.accessToken, later, users)
         == Failure(UNAUTHORIZED)
  {
    var claims := LoginClaims(u, now);
    assert Signable(claims);
    assert c.decode(c.encode(claims)) == Some(claims);
  }

  /** An unknown email and a wrong password give the same answer. */
  lemma LoginFailuresIndistinguishable(s: PasswordScheme, c: TokenCodec, u: Doc, password: string, now: int)
    requires Stored(u)
    requires VerifyPassword(s, password, PasswordOf(u)) == Success(false)
    ensures LoginOutcome(s, c, Some(u), password, now) == LoginOutcome(s, c, None, password, now)
  {
  }
}
