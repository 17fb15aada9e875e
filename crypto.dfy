/** Password hashing and signed tokens, as parameters of the model: the
    algorithms are not modelled, only the facts the handlers rely on. */
module Crypto {
  import opened Wrappers
  import opened Errors
  import opened Documents

  /** The random salt a password hash is made with. */
  type Salt = nat

  /** A password-hashing context: `hash(p, salt)` makes a digest, `identifies(h)`
      says whether `h` is a digest of a scheme the context knows, and
      `verify(p, h)` checks a password against such a digest. */
  datatype PasswordScheme = PasswordScheme(
    hash: (string, Salt) -> string,
    identifies: string -> bool,
    verify: (string, string) -> bool)

  /** Whatever the salt, a digest is recognised and verifies its own password. */
  ghost predicate SoundScheme(s: PasswordScheme) {
    forall p, salt :: s.identifies(s.hash(p, salt)) && s.verify(p, s.hash(p, salt))
  }

  /** `SoundScheme` can be met: a context that keeps the password itself as
      its digest is sound. */
  lemma SoundSchemeSatisfiable()
    ensures SoundScheme(PasswordScheme((p: string, salt: Salt) => p, (h: string) => true, (p: string, h: string) => p == h))
  {
  }

  /** `pwd_context.verify(plain, stored)`: a stored `None` never verifies;
      a string that is not a known digest, or a value that is not a string,
      raises. */
  function VerifyPassword(s: PasswordScheme, plain: string, stored: Value): (r: Result<bool, Failure>)
    ensures stored == VNull ==> r == Success(false)
    ensures stored.VStr? && s.identifies(stored.s) ==> r == Success(s.verify(plain, stored.s))
    ensures r.Failure? <==> stored != VNull && !(stored.VStr? && s.identifies(stored.s))
  {
    match stored
    case VNull => Success(false)
    case VStr(h) =>
      if s.identifies(h) then Success(s.verify(plain, h)) else Failure(Crash("UnknownHashError"))
    case _ => Failure(Crash("TypeError"))
  }

  lemma VerifyOwnHash(s: PasswordScheme, p: string, salt: Salt)
    requires SoundScheme(s)
    ensures VerifyPassword(s, p, VStr(s.hash(p, salt))) == Success(true)
  {
  }

  /** Signing with the server's secret key (`encode`) and checking the
      signature and format of a token (`decode`; `None` is a `JWTError`). */
  datatype TokenCodec = TokenCodec(encode: Doc -> string, decode: string -> Option<Doc>)

  /** Whether `json.dumps` can write a value when the claims are signed:
      ObjectIds and datetimes (outside the time claims, which `login` sets
      itself) make it raise `TypeError`. */
  predicate JsonEncodable(v: Value): (ok: bool)
    decreases v
    ensures v.VOid? || v.VTime? ==> !ok
    ensures !(v.VOid? || v.VTime? || v.VList?) ==> ok
    ensures v.VList? ==> (ok <==> forall i :: 0 <= i < |v.items| ==> JsonEncodable(v.items[i]))
  {
    match v
    case VOid(_) => false
    case VTime(_) => false
    case VList(items) => forall i :: 0 <= i < |items| ==> JsonEncodable(items[i])
    case _ => true
  }

  /** A claim value that comes back unchanged from JSON: `null`, a boolean, an
      integer or a string. Reals are left out, as JSON writes a float with
      finite precision. */
  predicate SignableValue(v: Value) {
    v.VNull? || v.VBool? || v.VInt? || v.VStr?
  }

  /** Claims made only of such values. */
  predicate Signable(claims: Doc) {
    forall k :: k in claims ==> SignableValue(claims[k])
  }

  /** A token the server signed decodes to the claims it was made from. */
  ghost predicate SoundCodec(c: TokenCodec) {
    forall claims :: Signable(claims) ==> c.decode(c.encode(claims)) == Some(claims)
  }

  /** `jwt.decode(token, key)` at time `now` (seconds): the signature must
      check, `exp` (when present) must be an integer that is not in the past,
      and `sub` (when present) must be a string. */
  function JwtDecode(c: TokenCodec, token: string, now: int): (r: Option<Doc>)
    ensures r.Some? ==> c.decode(token) == r
    ensures r.Some? && "exp" in r.value ==> r.value["exp"].VInt? && now <= r.value["exp"].i
    ensures r.Some? && "sub" in r.value ==> r.value["sub"].VStr?
    ensures c.decode(token).Some? && r.None? ==>
      var claims := c.decode(token).value;
      ("exp" in claims && (!claims["exp"].VInt? || claims["exp"].i < now)) ||
      ("sub" in claims && !claims["sub"].VStr?)
  {
    match c.decode(token)
    case None => None
    case Some(claims) =>
      if "exp" in claims && !claims["exp"].VInt? then None
      else if "exp" in claims && claims["exp"].i < now then None
      else if "sub" in claims && !claims["sub"].VStr? then None
      else Some(claims)
  }
}
