/** Bearer tokens and the two route guards. Tokens are JSON Web Tokens
    (RFC 7519) signed with a server-held secret; the signing and the signature
    check are left abstract as a `Signer`, and only the claims matter here:
    the subject id, its role, and the issue and expiry times ("iat" and "exp",
    sections 4.1.6 and 4.1.4 of RFC 7519), in seconds. */
module Tokens {
  import opened Js
  import opened Http

  type Token = string

  datatype Claims = Claims(id: Id, role: string, iat: int, exp: int)

  /** `expiresIn: '24h'`, in seconds. */
  const TokenLifetime: int := 24 * 60 * 60

  /** The claims `jwt.sign({ id, role }, secret, { expiresIn: '24h' })` issues at time `now`. */
  function IssueClaims(id: Id, role: string, now: int): Claims
  {
    Claims(id, role, now, now + TokenLifetime)
  }

  /** Signing and signature checking with the server's secret. */
  datatype Signer = Signer(sign: Claims -> Token, verify: Token -> Option<Claims>)
  {
    /** A token the server signed carries, when checked, the claims it was signed with. */
    ghost predicate Sound()
    {
      forall c :: verify(sign(c)) == Some(c)
    }
  }

  /** The `protect` guard: a bearer token must be present, carry a valid
      signature and not be expired (RFC 7519, section 4.1.4: a token must not
      be accepted on or after its expiry); every failure is the same 401. */
  function Protect(s: Signer, bearer: Option<Token>, now: int): (r: Response<Claims>)
    ensures r.Ok? <==> bearer.Some? && s.verify(bearer.value).Some? && now < s.verify(bearer.value).value.exp
    ensures r.Ok? ==> Some(r.value) == s.verify(bearer.value)
    ensures r.Fail? ==> r.error == Unauthenticated
  {
    match bearer
    case None => Fail(Unauthenticated)
    case Some(t) =>
      match s.verify(t)
      case None => Fail(Unauthenticated)
      case Some(c) => if now < c.exp then Ok(c) else Fail(Unauthenticated)
  }

  /** The `admin` guard, placed after `protect`: exact match on the role claim. */
  function AdminGate(c: Claims): (r: Response<Claims>)
    ensures r.Ok? <==> c.role == "admin"
    ensures r.Ok? ==> r.value == c
    ensures r.Fail? ==> r.error == AdminRequired
  {
    if c.role == "admin" then Ok(c) else Fail(AdminRequired)
  }

  /** `protect` followed by `admin`, the chain in front of the event write routes. */
  function ProtectAdmin(s: Signer, bearer: Option<Token>, now: int): (r: Response<Claims>)
    ensures r.Ok? <==> Protect(s, bearer, now).Ok? && Protect(s, bearer, now).value.role == "admin"
    ensures r.Ok? ==> r == Protect(s, bearer, now)
    ensures r.Fail? ==> r.error in {Unauthenticated, AdminRequired}
  {
    match Protect(s, bearer, now)
    case Fail(e) => Fail(e)
    case Ok(c) => AdminGate(c)
  }

  /** A freshly issued token is accepted, with the claims it was issued with,
      until 24 hours after it was issued. */
  lemma IssuedTokenAccepted(s: Signer, id: Id, role: string, issuedAt: int, now: int)
    requires s.Sound()
    requires now < issuedAt + TokenLifetime
    ensures Protect(s, Some(s.sign(IssueClaims(id, role, issuedAt))), now)
            == Ok(Claims(id, role, issuedAt, issuedAt + TokenLifetime))
  {
    assert s.verify(s.sign(IssueClaims(id, role, issuedAt))) == Some(IssueClaims(id, role, issuedAt));
  }

  /** From 24 hours after issue on, the same token is refused with 401. */
  lemma IssuedTokenExpires(s: Signer, id: Id, role: string, issuedAt: int, now: int)
    requires s.Sound()
    requires issuedAt + TokenLifetime <= now
    ensures Protect(s, Some(s.sign(IssueClaims(id, role, issuedAt))), now) == Fail(Unauthenticated)
  {
    assert s.verify(s.sign(IssueClaims(id, role, issuedAt))) == Some(IssueClaims(id, role, issuedAt));
  }

  /** The role claim is frozen at issue: a token issued for one role keeps
      passing or failing the `admin` guard by that role for its whole life,
      whatever the user store says later. */
  lemma RoleClaimIsStale(s: Signer, id: Id, role: string, issuedAt: int, now: int)
    requires s.Sound()
    requires now < issuedAt + TokenLifetime
    ensures ProtectAdmin(s, Some(s.sign(IssueClaims(id, role, issuedAt))), now).Ok? <==> role == "admin"
  {
    IssuedTokenAccepted(s, id, role, issuedAt, now);
  }
}
