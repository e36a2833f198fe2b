/** Bearer-token authentication of the admin API: taking the token out of
    the Authorization header (the bearer scheme of section 2.1 of RFC 6750),
    turning it into a principal, and the role allow-list check. Signature
    and expiry checking of the token itself is the token library's, and is a
    parameter here. */
module Auth {
  import opened Records
  import opened Strings

  const Scheme: string := "Bearer "

  /** What the token library's verify does with a token: the decoded claims,
      or an exception (bad signature, expired, malformed). */
  datatype Verification = Decoded(claims: Record) | Rejected(reason: string)

  /** The token in an Authorization header, if the header is present and
      starts with exactly `Bearer ` (case-sensitive, one space). */
  function ExtractToken(authorization: Option<string>): (token: Option<string>)
    ensures token.Some? <==> authorization.Some? && StartsWith(authorization.value, Scheme)
    ensures token.Some? ==> Scheme + token.value == authorization.value
  {
    match authorization
    case None => None
    case Some(header) =>
      if header == "" || !StartsWith(header, Scheme) then None
      else
        assert header == header[..7] + header[7..];
        Some(header[7..])
  }

  /** Putting a token behind `Bearer ` and extracting it gives it back. */
  lemma ExtractTokenRoundTrip(token: string)
    ensures ExtractToken(Some(Scheme + token)) == Some(token)
  {
    assert (Scheme + token)[..7] == Scheme;
    assert (Scheme + token)[7..] == token;
  }

  /** The scheme is matched exactly: another case, a missing space or a
      missing header yields no token, and a second space stays in the token. */
  lemma ExtractTokenIsExact()
    ensures ExtractToken(None) == None
    ensures ExtractToken(Some("bearer abc")) == None
    ensures ExtractToken(Some("BEARER abc")) == None
    ensures ExtractToken(Some("Bearerabc")) == None
    ensures ExtractToken(Some("Bearer  abc")) == Some(" abc")
  {
    assert !StartsWith("bearer abc", Scheme) by { assert "bearer abc"[0] != Scheme[0]; }
    assert !StartsWith("BEARER abc", Scheme) by { assert "BEARER abc"[1] != Scheme[1]; }
    assert !StartsWith("Bearerabc", Scheme) by { assert "Bearerabc"[6] != Scheme[6]; }
    ExtractTokenRoundTrip(" abc");
    assert Scheme + " abc" == "Bearer  abc";
  }

  /** verifyToken: the claims, or null whenever the library throws. */
  function VerifyToken(verify: string -> Verification, token: string): (principal: Option<Record>)
    ensures principal.None? <==> verify(token).Rejected?
    ensures principal.Some? ==> principal.value == verify(token).claims
  {
    match verify(token)
    case Decoded(claims) => Some(claims)
    case Rejected(_) => None
  }

  /** authenticate: the principal of a request. A missing header, another
      scheme, or an empty token gives no principal without the token
      library being consulted; otherwise the result is the library's. */
  function Authenticate(authorization: Option<string>, verify: string -> Verification): (principal: Option<Record>)
    ensures principal.Some? ==>
      && authorization.Some? && |authorization.value| > |Scheme| && StartsWith(authorization.value, Scheme)
      && verify(authorization.value[|Scheme|..]) == Decoded(principal.value)
    ensures authorization.Some? && |authorization.value| > |Scheme| && StartsWith(authorization.value, Scheme) ==>
      (principal.None? <==> verify(authorization.value[|Scheme|..]).Rejected?)
  {
    match ExtractToken(authorization)
    case None => None
    case Some(token) =>
      if token == "" then None else VerifyToken(verify, token)
  }

  /** Without a non-empty bearer token the outcome is the same whichever
      token library is used: none. */
  lemma AuthenticateIgnoresVerifierWithoutToken(authorization: Option<string>, v1: string -> Verification, v2: string -> Verification)
    requires authorization.None? || !StartsWith(authorization.value, Scheme) || |authorization.value| == |Scheme|
    ensures Authenticate(authorization, v1) == None
    ensures Authenticate(authorization, v2) == None
  {
  }

  /** hasRole: the principal has a role and it is one of the allowed roles.
      A missing principal, or a role that is missing, null or empty, never
      passes; a role that is not a string is never among the allowed ones. */
  function HasRole(user: Option<Record>, allowedRoles: seq<string>): (ok: bool)
    ensures ok <==>
      && user.Some? && "role" in user.value
      && user.value["role"].Str? && user.value["role"].s != ""
      && user.value["role"].s in allowedRoles
  {
    if user.None? || !Truthy(Field(user.value, "role")) then false
    else
      var role := Field(user.value, "role");
      role.Str? && role.s in allowedRoles
  }

  /** No principal has a role in an empty allow-list, and enlarging the list
      never withdraws access. */
  lemma HasRoleMonotone(user: Option<Record>, roles: seq<string>, more: seq<string>)
    requires forall r :: r in roles ==> r in more
    ensures !HasRole(user, [])
    ensures HasRole(user, roles) ==> HasRole(user, more)
  {
  }
}
