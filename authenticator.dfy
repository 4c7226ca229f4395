/** Authentication of push notifications: the bearer token is taken out of the
    `Authorization` header and the verified identity claim is checked against the
    configured notifier identity. Signature, issuer and expiry verification is an outside
    capability, seen here only through its outcome; it is given the token alone, with no
    expected audience. */
module Authenticator {
  import opened Wrappers
  import opened Strings

  const Bearer: string := "Bearer "

  /** The characters that end a line for the `.` of a JavaScript regular expression. */
  predicate IsLineTerminator(c: char) {
    c == '\n' || c == '\r' || c == '\U{2028}' || c == '\U{2029}'
  }

  predicate HasLineTerminator(s: string) {
    exists i :: 0 <= i < |s| && IsLineTerminator(s[i])
  }

  /** What `(.*)` captures: the longest prefix of `s` that holds no line terminator. */
  function RestOfLine(s: string): (r: string)
    ensures r <= s && !HasLineTerminator(r)
    ensures |r| == |s| || IsLineTerminator(s[|r|])
  {
    if s == [] || IsLineTerminator(s[0]) then []
    else
      var tail := RestOfLine(s[1..]);
      assert forall i :: 1 <= i <= |tail| ==> ([s[0]] + tail)[i] == tail[i - 1];
      [s[0]] + tail
  }

  /** `Bearer ` occurs at `i` in `h` and nowhere to its left. */
  predicate IsFirstBearer(h: string, i: int) {
    OccursAt(h, Bearer, i) && forall j :: 0 <= j < i ==> !OccursAt(h, Bearer, j)
  }

  /** The token taken from the `Authorization` header: a missing header counts as the
      empty one; the unanchored search finds the leftmost `Bearer `; the token is the rest
      of that line; an empty token counts as no token. */
  function ExtractToken(authorization: Option<string>): (token: Option<string>)
    ensures authorization.None? ==> token.None?
    ensures token.Some? ==> token.value != [] && !HasLineTerminator(token.value)
    ensures (forall j :: 0 <= j <= |authorization.GetOr("")| ==>
               !OccursAt(authorization.GetOr(""), Bearer, j)) ==> token.None?
    ensures forall i :: IsFirstBearer(authorization.GetOr(""), i) ==>
              token == (var t := RestOfLine(authorization.GetOr("")[i + |Bearer|..]);
                        if t == [] then None else Some(t))
  {
    var h := authorization.GetOr("");
    match Find(h, Bearer)
    case None => None
    case Some(i) =>
      var t := RestOfLine(h[i + |Bearer|..]);
      if t == [] then None else Some(t)
  }

  /** A header `Bearer <t>` yields exactly `t` when `t` is non-empty and holds no line break. */
  lemma BearerHeaderToken(t: string)
    requires t != [] && !HasLineTerminator(t)
    ensures ExtractToken(Some(Bearer + t)) == Some(t)
  {
    LeftmostBearerWins([], t);
    assert [] + Bearer + t == Bearer + t;
  }

  /** The search is unanchored and leftmost: whatever text `p` comes before the first
      `Bearer `, the token is the rest of that line, any later `Bearer ` included. */
  lemma LeftmostBearerWins(p: string, t: string)
    requires t != [] && !HasLineTerminator(t)
    requires forall j :: 0 <= j < |p| ==> !OccursAt(p + Bearer + t, Bearer, j)
    ensures ExtractToken(Some(p + Bearer + t)) == Some(t)
  {
    var h := p + Bearer + t;
    assert h[|p|..|p| + |Bearer|] == Bearer;
    assert IsFirstBearer(h, |p|);
    assert h[|p| + |Bearer|..] == t;
    assert RestOfLine(t) == t;
  }

  /** The identity claim carried by a verified token (`email`, `email_verified`). */
  datatype Claim = Claim(email: Option<string>, emailVerified: Option<bool>)

  /** What the identity verifier reports: a rejected token, or the ticket's payload. */
  datatype VerifyOutcome = VerifyFailed | Verified(payload: Option<Claim>)

  datatype AuthFailure = MissingToken | InvalidToken | NoClaims | EmailUnverified | IdentityMismatch

  datatype AuthResult = Authenticated | Rejected(reason: AuthFailure)

  /** A claim that passes both checks: `email_verified` is true and `email` is exactly the
      expected notifier identity. */
  predicate Acceptable(expectedEmail: string, c: Claim) {
    c.emailVerified == Some(true) && c.email == Some(expectedEmail)
  }

  /** The claim checks run on the verifier's outcome, in the order `validateIDToken` runs them. */
  function CheckClaims(expectedEmail: string, outcome: VerifyOutcome): (r: AuthResult)
    ensures r.Authenticated? <==> outcome.Verified? && outcome.payload.Some? &&
                                  Acceptable(expectedEmail, outcome.payload.value)
    ensures outcome.VerifyFailed? ==> r == Rejected(InvalidToken)
    ensures outcome == Verified(None) ==> r == Rejected(NoClaims)
    ensures (outcome.Verified? && outcome.payload.Some? &&
             outcome.payload.value.emailVerified != Some(true)) ==> r == Rejected(EmailUnverified)
  {
    match outcome
    case VerifyFailed => Rejected(InvalidToken)
    case Verified(None) => Rejected(NoClaims)
    case Verified(Some(c)) =>
      if c.emailVerified != Some(true) then Rejected(EmailUnverified)
      else if c.email != Some(expectedEmail) then Rejected(IdentityMismatch)
      else Authenticated
  }

  /** The whole check: a token must be present, and the verifier's outcome on that token
      must pass the claim checks. */
  function Authenticate(expectedEmail: string, authorization: Option<string>,
                        verifier: string -> VerifyOutcome): (r: AuthResult)
    ensures ExtractToken(authorization).None? ==> r == Rejected(MissingToken)
    ensures r.Authenticated? <==>
              ExtractToken(authorization).Some? &&
              CheckClaims(expectedEmail, verifier(ExtractToken(authorization).value)).Authenticated?
  {
    match ExtractToken(authorization)
    case None => Rejected(MissingToken)
    case Some(t) => CheckClaims(expectedEmail, verifier(t))
  }

  /** No header at all never authenticates, whatever the verifier would say. */
  lemma MissingHeaderRejected(expectedEmail: string, verifier: string -> VerifyOutcome)
    ensures Authenticate(expectedEmail, None, verifier) == Rejected(MissingToken)
  {
  }
}
