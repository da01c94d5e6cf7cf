/**
 * Bearer-token handling of src/lib/auth.ts and the two authentication gates
 * every API handler opens with.
 *
 * `jwt.verify` is a foreign library: it is modelled by `tokens`, the map from
 * every token string it would accept (right secret, not expired) to the
 * claims it would decode. Any other string is rejected.
 */
module Auth {
  import opened Types

  const BearerPrefix := "Bearer "

  /** The header the client interceptor sends (src/lib/axios.ts:19). */
  function BearerHeader(token: string): string
  {
    BearerPrefix + token
  }

  /** `getTokenFromHeader`: the text after a case-sensitive `"Bearer "` prefix, or nothing. */
  function TokenFromHeader(header: Option<string>): (t: Option<string>)
    ensures t.Some? <==> header.Some? && StartsWith(header.value, BearerPrefix)
    ensures t.Some? ==> header.value == BearerHeader(t.value)
  {
    if header.None? || header.value == "" || !StartsWith(header.value, BearerPrefix) then None
    else Some(header.value[|BearerPrefix|..])
  }

  /** The client's header always yields back the token it was built from. */
  lemma {:induction false} HeaderRoundTrip(token: string)
    ensures TokenFromHeader(Some(BearerHeader(token))) == Some(token)
  {
    var h := BearerHeader(token);
    assert h[..|BearerPrefix|] == BearerPrefix;
    assert h[|BearerPrefix|..] == token;
  }

  /** A missing header, an empty one, or one without the exact prefix gives no token. */
  lemma NoTokenWithoutPrefix(header: Option<string>)
    requires header.None? || header.value == "" || !StartsWith(header.value, "Bearer ")
    ensures TokenFromHeader(header) == None
  {
  }

  /** `verifyToken`: fails closed, decoding only tokens the signing key accepts. */
  function Verify(tokens: map<string, Claims>, token: string): (c: Option<Claims>)
    ensures c.Some? <==> token in tokens
    ensures c.Some? ==> c.value == tokens[token]
  {
    if token in tokens then Some(tokens[token]) else None
  }

  /** The token as the handlers see it: `if (!token)` also rejects the empty string. */
  function PresentedToken(header: Option<string>): (t: Option<string>)
    ensures t.Some? ==> t.value != "" && header.Some? && header.value == BearerHeader(t.value)
    ensures t.None? ==> TokenFromHeader(header).None? || TokenFromHeader(header) == Some("")
  {
    var t := TokenFromHeader(header);
    if t.Some? && t.value != "" then t else None
  }

  /** The header `"Bearer "` carries the empty token, which counts as no token at all. */
  lemma {:induction false} BareBearerIsMissing()
    ensures TokenFromHeader(Some("Bearer ")) == Some("")
    ensures PresentedToken(Some("Bearer ")) == None
  {
    HeaderRoundTrip("");
  }

  datatype Gate = Pass(claims: Claims) | Deny(reply: Reply)

  const Unauthorized := Reply(401, Error("Unauthorized"))
  const InvalidToken := Reply(401, Error("Invalid token"))
  const AdminRequired := Reply(403, Error("Admin access required"))

  /**
   * The gate of the read routes (GET orders, deliveries, drivers): any
   * verifiable token passes, whatever its role, and both failures are 401.
   */
  function ReadGate(header: Option<string>, tokens: map<string, Claims>): (g: Gate)
    ensures PresentedToken(header).None? ==> g == Deny(Unauthorized)
    ensures PresentedToken(header).Some? && PresentedToken(header).value !in tokens ==> g == Deny(InvalidToken)
    ensures g.Pass? <==> PresentedToken(header).Some? && PresentedToken(header).value in tokens
    ensures g.Pass? ==> g.claims == tokens[PresentedToken(header).value]
  {
    var t := PresentedToken(header);
    if t.None? then Deny(Unauthorized)
    else
      var c := Verify(tokens, t.value);
      if c.None? then Deny(InvalidToken) else Pass(c.value)
  }

  /**
   * The gate of the admin routes: a missing token is 401, while an invalid
   * token and a valid non-admin token are both 403.
   */
  function AdminGate(header: Option<string>, tokens: map<string, Claims>): (g: Gate)
    ensures PresentedToken(header).None? ==> g == Deny(Unauthorized)
    ensures PresentedToken(header).Some? && g.Deny? ==> g == Deny(AdminRequired)
    ensures g.Pass? <==> PresentedToken(header).Some? && PresentedToken(header).value in tokens
                         && tokens[PresentedToken(header).value].role == "admin"
    ensures g.Pass? ==> g.claims == tokens[PresentedToken(header).value] && g.claims.role == "admin"
  {
    var t := PresentedToken(header);
    if t.None? then Deny(Unauthorized)
    else
      var c := Verify(tokens, t.value);
      if c.None? || c.value.role != "admin" then Deny(AdminRequired) else Pass(c.value)
  }

  /**
   * The two gates disagree on a bad token: the read gate answers 401 where
   * the admin gate answers 403. Whatever passes the admin gate passes the read gate.
   */
  lemma {:induction false} GatesOnInvalidToken(header: Option<string>, tokens: map<string, Claims>)
    ensures PresentedToken(header).Some? && PresentedToken(header).value !in tokens ==>
      ReadGate(header, tokens).reply.status == 401 && AdminGate(header, tokens).reply.status == 403
    ensures AdminGate(header, tokens).Pass? ==> ReadGate(header, tokens) == AdminGate(header, tokens)
  {
  }

  /** A token whose role is not admin passes the read gate but not the admin gate. */
  lemma {:induction false} DriverTokenGates(token: string, tokens: map<string, Claims>)
    requires token != "" && token in tokens && tokens[token].role != "admin"
    ensures ReadGate(Some(BearerHeader(token)), tokens) == Pass(tokens[token])
    ensures AdminGate(Some(BearerHeader(token)), tokens) == Deny(AdminRequired)
  {
    HeaderRoundTrip(token);
  }
}
