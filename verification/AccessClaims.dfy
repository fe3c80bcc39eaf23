/**
 * The signed access token of an OAuth connection: what is put in, and when it reads back.
 *
 * A signature is a flag here: only this server's signer sets it. The checks of the verifying library are the
 * ones the caller asks for, with its rule that a token is expired once exp <= now - tolerance in whole seconds.
 */
module AccessClaims {
  import opened Wrappers
  import opened Text
  import opened Config

  datatype Claim = Str(text: string) | Num(number: int) | Other

  datatype Jwt = Jwt(ours: bool, typ: string, payload: map<string, Claim>)

  datatype SignInput = SignInput(
    issuer: string, audience: string, userId: string, clientId: string, grantId: string, scopes: seq<string>)

  datatype GrantAccessClaims = GrantAccessClaims(
    userId: string, clientId: string, grantId: string, scopes: seq<string>, jti: string, exp: int)

  function Sign(input: SignInput, jti: string, nowMs: nat): Jwt {
    Jwt(true, "at+jwt", map[
      "iss" := Str(input.issuer),
      "aud" := Str(input.audience),
      "sub" := Str(input.userId),
      "jti" := Str(jti),
      "iat" := Num(Sec(nowMs)),
      "exp" := Num(Sec(nowMs) + OAUTH_ACCESS_TTL_SEC),
      "client_id" := Str(input.clientId),
      "scope" := Str(Join(input.scopes, ' ')),
      "gid" := Str(input.grantId)])
  }

  function ReadString(payload: map<string, Claim>, name: string): Option<string> {
    if name in payload && payload[name].Str? && payload[name].text != "" then Some(payload[name].text) else None
  }

  function ReadClaims(payload: map<string, Claim>): Option<GrantAccessClaims> {
    var userId := ReadString(payload, "sub");
    var clientId := ReadString(payload, "client_id");
    var grantId := ReadString(payload, "gid");
    var jti := ReadString(payload, "jti");
    var scope := ReadString(payload, "scope");
    if userId.None? || clientId.None? || grantId.None? || jti.None? || scope.None? then None
    else if "exp" !in payload || !payload["exp"].Num? then None
    else Some(GrantAccessClaims(userId.value, clientId.value, grantId.value,
                                Words(scope.value), jti.value, payload["exp"].number))
  }

  const REQUIRED := {"sub", "jti", "exp", "client_id", "scope", "gid"}

  /** The checks asked of the verifying library. */
  predicate PassesLibrary(jwt: Jwt, issuer: string, audience: string, nowMs: nat) {
    && jwt.ours
    && jwt.typ == "at+jwt"
    && REQUIRED <= jwt.payload.Keys
    && "iss" in jwt.payload && jwt.payload["iss"] == Str(issuer)
    && "aud" in jwt.payload && jwt.payload["aud"] == Str(audience)
    && jwt.payload["exp"].Num?
    && jwt.payload["exp"].number > Sec(nowMs) as int - CLOCK_TOLERANCE_SEC as int
  }

  function Verify(jwt: Jwt, issuer: string, audience: string, nowMs: nat): Option<GrantAccessClaims> {
    if PassesLibrary(jwt, issuer, audience, nowMs) then ReadClaims(jwt.payload) else None
  }

  /** Everything a token needs to name; the scope list may still be empty. */
  predicate Named(input: SignInput, jti: string) {
    && input.userId != "" && input.clientId != "" && input.grantId != "" && jti != ""
    && forall scope :: scope in input.scopes ==> scope != "" && ' ' !in scope
  }

  /**
   * A minted token verifies, and reads back as signed, exactly for its own issuer and audience, up to five
   * seconds past its expiry, and only if it carries a scope.
   */
  lemma MintedVerifiesExactly(input: SignInput, jti: string, signedAt: nat, issuer: string, audience: string, nowMs: nat)
    requires Named(input, jti)
    ensures var read := Verify(Sign(input, jti, signedAt), issuer, audience, nowMs);
            && (read.Some? <==>
                  && issuer == input.issuer && audience == input.audience
                  && Sec(nowMs) < Sec(signedAt) + OAUTH_ACCESS_TTL_SEC + CLOCK_TOLERANCE_SEC
                  && input.scopes != [])
            && (read.Some? ==> read.value == GrantAccessClaims(input.userId, input.clientId, input.grantId,
                                                               input.scopes, jti, Sec(signedAt) + OAUTH_ACCESS_TTL_SEC))
  {
    var payload := Sign(input, jti, signedAt).payload;
    assert REQUIRED <= payload.Keys;
    WordsOfJoin(input.scopes);
    JoinIsEmpty(input.scopes);
    assert ReadString(payload, "sub") == Some(input.userId);
    assert ReadString(payload, "scope") == if input.scopes == [] then None else Some(Join(input.scopes, ' '));
  }

  /** The claim is there and is a string with something in it. */
  ghost predicate HasText(payload: map<string, Claim>, name: string, text: string) {
    name in payload && payload[name] == Str(text) && text != ""
  }

  /**
   * Whoever made a token: it verifies, as these claims, exactly if this server signed it as an access token, for this
   * issuer and audience, not past its expiry plus the tolerance, and each claim is there as a non-empty string.
   */
  lemma VerifiesExactly(jwt: Jwt, issuer: string, audience: string, nowMs: nat, claims: GrantAccessClaims)
    ensures Verify(jwt, issuer, audience, nowMs) == Some(claims) <==>
      && jwt.ours && jwt.typ == "at+jwt"
      && "iss" in jwt.payload && jwt.payload["iss"] == Str(issuer)
      && "aud" in jwt.payload && jwt.payload["aud"] == Str(audience)
      && HasText(jwt.payload, "sub", claims.userId) && HasText(jwt.payload, "client_id", claims.clientId)
      && HasText(jwt.payload, "gid", claims.grantId) && HasText(jwt.payload, "jti", claims.jti)
      && "exp" in jwt.payload && jwt.payload["exp"] == Num(claims.exp)
      && Sec(nowMs) < claims.exp + CLOCK_TOLERANCE_SEC
      && exists scope :: HasText(jwt.payload, "scope", scope) && claims.scopes == Words(scope)
  {
    hide Words;
    if REQUIRED <= jwt.payload.Keys && jwt.payload["scope"].Str? {
      assert jwt.payload["scope"] == Str(jwt.payload["scope"].text);
    }
    if Verify(jwt, issuer, audience, nowMs) == Some(claims) {
      assert HasText(jwt.payload, "scope", jwt.payload["scope"].text);
    }
  }
}
