/**
 * Shapes of the opaque tokens: `<prefix><id>.<secret>`.
 *
 * Three families share the shape and differ in the prefix alone: first-party
 * access and refresh tokens, and the refresh tokens of OAuth connections.
 */
module TokenFormat {
  import opened Wrappers
  import opened Text

  const ACCESS_PREFIX := "nf_at_"
  const REFRESH_PREFIX := "nf_rt_"
  const GRANT_REFRESH_PREFIX := "nf_grt_"

  datatype Parts = Parts(id: string, secret: string)

  function Mint(prefix: string, parts: Parts): string {
    prefix + parts.id + "." + parts.secret
  }

  /** The shared parser: everything the three parsers of tokens do. */
  function Parse(prefix: string, token: string): Option<Parts> {
    if !(prefix <= token) then None
    else
      var body := token[|prefix|..];
      var dot := IndexOf(body, '.');
      if dot <= 0 || dot == |body| - 1 then None
      else
        var secret := body[dot + 1..];
        if '.' in secret then None else Some(Parts(body[..dot], secret))
  }

  ghost predicate WellShaped(parts: Parts) {
    parts.id != "" && parts.secret != "" && '.' !in parts.id && '.' !in parts.secret
  }

  lemma {:induction false} IndexOfConcat(id: string, rest: string)
    requires '.' !in id
    ensures IndexOf(id + "." + rest, '.') == |id|
  {
    if id != "" {
      assert (id + "." + rest)[1..] == id[1..] + "." + rest;
      IndexOfConcat(id[1..], rest);
    }
  }

  lemma MintedParses(prefix: string, parts: Parts)
    requires WellShaped(parts)
    ensures Parse(prefix, Mint(prefix, parts)) == Some(parts)
  {
    var body := parts.id + "." + parts.secret;
    assert Mint(prefix, parts) == prefix + body;
    assert Mint(prefix, parts)[|prefix|..] == body;
    IndexOfConcat(parts.id, parts.secret);
    assert body[..|parts.id|] == parts.id;
    assert body[|parts.id| + 1..] == parts.secret;
  }

  lemma ParsedWasMinted(prefix: string, token: string)
    requires Parse(prefix, token).Some?
    ensures token == Mint(prefix, Parse(prefix, token).value) && WellShaped(Parse(prefix, token).value)
  {
    var body := token[|prefix|..];
    var dot := IndexOf(body, '.');
    assert token == prefix + body;
    assert body == body[..dot] + "." + body[dot + 1..];
  }

  /** Parsing succeeds on exactly the strings the minters build, and gives the id and secret back. */
  lemma ParseUndoesMint(prefix: string, token: string, parts: Parts)
    ensures Parse(prefix, token) == Some(parts) <==> token == Mint(prefix, parts) && WellShaped(parts)
  {
    hide Parse, Mint;
    if token == Mint(prefix, parts) && WellShaped(parts) {
      MintedParses(prefix, parts);
    }
    if Parse(prefix, token) == Some(parts) {
      ParsedWasMinted(prefix, token);
    }
  }

  /** A string is refused exactly when no id and secret could have produced it. */
  lemma ParseRefuses(prefix: string, token: string)
    ensures Parse(prefix, token) == None
            <==> forall parts :: WellShaped(parts) ==> token != Mint(prefix, parts)
  {
    forall parts | WellShaped(parts) ensures Parse(prefix, token) == None ==> token != Mint(prefix, parts) {
      ParseUndoesMint(prefix, token, parts);
    }
    if Parse(prefix, token).Some? {
      ParseUndoesMint(prefix, token, Parse(prefix, token).value);
    }
  }

  /** No string is a token of two families: presenting one at the wrong endpoint fails to parse. */
  lemma FamiliesAreDisjoint(token: string)
    ensures Parse(ACCESS_PREFIX, token).None? || Parse(REFRESH_PREFIX, token).None?
    ensures Parse(ACCESS_PREFIX, token).None? || Parse(GRANT_REFRESH_PREFIX, token).None?
    ensures Parse(REFRESH_PREFIX, token).None? || Parse(GRANT_REFRESH_PREFIX, token).None?
  {
    if ACCESS_PREFIX <= token { assert token[3] == ACCESS_PREFIX[3]; }
    if REFRESH_PREFIX <= token { assert token[3] == REFRESH_PREFIX[3]; }
    if GRANT_REFRESH_PREFIX <= token { assert token[3] == GRANT_REFRESH_PREFIX[3]; }
  }

  /** Two tokens of one family are equal only if id and secret both are. */
  lemma MintIsInjective(prefix: string, a: Parts, b: Parts)
    requires WellShaped(a) && WellShaped(b) && Mint(prefix, a) == Mint(prefix, b)
    ensures a == b
  {
    ParseUndoesMint(prefix, Mint(prefix, a), a);
    ParseUndoesMint(prefix, Mint(prefix, b), b);
  }
}
