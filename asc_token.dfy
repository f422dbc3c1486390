/** The claims and key preparation of `generateAscJwt` (action.js:23-46): a
    guard on the three credentials, the PEM newline normalisation, and the
    registered claims of section 4.1 of RFC 7519 (iss, aud, iat, exp). The ES256
    signature itself is an oracle supplied by the caller. */
module AscToken {
  import opened Results
  import opened Errors

  /** The `aud` claim App Store Connect expects. */
  const Audience: string := "appstoreconnect-v1"
  /** The token lifetime: `exp = iat + 10 * 60`. */
  const LifetimeSeconds: int := 10 * 60
  /** The JWS algorithm passed to the signer. */
  const Algorithm: string := "ES256"

  datatype Credentials = Credentials(keyId: string, issuerId: string, privateKey: string)

  /** The JWT payload. Times are Unix seconds. */
  datatype Claims = Claims(iss: string, aud: string, iat: int, exp: int)

  /** Everything `jwt.sign` receives: the payload, the normalised key and the header options. */
  datatype SigningInput = SigningInput(payload: Claims, key: string, algorithm: string, keyId: string)

  /** All three credentials are truthy, i.e. non-empty strings. */
  predicate HasCredentials(c: Credentials) {
    c.keyId != "" && c.issuerId != "" && c.privateKey != ""
  }

  /** The literal two-character sequence backslash, `n` starts at index i of s. */
  predicate EscapeAt(s: string, i: int) {
    0 <= i && i + 1 < |s| && s[i] == '\\' && s[i + 1] == 'n'
  }

  predicate HasEscapedNewline(s: string) {
    exists i | 0 <= i < |s| :: EscapeAt(s, i)
  }

  /** `privateKey.replace(/\\n/g, "\n")`: a left-to-right scan that replaces
      every non-overlapping backslash-`n` pair by a newline. */
  function NormalizeKey(pem: string): string
    decreases |pem|
  {
    if |pem| == 0 then ""
    else if EscapeAt(pem, 0) then "\n" + NormalizeKey(pem[2..])
    else [pem[0]] + NormalizeKey(pem[1..])
  }

  /** The single-line form a multi-line PEM takes in a secret store: every
      newline written as backslash-`n`. */
  function EscapeNewlines(s: string): string
  {
    if |s| == 0 then ""
    else (if s[0] == '\n' then "\\n" else [s[0]]) + EscapeNewlines(s[1..])
  }

  /** `Math.floor(Date.now() / 1000)`: the Unix time in whole seconds. */
  function IssuedAt(nowMs: int): (iat: int)
    ensures iat * 1000 <= nowMs < iat * 1000 + 1000
  {
    nowMs / 1000
  }

  /** The guard, the normalisation and the payload of `generateAscJwt`,
      stopping just before the call to `jwt.sign`. */
  function TokenRequest(c: Credentials, nowMs: int): (r: Result<SigningInput, Error>)
    ensures r.Err? <==> !HasCredentials(c)
    ensures r.Err? ==> r.error == MissingCredentials
    ensures r.Ok? ==> r.value.payload.iss == c.issuerId && r.value.payload.aud == Audience
    ensures r.Ok? ==> r.value.payload.iat * 1000 <= nowMs < r.value.payload.iat * 1000 + 1000
    ensures r.Ok? ==> r.value.payload.exp == r.value.payload.iat + 600
    ensures r.Ok? ==> r.value.keyId == c.keyId && r.value.algorithm == "ES256"
    ensures r.Ok? ==> r.value.key == NormalizeKey(c.privateKey) && !HasEscapedNewline(r.value.key)
  {
    if !HasCredentials(c) then
      Err(MissingCredentials)
    else
      NormalizeLeavesNoEscape(c.privateKey);
      var now := IssuedAt(nowMs);
      Ok(SigningInput(Claims(c.issuerId, Audience, now, now + LifetimeSeconds),
                      NormalizeKey(c.privateKey), Algorithm, c.keyId))
  }

  /** `generateAscJwt`: the token request handed to the signer. A missing
      credential fails before the signer is consulted, whatever it is. */
  function GenerateAscJwt(c: Credentials, nowMs: int, sign: SigningInput -> Result<string, Error>): (r: Result<string, Error>)
    ensures !HasCredentials(c) ==> r == Err(MissingCredentials)
    ensures HasCredentials(c) ==> r == sign(TokenRequest(c, nowMs).value)
  {
    var request :- TokenRequest(c, nowMs);
    sign(request)
  }

  /** The first character of the normalised key. */
  lemma NormalizeHead(s: string)
    requires |s| > 0
    ensures |NormalizeKey(s)| > 0
    ensures NormalizeKey(s)[0] == if EscapeAt(s, 0) then '\n' else s[0]
  {
  }

  /** After normalisation no backslash is followed by `n`. */
  lemma {:induction false} NormalizeLeavesNoEscape(s: string)
    ensures !HasEscapedNewline(NormalizeKey(s))
    decreases |s|
  {
    var key := NormalizeKey(s);
    if |s| == 0 {
    } else if EscapeAt(s, 0) {
      var rest := NormalizeKey(s[2..]);
      NormalizeLeavesNoEscape(s[2..]);
      assert key == "\n" + rest;
      forall i | EscapeAt(key, i) ensures EscapeAt(rest, i - 1) {
      }
    } else {
      var rest := NormalizeKey(s[1..]);
      NormalizeLeavesNoEscape(s[1..]);
      assert key == [s[0]] + rest;
      if |s| > 1 {
        NormalizeHead(s[1..]);
      }
      forall i | EscapeAt(key, i) ensures EscapeAt(rest, i - 1) {
      }
    }
  }

  /** A key with no backslash-`n` pair is returned unchanged. */
  lemma {:induction false} NormalizeUnchanged(s: string)
    requires !HasEscapedNewline(s)
    ensures NormalizeKey(s) == s
    decreases |s|
  {
    if |s| > 0 {
      assert !EscapeAt(s, 0);
      forall i | EscapeAt(s[1..], i) ensures EscapeAt(s, i + 1) {
      }
      NormalizeUnchanged(s[1..]);
    }
  }

  /** Normalising twice gives the same key as normalising once. */
  lemma NormalizeIdempotent(s: string)
    ensures NormalizeKey(NormalizeKey(s)) == NormalizeKey(s)
  {
    NormalizeLeavesNoEscape(s);
    NormalizeUnchanged(NormalizeKey(s));
  }

  lemma EscapeHead(s: string)
    requires |s| > 0
    ensures |EscapeNewlines(s)| > 0
    ensures EscapeNewlines(s)[0] == if s[0] == '\n' then '\\' else s[0]
  {
  }

  /** Normalisation recovers a multi-line key from its single-line form,
      provided the key itself holds no literal backslash-`n` pair. */
  lemma {:induction false} NormalizeUndoesEscape(s: string)
    requires !HasEscapedNewline(s)
    ensures NormalizeKey(EscapeNewlines(s)) == s
    decreases |s|
  {
    if |s| > 0 {
      var e, tail := EscapeNewlines(s), EscapeNewlines(s[1..]);
      assert !EscapeAt(s, 0);
      forall i | EscapeAt(s[1..], i) ensures EscapeAt(s, i + 1) {
      }
      NormalizeUndoesEscape(s[1..]);
      if s[0] == '\n' {
        assert e == "\\n" + tail;
        assert e[2..] == tail;
      } else {
        assert e == [s[0]] + tail;
        if |s| > 1 {
          EscapeHead(s[1..]);
        }
        assert !EscapeAt(e, 0);
        assert e[1..] == tail;
      }
    }
  }
}
