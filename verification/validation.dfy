/**
 * The token validator (`checkJWT` in ldap.go). Signature checking and
 * claim parsing belong to the JWT library and are an input (`parse`);
 * so are base64 decoding and the scope's JSON parser. What is modelled is
 * the string handling around them: the three-segment test of the JWS
 * compact serialization (section 7.1 of RFC 7515), restoring the `=`
 * padding of the base64url payload (section 2 of RFC 7515, section 3.2 of
 * RFC 4648), slicing the embedded scope out of the decoded payload, and the
 * classification of the library's validation errors.
 */
module Validation {
  import opened Wrappers
  import opened GoStrings
  import opened Minting

  /** Bits of jwt-go's `ValidationError.Errors` mask that the validator tests. */
  const ValidationErrorMalformed: bv32 := 1
  const ValidationErrorExpired: bv32 := 16
  const ValidationErrorNotValidYet: bv32 := 128

  const NonToken := "Non-token passed"
  const ExpiredOrInactive := "Token is either expired or not active yet"
  const CouldNotHandle := "Could not handle token"
  const CouldNotProcess := "could not process JWT"
  const EmptyJWT := "empty JWT passed"
  const NonClaim := "Non-claim based JWT given"
  const ImproperlyFormatted := "improperly formatted JWT"

  /** The text that precedes the embedded scope's value in the decoded claim set. */
  const PermissionsKey := "\"Permissions\":"

  /**
   * A token as the JWT library returns it: the raw string, the claims if
   * they are of the claim-set type the validator asked for, and whether the
   * library found the token valid.
   */
  datatype Token = Token(raw: string, claims: Option<Claims>, valid: bool)

  /**
   * What parsing and verifying a token string yields: an error (with the
   * library's validation bitmask when the error is a `ValidationError`), or
   * a possibly nil token.
   */
  datatype ParseOutcome =
    | ParseFailed(flags: Option<bv32>, msg: string)
    | Parsed(token: Option<Token>)

  /**
   * The message for a validation error: a malformed token takes priority
   * over expiry, which takes priority over every other cause.
   */
  function ClassifyValidation(flags: bv32): (msg: string)
    ensures msg == NonToken <==> flags & ValidationErrorMalformed != 0
    ensures msg == ExpiredOrInactive <==>
      flags & ValidationErrorMalformed == 0 &&
      flags & (ValidationErrorExpired | ValidationErrorNotValidYet) != 0
    ensures msg == CouldNotHandle <==>
      flags & (ValidationErrorMalformed | ValidationErrorExpired | ValidationErrorNotValidYet) == 0
  {
    if flags & ValidationErrorMalformed != 0 then NonToken
    else if flags & (ValidationErrorExpired | ValidationErrorNotValidYet) != 0 then ExpiredOrInactive
    else CouldNotHandle
  }

  /**
   * The payload segment with its base64 padding restored: the shortest
   * extension of `s` by `=` characters whose length is a multiple of 4.
   */
  function Padded(s: string): (r: string)
    ensures |r| % 4 == 0
    ensures |s| <= |r| < |s| + 4
    ensures r[..|s|] == s
    ensures forall i :: |s| <= i < |r| ==> r[i] == '='
    ensures |s| % 4 == 0 ==> r == s
  {
    var trailing := |s| % 4;
    if trailing != 0 then s + Repeat('=', 4 - trailing) else s
  }

  /** Where the scope's value starts: just after the first `"Permissions":`. */
  function SliceStart(body: string): int {
    IndexOf(body, PermissionsKey) + |PermissionsKey|
  }

  /**
   * The slice `body[start : len(body)-1]` does not panic. When the key is
   * absent `strings.Index` gives -1 and the slice starts at `|key| - 1`.
   */
  predicate SliceInBounds(body: string) {
    SliceStart(body) <= |body| - 1
  }

  /**
   * The text from just after the first `"Permissions":` up to, but not
   * including, the last character of the decoded payload.
   */
  function PermissionsSlice(body: string): (json: string)
    requires SliceInBounds(body)
    ensures Contains(body, PermissionsKey) ==>
      body == body[..IndexOf(body, PermissionsKey)] + PermissionsKey + json + [body[|body| - 1]]
    ensures !Contains(body, PermissionsKey) ==>
      json == body[|PermissionsKey| - 1..|body| - 1]
  {
    var start := SliceStart(body);
    if Contains(body, PermissionsKey) then
      var i := IndexOf(body, PermissionsKey);
      assert body[i..start] == PermissionsKey;
      assert body == body[..i] + body[i..start] + body[start..|body| - 1] + [body[|body| - 1]];
      body[start..|body| - 1]
    else
      body[start..|body| - 1]
  }

  /**
   * The slice recovers the embedded scope: when the payload is
   * `pre + "Permissions": + json + }` and the key does not occur earlier,
   * the slice is in bounds and is exactly `json`.
   */
  lemma ExtractRoundTrip(pre: string, json: string)
    requires !Contains(pre + PermissionsKey[..|PermissionsKey| - 1], PermissionsKey)
    ensures SliceInBounds(pre + PermissionsKey + json + "}")
    ensures PermissionsSlice(pre + PermissionsKey + json + "}") == json
  {
    var body := pre + PermissionsKey + json + "}";
    var head := pre + PermissionsKey[..|PermissionsKey| - 1];
    assert body[|pre|..|pre| + |PermissionsKey|] == PermissionsKey;
    assert body[..|head|] == head;
    forall j | 0 <= j < |pre|
      ensures !MatchAt(body, j, PermissionsKey)
    {
      MatchInPrefix(body, head, j, PermissionsKey);
    }
    IndexOfUnique(body, PermissionsKey, |pre|);
    assert body[|pre| + |PermissionsKey|..|body| - 1] == json;
  }

  /** A JWS compact serialization of three dot-free segments splits into exactly those segments. */
  lemma CompactSegments(header: string, payload: string, signature: string)
    requires Dot !in header && Dot !in payload && Dot !in signature
    ensures Split(header + [Dot] + payload + [Dot] + signature) == [header, payload, signature]
  {
    var fields := [header, payload, signature];
    assert Join(fields[2..]) == signature;
    assert Join(fields[1..]) == payload + [Dot] + signature;
    assert Join(fields) == header + [Dot] + payload + [Dot] + signature;
    SplitJoin(fields);
  }

  /** The library accepted the token: its claims are of the expected type and it is valid. */
  predicate Accepted(t: Token) {
    t.claims.Some? && t.valid
  }

  /**
   * The slicing step cannot panic on this token: whenever the validator
   * reaches it, the decoded payload is long enough for the slice.
   */
  predicate SliceCannotPanic(outcome: ParseOutcome, decode: string -> Result<string, string>) {
    outcome.Parsed? && outcome.token.Some? && Accepted(outcome.token.value) &&
    |Split(outcome.token.value.raw)| == 3 &&
    decode(Padded(Split(outcome.token.value.raw)[1])).Ok? ==>
      SliceInBounds(decode(Padded(Split(outcome.token.value.raw)[1])).value)
  }

  /**
   * `checkJWT`. `parse(tokenString, key)` is the JWT library's parse and
   * verify step, `decode` the standard base64 decoder and `unmarshal` the
   * scope's JSON parser.
   */
  method CheckJWT(
    tokenString: string, key: string,
    parse: (string, string) -> ParseOutcome,
    decode: string -> Result<string, string>,
    unmarshal: string -> Result<Permission, string>)
    returns (claims: Option<Claims>, err: Option<string>)
    requires SliceCannotPanic(parse(tokenString, key), decode)
    // library errors: classified when they are validation errors, passed through otherwise
    ensures parse(tokenString, key).ParseFailed? ==>
      && claims.None?
      && var p := parse(tokenString, key);
      && err == Some(if p.flags.Some? then ClassifyValidation(p.flags.value) else p.msg)
    ensures parse(tokenString, key) == Parsed(None) ==> claims.None? && err == Some(CouldNotProcess)
    ensures parse(tokenString, key).Parsed? && parse(tokenString, key).token.Some? ==>
      var t := parse(tokenString, key).token.value;
      // an empty raw token
      && (|t.raw| == 0 ==> claims.None? && err == Some(EmptyJWT))
      // a claim-type or validity mismatch nulls the claims
      && (|t.raw| > 0 && !Accepted(t) ==> claims.None? && err == Some(NonClaim))
      // an accepted token that is not three dot-separated segments
      && (|t.raw| > 0 && Accepted(t) && |Split(t.raw)| != 3 ==>
            claims == t.claims && err == Some(ImproperlyFormatted))
      // an accepted three-segment token: decode the padded payload, slice, re-parse the scope
      && (|t.raw| > 0 && Accepted(t) && |Split(t.raw)| == 3 ==>
            match decode(Padded(Split(t.raw)[1]))
            case Err(e) => claims == t.claims && err == Some(e)
            case Ok(body) =>
              match unmarshal(PermissionsSlice(body))
              case Ok(perm) => claims == Some(t.claims.value.(permissions := perm)) && err.None?
              case Err(e) => claims == t.claims && err == Some(e))
  {
    claims, err := None, None;
    var outcome := parse(tokenString, key);
    match outcome
    case ParseFailed(flags, msg) =>
      if flags.Some? {
        err := Some(ClassifyValidation(flags.value));
      } else {
        err := Some(msg);
      }
    case Parsed(token) =>
      if token.None? {
        err := Some(CouldNotProcess);
      } else if |token.value.raw| == 0 {
        err := Some(EmptyJWT);
      } else {
        var t := token.value;
        claims := t.claims;
        if t.claims.Some? && t.valid {
          var jwtFields := Split(t.raw);
          if |jwtFields| == 3 {
            var bodyInB64 := jwtFields[1];
            var trailingBytes := |bodyInB64| % 4;
            if trailingBytes != 0 {
              bodyInB64 := bodyInB64 + Repeat('=', 4 - trailingBytes);
            }
            assert bodyInB64 == Padded(jwtFields[1]);
            match decode(bodyInB64)
            case Err(e) =>
              err := Some(e);
            case Ok(decodedBody) =>
              var trimBody := decodedBody;
              var indexAfterPrefix := IndexOf(trimBody, PermissionsKey) + |PermissionsKey|;
              trimBody := trimBody[indexAfterPrefix..|trimBody| - 1];
              match unmarshal(trimBody)
              case Ok(perm) =>
                claims := Some(t.claims.value.(permissions := perm));
              case Err(e) =>
                err := Some(e);
          } else {
            err := Some(ImproperlyFormatted);
          }
        } else {
          claims := None;
          err := Some(NonClaim);
        }
      }
  }
}
