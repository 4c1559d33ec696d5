/**
 * The web client's shared JWT helpers: a shape check, a payload decoder that turns
 * base64url into padded base64, and a usability check that names the first thing wrong
 * with a token. Signatures are not checked. Base64 decoding followed by `JSON.parse` is
 * not part of this model: it is the parameter `parse`, None where either throws.
 */
module SharedJwt {
  import opened Common
  import opened Strings
  import opened Json

  /** `isJwtFormat`: a non-empty string of three '.'-separated parts. */
  predicate IsJwtFormat(token: string) {
    token != "" && |Split(token, '.')| == 3
  }

  /** Three parts means exactly two dots; empty parts are allowed, and the empty string has no dots. */
  lemma JwtFormatIsTwoDots(token: string)
    ensures IsJwtFormat(token) <==> Count(token, '.') == 2
  {
    if token == "" {
      assert Count(token, '.') == 0;
    }
  }

  /** base64url to base64: '-' becomes '+' and '_' becomes '/'. */
  function FromBase64Url(s: string): (r: string)
    ensures |r| == |s|
    ensures '-' !in r && '_' !in r
    ensures forall i :: 0 <= i < |s| ==> s[i] == '-' ==> r[i] == '+'
    ensures forall i :: 0 <= i < |s| ==> s[i] == '_' ==> r[i] == '/'
    ensures forall i :: 0 <= i < |s| ==> s[i] != '-' && s[i] != '_' ==> r[i] == s[i]
  {
    ReplaceChar(ReplaceChar(s, '-', '+'), '_', '/')
  }

  /** `(4 - (len % 4)) % 4`: the one count in 0..3 that completes `len` to a multiple of four. */
  function PaddingLength(len: nat): (r: nat)
    ensures r <= 3
    ensures (len + r) % 4 == 0
  {
    (4 - len % 4) % 4
  }

  function Repeat(c: char, n: nat): (r: string)
    ensures |r| == n && forall i :: 0 <= i < n ==> r[i] == c
  {
    seq(n, i => c)
  }

  /** `base64 + '='.repeat(...)`: the shortest '='-padding to a multiple of four. */
  function Pad(base64: string): (r: string)
    ensures |base64| <= |r| <= |base64| + 3 && |r| % 4 == 0
    ensures r[..|base64|] == base64
    ensures forall i :: |base64| <= i < |r| ==> r[i] == '='
  {
    base64 + Repeat('=', PaddingLength(|base64|))
  }

  /** `decodeJwtPayload`: None for a token that is not JWT-shaped or whose payload fails to decode. */
  function DecodeJwtPayload(token: string, parse: string -> Option<Json>): (r: Option<Json>)
    ensures !IsJwtFormat(token) ==> r.None?
  {
    if !IsJwtFormat(token) then None
    else
      var parts := Split(token, '.');
      parse(Pad(FromBase64Url(parts[1])))
  }

  /** `isTokenUsable`'s result: `ok`, the reason when not, and the payload when ok. */
  datatype Usability = Usability(ok: bool, reason: Option<string>, payload: Option<Json>)

  const EMPTY_REASON: string := "Token is empty or invalid type"
  const FORMAT_REASON: string := "Token does not have JWT format (expected 3 parts separated by dots)"
  const DECODE_REASON: string := "Token payload cannot be decoded (invalid base64)"
  const OBJECT_REASON: string := "Token payload is not a valid object"

  function Rejected(reason: string): Usability {
    Usability(false, Some(reason), None)
  }

  /**
   * `isTokenUsable`: an empty or blank token first; then, on the trimmed token, the
   * shape, the decoding (a falsy payload counts as not decoded) and that the payload is
   * an object, each with its own reason.
   */
  function IsTokenUsable(token: string, parse: string -> Option<Json>): (r: Usability)
    ensures r.ok <==> r.reason.None?
    ensures r.ok ==> r.payload.Some? && IsObject(r.payload.value)
    ensures !r.ok ==> r.payload.None?
    ensures r.reason == Some(EMPTY_REASON) <==> AllSpace(token)
    ensures r.reason == Some(FORMAT_REASON) <==> !AllSpace(token) && !IsJwtFormat(Trim(token))
    ensures r.reason == Some(DECODE_REASON) <==>
      !AllSpace(token) && IsJwtFormat(Trim(token)) &&
      (DecodeJwtPayload(Trim(token), parse).None? || !Truthy(DecodeJwtPayload(Trim(token), parse).value))
    ensures r.reason == Some(OBJECT_REASON) <==>
      !AllSpace(token) && IsJwtFormat(Trim(token)) && DecodeJwtPayload(Trim(token), parse).Some? &&
      Truthy(DecodeJwtPayload(Trim(token), parse).value) && !IsObject(DecodeJwtPayload(Trim(token), parse).value)
    ensures r.ok ==> r.payload == DecodeJwtPayload(Trim(token), parse)
  {
    TrimEmptyIffAllSpace(token);
    if token == "" || Trim(token) == "" then Rejected(EMPTY_REASON)
    else
      var trimmed := Trim(token);
      if !IsJwtFormat(trimmed) then Rejected(FORMAT_REASON)
      else
        var payload := DecodeJwtPayload(trimmed, parse);
        if payload.None? || !Truthy(payload.value) then Rejected(DECODE_REASON)
        else if !IsObject(payload.value) then Rejected(OBJECT_REASON)
        else Usability(true, None, payload)
  }

  /**
   * Any other token is judged by its trimmed form, so surrounding white space never
   * matters, and an ok token carries the payload its trimmed form decodes to.
   */
  lemma UsabilityOfTrimmed(token: string, parse: string -> Option<Json>)
    requires !AllSpace(token)
    ensures IsTokenUsable(token, parse) == IsTokenUsable(Trim(token), parse)
    ensures IsTokenUsable(token, parse).ok ==>
      IsJwtFormat(Trim(token)) && IsTokenUsable(token, parse).payload == DecodeJwtPayload(Trim(token), parse)
  {
    TrimEmptyIffAllSpace(token);
    var t := Trim(token);
    TrimIdempotent(token);
    TrimEmptyIffAllSpace(t);
    assert t != "" && Trim(t) == t;
  }
}
