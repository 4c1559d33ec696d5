/**
 * The auth store's JWT helpers: `decodeJwt` reads the claims of a token without
 * checking its signature, and `validateJwtPayload` accepts claims carrying a role and a
 * restaurant that have not expired. Base64 decoding, percent-decoding and `JSON.parse`
 * are not part of this model: they are the parameter `parse`, None where any throws.
 */
module CoreJwt {
  import opened Common
  import opened Strings
  import opened Json
  import SharedJwt

  /** `decodeJwt`: None unless the token has exactly three '.'-separated parts; never throws. */
  function DecodeJwt(token: string, parse: string -> Option<Json>): (r: Option<Json>)
    ensures |Split(token, '.')| != 3 ==> r.None?
    ensures |Split(token, '.')| == 3 ==> r == parse(SharedJwt.FromBase64Url(Split(token, '.')[1]))
  {
    var parts := Split(token, '.');
    if |parts| != 3 then None
    else parse(SharedJwt.FromBase64Url(parts[1]))
  }

  /** `Math.floor(Date.now() / 1000)`, with `nowMs` the clock in milliseconds. */
  function NowSeconds(nowMs: int): int {
    nowMs / 1000
  }

  /** `payload.exp` is truthy and below the current second. */
  predicate Expired(payload: Json, nowMs: int) {
    Get(payload, "exp").Some? && Get(payload, "exp").value.JNumber? &&
    Get(payload, "exp").value.n != 0 && Get(payload, "exp").value.n < NowSeconds(nowMs)
  }

  /** `validateJwtPayload`. */
  predicate ValidateJwtPayload(payload: Option<Json>, nowMs: int) {
    payload.Some? && Truthy(payload.value) &&
    TruthyField(payload.value, "role") && TruthyField(payload.value, "restaurantId") &&
    !Expired(payload.value, nowMs)
  }

  /**
   * The validity rule spelled out on an object payload: a non-empty role and restaurant,
   * and an `exp` that is absent, zero, or not below the current second; `exp` equal to
   * the current second is still valid. A missing payload is never valid.
   */
  lemma ValidityRule(fields: map<string, Json>, nowMs: int, exp: int)
    ensures !ValidateJwtPayload(None, nowMs)
    ensures "role" !in fields || fields["role"] == JString("") ==> !ValidateJwtPayload(Some(JObject(fields)), nowMs)
    ensures "restaurantId" !in fields || fields["restaurantId"] == JString("") ==>
      !ValidateJwtPayload(Some(JObject(fields)), nowMs)
    ensures ("role" in fields && fields["role"].JString? && fields["role"].s != "" &&
             "restaurantId" in fields && fields["restaurantId"].JString? && fields["restaurantId"].s != "" &&
             "exp" in fields && fields["exp"] == JNumber(exp)) ==>
      (ValidateJwtPayload(Some(JObject(fields)), nowMs) <==> exp == 0 || exp >= nowMs / 1000)
    ensures ("role" in fields && Truthy(fields["role"]) &&
             "restaurantId" in fields && Truthy(fields["restaurantId"]) && "exp" !in fields) ==>
      ValidateJwtPayload(Some(JObject(fields)), nowMs)
  {
  }

  /** An expired token stays expired as the clock moves on; a valid one was valid a second earlier. */
  lemma ExpiryIsMonotone(payload: Option<Json>, nowMs: int, laterMs: int)
    requires nowMs <= laterMs
    ensures payload.Some? && Expired(payload.value, nowMs) ==> Expired(payload.value, laterMs)
    ensures ValidateJwtPayload(payload, laterMs) ==> ValidateJwtPayload(payload, nowMs)
  {
    assert nowMs / 1000 <= laterMs / 1000;
  }
}
