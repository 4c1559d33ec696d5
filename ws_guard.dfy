/**
 * `WsJwtGuard`: the guard on socket handlers. It reads a token from a "Bearer " header
 * or from `handshake.auth.token`, checks it with `jwtService.verify` (the parameter
 * `verify`) and tags the client with the token's claims. Unlike the gateway's middleware
 * it ignores a header without the "Bearer " prefix.
 */
module WsGuard {
  import opened Common
  import opened Strings
  import opened Contracts
  import Gateway

  const NO_TOKEN: string := "No token provided"
  const INVALID_TOKEN: string := "Invalid token"

  /**
   * The guard's `extractToken`: a present header with the "Bearer " prefix gives its
   * remainder; any other header is ignored in favour of a present `auth.token`.
   */
  function ExtractToken(h: Gateway.Handshake): (r: Option<string>)
    ensures Gateway.Present(h.authorization) && StartsWith(h.authorization.value, Gateway.BEARER) ==>
      r.Some? && Gateway.BEARER + r.value == h.authorization.value
    ensures !(Gateway.Present(h.authorization) && StartsWith(h.authorization.value, Gateway.BEARER)) ==>
      (r.Some? <==> Gateway.Present(h.authToken)) && (r.Some? ==> r == h.authToken)
  {
    if Gateway.Present(h.authorization) && StartsWith(h.authorization.value, Gateway.BEARER) then
      Some(h.authorization.value[|Gateway.BEARER|..])
    else if Gateway.Present(h.authToken) then h.authToken
    else None
  }

  /**
   * The guard and the gateway read the same token except when a non-empty header lacks
   * the "Bearer " prefix: the gateway then takes the header whole and the guard takes
   * `auth.token` instead.
   */
  lemma GuardAndGatewayTokens(h: Gateway.Handshake)
    ensures !Gateway.Present(h.authorization) || StartsWith(h.authorization.value, Gateway.BEARER) ==>
      ExtractToken(h) == Gateway.ExtractToken(h)
    ensures Gateway.Present(h.authorization) && !StartsWith(h.authorization.value, Gateway.BEARER) ==>
      Gateway.ExtractToken(h) == h.authorization &&
      ExtractToken(h) == (if Gateway.Present(h.authToken) then h.authToken else None)
  {
  }

  /** A concrete handshake the two read differently: a raw header next to a token field. */
  lemma RawHeaderReadDifferently()
    ensures var h := Gateway.Handshake(Some("abc"), Some("xyz"));
      Gateway.ExtractToken(h) == Some("abc") && ExtractToken(h) == Some("xyz")
  {
    var h := Gateway.Handshake(Some("abc"), Some("xyz"));
    assert !StartsWith("abc", Gateway.BEARER);
  }

  /**
   * `canActivate`'s decision: Unauthorized with "No token provided" when no token (or an
   * empty one) is found, Unauthorized with "Invalid token" when it does not verify, and
   * otherwise the token's claims.
   */
  function Decide(h: Gateway.Handshake, secret: string, verify: (string, string) -> Option<Gateway.JwtPayload>)
    : (r: Result<Gateway.JwtPayload, HttpError>)
    ensures !Gateway.Present(ExtractToken(h)) ==> r == Err(Unauthorized(NO_TOKEN))
    ensures Gateway.Present(ExtractToken(h)) && verify(ExtractToken(h).value, secret).None? ==>
      r == Err(Unauthorized(INVALID_TOKEN))
    ensures r.Ok? <==> Gateway.Present(ExtractToken(h)) && verify(ExtractToken(h).value, secret).Some?
    ensures r.Ok? ==> r.value == verify(ExtractToken(h).value, secret).value
  {
    var token := ExtractToken(h);
    if !Gateway.Present(token) then Err(Unauthorized(NO_TOKEN))
    else
      match verify(token.value, secret)
      case None => Err(Unauthorized(INVALID_TOKEN))
      case Some(payload) => Ok(payload)
  }

  /**
   * Whenever the handshake carries no raw header, the guard admits exactly the clients
   * the gateway's middleware admits, with the same claims.
   */
  lemma GuardAgreesWithMiddleware(h: Gateway.Handshake, secret: string,
                                  verify: (string, string) -> Option<Gateway.JwtPayload>)
    requires !Gateway.Present(h.authorization) || StartsWith(h.authorization.value, Gateway.BEARER)
    ensures Decide(h, secret, verify).Ok? <==> Gateway.Authenticate(h, secret, verify).Ok?
    ensures Decide(h, secret, verify).Ok? ==> Decide(h, secret, verify).value == Gateway.Authenticate(h, secret, verify).value
  {
    GuardAndGatewayTokens(h);
  }

  class WsJwtGuard {
    /** `JWT_SECRET` from the configuration. */
    const jwtSecret: Option<string>
    const verify: (string, string) -> Option<Gateway.JwtPayload>

    constructor (jwtSecret: Option<string>, verify: (string, string) -> Option<Gateway.JwtPayload>)
      ensures this.jwtSecret == jwtSecret && this.verify == verify
    {
      this.jwtSecret, this.verify := jwtSecret, verify;
    }

    /**
     * `canActivate`: true with the claims copied onto the client, or the Unauthorized
     * error it throws with the client left as it was. The guard joins no room.
     */
    method CanActivate(client: Gateway.ClientSocket) returns (r: Result<bool, HttpError>)
      modifies client`userId, client`role, client`restaurantId
      ensures var d := Decide(client.handshake, Gateway.SecretOf(jwtSecret), verify);
        d.Err? ==> r == Err(d.error) && unchanged(client)
      ensures var d := Decide(client.handshake, Gateway.SecretOf(jwtSecret), verify);
        d.Ok? ==> r == Ok(true) && client.userId == Some(d.value.userId) && client.role == Some(d.value.role)
      ensures var d := Decide(client.handshake, Gateway.SecretOf(jwtSecret), verify);
        d.Ok? ==> client.restaurantId == Some(d.value.restaurantId)
    {
      var token := ExtractToken(client.handshake);
      if !Gateway.Present(token) {
        return Err(Unauthorized(NO_TOKEN));
      }
      var secret := Gateway.SecretOf(jwtSecret);
      var payload := verify(token.value, secret);
      if payload.None? {
        return Err(Unauthorized(INVALID_TOKEN));
      }
      client.userId := Some(payload.value.userId);
      client.role := Some(payload.value.role);
      client.restaurantId := Some(payload.value.restaurantId);
      r := Ok(true);
    }
  }
}
