/**
 * `RealtimeGateway`: the socket.io server's authentication middleware and its
 * per-restaurant rooms. A connecting socket presents a token in its `Authorization`
 * header or in `handshake.auth.token`; a verified token tags the socket with the user's
 * claims and puts it in the room of the user's restaurant, and the server broadcasts to
 * a restaurant through that same room. Signature checking (`jwtService.verify`) is not
 * part of this model: it is the parameter `verify`, None where it throws. Logging and
 * the broadcast itself are I/O and are left out.
 */
module Gateway {
  import opened Common
  import opened Strings

  /** `JwtPayload`: the claims a verified token carries. */
  datatype JwtPayload = JwtPayload(userId: string, role: string, restaurantId: string)

  /** The parts of the handshake the server reads. */
  datatype Handshake = Handshake(authorization: Option<string>, authToken: Option<string>)

  const BEARER: string := "Bearer "
  const NO_TOKEN_MESSAGE: string := "Unauthorized: No token provided"
  const INVALID_TOKEN_MESSAGE: string := "Unauthorized: Invalid token"
  const DEFAULT_SECRET: string := "your-secret-key"

  /** A JavaScript string is truthy when it is present and not empty. */
  predicate Present(s: Option<string>) {
    s.Some? && s.value != ""
  }

  /**
   * `extractToken`: a present header wins, without its "Bearer " prefix when it has one
   * and whole otherwise; with no header, a present `auth.token`; otherwise nothing.
   */
  function ExtractToken(h: Handshake): (r: Option<string>)
    ensures Present(h.authorization) && StartsWith(h.authorization.value, BEARER) ==>
      r.Some? && BEARER + r.value == h.authorization.value
    ensures Present(h.authorization) && !StartsWith(h.authorization.value, BEARER) ==> r == h.authorization
    ensures !Present(h.authorization) ==> (r.Some? <==> Present(h.authToken)) && (r.Some? ==> r == h.authToken)
  {
    if Present(h.authorization) then
      var header := h.authorization.value;
      if StartsWith(header, BEARER) then Some(header[|BEARER|..]) else Some(header)
    else if Present(h.authToken) then h.authToken
    else None
  }

  /** A header wins over `auth.token`: whatever the token field holds, the header decides. */
  lemma HeaderWins(header: string, t1: Option<string>, t2: Option<string>)
    requires header != ""
    ensures ExtractToken(Handshake(Some(header), t1)) == ExtractToken(Handshake(Some(header), t2))
    ensures ExtractToken(Handshake(Some(header), t1)).Some?
  {
  }

  /** Prefixing a token with "Bearer " and extracting it gives the token back. */
  lemma BearerRoundTrip(token: string, authToken: Option<string>)
    ensures ExtractToken(Handshake(Some(BEARER + token), authToken)) == Some(token)
  {
    var header := BEARER + token;
    assert header[..|BEARER|] == BEARER;
    assert header[|BEARER|..] == token;
  }

  /** `configService.get('JWT_SECRET') || 'your-secret-key'`. */
  function SecretOf(configured: Option<string>): (r: string)
    ensures Present(configured) ==> r == configured.value
    ensures !Present(configured) ==> r == DEFAULT_SECRET
  {
    if Present(configured) then configured.value else DEFAULT_SECRET
  }

  /** The room of a restaurant: `restaurant:<restaurantId>`. */
  function RoomOf(restaurantId: string): (r: string)
    ensures StartsWith(r, "restaurant:") && r[|"restaurant:"|..] == restaurantId
  {
    "restaurant:" + restaurantId
  }

  /** Rooms keep tenants apart: two restaurants share a room only when they are the same restaurant. */
  lemma RoomsSeparateRestaurants(a: string, b: string)
    ensures RoomOf(a) == RoomOf(b) <==> a == b
  {
    if RoomOf(a) == RoomOf(b) {
      assert a == RoomOf(a)[|"restaurant:"|..];
    }
  }

  /**
   * The middleware's decision: no token (or an empty one) is refused, a token that does
   * not verify against the secret is refused, and otherwise the socket is let in with
   * the token's claims.
   */
  function Authenticate(h: Handshake, secret: string, verify: (string, string) -> Option<JwtPayload>)
    : (r: Result<JwtPayload, string>)
    ensures !Present(ExtractToken(h)) ==> r == Err(NO_TOKEN_MESSAGE)
    ensures Present(ExtractToken(h)) && verify(ExtractToken(h).value, secret).None? ==> r == Err(INVALID_TOKEN_MESSAGE)
    ensures r.Ok? <==> Present(ExtractToken(h)) && verify(ExtractToken(h).value, secret).Some?
    ensures r.Ok? ==> r.value == verify(ExtractToken(h).value, secret).value
  {
    var token := ExtractToken(h);
    if !Present(token) then Err(NO_TOKEN_MESSAGE)
    else
      match verify(token.value, secret)
      case None => Err(INVALID_TOKEN_MESSAGE)
      case Some(payload) => Ok(payload)
  }

  /**
   * A header reading exactly "Bearer " is refused for having no token, even when
   * `auth.token` holds one: the header wins before its remainder is checked.
   */
  lemma BareBearerRefused(authToken: Option<string>, secret: string, verify: (string, string) -> Option<JwtPayload>)
    ensures Authenticate(Handshake(Some(BEARER), authToken), secret, verify) == Err(NO_TOKEN_MESSAGE)
  {
    assert StartsWith(BEARER, BEARER);
    assert BEARER[|BEARER|..] == "";
  }

  /** A connecting socket: its handshake, its `data` fields and the rooms it has joined. */
  class ClientSocket {
    const handshake: Handshake
    var userId: Option<string>
    var role: Option<string>
    var restaurantId: Option<string>
    var rooms: set<string>

    constructor (handshake: Handshake)
      ensures this.handshake == handshake
      ensures userId.None? && role.None? && restaurantId.None? && rooms == {}
    {
      this.handshake := handshake;
      userId, role, restaurantId := None, None, None;
      rooms := {};
    }
  }

  class RealtimeGateway {
    /** `JWT_SECRET` from the configuration. */
    const jwtSecret: Option<string>
    const verify: (string, string) -> Option<JwtPayload>

    constructor (jwtSecret: Option<string>, verify: (string, string) -> Option<JwtPayload>)
      ensures this.jwtSecret == jwtSecret && this.verify == verify
    {
      this.jwtSecret, this.verify := jwtSecret, verify;
    }

    /**
     * The middleware installed by `afterInit`; `err` is the error passed to `next`. A
     * refused socket is left as it was; an accepted one carries the claims and has joined
     * its restaurant's room.
     */
    method Middleware(socket: ClientSocket) returns (err: Option<string>)
      modifies socket
      ensures var d := Authenticate(socket.handshake, SecretOf(jwtSecret), verify);
        d.Err? ==> err == Some(d.error) && unchanged(socket)
      ensures var d := Authenticate(socket.handshake, SecretOf(jwtSecret), verify);
        d.Ok? ==> err.None? && socket.userId == Some(d.value.userId) && socket.role == Some(d.value.role)
      ensures var d := Authenticate(socket.handshake, SecretOf(jwtSecret), verify);
        d.Ok? ==> socket.restaurantId == Some(d.value.restaurantId)
      ensures var d := Authenticate(socket.handshake, SecretOf(jwtSecret), verify);
        d.Ok? ==> socket.rooms == old(socket.rooms) + {RoomOf(d.value.restaurantId)}
    {
      var token := ExtractToken(socket.handshake);
      if !Present(token) {
        return Some(NO_TOKEN_MESSAGE);
      }
      var secret := SecretOf(jwtSecret);
      var payload := verify(token.value, secret);
      if payload.None? {
        return Some(INVALID_TOKEN_MESSAGE);
      }
      socket.userId := Some(payload.value.userId);
      socket.role := Some(payload.value.role);
      socket.restaurantId := Some(payload.value.restaurantId);
      socket.rooms := socket.rooms + {RoomOf(payload.value.restaurantId)};
      err := None;
    }

    /** `emitToRestaurant`: the room the event is sent to. */
    function EmitRoom(restaurantId: string): string {
      RoomOf(restaurantId)
    }
  }

  /**
   * A broadcast to a restaurant reaches the room an accepted socket joined exactly when
   * the socket's claims name that restaurant.
   */
  lemma BroadcastReachesOwnRestaurant(g: RealtimeGateway, socketRestaurant: string, target: string)
    ensures g.EmitRoom(target) == RoomOf(socketRestaurant) <==> target == socketRestaurant
  {
    RoomsSeparateRestaurants(target, socketRestaurant);
  }
}
