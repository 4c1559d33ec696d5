/**
 * `useAuthStore`: the web client's session. It holds the token, the user read from its
 * claims and an `anon`/`authenticated` status, and keeps the token in `localStorage`
 * under one key. Every action does nothing outside a browser (no `window`).
 * The key's value lives in a constants file that is not part of this model; it is a
 * parameter here.
 */
module AuthStore {
  import opened Common
  import opened Json
  import opened CoreJwt

  datatype AuthStatus = Anon | Authenticated

  /** The user the store derives from the claims: `role`, `restaurantId` and `userId` as read. */
  datatype AuthUser = AuthUser(role: Option<Json>, restaurantId: Option<Json>, userId: Option<Json>)

  /** The store's fields together with the browser storage it writes. */
  datatype AuthState = AuthState(
    token: Option<string>, user: Option<AuthUser>, status: AuthStatus, storage: map<string, string>)

  const INVALID_TOKEN_MESSAGE: string := "Token inválido: debe contener role y restaurantId"

  function UserOf(payload: Json): AuthUser {
    AuthUser(Get(payload, "role"), Get(payload, "restaurantId"), Get(payload, "userId"))
  }

  /** `status` is `authenticated` exactly when both a token and a user are held. */
  predicate Consistent(st: AuthState) {
    st.status == Authenticated <==> st.token.Some? && st.user.Some?
  }

  function SignedOut(storage: map<string, string>): (r: AuthState)
    ensures Consistent(r) && r.status == Anon && r.token.None? && r.user.None?
  {
    AuthState(None, None, Anon, storage)
  }

  /** The initial state: `anon`, no token, no user. */
  function Initial(storage: map<string, string>): (r: AuthState)
    ensures Consistent(r) && r.status == Anon && r.storage == storage
  {
    SignedOut(storage)
  }

  /**
   * `hydrateFromStorage`: no stored token (or an empty one) signs out; a stored token
   * that does not decode or validate is removed and signs out; a valid one signs in
   * with the user its claims name.
   */
  function HydrateStep(st: AuthState, hasWindow: bool, key: string, parse: string -> Option<Json>, nowMs: int)
    : (r: AuthState)
    ensures Consistent(r) || (!hasWindow && r == st)
    ensures hasWindow && (key !in st.storage || st.storage[key] == "") ==> r == SignedOut(st.storage)
    ensures hasWindow && key in st.storage && st.storage[key] != "" ==>
      (r.status == Authenticated <==> ValidateJwtPayload(DecodeJwt(st.storage[key], parse), nowMs))
    ensures (hasWindow && key in st.storage && st.storage[key] != "" &&
             !ValidateJwtPayload(DecodeJwt(st.storage[key], parse), nowMs)) ==>
      r == SignedOut(st.storage - {key})
    ensures hasWindow && r.status == Authenticated ==>
      key in st.storage && r.token == Some(st.storage[key]) && r.storage == st.storage &&
      r.user == Some(UserOf(DecodeJwt(st.storage[key], parse).value))
  {
    if !hasWindow then st
    else if key !in st.storage || st.storage[key] == "" then SignedOut(st.storage)
    else
      var stored := st.storage[key];
      var payload := DecodeJwt(stored, parse);
      if !ValidateJwtPayload(payload, nowMs) then SignedOut(st.storage - {key})
      else AuthState(Some(stored), Some(UserOf(payload.value)), Authenticated, st.storage)
  }

  /**
   * `setToken`: an invalid token throws and changes nothing; a valid one is stored under
   * the key and signs in with the user its claims name.
   */
  function SetTokenStep(st: AuthState, hasWindow: bool, key: string, parse: string -> Option<Json>, nowMs: int,
                        token: string): (r: (AuthState, Result<(), string>))
    ensures !hasWindow ==> r == (st, Ok(()))
    ensures hasWindow && !ValidateJwtPayload(DecodeJwt(token, parse), nowMs) ==>
      r == (st, Err(INVALID_TOKEN_MESSAGE))
    ensures hasWindow && ValidateJwtPayload(DecodeJwt(token, parse), nowMs) ==>
      r.1 == Ok(()) && Consistent(r.0) && r.0.status == Authenticated && r.0.token == Some(token) &&
      r.0.storage == st.storage[key := token] && r.0.user == Some(UserOf(DecodeJwt(token, parse).value))
  {
    if !hasWindow then (st, Ok(()))
    else
      var payload := DecodeJwt(token, parse);
      if !ValidateJwtPayload(payload, nowMs) then (st, Err(INVALID_TOKEN_MESSAGE))
      else (AuthState(Some(token), Some(UserOf(payload.value)), Authenticated, st.storage[key := token]), Ok(()))
  }

  /** `logout`: the key is removed and the store signs out. */
  function LogoutStep(st: AuthState, hasWindow: bool, key: string): (r: AuthState)
    ensures hasWindow ==> r == SignedOut(st.storage - {key}) && key !in r.storage
    ensures !hasWindow ==> r == st
  {
    if !hasWindow then st else SignedOut(st.storage - {key})
  }

  /** Every action keeps `status` in step with the token and the user. */
  lemma ActionsKeepConsistent(st: AuthState, hasWindow: bool, key: string, parse: string -> Option<Json>,
                              nowMs: int, token: string)
    requires Consistent(st)
    ensures Consistent(HydrateStep(st, hasWindow, key, parse, nowMs))
    ensures Consistent(SetTokenStep(st, hasWindow, key, parse, nowMs, token).0)
    ensures Consistent(LogoutStep(st, hasWindow, key))
  {
  }

  /**
   * A session survives a reload: hydrating right after a successful `setToken` (at a
   * time when the token still validates) gives back the same session; hydrating after
   * `logout` gives a signed-out one.
   */
  lemma SessionSurvivesReload(st: AuthState, key: string, parse: string -> Option<Json>, nowMs: int,
                              laterMs: int, token: string)
    requires ValidateJwtPayload(DecodeJwt(token, parse), nowMs)
    requires ValidateJwtPayload(DecodeJwt(token, parse), laterMs)
    requires token != ""
    ensures var st1 := SetTokenStep(st, true, key, parse, nowMs, token).0;
      HydrateStep(st1, true, key, parse, laterMs) == st1
    ensures var st2 := LogoutStep(st, true, key);
      HydrateStep(st2, true, key, parse, laterMs) == SignedOut(st.storage - {key})
  {
    var st1 := SetTokenStep(st, true, key, parse, nowMs, token).0;
    assert st1.storage[key] == token;
  }

  class AuthSession {
    var token: Option<string>
    var user: Option<AuthUser>
    var status: AuthStatus
    /** `localStorage`. */
    var storage: map<string, string>
    /** Whether a `window` exists (false during server-side rendering). */
    const hasWindow: bool
    /** `AUTH_TOKEN_KEY`. */
    const key: string
    /** Decoding of the claims: see `CoreJwt`. */
    const parse: string -> Option<Json>

    function State(): AuthState
      reads this
    {
      AuthState(token, user, status, storage)
    }

    constructor (hasWindow: bool, key: string, parse: string -> Option<Json>, storage: map<string, string>)
      ensures State() == Initial(storage)
      ensures this.hasWindow == hasWindow && this.key == key && this.parse == parse
    {
      this.hasWindow, this.key, this.parse := hasWindow, key, parse;
      token, user, status := None, None, Anon;
      this.storage := storage;
    }

    method HydrateFromStorage(nowMs: int)
      modifies this
      ensures State() == HydrateStep(old(State()), hasWindow, key, parse, nowMs)
    {
      if !hasWindow {
        return;
      }
      if key !in storage || storage[key] == "" {
        token, user, status := None, None, Anon;
        return;
      }
      var storedToken := storage[key];
      var payload := DecodeJwt(storedToken, parse);
      if !ValidateJwtPayload(payload, nowMs) {
        storage := storage - {key};
        token, user, status := None, None, Anon;
        return;
      }
      token, user, status := Some(storedToken), Some(UserOf(payload.value)), Authenticated;
    }

    /** `setToken`; `r` is the error it throws, if any. */
    method SetToken(newToken: string, nowMs: int) returns (r: Result<(), string>)
      modifies this
      ensures (State(), r) == SetTokenStep(old(State()), hasWindow, key, parse, nowMs, newToken)
    {
      if !hasWindow {
        return Ok(());
      }
      var payload := DecodeJwt(newToken, parse);
      if !ValidateJwtPayload(payload, nowMs) {
        return Err(INVALID_TOKEN_MESSAGE);
      }
      storage := storage[key := newToken];
      token, user, status := Some(newToken), Some(UserOf(payload.value)), Authenticated;
      r := Ok(());
    }

    method Logout()
      modifies this
      ensures State() == LogoutStep(old(State()), hasWindow, key)
    {
      if !hasWindow {
        return;
      }
      storage := storage - {key};
      token, user, status := None, None, Anon;
    }
  }
}
