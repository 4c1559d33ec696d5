/**
 * `useSocketStore`: the web client's realtime connection as a status/error state
 * machine holding at most one socket (the module-level `socketInstance`). Creating a
 * socket is not part of this model: its outcome is a parameter, the new socket's id or
 * the error it throws. Events are delivered by the held socket's callbacks.
 */
module SocketStore {
  import opened Common

  /** Sockets are told apart by an id. */
  type SocketId = nat

  datatype SocketStatus = Disconnected | Connecting | Connected | Error

  /** The store's `status` and `error` together with the held `socketInstance`. */
  datatype SocketState = SocketState(status: SocketStatus, error: Option<string>, socket: Option<SocketId>)

  /** The socket callbacks the store registers; each carries its error's `message`. */
  datatype SocketEvent =
    | Connect
    | Disconnect
    | ConnectError(message: string)
    | SocketErrorEvent(message: string)

  const SOCKET_ERROR_DEFAULT: string := "Socket error"
  const CREATE_ERROR_DEFAULT: string := "Failed to create socket"

  /**
   * `createSocket`'s outcome: the new socket, or the thrown value, whose `message` is
   * present exactly when it is an `Error`.
   */
  type Creation = Result<SocketId, Option<string>>

  /** The initial state: `disconnected`, no error, no socket. */
  function Initial(): (r: SocketState)
    ensures r.status == Disconnected && r.error.None? && r.socket.None?
  {
    SocketState(Disconnected, None, None)
  }

  /**
   * What every reachable state satisfies: a connecting or connected store holds a
   * socket, a connected or connecting one has no error, and an `error` status always
   * comes with a message.
   */
  predicate WellFormed(st: SocketState) {
    && (st.status == Connecting || st.status == Connected ==> st.socket.Some? && st.error.None?)
    && (st.status == Error ==> st.error.Some?)
  }

  /**
   * `connect`: any held socket is dropped, then the new socket is held with status
   * `connecting`; if creating it throws, the status is `error` with the thrown message
   * (or the default when the thrown value is not an `Error`) and no socket is held.
   */
  function ConnectStep(st: SocketState, created: Creation): (r: SocketState)
    ensures created.Ok? ==> r == SocketState(Connecting, None, Some(created.value))
    ensures created.Err? ==> r.status == Error && r.socket.None?
    ensures created.Err? && created.error.Some? ==> r.error == created.error
    ensures created == Err(None) ==> r.error == Some(CREATE_ERROR_DEFAULT)
  {
    match created
    case Ok(socket) => SocketState(Connecting, None, Some(socket))
    case Err(message) => SocketState(Error, Some(message.GetOr(CREATE_ERROR_DEFAULT)), None)
  }

  /**
   * The callbacks: `connect` gives `connected` and clears the error; `disconnect` gives
   * `disconnected` and keeps the error; `connect_error` records its message; `error`
   * records its message, or the default when it is empty. The held socket is kept.
   */
  function EventStep(st: SocketState, ev: SocketEvent): (r: SocketState)
    ensures r.socket == st.socket
    ensures ev == Connect ==> r.status == Connected && r.error.None?
    ensures ev == Disconnect ==> r.status == Disconnected && r.error == st.error
    ensures ev.ConnectError? ==> r.status == Error && r.error == Some(ev.message)
    ensures ev.SocketErrorEvent? ==> r.status == Error && r.error.Some? && r.error.value != ""
    ensures ev.SocketErrorEvent? && ev.message != "" ==> r.error == Some(ev.message)
  {
    match ev
    case Connect => st.(status := Connected, error := None)
    case Disconnect => st.(status := Disconnected)
    case ConnectError(message) => st.(status := Error, error := Some(message))
    case SocketErrorEvent(message) =>
      st.(status := Error, error := Some(if message != "" then message else SOCKET_ERROR_DEFAULT))
  }

  /** `disconnect`: the held socket is dropped; `disconnected`, no error. */
  function DisconnectStep(st: SocketState): (r: SocketState)
    ensures r.status == Disconnected && r.error.None? && r.socket.None?
  {
    SocketState(Disconnected, None, None)
  }

  /**
   * `connect` and `disconnect` forget everything that came before: their result depends
   * only on their own input, and `disconnect` returns the store to its initial state.
   */
  lemma ConnectAndDisconnectReset(st1: SocketState, st2: SocketState, created: Creation)
    ensures ConnectStep(st1, created) == ConnectStep(st2, created)
    ensures DisconnectStep(st1) == Initial()
  {
  }

  /**
   * Every action keeps the store well formed; a callback needs the store to hold the
   * socket that delivers it.
   */
  lemma StepsKeepWellFormed(st: SocketState, created: Creation, ev: SocketEvent)
    requires WellFormed(st)
    ensures WellFormed(Initial())
    ensures WellFormed(ConnectStep(st, created))
    ensures WellFormed(DisconnectStep(st))
    ensures st.socket.Some? ==> WellFormed(EventStep(st, ev))
  {
  }

  /**
   * A successful `connect` followed by the socket's `connect` callback leaves the store
   * connected to that socket, with no error, whatever the store held before.
   */
  lemma ConnectThenConnected(st: SocketState, socket: SocketId)
    ensures EventStep(ConnectStep(st, Ok(socket)), Connect) == SocketState(Connected, None, Some(socket))
  {
  }

  class SocketSession {
    var status: SocketStatus
    var error: Option<string>
    /** `socketInstance`. */
    var socket: Option<SocketId>
    /** The sockets the store has disconnected, oldest first. */
    ghost var dropped: seq<SocketId>

    function State(): SocketState
      reads this
    {
      SocketState(status, error, socket)
    }

    constructor ()
      ensures State() == Initial() && dropped == []
    {
      status, error, socket := Disconnected, None, None;
      dropped := [];
    }

    /** `getSocket`. */
    function GetSocket(): Option<SocketId>
      reads this
    {
      socket
    }

    /** `connect(token)`; `created` is what `createSocket(token)` gives. */
    method Connect(created: Creation)
      modifies this
      ensures State() == ConnectStep(old(State()), created)
      ensures dropped == old(dropped) + (if old(socket).Some? then [old(socket).value] else [])
    {
      if socket.Some? {
        dropped := dropped + [socket.value];
        socket := None;
      }
      status, error := Connecting, None;
      match created {
        case Ok(s) =>
          socket := Some(s);
        case Err(message) =>
          status, error := Error, Some(message.GetOr(CREATE_ERROR_DEFAULT));
      }
    }

    /** One callback of the held socket. */
    method OnEvent(ev: SocketEvent)
      modifies this`status, this`error
      ensures State() == EventStep(old(State()), ev)
    {
      match ev {
        case Connect =>
          status, error := Connected, None;
        case Disconnect =>
          status := Disconnected;
        case ConnectError(message) =>
          status, error := Error, Some(message);
        case SocketErrorEvent(message) =>
          status, error := Error, Some(if message != "" then message else SOCKET_ERROR_DEFAULT);
      }
    }

    /** `disconnect`. */
    method Disconnect()
      modifies this
      ensures State() == DisconnectStep(old(State()))
      ensures dropped == old(dropped) + (if old(socket).Some? then [old(socket).value] else [])
    {
      if socket.Some? {
        dropped := dropped + [socket.value];
        socket := None;
      }
      status, error := Disconnected, None;
    }
  }
}
