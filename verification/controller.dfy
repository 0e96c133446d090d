/**
 * The event handlers of the chat page as one pure transition function.
 *
 * Every user intent (create, join, send, leave) and every PeerJS callback
 * (incoming connection, `open`, `data`, `close`, `error` on a connection,
 * `disconnected` on the endpoint) is an `Event`; a handler runs to
 * completion, so `Step` maps a state, the room registry and one event to the
 * next state, the next registry and the calls the page makes into PeerJS and
 * the error banner. Results of asynchronous work the handler awaits (the
 * endpoint coming up or failing) and the clock are carried by the event.
 */
module Controller {
  import opened Basics
  import opened Session
  import opened Rooms
  import RoomCode
  import JsString

  /** The messages `showError` is called with, one kind per call site. */
  datatype ErrorKind =
    | InvalidCode      // malformed code typed on the welcome screen
    | RoomNotFound     // no registry entry for the code
    | CreateFailed     // the endpoint failed while creating a room
    | JoinFailed       // the endpoint failed while joining a room
    | NotConnected     // send without an open connection
    | ConnectionError  // `error` on a data connection

  /** A data frame on a connection: `{type, text, timestamp}`. */
  datatype Frame = Frame(kind: string, text: string, timestamp: Timestamp)

  /** The only frame type the page sends and displays. */
  const MessageKind := "message"

  /** What a handler asks of the outside world. */
  datatype Action =
    | ShowError(kind: ErrorKind)
    | SendFrame(frame: Frame)   // `connection.send`
    | ConnectTo(host: PeerId)   // `peer.connect(host, {reliable: true})`
    | CloseLink                 // `connection.close()`
    | DestroyPeer               // `peer.destroy()`

  /**
   * How `initializePeer` ended: the endpoint opened with an id, it emitted
   * `error`, or the `Peer` constructor threw before the endpoint was stored.
   */
  datatype PeerStart = PeerOpened(id: PeerId) | PeerErrored | PeerThrew

  /** User intents, then the callbacks of PeerJS objects. */
  datatype Event =
    | CreateClicked(draws: RoomCode.Draws, start: PeerStart)
    | JoinClicked(input: string, start: PeerStart, link: LinkId)
    | SendClicked(input: string)
    | LeaveConfirmed
    | IncomingLink(link: LinkId)
    | LinkOpened(link: LinkId)
    | LinkData(link: LinkId, frame: Frame)
    | LinkClosed(link: LinkId)
    | LinkErrored(link: LinkId)
    | PeerDisconnected

  datatype Transition = Transition(state: AppState, registry: Registry, actions: seq<Action>)

  /** `input.trim().toUpperCase()`, what the join form reads. */
  function NormalizeCode(input: string): string
  {
    JsString.ToUpperCase(JsString.Trim(input))
  }

  /** JavaScript truthiness of `appState.myRoomCode`: set and not the empty string. */
  predicate HasRoomCode(s: AppState)
  {
    s.myRoomCode.Some? && s.myRoomCode.value != ""
  }

  /** The state effect of `initializePeer`: the endpoint is stored unless its constructor threw, its id once it opens. */
  function InitializePeer(s: AppState, start: PeerStart): (r: AppState)
    ensures start.PeerOpened? ==> r.myPeerId == Some(start.id)
    ensures !start.PeerOpened? ==> r.myPeerId == s.myPeerId
    ensures r.peer == (s.peer || !start.PeerThrew?)
    ensures r == s.(peer := r.peer, myPeerId := r.myPeerId)
  {
    match start
    case PeerOpened(id) => s.(peer := true, myPeerId := Some(id))
    case PeerErrored => s.(peer := true)
    case PeerThrew => s
  }

  /** The state effect of `setupConnection(conn)`: a fresh connection, not yet open, becomes current. */
  function SetupConnection(s: AppState, link: LinkId): AppState
  {
    s.(connection := Some(Link(link, false)))
  }

  /**
   * The transport's own update of `conn.open` for the connection `link`; it
   * touches `appState.connection` only when that connection is the current one.
   */
  function SetLinkOpen(s: AppState, link: LinkId, open: bool): AppState
  {
    if s.connection.Some? && s.connection.value.id == link
    then s.(connection := Some(Link(link, open)))
    else s
  }

  /**
   * `createRoom`. The code and the host flag are written before the endpoint
   * is awaited, so they stay written when it fails.
   */
  function CreateRoom(s: AppState, reg: Registry, draws: RoomCode.Draws, start: PeerStart, now: Timestamp): (t: Transition)
    ensures t.state.myRoomCode == Some(RoomCode.CodeOf(draws)) && t.state.isInitiator
    ensures start.PeerOpened? ==>
      && t.state.myPeerId == Some(start.id)
      && Lookup(t.registry, RoomCode.CodeOf(draws)) == Some(RoomData(RoomCode.CodeOf(draws), start.id, now))
      && (forall k :: k != RoomCode.CodeOf(draws) ==> Lookup(t.registry, k) == Lookup(reg, k))
      && t.state.currentScreen == RoomCreated
      && t.state.peer
      && t.actions == []
    ensures !start.PeerOpened? ==>
      && t.registry == reg
      && t.state.currentScreen == s.currentScreen
      && t.state.myPeerId == s.myPeerId
      && t.state.peer == (s.peer || start.PeerErrored?)
      && t.actions == [ShowError(CreateFailed)]
    ensures t.state.connection == s.connection
    ensures t.state.messages == s.messages
    ensures t.state.connectionStatus == s.connectionStatus
  {
    var code := RoomCode.CodeOf(draws);
    var pending := s.(myRoomCode := Some(code), isInitiator := true);
    var started := InitializePeer(pending, start);
    if start.PeerOpened? then
      var room := RoomData(code, started.myPeerId.value, now);
      Transition(ShowScreen(started, RoomCreated), Register(reg, room), [])
    else
      Transition(started, reg, [ShowError(CreateFailed)])
  }

  /**
   * `joinRoom`. A malformed code and an unknown code are rejected before
   * anything is written; past those checks the code and the guest flag are
   * written before the endpoint is awaited.
   */
  function JoinRoom(s: AppState, reg: Registry, input: string, start: PeerStart, link: LinkId, now: Timestamp): (t: Transition)
    ensures t.registry == reg
    ensures !RoomCode.ValidRoomCode(NormalizeCode(input)) ==>
      t == Transition(s, reg, [ShowError(InvalidCode)])
    ensures RoomCode.ValidRoomCode(NormalizeCode(input)) && NormalizeCode(input) !in reg ==>
      t == Transition(s, reg, [ShowError(RoomNotFound)])
    ensures RoomCode.ValidRoomCode(NormalizeCode(input)) && NormalizeCode(input) in reg ==>
      && t.state.myRoomCode == Some(NormalizeCode(input))
      && !t.state.isInitiator
      && (start.PeerOpened? ==>
           && t.state.myPeerId == Some(start.id)
           && t.state.peer
           && t.state.connectionStatus == Connecting
           && t.state.connection == Some(Link(link, false))
           && t.state.currentScreen == Chat
           && t.state.messages == s.messages + [Message(System, JoinedNotice, now)]
           && t.actions == [ConnectTo(reg[NormalizeCode(input)].peerId)])
      && (!start.PeerOpened? ==>
           && t.state.myPeerId == s.myPeerId
           && t.state.peer == (s.peer || start.PeerErrored?)
           && t.state.connectionStatus == s.connectionStatus
           && t.state.connection == s.connection
           && t.state.currentScreen == s.currentScreen
           && t.state.messages == s.messages
           && t.actions == [ShowError(JoinFailed)])
  {
    var code := NormalizeCode(input);
    if !RoomCode.ValidRoomCode(code) then
      Transition(s, reg, [ShowError(InvalidCode)])
    else
      match Lookup(reg, code)
      case None => Transition(s, reg, [ShowError(RoomNotFound)])
      case Some(room) =>
        var pending := s.(myRoomCode := Some(code), isInitiator := false);
        var started := InitializePeer(pending, start);
        if start.PeerOpened? then
          var connecting := UpdateConnectionStatus(started, Connecting);
          var chat := ShowScreen(SetupConnection(connecting, link), Chat);
          Transition(AddMessage(chat, System, JoinedNotice, now), reg, [ConnectTo(room.peerId)])
        else
          Transition(started, reg, [ShowError(JoinFailed)])
  }

  /**
   * `sendMessage`. Blank input does nothing; otherwise the trimmed text is
   * sent and logged when the current connection is open, and refused otherwise.
   */
  function SendMessage(s: AppState, reg: Registry, input: string, now: Timestamp): (t: Transition)
    ensures t.registry == reg
    ensures t.state == s.(messages := t.state.messages)
    ensures JsString.Trim(input) == [] ==> t.state == s && t.actions == []
    ensures JsString.Trim(input) != [] && s.connection.Some? && s.connection.value.open ==>
      && t.state.messages == s.messages + [Message(Own, JsString.Trim(input), now)]
      && t.actions == [SendFrame(Frame(MessageKind, JsString.Trim(input), now))]
    ensures JsString.Trim(input) != [] && !(s.connection.Some? && s.connection.value.open) ==>
      t.state == s && t.actions == [ShowError(NotConnected)]
  {
    var text := JsString.Trim(input);
    if text == [] then
      Transition(s, reg, [])
    else if s.connection.Some? && s.connection.value.open then
      Transition(AddMessage(s, Own, text, now), reg, [SendFrame(Frame(MessageKind, text, now))])
    else
      Transition(s, reg, [ShowError(NotConnected)])
  }

  /**
   * `leaveRoom`. Closes what is held, removes the room from the registry when
   * this page created it, and clears every session field.
   */
  function LeaveRoom(s: AppState, reg: Registry): (t: Transition)
    ensures t.state == Initial
    ensures forall k :: k in t.registry <==> k in reg && !(s.isInitiator && HasRoomCode(s) && k == s.myRoomCode.value)
    ensures forall k :: k in t.registry ==> t.registry[k] == reg[k]
    ensures (CloseLink in t.actions <==> s.connection.Some?) && (DestroyPeer in t.actions <==> s.peer)
    ensures forall a :: a in t.actions ==> a == CloseLink || a == DestroyPeer
    ensures |t.actions| == (if s.connection.Some? then 1 else 0) + (if s.peer then 1 else 0)
  {
    var closing := if s.connection.Some? then [CloseLink] else [];
    var destroying := if s.peer then [DestroyPeer] else [];
    var reg' := if s.isInitiator && HasRoomCode(s) then Unregister(reg, s.myRoomCode.value) else reg;
    var cleared := s.(myPeerId := None, myRoomCode := None, isInitiator := false, peer := false,
                      connection := None, messages := [], connectionStatus := Disconnected);
    Transition(ShowScreen(cleared, Welcome), reg', closing + destroying)
  }

  /** The `connection` callback the host registers: the incoming connection becomes current. */
  function AcceptLink(s: AppState, reg: Registry, link: LinkId): (t: Transition)
    ensures t.state == s.(connection := Some(Link(link, false)))
    ensures t.registry == reg && t.actions == []
  {
    Transition(SetupConnection(s, link), reg, [])
  }

  /** The `open` handler of a connection. */
  function LinkOpen(s: AppState, reg: Registry, link: LinkId, now: Timestamp): (t: Transition)
    ensures t.state.connectionStatus == Connected
    ensures t.state.messages == s.messages + [Message(System, ConnectedNotice, now)]
    ensures t.state.currentScreen == Chat
    ensures t.state.myRoomCode == s.myRoomCode && t.state.isInitiator == s.isInitiator
    ensures t.state.myPeerId == s.myPeerId && t.state.peer == s.peer
    ensures s.connection.Some? && s.connection.value.id == link ==> t.state.connection == Some(Link(link, true))
    ensures !(s.connection.Some? && s.connection.value.id == link) ==> t.state.connection == s.connection
    ensures t.registry == reg && t.actions == []
  {
    var live := UpdateConnectionStatus(SetLinkOpen(s, link, true), Connected);
    var noted := AddMessage(live, System, ConnectedNotice, now);
    var shown := if noted.currentScreen != Chat then ShowScreen(noted, Chat) else noted;
    Transition(shown, reg, [])
  }

  /** The `data` handler: only frames of type `message` reach the log. */
  function LinkReceive(s: AppState, reg: Registry, frame: Frame): (t: Transition)
    ensures t.state == s.(messages := t.state.messages)
    ensures frame.kind == MessageKind ==> t.state.messages == s.messages + [Message(Other, frame.text, frame.timestamp)]
    ensures frame.kind != MessageKind ==> t.state.messages == s.messages
    ensures t.registry == reg && t.actions == []
  {
    if frame.kind == MessageKind then
      Transition(AddMessage(s, Other, frame.text, frame.timestamp), reg, [])
    else
      Transition(s, reg, [])
  }

  /** The `close` handler; the connection stays current, only no longer open. */
  function LinkClose(s: AppState, reg: Registry, link: LinkId, now: Timestamp): (t: Transition)
    ensures t.state.connectionStatus == Disconnected
    ensures t.state.messages == s.messages + [Message(System, PeerLeftNotice, now)]
    ensures t.state.myRoomCode == s.myRoomCode && t.state.isInitiator == s.isInitiator
    ensures t.state.currentScreen == s.currentScreen
    ensures t.state.myPeerId == s.myPeerId && t.state.peer == s.peer
    ensures s.connection.Some? && s.connection.value.id == link ==> t.state.connection == Some(Link(link, false))
    ensures !(s.connection.Some? && s.connection.value.id == link) ==> t.state.connection == s.connection
    ensures t.registry == reg && t.actions == []
  {
    var closed := UpdateConnectionStatus(SetLinkOpen(s, link, false), Disconnected);
    Transition(AddMessage(closed, System, PeerLeftNotice, now), reg, [])
  }

  /** The `error` handler of a connection only raises the banner. */
  function LinkError(s: AppState, reg: Registry): (t: Transition)
    ensures t.state == s && t.registry == reg
    ensures t.actions == [ShowError(ConnectionError)]
  {
    Transition(s, reg, [ShowError(ConnectionError)])
  }

  /** The `disconnected` handler of the endpoint. */
  function PeerDisconnect(s: AppState, reg: Registry): (t: Transition)
    ensures t.state == s.(connectionStatus := Disconnected)
    ensures t.registry == reg && t.actions == []
  {
    Transition(UpdateConnectionStatus(s, Disconnected), reg, [])
  }

  /** One event, handled to completion. */
  function Step(s: AppState, reg: Registry, ev: Event, now: Timestamp): Transition
  {
    match ev
    case CreateClicked(draws, start) => CreateRoom(s, reg, draws, start, now)
    case JoinClicked(input, start, link) => JoinRoom(s, reg, input, start, link, now)
    case SendClicked(input) => SendMessage(s, reg, input, now)
    case LeaveConfirmed => LeaveRoom(s, reg)
    case IncomingLink(link) => AcceptLink(s, reg, link)
    case LinkOpened(link) => LinkOpen(s, reg, link, now)
    case LinkData(_, frame) => LinkReceive(s, reg, frame)
    case LinkClosed(link) => LinkClose(s, reg, link, now)
    case LinkErrored(_) => LinkError(s, reg)
    case PeerDisconnected => PeerDisconnect(s, reg)
  }
}
