/**
 * The `appState` record of the chat page and the three small writers every
 * handler goes through: `addMessage`, `updateConnectionStatus`, `showScreen`.
 */
module Session {
  import opened Basics

  datatype Screen = Welcome | RoomCreated | Chat

  datatype Status = Disconnected | Connecting | Connected

  /** The `type` of a chat message: written here, received from the peer, or a notice of the page itself. */
  datatype Origin = Own | Other | System

  datatype Message = Message(origin: Origin, text: string, timestamp: Timestamp)

  /** Which PeerJS data connection a link event comes from. */
  type LinkId = nat

  /** A PeerJS data connection, reduced to its identity and its `open` flag. */
  datatype Link = Link(id: LinkId, open: bool)

  /**
   * `appState`. The PeerJS endpoint object itself is reduced to whether one
   * is held (`peer`).
   */
  datatype AppState = AppState(
    currentScreen: Screen,
    myPeerId: Option<PeerId>,
    myRoomCode: Option<string>,
    isInitiator: bool,
    peer: bool,
    connection: Option<Link>,
    messages: seq<Message>,
    connectionStatus: Status)

  /** The state the page starts in. */
  const Initial := AppState(Welcome, None, None, false, false, None, [], Disconnected)

  /** The system notices the page writes into the log. */
  const JoinedNotice := "Присоединились к комнате"
  const ConnectedNotice := "Подключен к пиру"
  const PeerLeftNotice := "Пир отключился"

  /** `addMessage(origin, text, timestamp)`: the log grows by exactly this message at its end. */
  function AddMessage(s: AppState, origin: Origin, text: string, timestamp: Timestamp): (r: AppState)
    ensures |r.messages| == |s.messages| + 1
    ensures r.messages[..|s.messages|] == s.messages
    ensures r.messages[|s.messages|] == Message(origin, text, timestamp)
    ensures r == s.(messages := r.messages)
  {
    s.(messages := s.messages + [Message(origin, text, timestamp)])
  }

  /** The state part of `updateConnectionStatus(status)`; the status text and CSS are presentation. */
  function UpdateConnectionStatus(s: AppState, status: Status): AppState
  {
    s.(connectionStatus := status)
  }

  /** The state part of `showScreen(screen)`. */
  function ShowScreen(s: AppState, screen: Screen): AppState
  {
    s.(currentScreen := screen)
  }
}
