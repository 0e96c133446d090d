/**
 * Properties of the chat page that relate several handlers, or a handler
 * and an invariant it keeps.
 */
module SessionProperties {
  import opened Basics
  import opened Session
  import opened Rooms
  import opened Controller
  import RoomCode
  import JsString

  /**
   * What every reachable state satisfies: a stored room code is a valid code
   * (so it is never the empty string), and a known peer id comes with a held endpoint.
   */
  predicate SessionInvariant(s: AppState)
  {
    && (s.myRoomCode.Some? ==> RoomCode.ValidRoomCode(s.myRoomCode.value))
    && (s.myPeerId.Some? ==> s.peer)
  }

  lemma InitialSatisfiesInvariant()
    ensures SessionInvariant(Initial) && WellFormed(EmptyRegistry)
  {
  }

  /** Every handler keeps the session invariant and the registry well formed. */
  lemma StepPreservesInvariant(s: AppState, reg: Registry, ev: Event, now: Timestamp)
    requires SessionInvariant(s) && WellFormed(reg)
    ensures SessionInvariant(Step(s, reg, ev, now).state)
    ensures WellFormed(Step(s, reg, ev, now).registry)
  {
    match ev
    case CreateClicked(draws, start) =>
      RoomCode.GeneratedCodesAreValid(draws);
    case _ =>
  }

  /** In reachable states the truthiness test of `leaveRoom` is just "a code is stored". */
  lemma RoomCodeTruthiness(s: AppState)
    requires SessionInvariant(s)
    ensures HasRoomCode(s) <==> s.myRoomCode.Some?
  {
  }

  /**
   * Leaving twice is leaving once: the second call finds nothing to close,
   * nothing to remove and nothing to clear.
   */
  lemma LeaveRoomIdempotent(s: AppState, reg: Registry)
    ensures var once := LeaveRoom(s, reg);
            LeaveRoom(once.state, once.registry) == Transition(once.state, once.registry, [])
  {
  }

  /** Leaving when no session is active changes nothing and calls nothing. */
  lemma LeaveWhenIdleIsNoOp(reg: Registry, now: Timestamp)
    ensures Step(Initial, reg, LeaveConfirmed, now) == Transition(Initial, reg, [])
  {
  }

  /** A malformed code is rejected without the registry being read: the outcome is the same whatever it holds. */
  lemma InvalidJoinIgnoresRegistry(s: AppState, reg1: Registry, reg2: Registry, input: string,
                                   start: PeerStart, link: LinkId, now: Timestamp)
    requires !RoomCode.ValidRoomCode(NormalizeCode(input))
    ensures JoinRoom(s, reg1, input, start, link, now).state == JoinRoom(s, reg2, input, start, link, now).state
    ensures JoinRoom(s, reg1, input, start, link, now).actions == JoinRoom(s, reg2, input, start, link, now).actions
  {
  }

  /**
   * The room a host creates is the room a guest finds: any input that reads
   * as its code (in any letter case, padded by whitespace) makes the guest
   * dial the host's peer id.
   */
  lemma CreatedRoomIsFound(s: AppState, reg: Registry, draws: RoomCode.Draws, id: PeerId, now: Timestamp,
                           guest: AppState, input: string, guestId: PeerId, link: LinkId, later: Timestamp)
    requires NormalizeCode(input) == RoomCode.CodeOf(draws)
    ensures var host := CreateRoom(s, reg, draws, PeerOpened(id), now);
            && host.state.myRoomCode == Some(RoomCode.CodeOf(draws))
            && Lookup(host.registry, NormalizeCode(input)) == Some(RoomData(RoomCode.CodeOf(draws), id, now))
            && JoinRoom(guest, host.registry, input, PeerOpened(guestId), link, later).actions == [ConnectTo(id)]
  {
    RoomCode.GeneratedCodesAreValid(draws);
  }

  /**
   * Creating a room and then leaving it removes its code from the registry
   * and leaves every other code as it was before the room was created.
   */
  lemma CreateThenLeaveUnregisters(s: AppState, reg: Registry, draws: RoomCode.Draws, id: PeerId, now: Timestamp)
    ensures var host := CreateRoom(s, reg, draws, PeerOpened(id), now);
            var left := LeaveRoom(host.state, host.registry);
            left.registry == Unregister(reg, RoomCode.CodeOf(draws))
  {
    RoomCode.GeneratedCodesAreValid(draws);
    var host := CreateRoom(s, reg, draws, PeerOpened(id), now);
    var left := LeaveRoom(host.state, host.registry);
    var code := RoomCode.CodeOf(draws);
    assert HasRoomCode(host.state);
    forall k
      ensures k in left.registry <==> k in Unregister(reg, code)
    {
      if k != code {
        assert Lookup(host.registry, k) == Lookup(reg, k);
      }
    }
    forall k | k in left.registry
      ensures left.registry[k] == reg[k]
    {
      assert Lookup(host.registry, k) == Lookup(reg, k);
    }
  }

  /**
   * A failed `createRoom` leaves the page claiming a room that is not in the
   * registry and holding no connection, but holding the endpoint that
   * failed, which a later leave destroys.
   */
  lemma FailedCreateKeepsCode(s: AppState, reg: Registry, draws: RoomCode.Draws, now: Timestamp)
    requires RoomCode.CodeOf(draws) !in reg && s.connection.None?
    ensures var t := CreateRoom(s, reg, draws, PeerErrored, now);
            && t.state.myRoomCode == Some(RoomCode.CodeOf(draws))
            && t.state.isInitiator
            && RoomCode.CodeOf(draws) !in t.registry
            && t.state.connection.None?
            && t.state.peer
            && DestroyPeer in LeaveRoom(t.state, t.registry).actions
  {
  }

  /**
   * A message sent on one side arrives on the other as exactly one entry with
   * the same text, and the sender logs exactly one entry of its own.
   */
  lemma SendReceiveRoundTrip(a: AppState, ra: Registry, input: string, now: Timestamp,
                             b: AppState, rb: Registry, link: LinkId, later: Timestamp)
    requires JsString.Trim(input) != []
    requires a.connection.Some? && a.connection.value.open
    ensures var sent := Step(a, ra, SendClicked(input), now);
            && |sent.actions| == 1 && sent.actions[0].SendFrame?
            && sent.state.messages == a.messages + [Message(Own, JsString.Trim(input), now)]
            && Step(b, rb, LinkData(link, sent.actions[0].frame), later).state.messages
               == b.messages + [Message(Other, JsString.Trim(input), now)]
  {
  }

  /**
   * After the connection closes the room is kept but sending is refused and
   * logs nothing.
   */
  lemma SendAfterCloseRefused(s: AppState, reg: Registry, link: LinkId, now: Timestamp, input: string, later: Timestamp)
    requires s.connection.Some? && s.connection.value.id == link
    requires JsString.Trim(input) != []
    ensures var closed := Step(s, reg, LinkClosed(link), now);
            var sent := Step(closed.state, closed.registry, SendClicked(input), later);
            && closed.state.myRoomCode == s.myRoomCode
            && closed.state.isInitiator == s.isInitiator
            && closed.state.connectionStatus == Disconnected
            && sent.actions == [ShowError(NotConnected)]
            && sent.state.messages == closed.state.messages
  {
  }

  /**
   * The log is append-only between teardowns: every handler but `leaveRoom`
   * keeps it as a prefix and adds at most one message; `leaveRoom` empties it.
   */
  lemma StepLogDiscipline(s: AppState, reg: Registry, ev: Event, now: Timestamp)
    ensures var t := Step(s, reg, ev, now);
            if ev.LeaveConfirmed? then t.state.messages == []
            else s.messages <= t.state.messages && |t.state.messages| <= |s.messages| + 1
  {
  }

  /** Only creating and leaving a room write the registry. */
  lemma StepRegistryFrame(s: AppState, reg: Registry, ev: Event, now: Timestamp)
    requires !ev.CreateClicked? && !ev.LeaveConfirmed?
    ensures Step(s, reg, ev, now).registry == reg
  {
  }

  /** Whitespace around the typed code is dropped and its letters are upper-cased. */
  lemma PaddedInputNormalizes()
    ensures NormalizeCode(" ab12xy\n") == "AB12XY"
  {
    var padded := " ab12xy\n";
    var inner := "ab12xy\n";
    assert padded[1..] == inner;
    assert JsString.IsTrimmable(padded[0]);
    assert !JsString.IsTrimmable(inner[0]);
    assert JsString.TrimStart(inner) == inner;
    assert JsString.TrimStart(padded) == inner;
    assert inner[..6] == "ab12xy";
    assert JsString.IsTrimmable(inner[6]);
    assert !JsString.IsTrimmable("ab12xy"[5]);
    assert JsString.TrimEnd("ab12xy") == "ab12xy";
    assert JsString.TrimEnd(inner) == "ab12xy";
    LowerCodeNormalizes();
  }

  /** A code typed with dotless i's upper-cases to a valid code of capital I's. */
  lemma DotlessINormalizes()
    ensures NormalizeCode("\U{0131}\U{0131}\U{0131}\U{0131}\U{0131}\U{0131}") == "IIIIII"
  {
    var dotless := "\U{0131}\U{0131}\U{0131}\U{0131}\U{0131}\U{0131}";
    JsString.TrimOfTrimmed(dotless);
    JsString.ToUpperCasePointwise(dotless);
  }

  /** Whitespace inside the code is not dropped, so the code is refused. */
  lemma InnerSpaceRejected()
    ensures !RoomCode.ValidRoomCode(NormalizeCode("ab 12xy"))
  {
    var spaced := "ab 12xy";
    JsString.TrimOfTrimmed(spaced);
    JsString.ToUpperCaseAscii(spaced);
    assert NormalizeCode(spaced)[2] == ' ';
  }

  /** The guest's input of the happy path names the host's room. */
  lemma LowerCodeNormalizes()
    ensures NormalizeCode("ab12xy") == "AB12XY"
    ensures RoomCode.ValidRoomCode("AB12XY")
  {
    JsString.TrimOfTrimmed("ab12xy");
    JsString.ToUpperCaseAscii("ab12xy");
    var u := NormalizeCode("ab12xy");
    assert u[0] == 'A' && u[1] == 'B' && u[2] == '1' && u[3] == '2' && u[4] == 'X' && u[5] == 'Y';
  }

  /** The host of the happy path once its room is created, and the registry it wrote. */
  const HostWaiting := AppState(RoomCreated, Some("host"), Some("AB12XY"), true, true, None, [], Disconnected)
  const HappyRegistry: Registry := map["AB12XY" := RoomData("AB12XY", "host", 1)]

  /** The guest of the happy path right after it joined. */
  const GuestJoined := AppState(Chat, Some("guest"), Some("AB12XY"), false, true, Some(Link(7, false)),
                                [Message(System, JoinedNotice, 2)], Connecting)

  /** The host draws code AB12XY, registers it and waits on the room-created screen. */
  lemma HostCreatesRoom()
    ensures Step(Initial, EmptyRegistry, CreateClicked([0, 1, 27, 28, 23, 24], PeerOpened("host")), 1)
            == Transition(HostWaiting, HappyRegistry, [])
  {
    var draws: RoomCode.Draws := [0, 1, 27, 28, 23, 24];
    assert RoomCode.CodeOf(draws) == "AB12XY";
  }

  /** The guest types "ab12xy", finds the host and dials it. */
  lemma GuestJoinsRoom()
    ensures Step(Initial, HappyRegistry, JoinClicked("ab12xy", PeerOpened("guest"), 7), 2)
            == Transition(GuestJoined, HappyRegistry, [ConnectTo("host")])
  {
    LowerCodeNormalizes();
  }

  /**
   * The happy path for any room: a host creates a room, a guest types its
   * code in any letter case and padding, the host accepts the incoming
   * connection, both connections open, and both sides end up connected on
   * the chat screen, each log holding one "connected" notice.
   */
  lemma HappyPath(draws: RoomCode.Draws, hostId: PeerId, input: string, guestId: PeerId,
                  hostLink: LinkId, guestLink: LinkId, t1: Timestamp, t2: Timestamp, t3: Timestamp)
    requires NormalizeCode(input) == RoomCode.CodeOf(draws)
    ensures var host := Step(Initial, EmptyRegistry, CreateClicked(draws, PeerOpened(hostId)), t1);
            var guest := Step(Initial, host.registry, JoinClicked(input, PeerOpened(guestId), guestLink), t2);
            var hostLinked := Step(host.state, guest.registry, IncomingLink(hostLink), t3);
            var hostOpen := Step(hostLinked.state, hostLinked.registry, LinkOpened(hostLink), t3);
            var guestOpen := Step(guest.state, hostOpen.registry, LinkOpened(guestLink), t3);
            && guest.state.myRoomCode == host.state.myRoomCode
            && guest.actions == [ConnectTo(hostId)]
            && hostOpen.state.connectionStatus == Connected && guestOpen.state.connectionStatus == Connected
            && hostOpen.state.connection == Some(Link(hostLink, true))
            && guestOpen.state.connection == Some(Link(guestLink, true))
            && hostOpen.state.currentScreen == Chat && guestOpen.state.currentScreen == Chat
            && hostOpen.state.messages == [Message(System, ConnectedNotice, t3)]
            && guestOpen.state.messages == [Message(System, JoinedNotice, t2), Message(System, ConnectedNotice, t3)]
  {
    RoomCode.GeneratedCodesAreValid(draws);
  }

  /** A guest asking for a room nobody created gets an error and stays on the welcome screen. */
  lemma RoomNotFoundScenario(start: PeerStart, link: LinkId, now: Timestamp)
    ensures Step(Initial, EmptyRegistry, JoinClicked("ZZZZZZ", start, link), now)
            == Transition(Initial, EmptyRegistry, [ShowError(RoomNotFound)])
  {
    assert RoomCode.ValidRoomCode("ZZZZZZ");
    RoomCode.ValidCodeIsNormal("ZZZZZZ");
  }
}
