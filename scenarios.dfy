/**
 * Client programs that drive the handlers in the orders the host
 * environment may call them, and state what the component then shows.
 */
module Scenarios {
  import opened JsValues
  import opened Winner
  import opened GameState
  import Identity

  /** A second move is ignored: the first one stays bound. */
  method SecondMoveIgnored(uuid: string, room: string, first: string, second: string)
    returns (player: string, started: bool)
    ensures player == first && started
  {
    var g := new Game(uuid);
    g.EnterRoomId(room);
    g.HandleMove(first);
    g.HandleMove(second);
    player, started := g.player, g.gameStarted;
  }

  /**
   * The result does not depend on whether the opponent's envelope arrives
   * before or after the local move; it is the verdict of the two values
   * when the envelope passes the filter and carries a non-empty move.
   */
  method OrderIndependence(uuid: string, room: string, move: string, env: Envelope)
    returns (moveFirst: string, messageFirst: string)
    ensures moveFirst == messageFirst
    ensures moveFirst == if move != "" && Accepts(uuid, env) && Truthy(env.move)
                         then Verdict(move, env.move.value) else ""
  {
    var a := new Game(uuid);
    a.EnterRoomId(room);
    a.HandleMove(move);
    a.HandleMessage(env);
    a.DetermineWinner();
    var b := new Game(uuid);
    b.EnterRoomId(room);
    b.HandleMessage(env);
    b.HandleMove(move);
    b.DetermineWinner();
    moveFirst, messageFirst := a.result, b.result;
  }

  /** Running the resolution again after it produced a result changes nothing. */
  method ResolutionIdempotent(uuid: string, move: string, env: Envelope)
    returns (first: string, again: string)
    ensures first == again
    ensures first != "" <==> move != "" && Accepts(uuid, env) && Truthy(env.move)
  {
    var g := new Game(uuid);
    g.HandleMove(move);
    g.HandleMessage(env);
    g.DetermineWinner();
    first := g.result;
    g.DetermineWinner();
    again := g.result;
  }

  /** The client's own move, echoed back by the transport, is not taken as the opponent's. */
  method EchoIgnored(uuid: string, move: string) returns (opponentMove: Option<string>)
    ensures opponentMove == Some("")
  {
    var g := new Game(uuid);
    g.EnterRoomId(uuid);
    g.HandleMove(move);
    g.HandleMessage(MoveEnvelope(move, uuid, g.roomId));
    opponentMove := g.opponentMove;
  }

  /**
   * Creator A announces room `room` and B joins it; both move. A never
   * subscribes to `room`, so A receives only lobby announcements. Both
   * clients receive A's create announcement; when the join was accepted
   * (the room id is not blank), both receive B's join announcement and B
   * receives both moves on `room` (A's and the echo of its own); a
   * rejected join publishes nothing, so nothing more is delivered. These are all the deliveries the subscriptions
   * allow, and each is on a channel the receiver subscribed to. Because the filter compares the room id with the
   * receiver's identity, neither client resolves unless the room id
   * happens to equal its identity.
   */
  method CreateJoinPlay(uuidA: string, uuidB: string, room: string, a: Move, b: Move)
    returns (resultA: string, resultB: string)
    requires room != uuidA && room != uuidB
    ensures resultA == "" && resultB == ""
  {
    var ca := new Game(uuidA);
    var cb := new Game(uuidB);
    ca.CreateRoom(room);
    cb.EnterRoomId(room);
    cb.JoinRoom();
    ca.HandleMove(Name(a));
    cb.HandleMove(Name(b));
    HearCreate(ca, room);
    HearCreate(cb, room);
    if Trim(room) != "" {
      HearJoin(ca, room, uuidB);
      HearJoin(cb, room, uuidB);
      HearRoomMoves(cb, uuidA, Name(a), Name(b));
    }
    ca.DetermineWinner();
    cb.DetermineWinner();
    resultA, resultB := ca.result, cb.result;
  }

  /**
   * Delivery to `g` of the creator's announcement of room `room` on the
   * lobby. It does not pass the filter when the room id is not `g`'s
   * identity.
   */
  method HearCreate(g: Game, room: string)
    requires g.Valid() && room != g.uuid
    modifies g`opponentMove
    ensures g.Valid() && g.opponentMove == old(g.opponentMove)
  {
    assert Lobby in g.subscribed;
    g.HandleMessage(CreateEnvelope(room));
  }

  /**
   * Delivery to `g` of the announcement, on the lobby, that `joiner` joined
   * room `room`. It does not pass the filter when the room id is not `g`'s
   * identity.
   */
  method HearJoin(g: Game, room: string, joiner: string)
    requires g.Valid() && room != g.uuid
    modifies g`opponentMove
    ensures g.Valid() && g.opponentMove == old(g.opponentMove)
  {
    assert Lobby in g.subscribed;
    g.HandleMessage(JoinEnvelope(room, joiner));
  }

  /**
   * Delivery to `g`, on the room channel it subscribed to, of the other
   * client's move and the echo of its own. Neither passes the filter when
   * the room id is not `g`'s identity.
   */
  method HearRoomMoves(g: Game, other: string, otherMove: string, ownMove: string)
    requires g.Valid() && g.roomId != g.uuid && g.roomId in g.subscribed
    modifies g`opponentMove
    ensures g.Valid() && g.opponentMove == old(g.opponentMove)
  {
    g.HandleMessage(MoveEnvelope(otherMove, other, g.roomId));
    g.HandleMessage(MoveEnvelope(ownMove, g.uuid, g.roomId));
  }

  /**
   * Each client first joins the room named by its own identity (which
   * subscribes it to that channel) and then types the other's identity as
   * its room id, so each move is published on the channel the other client
   * subscribed to and passes the other's filter (`BothAccept`: this is the
   * only choice of room ids for which both do). The two clients then see
   * complementary outcomes for every pair of moves.
   */
  method CrossedRooms(uuidA: string, uuidB: string, a: Move, b: Move)
    returns (resultA: string, resultB: string)
    requires uuidA != uuidB
    requires !IsBlank(uuidA) && !IsBlank(uuidB)
    ensures resultA == Message(Resolve(a, b))
    ensures resultB == Message(Flip(Resolve(a, b)))
  {
    var ca := new Game(uuidA);
    var cb := new Game(uuidB);
    JoinOwnThenType(ca, uuidB);
    JoinOwnThenType(cb, uuidA);
    ca.HandleMove(Name(a));
    cb.HandleMove(Name(b));
    assert cb.roomId in ca.subscribed;
    ca.HandleMessage(MoveEnvelope(Name(b), uuidB, cb.roomId));
    assert ca.roomId in cb.subscribed;
    cb.HandleMessage(MoveEnvelope(Name(a), uuidA, ca.roomId));
    ca.DetermineWinner();
    cb.DetermineWinner();
    resultA, resultB := ca.result, cb.result;
    VerdictMatchesResolve(a, b);
    VerdictMatchesResolve(b, a);
    ResolveComplementary(a, b);
  }

  /**
   * A freshly mounted client joins the room named by its own identity and
   * then types `other` as its room id.
   */
  method JoinOwnThenType(g: Game, other: string)
    requires g.Valid() && !IsBlank(g.uuid)
    requires !g.gameStarted && g.player == "" && g.opponentMove == Some("") && g.result == ""
    modifies g
    ensures g.Valid() && g.roomId == other && g.uuid in g.subscribed
    ensures !g.gameStarted && g.player == "" && g.opponentMove == Some("") && g.result == ""
  {
    TrimEmptyIffBlank(g.uuid);
    g.EnterRoomId(g.uuid);
    g.JoinRoom();
    g.EnterRoomId(other);
  }

  /** Two reads of the identity with different generator outputs agree. */
  method IdentityStable(items: map<string, string>, generated1: string, generated2: string)
    returns (first: string, second: string)
    requires generated1 != "" && generated2 != ""
    ensures first == second
    ensures Identity.Stored(items) != "" ==> first == Identity.Stored(items)
  {
    var storage := new Identity.LocalStorage(items);
    first := Identity.GetUUID(storage, generated1);
    second := Identity.GetUUID(storage, generated2);
  }
}
