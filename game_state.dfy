/**
 * The per-client state of the game component and its handlers. Each
 * handler runs atomically; the transport is abstract and appears only as
 * a log of what this client published and the set of channels it
 * subscribed to.
 */
module GameState {
  import opened JsValues
  import Winner

  /** The lobby channel every client subscribes to on mount. */
  const Lobby := "rps-room"

  /** A wire message; a field the sender left out reads as `undefined`. */
  datatype Envelope = Envelope(
    roomId: Option<string>,
    action: Option<string>,
    sender: Option<string>,
    move: Option<string>)

  /** One call of the transport's `publish`. */
  datatype Publication = Publication(channel: string, message: Envelope)

  /** `{ roomId, action: "create" }`, published by `createRoom`. */
  function CreateEnvelope(roomId: string): (r: Envelope) {
    Envelope(Some(roomId), Some("create"), None, None)
  }

  /** `{ roomId, action: "join", sender }`, published by `joinRoom`. */
  function JoinEnvelope(roomId: string, sender: string): (r: Envelope) {
    Envelope(Some(roomId), Some("join"), Some(sender), None)
  }

  /** `{ move, sender, roomId }`, published by `handleMove` (no action field). */
  function MoveEnvelope(move: string, sender: string, roomId: string): (r: Envelope) {
    Envelope(Some(roomId), None, Some(sender), Some(move))
  }

  /** The number of publications in `log` that carry a move. */
  function MoveCount(log: seq<Publication>): (r: nat) {
    if log == [] then 0
    else (if log[0].message.move.Some? then 1 else 0) + MoveCount(log[1..])
  }

  lemma {:induction false} MoveCountAppend(log: seq<Publication>, p: Publication)
    ensures MoveCount(log + [p]) == MoveCount(log) + (if p.message.move.Some? then 1 else 0)
  {
    if log != [] {
      assert (log + [p])[1..] == log[1..] + [p];
      MoveCountAppend(log[1..], p);
    }
  }

  /**
   * The filter of `handleMessage`: the envelope's room id must equal this
   * client's own identity (not its active room id) and the sender must not
   * be this client.
   */
  predicate Accepts(uuid: string, env: Envelope) {
    env.roomId == Some(uuid) && env.sender != Some(uuid)
  }

  /**
   * No envelope a client publishes with a sender passes its own filter,
   * whatever room id and move it carries; the create announcement, which
   * has no sender, passes exactly when its room id is the identity.
   */
  lemma OwnEnvelopesRejected(uuid: string, roomId: string, move: string)
    ensures !Accepts(uuid, JoinEnvelope(roomId, uuid))
    ensures !Accepts(uuid, MoveEnvelope(move, uuid, roomId))
    ensures Accepts(uuid, CreateEnvelope(roomId)) <==> roomId == uuid
  {
  }

  /**
   * A move envelope from another client passes the filter exactly when the
   * room id it carries is the receiver's identity.
   */
  lemma AcceptsMoveEnvelope(uuid: string, move: string, sender: string, roomId: string)
    requires sender != uuid
    ensures Accepts(uuid, MoveEnvelope(move, sender, roomId)) <==> roomId == uuid
  {
  }

  /**
   * Two clients with different identities each accept the other's move
   * envelope exactly when each one's room id is the other's identity.
   */
  lemma BothAccept(uuidA: string, uuidB: string, a: string, b: string, roomA: string, roomB: string)
    requires uuidA != uuidB
    ensures Accepts(uuidB, MoveEnvelope(a, uuidA, roomA)) && Accepts(uuidA, MoveEnvelope(b, uuidB, roomB))
            <==> roomA == uuidB && roomB == uuidA
  {
  }

  /** A result is either still unset or one of the three messages. */
  predicate IsResult(r: string) {
    r == "" || r == Winner.TieMessage || r == Winner.WinMessage || r == Winner.LoseMessage
  }

  /** The `Game` component's state. */
  class Game {
    /** The identity the transport was configured with (`pubnub.getUUID()`). */
    const uuid: string

    var player: string
    var opponentMove: Option<string>
    var result: string
    var gameStarted: bool
    var roomId: string
    var isRoomCreator: bool

    /** Every `publish` this client made, oldest first. */
    ghost var published: seq<Publication>
    /** Every channel this client subscribed to. */
    ghost var subscribed: set<string>

    /**
     * What every handler keeps: the lobby stays subscribed, a move was
     * published exactly when the game has started (so never twice), every
     * envelope naming a sender names this client, and the result is unset
     * or one of the three messages.
     */
    ghost predicate Valid()
      reads this
    {
      && Lobby in subscribed
      && MoveCount(published) == (if gameStarted then 1 else 0)
      && (forall i :: 0 <= i < |published| && published[i].message.sender.Some? ==>
            published[i].message.sender == Some(uuid))
      && IsResult(result)
    }

    /** Mounting the component: initial state and the lobby subscription. */
    constructor (uuid: string)
      ensures Valid()
      ensures this.uuid == uuid
      ensures player == "" && opponentMove == Some("") && result == ""
      ensures !gameStarted && roomId == "" && !isRoomCreator
      ensures published == [] && subscribed == {Lobby}
    {
      this.uuid := uuid;
      player, opponentMove, result := "", Some(""), "";
      gameStarted, roomId, isRoomCreator := false, "", false;
      published, subscribed := [], {Lobby};
    }

    /** The room-id text input's change handler. */
    method EnterRoomId(text: string)
      requires Valid()
      modifies this`roomId
      ensures Valid()
      ensures roomId == text
    {
      roomId := text;
    }

    /**
     * `createRoom`: binds the given (randomly generated) room id, makes the
     * player's value this client's identity, marks the client as creator
     * and announces the room on the lobby. It subscribes to nothing.
     */
    method CreateRoom(generatedId: string)
      requires Valid()
      modifies this`roomId, this`player, this`isRoomCreator, this`published
      ensures Valid()
      ensures roomId == generatedId && player == uuid && isRoomCreator
      ensures published == old(published) + [Publication(Lobby, CreateEnvelope(generatedId))]
    {
      MoveCountAppend(published, Publication(Lobby, CreateEnvelope(generatedId)));
      roomId := generatedId;
      player := uuid;
      isRoomCreator := true;
      published := published + [Publication(Lobby, CreateEnvelope(generatedId))];
    }

    /**
     * `joinRoom`: a room id that trims to empty is rejected with no effect;
     * otherwise the room's channel is subscribed and a join is announced on
     * the lobby. No state field changes either way.
     */
    method JoinRoom()
      requires Valid()
      modifies this`published, this`subscribed
      ensures Valid()
      ensures Trim(roomId) == "" ==>
                published == old(published) && subscribed == old(subscribed)
      ensures Trim(roomId) != "" ==>
                && subscribed == old(subscribed) + {roomId}
                && published == old(published) + [Publication(Lobby, JoinEnvelope(roomId, uuid))]
    {
      if Trim(roomId) != "" {
        MoveCountAppend(published, Publication(Lobby, JoinEnvelope(roomId, uuid)));
        subscribed := subscribed + {roomId};
        published := published + [Publication(Lobby, JoinEnvelope(roomId, uuid))];
      }
    }

    /**
     * `handleMove`: only the first call acts. It stores the move as
     * `player`, starts the game and publishes exactly one move envelope on
     * the channel named by the current room id; later calls do nothing.
     */
    method HandleMove(move: string)
      requires Valid()
      modifies this`player, this`gameStarted, this`published
      ensures Valid()
      ensures gameStarted
      ensures !old(gameStarted) ==>
                && player == move
                && published == old(published) + [Publication(roomId, MoveEnvelope(move, uuid, roomId))]
      ensures old(gameStarted) ==> player == old(player) && published == old(published)
    {
      if !gameStarted {
        MoveCountAppend(published, Publication(roomId, MoveEnvelope(move, uuid, roomId)));
        player := move;
        gameStarted := true;
        published := published + [Publication(roomId, MoveEnvelope(move, uuid, roomId))];
      }
    }

    /**
     * `handleMessage`: an accepted envelope sets `opponentMove` to its move
     * field (possibly `undefined`); any other envelope changes nothing. An
     * echo of an envelope this client published with a sender is never
     * accepted.
     */
    method HandleMessage(env: Envelope)
      requires Valid()
      modifies this`opponentMove
      ensures Valid()
      ensures opponentMove == if Accepts(uuid, env) then env.move else old(opponentMove)
      ensures env.roomId != Some(uuid) ==> opponentMove == old(opponentMove)
      ensures env.sender == Some(uuid) ==> opponentMove == old(opponentMove)
      ensures (exists i :: 0 <= i < |published| && published[i].message == env && env.sender.Some?) ==>
                opponentMove == old(opponentMove)
    {
      if env.roomId == Some(uuid) {
        if env.sender != Some(uuid) {
          opponentMove := env.move;
        }
      }
    }

    /**
     * `determineWinner`: when both `player` and `opponentMove` are truthy
     * the result becomes their verdict; otherwise nothing changes.
     */
    method DetermineWinner()
      requires Valid()
      modifies this`result
      ensures Valid()
      ensures player != "" && Truthy(opponentMove) ==>
                result == Winner.Verdict(player, opponentMove.value)
      ensures !(player != "" && Truthy(opponentMove)) ==> result == old(result)
    {
      if player != "" && Truthy(opponentMove) {
        result := Winner.Verdict(player, opponentMove.value);
      }
    }
  }
}
