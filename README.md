# Rock, paper, scissors over publish/subscribe — a Dafny model

The repository is a single React component (`src/App.js`) in which each
browser client keeps a small state machine for a two-player
rock-paper-scissors match: it announces or joins a room on a lobby channel
(`"rps-room"`), publishes its one move on the room's channel, accepts the
opponent's move from incoming envelopes and turns the two values into a
result message. This project models that logic:

- `JsValues` (js_values.dfy): JavaScript's `undefined` for a missing
  envelope field, string truthiness, and `String.prototype.trim`, which
  decides whether a typed room id is blank.
- `Identity` (identity.dfy): `getUUID`, a get-or-create of the client's
  identity in local storage.
- `Winner` (winner.dfy): the decision inside `determineWinner`, as a pure
  function over arbitrary strings, with a reference table over the three
  real moves and the complementarity of the two players' outcomes.
- `GameState` (game_state.dfy): the component's six state fields as a
  class `Game`, with `createRoom`, `joinRoom`, `handleMove`,
  `handleMessage`, `determineWinner` and the room-id input's change
  handler as methods. The transport is abstract: what the client
  publishes is a ghost log of `(channel, envelope)` pairs and what it
  subscribes to is a ghost set of channels. The object invariant `Valid()`
  says that a move has been published exactly once once the game has
  started (never twice), that every envelope naming a sender names this
  client, that the lobby stays subscribed and that the result is unset or
  one of the three messages.
- `Scenarios` (scenarios.dfy): client programs that call the handlers in
  the orders the browser may call them (move before or after the
  opponent's envelope, a second move, an echoed envelope, a create/join
  match between two clients, two identity reads) and state what results.

The model follows the code where it departs from the intended protocol:

- `handleMessage` compares the envelope's `roomId` with the client's own
  identity, not with its active room id (`Accepts`). A move published by
  the opponent for the shared room is therefore dropped unless that room
  id happens to equal the receiver's identity; `CreateJoinPlay` shows that
  a create/join match never produces a result when the room id is neither
  client's identity (which a generated id of at most six characters never
  is). `BothAccept` proves that
  two clients accept each other's move envelopes only when each one's
  room id is the other's identity, and `CrossedRooms` plays that
  arrangement out (each client first joins the room named by its own
  identity, so every move travels on a subscribed channel): the outcomes
  are then complementary.
- `handleMessage` does not look at the envelope's `action` and copies its
  `move` field as is, so an accepted envelope without a move sets
  `opponentMove` to `undefined` (modelled as `None`).
- `createRoom` stores the client's identity as `player` and subscribes to
  no room channel; only `joinRoom` subscribes to the room.
- The move envelope has no `action` field.
- `determineWinner` compares arbitrary strings, guarded only by
  truthiness: a non-move value such as the identity loses against every
  move, and every move loses against it (`VerdictBothLose`).

## Model

| member | source | states |
|---|---|---|
| `JsValues.TrimStart` | src/App.js:59 | the result is the suffix of the input that starts at its first non-whitespace character; everything dropped is whitespace |
| `JsValues.TrimEnd` | src/App.js:59 | the result is the prefix of the input that ends at its last non-whitespace character; everything dropped is whitespace |
| `JsValues.Trim` | src/App.js:59 | `trim()` yields an empty string or one that neither starts nor ends with whitespace |
| `JsValues.TrimIsSlice` | src/App.js:59 | `trim()` returns a contiguous piece of its input whose two margins are whitespace only |
| `JsValues.TrimEmptyIffBlank` | src/App.js:59 | `roomId.trim() !== ""` holds exactly when the room id has a non-whitespace character (both directions) |
| `Identity.Stored` | src/App.js:5-6 | the stored identity is truthy exactly when the key is present with a non-empty value, and is then that value |
| `Identity.GetUUID` | src/App.js:4-11 | a truthy stored identity is returned and storage is untouched; otherwise the generated one is stored under `pubnub_uuid` and returned; afterwards storage holds the returned identity |
| `Scenarios.IdentityStable` | src/App.js:4-11 | two reads of the identity return the same value whatever the generator yields, and a stored truthy identity is the one returned |
| `Winner.Verdict` | src/App.js:89-99 | the result is always one of "It's a tie!", "You win!", "You lose!" |
| `Winner.VerdictTie` | src/App.js:89-90 | the verdict is a tie exactly when the two values are equal |
| `Winner.VerdictWinLose` | src/App.js:91-98 | for different values the verdict is a win exactly on (rock, scissors), (paper, rock), (scissors, paper) and a loss in every other case |
| `Winner.VerdictSwap` | src/App.js:89-98 | over arbitrary strings, a win for (a, b) is a loss for (b, a), and a tie is a tie both ways |
| `Winner.VerdictBothLose` | src/App.js:91-98 | a non-move value and any of the three moves each lose against the other, so a loss is not always the other side's win |
| `Winner.NameInjective` | src/App.js:126-128 | the three move buttons pass three distinct strings |
| `Winner.VerdictMatchesResolve` | src/App.js:89-98 | on the nine real move pairs the string rule agrees with the reference table (3 ties, 3 wins, 3 losses) |
| `Winner.ResolveComplementary` | src/App.js:89-98 | swapping the players swaps win and loss and keeps a tie |
| `Winner.VerdictComplementaryOnMoves` | src/App.js:89-98 | for moves a and b, (a, b) wins exactly when (b, a) loses, loses exactly when (b, a) wins, and ties exactly when a and b are equal |
| `GameState.OwnEnvelopesRejected` | src/App.js:37-39 | the client's own join and move envelopes never pass its filter, whatever they carry; its own create announcement (no sender) passes exactly when the room id equals its identity |
| `GameState.AcceptsMoveEnvelope` | src/App.js:37-39 | another client's move envelope passes the filter exactly when the room id it carries equals the receiver's identity |
| `GameState.BothAccept` | src/App.js:37-39 | two clients with different identities accept each other's move envelopes exactly when each one's room id is the other's identity |
| `GameState.Game.constructor` | src/App.js:20-32 | initial state: empty strings, `false` flags, nothing published, only the lobby subscribed |
| `GameState.Game.EnterRoomId` | src/App.js:112 | the typed text becomes the room id and nothing else changes |
| `GameState.Game.CreateRoom` | src/App.js:45-55 | the room id becomes the generated id, `player` becomes the client's identity, the client is creator, one `{roomId, action: "create"}` envelope is published on the lobby, and no subscription or other field changes |
| `GameState.Game.JoinRoom` | src/App.js:57-71 | a room id that trims to empty changes nothing; otherwise the room id is added to the subscriptions and one `{roomId, action: "join", sender}` envelope is published on the lobby; no state field changes |
| `GameState.Game.HandleMove` | src/App.js:73-85 | before the game starts: `player` becomes the move, the game starts and exactly one `{move, sender, roomId}` envelope is published on the room id's channel; once started: nothing changes and nothing is published; at most one move is ever published |
| `GameState.Game.HandleMessage` | src/App.js:35-43 | only `opponentMove` can change, and only to the envelope's move when it passes the filter `Accepts` (its room id equals the client's identity and its sender is not the client); an echo of an envelope the client published with a sender (its join or its move) never changes it |
| `GameState.Game.DetermineWinner` | src/App.js:87-101 | with truthy `player` and `opponentMove` the result becomes their verdict; otherwise the result and all other state stay unchanged |
| `Scenarios.SecondMoveIgnored` | src/App.js:73-76 | submitting a second move leaves the first one bound |
| `Scenarios.OrderIndependence` | src/App.js:35-101 | the result is the same whether the opponent's envelope arrives before or after the local move, and is the verdict exactly when the envelope passes the filter and both values are truthy |
| `Scenarios.ResolutionIdempotent` | src/App.js:87-101 | resolving again yields the same result, and a result exists exactly when the envelope passed the filter and both values are truthy |
| `Scenarios.EchoIgnored` | src/App.js:37-41 | the client's own move envelope delivered back to it leaves `opponentMove` at its initial empty value |
| `Scenarios.CreateJoinPlay` | src/App.js:35-85 | after a create, a join, both moves and every delivery the subscriptions allow (the create announcement to both clients and, when the join is accepted, the join announcement to both and both moves to the joiner), neither client has a result when the room id differs from both identities |
| `Scenarios.CrossedRooms` | src/App.js:35-101 | when each client has joined the room named by its own identity and then takes the other's identity as room id, each move is delivered on a subscribed channel and the two clients' results are complementary outcomes of the same move pair |

## Left out

- Rendering (src/App.js:103-138): every handler is callable in any state,
  and the model does not capture which handlers the page offers. In the
  component the room-id input and the Join button are rendered only while
  `roomId` is `""` (src/App.js:105-115), so `joinRoom` run from the page
  always takes the alert branch and the input disappears after the first
  keystroke; every successful `JoinRoom` in the scenarios, and a second
  `EnterRoomId`, happen only in the model. The move buttons are rendered
  only once `gameStarted` is true (src/App.js:123-130), while `handleMove`
  acts only while it is false, so no move can be made from the page.
- The transport client: construction with keys from the environment
  (src/App.js:13-17) and listener registration (src/App.js:28-30). Publish
  and subscribe are recorded in ghost logs; delivery is modelled by the
  caller passing an envelope to `HandleMessage`, and the channel an
  envelope arrived on is not modelled because the handler ignores it.
- The 2000 ms timer around `determineWinner` (src/App.js:81-83) and
  React's batched setters and stale closures: the timer's callback reads
  the state captured when the move was made, whereas `DetermineWinner`
  reads the current state and may be called at any time.
- Room-id generation with `Math.random()` (src/App.js:46): the generated id
  is a parameter of `CreateRoom`, and any string (including the empty one)
  is allowed.
- The UUID generator: its output is a parameter of `GetUUID`, required to
  be non-empty as a UUID always is.
- `alert` (src/App.js:69) and `window.location.reload` (src/App.js:134):
  browser side effects.
- Strings are sequences of Unicode scalar values, not UTF-16 code units;
  `trim` over lone surrogates is not modelled.
- Envelope fields holding non-string JSON values are not modelled.
