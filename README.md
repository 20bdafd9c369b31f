# Hide-and-seek game state machines, in Dafny

This project models the stateful core of a two-player "hide and seek" game prototype. Most of that prototype is Flask and Socket.IO glue, homomorphic-encryption library calls and browser code. The core is four parts:

- **Backend game session** (`backend_app.dfy`, module `BackendApp`). This is the process-wide `game_state` record of the Flask backend.
  - Player registration against a capacity of two. The list starts with one seed entry.
  - The key ceremony. It replaces the crypto context and publishes the joint public key only when both key-generation steps report `good`.
  - The move handler. It checks the turn, the input and deserialization. It then adds the mover's encrypted vector to that player's accumulator (set if empty, else homomorphic `EvalAdd`) and advances the turn cyclically. When the turn wraps, the stage advances and the decryption flag is raised. The handler reports "Hiders won!" when the stage reaches 10.
  - The public-key endpoint guard.
- **Socket game server** (`socket_server.dfy`, module `SocketServer`). A two-phase machine:
  - In `placement`, either side stores its position at any time.
  - Once both a hider and a seeker position exist, the phase becomes `movement` with the hider to move.
  - In `movement`, hider and seeker strictly alternate. An out-of-turn move is answered with `invalid_move` and changes nothing.
- **Browser board game** (`board_game.dfy`, module `BoardGame`). A `hiding -> seeking -> finished` machine on a 4 x 4 board. It covers:
  - cell index to `[row, col]` arithmetic and back;
  - the seeker's win rule: cells at most one step apart in each coordinate;
  - marking the two cells, the result text, and reset.
- **Move encoding** (`move_encoding.dfy`, module `MoveEncoding`). The client's direction word to 0/1 vector lookup.

`openfhe.dfy` stands in for the homomorphic-encryption library, and `wrappers.dfy` holds `Option` and `Result`.

Each part that the code mutates in place is a class. Its methods change its fields and are proved to agree with a pure step function on a value of the same record (`JoinStep`, `MoveStep`, `ClickStep`, ...). The properties are proved about those step functions, about runs of them, and as invariants (`WellFormed`) that every event handler keeps.

## Modelling choices

- **The library is uninterpreted.**
  - A ciphertext is the term that built it: `Fresh(handle)` for one the library produced, `Sum(a, b)` for `EvalAdd(a, b)`. The accumulator lemma therefore says exactly which ciphertexts, in which order, were added into each player's slot. Any real homomorphic addition is an image of this.
  - Deserialization is a parameter of the move handler: a partial function from the session's context and the JSON text to `Option<Ciphertext>`.
  - Key generation is a parameter of the key ceremony: `KeyGenOutcome`, the two key pairs with their `good` flags and the handle of the fresh context.
- **Responses are values.** Examples: `JoinResponse`, `MoveResponse`, `MoveEvent`. They carry the handlers' HTTP status codes: 399 for the backend's join errors and a failed key ceremony, 400 for move errors and a missing public key. A successful ceremony produces no reply.
- **Three backend defects are modelled by their evident intent.** Each deviation is listed here:
  - `backend/app.py:89` compares against an undefined global `current_turn`, so every move request fails. The model compares against the record's `current_turn`.
  - `backend/app.py:101-104` read and write a `'player_states'` key that the record never has. The model keeps one accumulator slot per player id, `accumulators`, starting at `None` for every slot. This matches the seed record's `position_xy: None`.
  - `backend/app.py:113` indexes the record with the integer `max_stage`, which raises. The model compares `current_stage` with `max_stage`.
- **Behaviour kept as the code has it, including where a stricter protocol would differ:**
  - A move is not refused while `is_decryption_stage` is set. The handler never reads or clears the flag.
  - Re-running the key ceremony on the second join does not reset the accumulators.
  - When the ceremony fails, the context is still replaced and the previous public key stays.
  - A failed ceremony at module load (backend/app.py:67) builds its JSON error reply outside any request, which raises, so the server does not start. `Startup` and `GameSession.Load` give no session in that case.
  - The join handler ignores the ceremony's result, so a join that triggers a failed ceremony still reports success.
  - A missing `player_id` is rejected by the turn check ("Not your turn") before the presence check is reached.
  - A move by player 2 is accepted before a second player has joined: the turn cycles through 1 and 2 whatever the length of the player list.
  - The accumulators are never reset when the stage advances, so each one sums a player's moves over all stages (`PlayAccumulates`).
  - "Hiders won!" is not terminal. With two players it is reported by the 18th and the 19th accepted move: both leave the stage at 10. The 20th move takes the stage to 11 (`FinalStageWindow`).
- **Socket server player types are strings**, as the client sends them. Only the HTTP join page checks them. `connected` is the set of player types whose `<type>_connected` flag has been set. The three fixed keys of the record cannot collide with those flags, because none of them ends in `_connected`.

## Model

| member | source | states |
|---|---|---|
| `BackendApp.Initial` | backend/app.py:9-22 | The record starts with exactly the seed player, stage 1, turn 1, one empty accumulator slot per possible player, the flag down, and no context or key |
| `BackendApp.CreateGameStep` | backend/app.py:30-55 | The context is always replaced by a fresh one with modulus 65537, noise-flooding multiparty mode and multiparty enabled. The key is published iff both key pairs are good; otherwise the old key stays and the reply has status 399. Nothing else changes |
| `BackendApp.Startup` | backend/app.py:43-67 | The module loads iff both keygen steps were good. A loaded session is well formed, with the seed player, stage 1, turn 1, empty slots and the joint public key published |
| `BackendApp.GameSession.constructor` | backend/app.py:14-22 | Builds exactly the initial record |
| `BackendApp.GameSession.Load` | backend/app.py:43-67 | Module load gives a session iff `Startup` does, and then it is a fresh object in exactly `Startup`'s state |
| `BackendApp.GameSession.CreateGame` | backend/app.py:43-55 | The in-place ceremony produces exactly `CreateGameStep`'s session and response |
| `BackendApp.JoinStep` | backend/app.py:70-84 | "Game is already full" iff the list holds at least 2 entries. "No address provided" iff there is room and the address is missing or empty. Both leave the session unchanged. Otherwise exactly the address is appended and the player id is the new length. Reaching 2 entries re-runs the ceremony. The list never exceeds capacity |
| `BackendApp.GameSession.Join` | backend/app.py:70-84 | The in-place join keeps the invariant and produces exactly `JoinStep`'s session and response |
| `BackendApp.AcceptMove` | backend/app.py:101-111 | The mover's slot becomes the ciphertext if empty, else `EvalAdd(old, new)`, and the other slot is unchanged. The turn becomes t+1 for t < 2, else 1. The stage rises by one and the decryption flag is set exactly when the turn wraps |
| `BackendApp.MoveStep` | backend/app.py:87-116 | A wrong-turn player, a missing or empty ciphertext, or a failed deserialization is rejected with the session unchanged. A move is accepted iff all checks pass, and then the session is `AcceptMove`'s. "Hiders won!" is reported iff the move is accepted and the new stage is 10 |
| `BackendApp.GameSession.ProcessMove` | backend/app.py:87-116 | The in-place handler keeps the invariant and produces exactly `MoveStep`'s session and response |
| `BackendApp.GameSession.GetPublicKey` | backend/app.py:119-125 | The key is returned iff one has been published; otherwise the response is the "not generated yet" error with status 400 |
| `BackendApp.Play` | backend/app.py:101-111 | Any run of accepted moves keeps the session well formed: turn in 1..2, list within capacity |
| `BackendApp.PlaySchedule` | backend/app.py:106-111 | After n accepted moves from turn t, the turn is `(t-1+n) mod 2 + 1`, the stage has risen by `(t-1+n) div 2`, and the decryption flag is up iff a round completed. Players and key are unchanged |
| `BackendApp.FullRoundAdvancesOneStage` | backend/app.py:106-111 | A full round from player 1 raises the stage by exactly one, returns the turn to player 1 and sets the decryption flag. No shorter prefix changes the stage |
| `BackendApp.FinalStageWindow` | backend/app.py:106-114 | From stage 1, turn 1, the stage equals 10 after n accepted moves iff 18 <= n < 20 |
| `BackendApp.PlayAccumulates` | backend/app.py:101-104 | After any run of accepted moves, each player's accumulator is its old value with exactly that player's ciphertexts added in order |
| `SocketServer.Initial` | frontend_vlad/server.py:8-14 | The server starts in placement, with nobody connected, and is well formed |
| `SocketServer.JoinGame` | frontend_vlad/server.py:25-29 | The game page is served iff the type is `hider` or `seeker`; any other type gets status 400 |
| `SocketServer.GameServer.constructor` | frontend_vlad/server.py:8-14 | The server object starts as `Initial` |
| `SocketServer.GameServer.HandleJoin` | frontend_vlad/server.py:35-49 | The sender's type is marked connected. Phase, turn and positions are unchanged |
| `SocketServer.MoveStep` | frontend_vlad/server.py:51-109 | In placement the position is stored whatever the turn. The phase becomes movement, with the hider to move, iff both sides are placed. In movement an out-of-turn move leaves the state unchanged. An accepted move updates only the mover's position and flips the turn. The invariant is preserved |
| `SocketServer.GameServer.HandleMove` | frontend_vlad/server.py:51-109 | The in-place handler keeps the invariant and produces exactly `MoveStep`'s state and event |
| `SocketServer.RunKeepsWellFormed` | frontend_vlad/server.py:51-109 | Every state reached by any sequence of moves has the turn on a side and, in movement, both sides placed |
| `SocketServer.PlacedSidesStay` | frontend_vlad/server.py:60-62 | While still placing, every side that sent a move has a stored position |
| `SocketServer.PlacementEndsOnceBothPlaced` | frontend_vlad/server.py:60-73 | Once both a hider and a seeker move have arrived, in any order, the server is in movement |
| `SocketServer.MovementAlternates` | frontend_vlad/server.py:93-100 | Once in movement, whatever moves arrive, the phase stays movement. The accepted movers alternate starting with the side on turn, and the turn reflects their parity |
| `BoardGame.PositionOf` | frontend_vlad/static/game.py:35-36 | A cell index 0..15 maps to a row and column in 0..3, and `row*4+col` is the index again |
| `BoardGame.CellIndex` | frontend_vlad/static/game.py:66-70 | For an on-board position the cell index is in 0..15 and divides back into the same row and column |
| `BoardGame.IndexRoundTrip` | frontend_vlad/static/game.py:36-70 | Index to position to index, and on-board position to index to position, are identities |
| `BoardGame.CheckWin` | frontend_vlad/static/game.py:82-83 | The seeker wins iff the Chebyshev distance between the two positions is at most 1 |
| `BoardGame.CheckWinSymmetricReflexive` | frontend_vlad/static/game.py:82-83 | The win rule is symmetric and reflexive |
| `BoardGame.CheckWinIsAround` | frontend_vlad/static/game.py:82-83 | The seeker wins iff its position is the hider's or one of the eight around it |
| `BoardGame.ResultView` | frontend_vlad/static/game.py:63-79 | The seeker's cell shows S, the hider's shows H unless it is the same cell, and no other cell changes. The text is "Seeker wins!" iff the win rule holds, otherwise "Hider wins!". The phase is finished |
| `BoardGame.ClickStep` | frontend_vlad/static/game.py:31-79 | A click once finished changes nothing. In hiding it sets the hider and moves to seeking, leaving the seeker unset. In seeking it sets the seeker, keeps the hider and finishes: the seeker's cell shows S, the hider's H unless it is the same cell, no other cell changes, and the text is "Seeker wins!" iff the win rule holds, otherwise "Hider wins!". The phase invariant is kept |
| `BoardGame.ResetView` | frontend_vlad/static/game.py:85-91 | After reset both positions are unset and the phase is hiding |
| `BoardGame.Round` | frontend_vlad/static/game.py:31-79 | From a reset board, a hider click then a seeker click finish the game with both positions recorded and both clicked cells marked. The seeker wins iff the cells are at distance at most 1, and later clicks change nothing |
| `BoardGame.HideAndSeekGame.constructor` | frontend_vlad/static/game.py:10-19 | A new game has no positions, is in hiding and has a blank board |
| `BoardGame.HideAndSeekGame.HandleCellClick` | frontend_vlad/static/game.py:31-44 | The in-place click handler keeps the invariant and produces exactly `ClickStep`'s state |
| `BoardGame.HideAndSeekGame.PlayGame` | frontend_vlad/static/game.py:46-61 | The two positions reach the result display unchanged |
| `BoardGame.HideAndSeekGame.DisplayResult` | frontend_vlad/static/game.py:63-80 | The in-place display produces exactly `ResultView`'s state |
| `BoardGame.HideAndSeekGame.ResetGame` | frontend_vlad/static/game.py:85-91 | The in-place reset produces `ResetView` |
| `MoveEncoding.DirectionToVector` | frontend/main.py:54-64 | Succeeds iff the word is up, down, left or right, with a length-2 vector of 0/1 entries. Any other word fails with "Invalid direction" |
| `MoveEncoding.EncodingRoundTrip` | frontend/main.py:54-64 | Decoding an encoded direction gives it back, and encoding a decodable vector gives the vector back |
| `MoveEncoding.EncodingBijective` | frontend/main.py:55-62 | Distinct directions have distinct vectors, and every 0/1 pair is some direction's vector |

## Left out

- Lattice arithmetic, key generation, encryption, threshold (lead/main) partial decryption and serialization of the homomorphic-encryption library. They are foreign code, kept as the uninterpreted values of `openfhe.dfy`. The code never combines partial decryptions, so no decryption coordinator is modelled.
- Writing the context and public key to `demodata` files after a ceremony (backend/app.py:57-65): file I/O. The exception raised when writing fails is not modelled.
- The `partial_decryptions` list of the backend record: nothing ever reads or writes it after initialisation.
- BackendApp.MoveStep: `player_id` is modelled as an optional integer, and the truthiness check on it at backend/app.py:92 then never fails once the turn check has passed. Python's cross-type equality is not modelled: a JSON `true` equals turn 1 and then acts as player 1, and a float such as `2.0` passes the turn check but raises when used as a list index.
- BackendApp.MoveStep: `ciphertext` is modelled as an optional string. A truthy non-string JSON value, which the code would hand to deserialization, is not represented.
- BackendApp.JoinStep: the address is modelled as an optional string. A truthy non-string JSON value, which the code would append, is not represented.
- `/get_crypto_context`, `/send_transaction` and backend/eth_interaction.py: transport, and Ethereum network calls.
- The socket server's `calculate_distance` and `handle_position_response` (frontend_vlad/server.py:16-19, 111-119): floating-point `sqrt`/`ceil` and broadcast I/O. The emitted `position_update`/`request_position` payloads and broadcast targets are transport. The model records only which event a move produced.
- The board game's AES-ECB `encrypt`/`decrypt` and JSON encoding (frontend_vlad/static/game.py:93-102). `play_game`/`handle_result` are modelled as passing the positions through unchanged. DOM work is not modelled: element lookup, event listeners, CSS classes, the reset button's visibility. The cell marks model only each cell's text. The initial status line comes from the HTML page and is a constructor parameter.
- frontend/main.py's `main`, the server-fetching functions, `encrypt_message`, `send_to_server` and `perform_decryption_stage`: network and console I/O. They also cannot run as written: `time` is never imported, and `perform_decryption_stage` is called with one argument but takes three.
- frontend/keygen_encrypt.py, shared/crypto_context.py and frontend_vlad/app.py: library configuration and a constant route, with no logic of their own.
- Concurrency: the handlers run without locks, and the model treats each request as one atomic step.
