# ChessGame relay: a Dafny model

ChessGame is a two-player chess relay. A Node.js server (`app.js`) keeps one
authoritative game, hands out the white and black seats first-come to
socket.io connections, and relays moves. A browser client
(`public/js/chessgame.js`) draws the board, lets the seated player drag pieces
and sends the resulting moves. Chess rules are delegated to the chess.js engine.

This project models both pieces of logic around that engine:

- `Registry.dfy`: the server's seat map `players` as a value. It holds the
  first-come seat assignment on connect and the seat release on disconnect.
  The move gate is here. So is a replay of any run of connect/disconnect
  events, with the invariant that the two seats never share a holder.
- `Server.dfy`: the `connection` handler as a `Session` class. Its fields are
  `white`, `black` and the game `state`. It has one method per socket event
  (connection, `disconnect`, `move`, `reset-game`). Each method returns the
  socket traffic it emits as a list of (recipient, message) records, where the
  recipient is the sending connection or all connections.
- `Board.dfy`: the client's pure helpers. These are square naming with its
  inverse, the queen-promotion default, the piece-image table, square
  shading, the draggable and flip rules, and the checkmate winner.
- `Client.dfy`: the client's module variables `draggedPiece`, `sourceSquare`
  and `playerRole`, as a `View` class. The `playerRole`, `dragstart`,
  `dragend` and `drop` handlers are its methods.
- `Chess.dfy`: the engine as the relay sees it. An `Engine` value carries
  `turn`, `apply` (a thrown error or a falsy result is `None`), `fen` and
  the `initial` state. Every property holds for any engine.
- `Wrappers.dfy`: `Option`.

A connection id is a non-empty string, as socket.io ids are. So the source's
truthiness test `!players.white` is exactly "the seat is vacant".

On a move from anyone who does not hold the seat of the side to move, the code
returns silently. It sends no `NotYourTurn` or `invalidMove` reply, and no
message at all.

## Model

| member | source | states |
|---|---|---|
| Registry.Connect | app.js:42-50 | a connection is a spectator iff both seats are held; black is given only when white is held; a seated connection now holds the previously vacant seat its role names; the other seat keeps its holder |
| Registry.Disconnect | app.js:53-59 | no one gains a seat; at most one seat is vacated; an id holding no seat changes nothing; with no double holder, exactly the leaving id drops out of the holders and no double holder appears |
| Registry.MayMoveIffRole | app.js:64-65 | with no double holder, a sender passes the move gate for a side iff its role is that side's seat; spectators, and any sender when the seat is vacant, never pass |
| Registry.VacatedWhiteGoesToNextConnector | app.js:42-58 | after the white holder disconnects, the next connection becomes white and black is untouched; the seat is not kept for the former holder |
| Registry.VacatedBlackGoesToNextConnector | app.js:42-58 | with white held by another id, after the black holder disconnects the next connection becomes black |
| Registry.ReplayKeepsSeatsDistinct | app.js:42-59 | after any run of connects and disconnects with fresh ids, white and black never have the same holder, and every holder is connected and not yet disconnected |
| Registry.SeatingScenario | app.js:42-58 | three connections get white, black, spectator in turn; after the white holder leaves, the next connection is seated as white next to the black holder |
| Server.Session.constructor | app.js:24-25 | start-up state: both seats vacant and the engine's initial game |
| Server.Session.Connect | app.js:41-50 | the seat map becomes the first-come assignment of Registry.Connect; exactly one message, the role announcement, goes to the new connection only; it is `spectatorRole` iff both seats were held; the game state is untouched |
| Server.Session.Disconnect | app.js:53-59 | vacates white if the id held it, else black if it held that; any other id leaves both seats unchanged; no message |
| Server.Session.Move | app.js:62-79 | seats never change; from a non-holder of the side-to-move's seat, no state change and no message; an accepted move sets the state to the engine's result and broadcasts `move` with the original payload then `boardState` with the new FEN; a rejected or throwing move keeps the state and sends only `invalidMove` with the payload to the sender |
| Server.Session.Reset | app.js:82-87 | any connection, seated or not, resets: the state becomes the initial game, the seats stay, and `reset-game` then `boardState` of the initial FEN are broadcast |
| Board.SquareName | public/js/chessgame.js:101-104 | a square's name has two characters: file `'a'..'h'` whose offset from `'a'` is the column, then rank `'1'..'8'` equal to 8 minus the row (row 0 is rank 8, row 7 is rank 1) |
| Board.SquareNameRoundTrip | public/js/chessgame.js:101-104 | reading a square's name back yields the square |
| Board.ParseSquareRoundTrip | public/js/chessgame.js:101-104 | every two-character name in `a1`..`h8` is the name of exactly the square it denotes, so naming is onto the algebraic squares |
| Board.SquareNameInjective | public/js/chessgame.js:102-103 | distinct board squares get distinct names |
| Board.HandleMove | public/js/chessgame.js:100-112 | `from` and `to` denote the source and target squares; `promotion` is present iff the engine reports a pawn on the source square and the target is on rank 8 or 1, and then it is `"q"` |
| Board.ImageName | public/js/chessgame.js:46-52 | the `pieceMap` lookup with the case-converted type letter always succeeds; it yields the side letter followed by the lower-case type letter |
| Board.ImageNameInjective | public/js/chessgame.js:9-22 | the table gives every one of the twelve pieces its own image |
| Board.AdjacentSquaresDifferInShade | public/js/chessgame.js:33 | horizontally or vertically adjacent squares never share a shade |
| Board.IsLight | public/js/chessgame.js:33 | a square is light iff its row and column have the same parity |
| Board.Draggable | public/js/chessgame.js:62 | a piece is draggable iff the client has a role and the role's letter equals the piece's side letter; with no role nothing is draggable |
| Board.Flipped | public/js/chessgame.js:97 | the board is flipped iff the client has a role and its letter is `"b"` |
| Board.FlipMatchesOwnSide | public/js/chessgame.js:97 | for a piece the client may drag, the board is flipped iff that piece is black |
| Board.CheckmateWinner | public/js/chessgame.js:145 | the announced winner is never the side to move |
| Client.View.constructor | public/js/chessgame.js:5-7 | no drag in progress and no role at page load |
| Client.View.OnPlayerRole | public/js/chessgame.js:114-118 | the role becomes the announced side |
| Client.View.DragStart | public/js/chessgame.js:64-70 | a drag of a draggable piece records the piece and its square; a non-draggable piece changes nothing |
| Client.View.DragEnd | public/js/chessgame.js:72-75 | both the dragged piece and the source square are cleared |
| Client.View.Drop | public/js/chessgame.js:82-91 | a move is sent iff a drag is in progress, and it is the move built from the drag's source square to the drop square; the drag state is not changed |
| Client.SpectatorSendsNoMove | public/js/chessgame.js:62-91 | a page that was never given a role (a spectator, whose role handler is commented out) starts no drag, so a drop sends no move, whatever piece, square and target are involved |

## Left out

- HTTP serving, views, static files, error middleware, `server.listen` and the analytics calls (app.js:1-35, 90-99): I/O plumbing and foreign libraries.
- The socket.io transport: emits are returned as (recipient, message) lists. Delivery, cross-socket ordering and transport faults are not modelled.
- The chess.js engine: legality, check, mate, draw, stalemate, the FEN format, `board()` and `get()`. The engine is a parameter, and FEN round-trips are not claimed.
- Server.Session.Move: a rejected move keeps the state the engine had before. That an engine whose `move` fails leaves its game untouched is the engine's promise, not something this code ensures.
- Server.Session.Move: an error thrown by the engine is folded into a `None` result. That is exactly how the `catch` treats it.
- `console.log` calls on server and client: output only.
- DOM construction, `innerHTML`, image `src` paths, listener registration and the `setTimeout` alerts (public/js/chessgame.js:24-98, 141-173): presentation only. The rules they apply are modelled: shading, image names, draggable, flip, winner.
- The client's `boardState`, `move` and `reset-game` handlers (public/js/chessgame.js:126-139, 169-173). They only load, apply or reset the engine and redraw.
- The `game_over`/`in_draw`/`in_stalemate` branching in `checkGameStatus` (public/js/chessgame.js:142-160). Which branch is reached depends on the engine; only the checkmate winner rule is modelled.
- The commented-out `spectatorRole` client handler (public/js/chessgame.js:120-124). It is dead code, so a spectator's role stays unset.
- Concurrency: the event loop runs one handler to completion at a time, so each event is one sequential method call.
- Board.SquareName: only indices 0..7 are modelled. The square coordinates always come from the rendered 8x8 board, where the decimal rank `8 - row` is one digit.
- Client.View.DragStart: the draggable test is made against the current role. In the source it is the DOM flag from the last render, but the `playerRole` handler redraws right after setting the role, so the two agree.
- Client.View.Drop: the piece element `draggedPiece` is modelled by the piece it shows.
