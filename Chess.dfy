/**
  The interface of the external rules engine (chess.js) as the relay uses it.
  The engine itself is not part of this model: its side-to-move query, its move
  application, its FEN serialisation and its starting position are supplied as
  values of function type, so every property proved here holds for any engine.
*/
module Chess {
  import opened Wrappers

  /** The engine's side letters "w" and "b". */
  datatype Color = White | Black

  /**
    `turn` is `chess.turn()`; `apply(s, m)` is `chess.move(m)` on state `s`,
    `None` when the engine returns a falsy result or throws; `fen` is
    `chess.fen()`; `initial` is the state of `new Chess()`.
  */
  datatype Engine<!S, !M> = Engine(
    turn: S -> Color,
    apply: (S, M) -> Option<S>,
    fen: S -> string,
    initial: S)
}
