/**
  The server's session coordinator: the socket `connection` handler of app.js
  over its two pieces of module state, the seat map `players` and the game
  state `chess`. Each handler runs to completion as one step and returns the
  socket traffic it emits, in emission order.
*/
module Server {
  import opened Wrappers
  import opened Chess
  import opened Registry

  /** The server-to-client messages, one constructor per event name. */
  datatype Message<M> =
    | PlayerRole(color: Color)   // "playerRole" with "w" or "b"
    | SpectatorRole              // "spectatorRole"
    | MoveMade(move: M)          // "move", broadcast
    | BoardState(fen: string)    // "boardState"
    | ResetGame                  // "reset-game", broadcast
    | InvalidMove(move: M)       // "invalidMove"

  /** `uniqueSocket.emit` goes to the handler's own connection, `io.emit` to every connection. */
  datatype Recipient = Sender(id: Id) | All

  datatype Outgoing<M> = Outgoing(to: Recipient, msg: Message<M>)

  /** The message that announces a role on connect. */
  function Greeting<M>(r: Role): Message<M>
  {
    match r
    case Seated(c) => PlayerRole(c)
    case Spectator => SpectatorRole
  }

  class Session<S, M> {
    const engine: Engine<S, M>
    var white: Option<Id>
    var black: Option<Id>
    var state: S

    /** The seat map held in `white` and `black`. */
    function Seats(): SeatMap
      reads this
    {
      SeatMap(white, black)
    }

    /** Start-up: a fresh engine game and an empty seat map. */
    constructor (engine: Engine<S, M>)
      ensures this.engine == engine
      ensures Seats() == Registry.Empty && state == engine.initial
    {
      this.engine := engine;
      white, black := None, None;
      state := engine.initial;
    }

    /**
      A new connection takes the first vacant seat, white before black, and is
      told its role; when both seats are held it is told it is a spectator.
      Only the new connection receives a message; the game state is untouched.
    */
    method Connect(id: Id) returns (out: seq<Outgoing<M>>)
      modifies this`white, this`black
      ensures var a := Registry.Connect(old(Seats()), id);
        Seats() == a.seats && out == [Outgoing(Sender(id), Greeting(a.role))]
      ensures out[0].msg == SpectatorRole <==> old(white).Some? && old(black).Some?
    {
      if white.None? {
        white := Some(id);
        out := [Outgoing(Sender(id), PlayerRole(White))];
      } else if black.None? {
        black := Some(id);
        out := [Outgoing(Sender(id), PlayerRole(Black))];
      } else {
        out := [Outgoing(Sender(id), SpectatorRole)];
      }
    }

    /** A closing connection frees the seat it holds, if any; nothing is sent. */
    method Disconnect(id: Id)
      modifies this`white, this`black
      ensures Seats() == Registry.Disconnect(old(Seats()), id)
      ensures old(white) == Some(id) ==> white.None? && black == old(black)
      ensures old(white) != Some(id) && old(black) == Some(id) ==> white == old(white) && black.None?
      ensures id !in Holders(old(Seats())) ==> Seats() == old(Seats())
    {
      if white == Some(id) {
        white := None;
      } else if black == Some(id) {
        black := None;
      }
    }

    /**
      A move request. From anyone but the holder of the seat of the side to
      move (a vacant seat included) it is ignored without any reply. Otherwise
      the engine decides: an accepted move replaces the game state and is
      broadcast, followed by the new position; a rejected one (a falsy result
      or a thrown error) is echoed back to the sender alone as invalid.
    */
    method Move(id: Id, move: M) returns (out: seq<Outgoing<M>>)
      modifies this`state
      ensures Seats() == old(Seats())
      ensures !MayMove(old(Seats()), engine.turn(old(state)), id) ==> state == old(state) && out == []
      ensures MayMove(old(Seats()), engine.turn(old(state)), id) ==>
        match engine.apply(old(state), move)
        case Some(next) =>
          state == next &&
          out == [Outgoing(All, MoveMade(move)), Outgoing(All, BoardState(engine.fen(next)))]
        case None =>
          state == old(state) && out == [Outgoing(Sender(id), InvalidMove(move))]
    {
      if engine.turn(state) == White && Some(id) != white {
        return [];
      }
      if engine.turn(state) == Black && Some(id) != black {
        return [];
      }
      var result := engine.apply(state, move);
      if result.Some? {
        state := result.value;
        out := [Outgoing(All, MoveMade(move)), Outgoing(All, BoardState(engine.fen(state)))];
      } else {
        out := [Outgoing(Sender(id), InvalidMove(move))];
      }
    }

    /**
      A reset request, from any connection whether seated or not: the game
      state becomes the starting position, the seats stay as they are, and
      every connection is told of the reset and then sent the new position.
    */
    method Reset(id: Id) returns (out: seq<Outgoing<M>>)
      modifies this`state
      ensures Seats() == old(Seats())
      ensures state == engine.initial
      ensures out == [Outgoing(All, ResetGame), Outgoing(All, BoardState(engine.fen(engine.initial)))]
    {
      state := engine.initial;
      out := [Outgoing(All, ResetGame), Outgoing(All, BoardState(engine.fen(state)))];
    }
  }
}
