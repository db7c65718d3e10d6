/**
  The server's seat map (the `players` object of app.js) as a value, with the
  first-come seat assignment done on every new connection and the seat release
  done on every disconnection.
*/
module Registry {
  import opened Wrappers
  import opened Chess

  /** A socket.io connection id: never the empty string, so it is always truthy. */
  type Id = s: string | |s| > 0 witness "0"

  /** `players.white` and `players.black`; `None` is an absent (deleted) property. */
  datatype SeatMap = SeatMap(white: Option<Id>, black: Option<Id>)

  /** `players = {}` at start-up. */
  const Empty := SeatMap(None, None)

  datatype Role = Seated(color: Color) | Spectator

  function HolderOf(s: SeatMap, c: Color): Option<Id>
  {
    if c == White then s.white else s.black
  }

  /** The ids that hold a seat. */
  function Holders(s: SeatMap): set<Id>
  {
    (if s.white.Some? then {s.white.value} else {}) + (if s.black.Some? then {s.black.value} else {})
  }

  /** No connection holds both seats. */
  predicate Distinct(s: SeatMap)
  {
    s.white.Some? && s.black.Some? ==> s.white.value != s.black.value
  }

  /** The role a connection has: the seat it holds, white looked up first. */
  function RoleOf(s: SeatMap, id: Id): Role
  {
    if s.white == Some(id) then Seated(White)
    else if s.black == Some(id) then Seated(Black)
    else Spectator
  }

  /** The move gate: only the holder of the side-to-move's seat gets through. */
  predicate MayMove(s: SeatMap, side: Color, id: Id)
  {
    HolderOf(s, side) == Some(id)
  }

  /** The outcome of a connection: the new seat map and the role announced. */
  datatype Admission = Admission(seats: SeatMap, role: Role)

  /**
    Seat assignment on connect: white if vacant, else black if vacant, else
    spectator. The new connection holds exactly the seat its role names and the
    other seat keeps its holder.
  */
  function Connect(s: SeatMap, id: Id): (a: Admission)
    ensures a.role == Spectator <==> s.white.Some? && s.black.Some?
    ensures a.role == Seated(Black) ==> s.white.Some?
    ensures a.role.Seated? ==>
      HolderOf(s, a.role.color).None? && HolderOf(a.seats, a.role.color) == Some(id)
    ensures forall c :: a.role != Seated(c) ==> HolderOf(a.seats, c) == HolderOf(s, c)
  {
    if s.white.None? then Admission(s.(white := Some(id)), Seated(White))
    else if s.black.None? then Admission(s.(black := Some(id)), Seated(Black))
    else Admission(s, Spectator)
  }

  /**
    Seat release on disconnect: the white seat if this id holds it, otherwise
    the black seat if this id holds it. Nobody gains a seat, at most one seat is
    vacated, and when no id holds both seats the leaving id is exactly the one
    that disappears from the holders.
  */
  function Disconnect(s: SeatMap, id: Id): (r: SeatMap)
    ensures Holders(r) <= Holders(s)
    ensures r.white == s.white || r.black == s.black
    ensures id !in Holders(s) ==> r == s
    ensures Distinct(s) ==> Distinct(r) && Holders(r) == Holders(s) - {id}
  {
    if s.white == Some(id) then s.(white := None)
    else if s.black == Some(id) then s.(black := None)
    else s
  }

  /** For a seat map without a double holder, passing the move gate is exactly holding the side's role. */
  lemma MayMoveIffRole(s: SeatMap, side: Color, id: Id)
    requires Distinct(s)
    ensures MayMove(s, side, id) <==> RoleOf(s, id) == Seated(side)
  {
  }

  /** A vacated white seat goes to whoever connects next, not back to its former holder. */
  lemma VacatedWhiteGoesToNextConnector(s: SeatMap, next: Id)
    requires s.white.Some?
    ensures var a := Connect(Disconnect(s, s.white.value), next);
      a.role == Seated(White) && a.seats == SeatMap(Some(next), s.black)
  {
  }

  /** Likewise for black, when white is held by someone else. */
  lemma VacatedBlackGoesToNextConnector(s: SeatMap, next: Id)
    requires s.white.Some? && s.black.Some? && Distinct(s)
    ensures var a := Connect(Disconnect(s, s.black.value), next);
      a.role == Seated(Black) && a.seats == SeatMap(s.white, Some(next))
  {
  }

  /** The events that touch the seat map, in the order the event loop runs them. */
  datatype Event = Connected(id: Id) | Disconnected(id: Id)

  function Step(s: SeatMap, e: Event): SeatMap
  {
    match e
    case Connected(id) => Connect(s, id).seats
    case Disconnected(id) => Disconnect(s, id)
  }

  /** The seat map after a run of events from start-up. */
  function Replay(events: seq<Event>): SeatMap
  {
    if events == [] then Empty
    else Step(Replay(events[..|events| - 1]), events[|events| - 1])
  }

  /** Ids of the connections opened so far. */
  function ConnectedIds(events: seq<Event>): set<Id>
  {
    if events == [] then {}
    else
      var last := events[|events| - 1];
      ConnectedIds(events[..|events| - 1]) + (if last.Connected? then {last.id} else {})
  }

  /** Ids of the connections closed so far. */
  function DisconnectedIds(events: seq<Event>): set<Id>
  {
    if events == [] then {}
    else
      var last := events[|events| - 1];
      DisconnectedIds(events[..|events| - 1]) + (if last.Disconnected? then {last.id} else {})
  }

  /** Every new connection has an id that no earlier event mentions. */
  predicate FreshConnects(events: seq<Event>)
  {
    if events == [] then true
    else
      var prefix, last := events[..|events| - 1], events[|events| - 1];
      FreshConnects(prefix) &&
      (last.Connected? ==> last.id !in ConnectedIds(prefix) + DisconnectedIds(prefix))
  }

  /**
    With fresh connection ids, after any run of connects and disconnects the two
    seats never share a holder, and every holder is a connection that is open:
    connected and not yet disconnected.
  */
  lemma {:induction false} ReplayKeepsSeatsDistinct(events: seq<Event>)
    requires FreshConnects(events)
    ensures Distinct(Replay(events))
    ensures Holders(Replay(events)) <= ConnectedIds(events) - DisconnectedIds(events)
  {
    if events != [] {
      var prefix, last := events[..|events| - 1], events[|events| - 1];
      ReplayKeepsSeatsDistinct(prefix);
      var s := Replay(prefix);
      match last
      case Connected(id) =>
        assert id !in Holders(s);
        var a := Connect(s, id);
        assert Holders(a.seats) <= Holders(s) + {id};
      case Disconnected(id) =>
    }
  }

  /**
    The seating scenarios: three connections get white, black and spectator in
    turn; when the white holder leaves, the next connection is seated as white.
  */
  lemma SeatingScenario(a: Id, b: Id, c: Id, d: Id)
    ensures Connect(Empty, a).role == Seated(White)
    ensures Connect(Replay([Connected(a)]), b).role == Seated(Black)
    ensures Connect(Replay([Connected(a), Connected(b)]), c).role == Spectator
    ensures Connect(Replay([Connected(a), Connected(b), Connected(c), Disconnected(a)]), d)
      == Admission(SeatMap(Some(d), Some(b)), Seated(White))
  {
    var run := [Connected(a), Connected(b), Connected(c), Disconnected(a)];
    assert run[..1][..0] == [];
    assert Replay(run[..1]) == SeatMap(Some(a), None);
    assert run[..2][..1] == run[..1];
    assert Replay(run[..2]) == SeatMap(Some(a), Some(b));
    assert run[..3][..2] == run[..2];
    assert Replay(run[..3]) == SeatMap(Some(a), Some(b));
    assert run[..1] == [Connected(a)];
    assert run[..2] == [Connected(a), Connected(b)];
  }
}
