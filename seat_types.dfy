/**
  The records shared by the seat server and its browser clients: a seat, a seat map, a user,
  the client's connection status, and the messages exchanged over the socket.
  Also the one search both sides use everywhere: "the first seat whose id is `id`"
  (JavaScript's `Array.prototype.find` / `findIndex` on `s.id === id`).
*/
module SeatTypes {
  import opened Optional

  datatype Status = Available | Selected | Occupied | Reserved

  /** The string literal the JavaScript code uses for each status. */
  function StatusName(s: Status): string
  {
    match s
    case Available => "available"
    case Selected => "selected"
    case Occupied => "occupied"
    case Reserved => "reserved"
  }

  datatype Seat = Seat(
    id: string,
    row: int,
    number: int,
    status: Status,
    userId: Option<string>,
    userName: Option<string>,
    selectedAt: Option<int>)

  datatype SeatMap = SeatMap(id: string, name: string, rows: int, seatsPerRow: int, seats: seq<Seat>)

  datatype User = User(id: string, name: string)

  /** The client's connection status. The store's declared type omits `Reconnecting`, but the
      socket hook stores it anyway, so the model keeps it. */
  datatype ConnectionStatus = Connecting | Connected | Disconnected | Error | Reconnecting

  /** Server-to-client events, by their Socket.IO event name. */
  datatype ServerEvent =
    | SeatMapData(seatMap: SeatMap)                                   // 'seatMap:data'
    | SeatUpdated(seat: Seat)                                         // 'seat:updated'
    | SeatsBooked(seats: seq<Seat>, userId: string, userName: string) // 'seats:booked'
    | SeatError(message: string)                                      // 'seat:error'
    | Pong                                                            // 'pong'

  /** Client-to-server messages, by their Socket.IO event name. */
  datatype ClientMessage =
    | SelectRequest(seatId: string, userId: string, userName: string)   // 'seat:select'
    | DeselectRequest(seatId: string, userId: string)                   // 'seat:deselect'
    | BookRequest(seatIds: seq<string>, userId: string, userName: string) // 'seats:book'
    | Ping                                                              // 'ping'

  /** The one status change booking makes to a seat, on either side. */
  function Occupy(seat: Seat): (r: Seat)
    ensures r.status == Occupied
    ensures r.(status := seat.status) == seat
  {
    seat.(status := Occupied)
  }

  predicate Distinct(ids: seq<string>)
  {
    forall i, j :: 0 <= i < j < |ids| ==> ids[i] != ids[j]
  }

  /** The ids of a sequence of seats, in order. */
  function SeatIds(seats: seq<Seat>): (ids: seq<string>)
    ensures |ids| == |seats|
    ensures forall k :: 0 <= k < |seats| ==> ids[k] == seats[k].id
  {
    seq(|seats|, k requires 0 <= k < |seats| => seats[k].id)
  }

  /** The index of the first seat whose id is `id`, or None: `seats.findIndex(s => s.id === id)`. */
  function FindIndex(seats: seq<Seat>, id: string): (r: Option<nat>)
    ensures r.Some? ==> r.value < |seats| && seats[r.value].id == id
    ensures r.Some? ==> forall j :: 0 <= j < r.value ==> seats[j].id != id
    ensures r.None? <==> forall j :: 0 <= j < |seats| ==> seats[j].id != id
  {
    if seats == [] then None
    else if seats[0].id == id then Some(0)
    else
      match FindIndex(seats[1..], id)
      case None => None
      case Some(k) => Some(k + 1)
  }

  /** The search depends on the ids alone: changing anything else in the seats does not move it. */
  lemma FindIndexByIds(a: seq<Seat>, b: seq<Seat>, id: string)
    requires SeatIds(a) == SeatIds(b)
    ensures FindIndex(a, id) == FindIndex(b, id)
  {
    assert |a| == |b|;
    forall j | 0 <= j < |a| ensures a[j].id == b[j].id {
      assert SeatIds(a)[j] == SeatIds(b)[j];
    }
  }
}
