/**
  The client-side wire schema: its own copies of the enum/name conversions and the conversion of a
  decoded protobuf seat (and seat map) into the record the store keeps.
  The protobufjs encode/decode wrappers of the same file are not part of this model.
*/
module ClientSchema {
  import opened Optional
  import opened SeatTypes
  import Schema

  /** A seat as protobufjs decodes it: the status is the raw enum code, the holder fields optional. */
  datatype ProtoSeat = ProtoSeat(
    id: string,
    row: int,
    number: int,
    status: int,
    userId: Option<string>,
    userName: Option<string>)

  datatype ProtoSeatMap = ProtoSeatMap(id: string, name: string, rows: int, seatsPerRow: int, seats: seq<ProtoSeat>)

  /** `statusToString`, as written in the client file. */
  function StatusToString(code: int): (name: string)
    ensures Schema.IsWireName(name)
    ensures !Schema.IsWireCode(code) ==> name == "available"
  {
    match code
    case 0 => "available"
    case 1 => "selected"
    case 2 => "occupied"
    case _ => "available"
  }

  /** `stringToStatus`, as written in the client file. */
  function StringToStatus(name: string): (code: int)
    ensures Schema.IsWireCode(code)
  {
    match name
    case "available" => 0
    case "selected" => 1
    case "occupied" => 2
    case _ => 0
  }

  /** The client's copies agree with the server's on every input. */
  lemma AgreesWithServerSchema(code: int, name: string)
    ensures StatusToString(code) == Schema.StatusToString(code)
    ensures StringToStatus(name) == Schema.StringToStatus(name)
  {
  }

  /** JavaScript `x || undefined` on an optional string: the empty string counts as absent. */
  function Truthy(s: Option<string>): (r: Option<string>)
    ensures r.Some? <==> s.Some? && s.value != ""
    ensures r.Some? ==> r == s
  {
    if s.Some? && s.value != "" then s else None
  }

  /** `convertProtobufSeat`. */
  function ConvertSeat(p: ProtoSeat): (s: Seat)
    ensures s.id == p.id && s.row == p.row && s.number == p.number
    ensures StatusName(s.status) == StatusToString(p.status)
    ensures s.status != Reserved
    ensures s.userId == Truthy(p.userId) && s.userName == Truthy(p.userName)
    ensures s.selectedAt == None
  {
    var name := StatusToString(p.status);
    var status := if name == "selected" then Selected else if name == "occupied" then Occupied else Available;
    Seat(p.id, p.row, p.number, status, Truthy(p.userId), Truthy(p.userName), None)
  }

  /** `convertProtobufSeatMap`: the map's own fields are copied and its seats converted one for one. */
  function ConvertSeatMap(p: ProtoSeatMap): (m: SeatMap)
    ensures m.id == p.id && m.name == p.name && m.rows == p.rows && m.seatsPerRow == p.seatsPerRow
    ensures |m.seats| == |p.seats|
    ensures forall i :: 0 <= i < |p.seats| ==> m.seats[i] == ConvertSeat(p.seats[i])
    ensures forall i :: 0 <= i < |m.seats| ==> m.seats[i].status != Reserved
  {
    SeatMap(p.id, p.name, p.rows, p.seatsPerRow,
            seq(|p.seats|, i requires 0 <= i < |p.seats| => ConvertSeat(p.seats[i])))
  }

  /** A seat whose code is in the enum converts to the status that code names, and back. */
  lemma ConvertSeatStatusRoundTrip(p: ProtoSeat)
    requires Schema.IsWireCode(p.status)
    ensures StringToStatus(StatusName(ConvertSeat(p).status)) == p.status
  {
  }
}
