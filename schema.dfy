/**
  The server-side wire schema: the numeric `SeatStatus` enum of the protobuf schema and the two
  switch-based conversions between enum codes and the status names used in JSON.
  The protobufjs encode/decode wrappers of the same file are not part of this model.
*/
module Schema {
  import opened SeatTypes

  /** The values of `enum SeatStatus` in the protobuf schema. */
  const AVAILABLE: int := 0
  const SELECTED: int := 1
  const OCCUPIED: int := 2

  /** The enum has no value for `'reserved'`: only these three names ever travel as codes. */
  predicate IsWireName(name: string)
  {
    name == "available" || name == "selected" || name == "occupied"
  }

  predicate IsWireCode(code: int)
  {
    AVAILABLE <= code <= OCCUPIED
  }

  /** `statusToString`: the name of an enum code; a code outside the enum reads as 'available'. */
  function StatusToString(code: int): (name: string)
    ensures IsWireName(name)
    ensures !IsWireCode(code) ==> name == "available"
    ensures code == SELECTED <==> name == "selected"
    ensures code == OCCUPIED <==> name == "occupied"
  {
    match code
    case 0 => "available"
    case 1 => "selected"
    case 2 => "occupied"
    case _ => "available"
  }

  /** `stringToStatus`: the enum code of a name; every other string, 'reserved' included, gives 0. */
  function StringToStatus(name: string): (code: int)
    ensures IsWireCode(code)
    ensures code == SELECTED <==> name == "selected"
    ensures code == OCCUPIED <==> name == "occupied"
  {
    match name
    case "available" => AVAILABLE
    case "selected" => SELECTED
    case "occupied" => OCCUPIED
    case _ => AVAILABLE
  }

  /** Every enum code survives the trip through its name. */
  lemma CodeRoundTrip(code: int)
    requires IsWireCode(code)
    ensures StringToStatus(StatusToString(code)) == code
  {
  }

  /** Every status except 'reserved' survives the trip through its code. */
  lemma NameRoundTrip(s: Status)
    requires s != Reserved
    ensures StatusToString(StringToStatus(StatusName(s))) == StatusName(s)
  {
  }

  /** 'reserved' has no code: it comes back as 'available'. */
  lemma ReservedIsLossy()
    ensures StringToStatus(StatusName(Reserved)) == AVAILABLE
    ensures StatusToString(StringToStatus(StatusName(Reserved))) == StatusName(Available)
  {
  }
}
