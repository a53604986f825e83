/**
  The mock protobuf module the server actually loads: initialisation always succeeds, every
  encoder and decoder returns null so that callers fall back to JSON, and the status conversions
  are object-literal lookups with `||` defaults.
*/
module SimpleDemo {
  import opened Optional
  import opened SeatTypes
  import Schema

  type Bytes = seq<bv8>

  /** `initializeProtobuf`: the mock always reports success. */
  function InitializeProtobuf(): (ok: bool)
    ensures ok
  {
    true
  }

  /** `encodeSeatMap`: never produces bytes, so the seat map always goes out as JSON. */
  function EncodeSeatMap(m: SeatMap): (r: Option<Bytes>)
    ensures r == None
  {
    None
  }

  /** `decodeSeatMap`: never yields a seat map. */
  function DecodeSeatMap(data: Bytes): (r: Option<SeatMap>)
    ensures r == None
  {
    None
  }

  /** `encodeSelectSeatRequest`: never produces bytes. */
  function EncodeSelectSeatRequest(request: ClientMessage): (r: Option<Bytes>)
    ensures r == None
  {
    None
  }

  /** `decodeSelectSeatRequest`: never yields a request. */
  function DecodeSelectSeatRequest(data: Bytes): (r: Option<ClientMessage>)
    ensures r == None
  {
    None
  }

  /** `statusToString`: `{0: 'available', 1: 'selected', 2: 'occupied'}[status] || 'available'`.
      Every entry of the table is a non-empty string, so `||` only replaces a missing entry. */
  function StatusToString(code: int): (name: string)
    ensures Schema.IsWireName(name)
    ensures name == Schema.StatusToString(code)
  {
    var entry: Option<string> :=
      if code == 0 then Some("available")
      else if code == 1 then Some("selected")
      else if code == 2 then Some("occupied")
      else None;
    if entry.Some? && entry.value != "" then entry.value else "available"
  }

  /** The result of indexing a plain JavaScript object literal with a string key: one of the
      object's own entries, a member inherited from `Object.prototype` (truthy), or undefined. */
  datatype JsValue = Number(n: int) | InheritedMember(key: string) | Undefined

  /** The keys every plain object inherits from `Object.prototype`. */
  const OBJECT_PROTOTYPE_KEYS: set<string> := {
    "constructor", "hasOwnProperty", "isPrototypeOf", "propertyIsEnumerable",
    "toLocaleString", "toString", "valueOf", "__proto__",
    "__defineGetter__", "__defineSetter__", "__lookupGetter__", "__lookupSetter__"
  }

  /** `{available: 0, selected: 1, occupied: 2}[key]`. */
  function StatusMapLookup(key: string): (v: JsValue)
    ensures v.InheritedMember? <==> key in OBJECT_PROTOTYPE_KEYS
    ensures v.Number? <==> Schema.IsWireName(key)
  {
    if key == "available" then Number(0)
    else if key == "selected" then Number(1)
    else if key == "occupied" then Number(2)
    else if key in OBJECT_PROTOTYPE_KEYS then InheritedMember(key)
    else Undefined
  }

  /** `stringToStatus` as written: `statusMap[status] || 0`. Only 0 and undefined are falsy here,
      so an inherited member of `Object.prototype` comes back instead of a code. */
  function StringToStatusAsWritten(name: string): (v: JsValue)
    ensures v.Number? <==> name !in OBJECT_PROTOTYPE_KEYS
    ensures v.Number? ==> Schema.IsWireCode(v.n)
  {
    match StatusMapLookup(name)
    case Number(n) => Number(n)  // a falsy 0 is replaced by the default 0
    case InheritedMember(k) => InheritedMember(k)
    case Undefined => Number(0)
  }

  /** The input that shows the discrepancy: 'toString' yields a function, not the default code 0. */
  lemma InheritedKeyEscapesDefault()
    ensures StringToStatusAsWritten("toString") == InheritedMember("toString")
    ensures StringToStatusAsWritten("toString") != Number(StringToStatus("toString"))
  {
  }

  /** `stringToStatus` as evidently intended: own entries only, every other string gives 0. */
  function StringToStatus(name: string): (code: int)
    ensures Schema.IsWireCode(code)
    ensures code == Schema.StringToStatus(name)
  {
    match StatusMapLookup(name)
    case Number(n) => n
    case _ => 0
  }

  /** Outside the inherited keys, the code as written and the intended one agree. */
  lemma AsWrittenAgreesOffPrototype(name: string)
    requires name !in OBJECT_PROTOTYPE_KEYS
    ensures StringToStatusAsWritten(name) == Number(StringToStatus(name))
  {
  }

  /** Both round trips of the mock: codes 0..2 through names, and the three names through codes. */
  lemma RoundTrips(code: int, s: Status)
    ensures Schema.IsWireCode(code) ==> StringToStatus(StatusToString(code)) == code
    ensures s != Reserved ==> StatusToString(StringToStatus(StatusName(s))) == StatusName(s)
  {
  }
}
