/**
  The selection hook: values derived from the store (whether seats may be picked, the details of
  the picked seats, the price) and the three handlers, each of which forwards to a slice reducer
  behind a guard. A handler is modelled by the actions it dispatches.
*/
module UseSeatSelection {
  import opened Optional
  import opened SeatTypes
  import opened SeatMapSlice

  /** Price of one seat, in VND. */
  const PRICE_PER_SEAT: int := 100000

  /** `canSelectSeats`: connected and logged in. */
  predicate CanSelectSeats(s: StoreState)
  {
    s.connectionStatus == Connected && s.user.Some?
  }

  /** The details shown for one picked seat. */
  datatype SeatDetails = SeatDetails(id: string, row: int, number: int, status: Status)

  function DetailsOf(seat: Seat): SeatDetails
  {
    SeatDetails(seat.id, seat.row, seat.number, seat.status)
  }

  /** `selectedSeats.map(find).filter(Boolean)` for a loaded seat list: every id found in the list
      contributes the details of the first seat with that id; ids not found are dropped. */
  function LookUpAll(seats: seq<Seat>, ids: seq<string>): (r: seq<SeatDetails>)
    ensures |r| <= |ids|
    ensures forall j :: 0 <= j < |r| ==> r[j].id in ids
    ensures |r| == |ids| <==> forall x :: x in ids ==> FindIndex(seats, x).Some?
  {
    if ids == [] then []
    else
      var rest := LookUpAll(seats, ids[1..]);
      match FindIndex(seats, ids[0])
      case None => assert ids[0] in ids; rest
      case Some(i) =>
        assert forall x :: x in ids <==> x == ids[0] || x in ids[1..];
        [DetailsOf(seats[i])] + rest
  }

  /** The lookup follows the selection order: it distributes over concatenation. */
  lemma {:induction false} LookUpAllDistributes(seats: seq<Seat>, a: seq<string>, b: seq<string>)
    ensures LookUpAll(seats, a + b) == LookUpAll(seats, a) + LookUpAll(seats, b)
  {
    if a == [] {
      assert a + b == b;
    } else {
      assert (a + b)[1..] == a[1..] + b;
      LookUpAllDistributes(seats, a[1..], b);
    }
  }

  /** A single id contributes the details of the first seat carrying it, or nothing. */
  lemma LookUpOne(seats: seq<Seat>, id: string)
    ensures LookUpAll(seats, [id]) ==
      match FindIndex(seats, id)
      case None => []
      case Some(i) => [DetailsOf(seats[i])]
  {
    assert [id][1..] == [];
  }

  /** `selectedSeatsDetails`. */
  function SelectedSeatsDetails(s: StoreState): (r: seq<SeatDetails>)
    ensures s.seatMap.None? || s.selectedSeats == [] ==> r == []
    ensures |r| <= |s.selectedSeats|
    ensures forall j :: 0 <= j < |r| ==> r[j].id in s.selectedSeats
  {
    if s.seatMap.None? || |s.selectedSeats| == 0 then []
    else LookUpAll(s.seatMap.value.seats, s.selectedSeats)
  }

  /** `totalPrice`: each picked id costs one seat price; nothing picked costs nothing. */
  function TotalPrice(s: StoreState): (price: int)
    ensures price >= 0
    ensures price == 0 <==> s.selectedSeats == []
    ensures price == PRICE_PER_SEAT * |s.selectedSeats|
  {
    |s.selectedSeats| * PRICE_PER_SEAT
  }

  /** The price counts every picked id, including ids missing from the seat map, so it is never
      below the price of the seats whose details are shown, and equals it exactly when every picked
      id is found. */
  lemma PriceCoversDetails(s: StoreState)
    ensures TotalPrice(s) >= |SelectedSeatsDetails(s)| * PRICE_PER_SEAT
    ensures s.seatMap.Some? ==>
      (TotalPrice(s) == |SelectedSeatsDetails(s)| * PRICE_PER_SEAT <==>
       forall x :: x in s.selectedSeats ==> FindIndex(s.seatMap.value.seats, x).Some?)
  {
  }

  /** Seats may be picked from the moment the store is connected with a user, and the store's
      other actions leave that as it was: it starts false, follows each `setConnectionStatus` and
      `setUser`, and a reset revokes it. */
  lemma SelectionGuardFollowsStore(s: StoreState, a: Action)
    ensures !CanSelectSeats(INITIAL_STATE)
    ensures a.SetConnectionStatus? ==> (CanSelectSeats(Reduce(s, a)) <==> a.status == Connected && s.user.Some?)
    ensures a.SetUser? ==> (CanSelectSeats(Reduce(s, a)) <==> s.connectionStatus == Connected && a.newUser.Some?)
    ensures a.ResetState? ==> !CanSelectSeats(Reduce(s, a))
    ensures !a.SetConnectionStatus? && !a.SetUser? && !a.ResetState? ==>
      (CanSelectSeats(Reduce(s, a)) <==> CanSelectSeats(s))
  {
  }

  /** `handleSelectSeat`: dispatches `selectSeat` only when seats may be picked. */
  function HandleSelectSeat(s: StoreState, seatId: string): (dispatched: seq<Action>)
    ensures dispatched == [] <==> !CanSelectSeats(s)
  {
    if CanSelectSeats(s) then [Action.SelectSeat(seatId)] else []
  }

  /** `handleDeselectSeat`: dispatches `deselectSeat` only when seats may be picked. */
  function HandleDeselectSeat(s: StoreState, seatId: string): (dispatched: seq<Action>)
    ensures dispatched == [] <==> !CanSelectSeats(s)
  {
    if CanSelectSeats(s) then [Action.DeselectSeat(seatId)] else []
  }

  /** `handleClearAllSelections`: always dispatches the clear. */
  function HandleClearAllSelections(): (dispatched: seq<Action>)
    ensures |dispatched| == 1
  {
    [Action.ClearSelectedSeats]
  }

  /** The effect of the handlers on the store: a guarded handler changes nothing unless seats may be
      picked; then the id is picked (once) or dropped (everywhere); clearing always empties. */
  lemma HandlersEffect(s: StoreState, seatId: string)
    ensures !CanSelectSeats(s) ==>
      Dispatch(s, HandleSelectSeat(s, seatId)) == s && Dispatch(s, HandleDeselectSeat(s, seatId)) == s
    ensures CanSelectSeats(s) ==>
      var after := Dispatch(s, HandleSelectSeat(s, seatId));
      seatId in after.selectedSeats && after == s.(selectedSeats := after.selectedSeats)
    ensures CanSelectSeats(s) ==>
      var after := Dispatch(s, HandleDeselectSeat(s, seatId));
      seatId !in after.selectedSeats && after == s.(selectedSeats := after.selectedSeats)
    ensures Dispatch(s, HandleClearAllSelections()) == s.(selectedSeats := [])
  {
    if CanSelectSeats(s) {
      assert HandleSelectSeat(s, seatId)[1..] == [];
      assert HandleDeselectSeat(s, seatId)[1..] == [];
    }
    assert HandleClearAllSelections()[1..] == [];
  }
}
