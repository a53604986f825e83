/**
  The client's Redux slice for the seat map. Each reducer is given twice: once as the pure
  transition `Reduce(state, action)`, which is what a reducer promises, and once as a method of
  `SeatMapStore`, which performs the same update in place on a draft the way the Immer-style
  reducers do (assigning fields, pushing onto the selection, overwriting one seat, looping over
  the booked ids), and is proved to land on `Reduce` of the old state.
*/
module SeatMapSlice {
  import opened Optional
  import opened SeatTypes

  datatype StoreState = StoreState(
    seatMap: Option<SeatMap>,
    selectedSeats: seq<string>,
    user: Option<User>,
    isLoading: bool,
    error: Option<string>,
    connectionStatus: ConnectionStatus)

  const INITIAL_STATE: StoreState := StoreState(None, [], None, false, None, Disconnected)

  /** The slice's action creators. */
  datatype Action =
    | SetLoading(loading: bool)
    | SetError(message: Option<string>)
    | SetConnectionStatus(status: ConnectionStatus)
    | SetUser(newUser: Option<User>)
    | SetSeatMap(newSeatMap: SeatMap)
    | UpdateSeat(seat: Seat)
    | SelectSeat(seatId: string)
    | DeselectSeat(seatId: string)
    | ClearSelectedSeats
    | BookSeats(seatIds: seq<string>)
    | ResetState

  /** `updateSeat` on the seat list: the first seat with the payload's id is replaced by the payload. */
  function ReplaceSeat(seats: seq<Seat>, payload: Seat): (r: seq<Seat>)
    ensures |r| == |seats|
    ensures SeatIds(r) == SeatIds(seats)
    ensures FindIndex(seats, payload.id).None? ==> r == seats
    ensures FindIndex(seats, payload.id).Some? ==>
      var i := FindIndex(seats, payload.id).value;
      r[i] == payload && forall j :: 0 <= j < |seats| && j != i ==> r[j] == seats[j]
  {
    match FindIndex(seats, payload.id)
    case None => seats
    case Some(i) => seats[i := payload]
  }

  /** After `updateSeat`, looking the payload's id up finds exactly the payload. */
  lemma ReplaceSeatThenFind(seats: seq<Seat>, payload: Seat)
    requires FindIndex(seats, payload.id).Some?
    ensures FindIndex(ReplaceSeat(seats, payload), payload.id) == FindIndex(seats, payload.id)
    ensures ReplaceSeat(seats, payload)[FindIndex(seats, payload.id).value] == payload
  {
    FindIndexByIds(ReplaceSeat(seats, payload), seats, payload.id);
  }

  /** `selectSeat` on the selection: append the id unless it is already there. */
  function WithSelected(ids: seq<string>, id: string): (r: seq<string>)
    ensures id in r
    ensures forall x :: x in r <==> x in ids || x == id
    ensures id in ids ==> r == ids
    ensures id !in ids ==> |r| == |ids| + 1 && r[..|ids|] == ids
  {
    if id in ids then ids else ids + [id]
  }

  lemma WithSelectedIdempotent(ids: seq<string>, id: string)
    ensures WithSelected(WithSelected(ids, id), id) == WithSelected(ids, id)
  {
  }

  /** `selectSeat` never introduces a duplicate. */
  lemma WithSelectedKeepsDistinct(ids: seq<string>, id: string)
    requires Distinct(ids)
    ensures Distinct(WithSelected(ids, id))
  {
    if id !in ids {
      var r := WithSelected(ids, id);
      forall i, j | 0 <= i < j < |r| ensures r[i] != r[j] {
        if j == |ids| {
          assert r[i] == ids[i];
        }
      }
    }
  }

  /** `deselectSeat` on the selection: `ids.filter(x => x !== id)`. */
  function Without(ids: seq<string>, id: string): (r: seq<string>)
    ensures id !in r
    ensures forall x :: x in r <==> x in ids && x != id
    ensures |r| <= |ids|
    ensures multiset(r) == multiset(ids)[id := 0]
  {
    if ids == [] then []
    else
      var rest := Without(ids[1..], id);
      assert ids == [ids[0]] + ids[1..];
      if ids[0] == id then rest else [ids[0]] + rest
  }

  /** The filter keeps the relative order of what it keeps: it distributes over concatenation. */
  lemma {:induction false} WithoutDistributes(a: seq<string>, b: seq<string>, id: string)
    ensures Without(a + b, id) == Without(a, id) + Without(b, id)
  {
    if a == [] {
      assert a + b == b;
    } else {
      assert (a + b)[1..] == a[1..] + b;
      WithoutDistributes(a[1..], b, id);
    }
  }

  /** The filter of a single id keeps it exactly when it is not the removed one. */
  lemma WithoutSingleton(x: string, id: string)
    ensures Without([x], id) == if x == id then [] else [x]
  {
    assert [x][1..] == [];
  }

  /** `bookSeats` on the seat list, one listed id after the other: the first seat with that id,
      if any, becomes occupied. */
  function OccupyAll(seats: seq<Seat>, ids: seq<string>): (r: seq<Seat>)
    ensures |r| == |seats|
    ensures SeatIds(r) == SeatIds(seats)
    decreases |ids|
  {
    if ids == [] then seats
    else
      var prev := OccupyAll(seats, ids[..|ids| - 1]);
      match FindIndex(prev, ids[|ids| - 1])
      case None => prev
      case Some(i) =>
        assert SeatIds(prev[i := Occupy(prev[i])]) == SeatIds(prev);
        prev[i := Occupy(prev[i])]
  }

  /** One more listed id: the first seat with it, if any, becomes occupied. */
  lemma OccupyAllStep(seats: seq<Seat>, ids: seq<string>, k: nat)
    requires k < |ids|
    ensures var prev := OccupyAll(seats, ids[..k]);
      OccupyAll(seats, ids[..k + 1]) ==
        match FindIndex(prev, ids[k])
        case None => prev
        case Some(i) => prev[i := Occupy(prev[i])]
  {
    assert ids[..k + 1][..k] == ids[..k];
  }

  /** The `forEach` of `bookSeats`: each listed id in turn, the first seat with it, if any, has
      its status set to occupied. */
  method OccupyEach(seats: seq<Seat>, ids: seq<string>) returns (r: seq<Seat>)
    ensures r == OccupyAll(seats, ids)
  {
    r := seats;
    var k := 0;
    while k < |ids|
      invariant 0 <= k <= |ids|
      invariant r == OccupyAll(seats, ids[..k])
    {
      OccupyAllStep(seats, ids, k);
      var seat := FindIndex(r, ids[k]);
      if seat.Some? {
        r := r[seat.value := r[seat.value].(status := Occupied)];
      }
      k := k + 1;
    }
    assert ids[..k] == ids;
  }

  /** Whether `bookSeats(ids)` reaches the seat at index k: it is the first seat with its id,
      and that id is listed. */
  predicate Booked(seats: seq<Seat>, ids: seq<string>, k: int)
    requires 0 <= k < |seats|
  {
    FindIndex(seats, seats[k].id) == Some(k) && seats[k].id in ids
  }

  /** `bookSeats` occupies exactly the seats it reaches, changes nothing else in them, and touches
      no other seat; unknown ids are ignored. */
  lemma {:induction false} OccupyAllExactly(seats: seq<Seat>, ids: seq<string>)
    ensures forall k :: 0 <= k < |seats| ==>
      OccupyAll(seats, ids)[k] == if Booked(seats, ids, k) then Occupy(seats[k]) else seats[k]
    decreases |ids|
  {
    if ids != [] {
      var init, x := ids[..|ids| - 1], ids[|ids| - 1];
      assert ids == init + [x];
      OccupyAllExactly(seats, init);
      var prev := OccupyAll(seats, init);
      FindIndexByIds(prev, seats, x);
      forall k | 0 <= k < |seats|
        ensures OccupyAll(seats, ids)[k] == if Booked(seats, ids, k) then Occupy(seats[k]) else seats[k]
      {
        if seats[k].id == x && FindIndex(seats, x) == Some(k) {
          assert Booked(seats, ids, k);
        } else {
          assert Booked(seats, ids, k) == Booked(seats, init, k);
        }
      }
    }
  }

  /** The reducer, as a pure transition of the slice state. */
  function Reduce(s: StoreState, a: Action): StoreState
  {
    match a
    case SetLoading(v) => s.(isLoading := v)
    case SetError(e) => s.(error := e)
    case SetConnectionStatus(c) => s.(connectionStatus := c)
    case SetUser(u) => s.(user := u)
    case SetSeatMap(m) => s.(seatMap := Some(m))
    case UpdateSeat(p) =>
      if s.seatMap.None? then s
      else s.(seatMap := Some(s.seatMap.value.(seats := ReplaceSeat(s.seatMap.value.seats, p))))
    case SelectSeat(id) => s.(selectedSeats := WithSelected(s.selectedSeats, id))
    case DeselectSeat(id) => s.(selectedSeats := Without(s.selectedSeats, id))
    case ClearSelectedSeats => s.(selectedSeats := [])
    case BookSeats(ids) =>
      var m := if s.seatMap.None? then None
               else Some(s.seatMap.value.(seats := OccupyAll(s.seatMap.value.seats, ids)));
      s.(seatMap := m, selectedSeats := [])
    case ResetState => INITIAL_STATE
  }

  /** Dispatching several actions in order. */
  function Dispatch(s: StoreState, actions: seq<Action>): StoreState
    decreases |actions|
  {
    if actions == [] then s else Dispatch(Reduce(s, actions[0]), actions[1..])
  }

  /** Dispatching one more action reduces the state reached so far. */
  lemma {:induction false} DispatchSnoc(s: StoreState, actions: seq<Action>, a: Action)
    ensures Dispatch(s, actions + [a]) == Reduce(Dispatch(s, actions), a)
    decreases |actions|
  {
    if actions != [] {
      assert (actions + [a])[1..] == actions[1..] + [a];
      DispatchSnoc(Reduce(s, actions[0]), actions[1..], a);
    }
  }

  /** Dispatching two lists is dispatching the first, then the second from where it left off. */
  lemma {:induction false} DispatchAppend(s: StoreState, a: seq<Action>, b: seq<Action>)
    ensures Dispatch(s, a + b) == Dispatch(Dispatch(s, a), b)
    decreases |a|
  {
    if a != [] {
      assert (a + b)[0] == a[0];
      assert (a + b)[1..] == a[1..] + b;
      DispatchAppend(Reduce(s, a[0]), a[1..], b);
    } else {
      assert a + b == b;
    }
  }
  /** Apart from `resetState`, which restores every field, each action writes only its own
      fields: the four setters their one field each, the selection actions the selection, and the
      seat actions the seats of a loaded map, keeping every seat id in place. */
  lemma ReduceWritesOwnFields(s: StoreState, a: Action)
    ensures var r := Reduce(s, a);
      !a.ResetState? ==>
        && r.isLoading == (if a.SetLoading? then a.loading else s.isLoading)
        && r.error == (if a.SetError? then a.message else s.error)
        && r.connectionStatus == (if a.SetConnectionStatus? then a.status else s.connectionStatus)
        && r.user == (if a.SetUser? then a.newUser else s.user)
    ensures var r := Reduce(s, a);
      !a.ResetState? && !a.SelectSeat? && !a.DeselectSeat? && !a.ClearSelectedSeats? && !a.BookSeats? ==>
        r.selectedSeats == s.selectedSeats
    ensures var r := Reduce(s, a);
      !a.ResetState? && !a.SetSeatMap? ==>
        && r.seatMap.Some? == s.seatMap.Some?
        && (s.seatMap.Some? ==>
              && r.seatMap.value.(seats := s.seatMap.value.seats) == s.seatMap.value
              && SeatIds(r.seatMap.value.seats) == SeatIds(s.seatMap.value.seats))
  {
  }

  /** Over any list of actions without a reset or a new seat map, a loaded map stays loaded with
      the same seat ids and an absent one stays absent; without a reset or `setUser`, the user
      stays. */
  lemma {:induction false} DispatchKeepsMapAndUser(s: StoreState, actions: seq<Action>)
    ensures (forall i :: 0 <= i < |actions| ==> !actions[i].ResetState? && !actions[i].SetSeatMap?) ==>
      && Dispatch(s, actions).seatMap.Some? == s.seatMap.Some?
      && (s.seatMap.Some? ==> SeatIds(Dispatch(s, actions).seatMap.value.seats) == SeatIds(s.seatMap.value.seats))
    ensures (forall i :: 0 <= i < |actions| ==> !actions[i].ResetState? && !actions[i].SetUser?) ==>
      Dispatch(s, actions).user == s.user
    decreases |actions|
  {
    if actions != [] {
      ReduceWritesOwnFields(s, actions[0]);
      DispatchKeepsMapAndUser(Reduce(s, actions[0]), actions[1..]);
      assert forall i :: 0 <= i < |actions| - 1 ==> actions[1..][i] == actions[i + 1];
    }
  }


  /** The field an action sets, for the five setters; other actions have none. */
  function SetterField(a: Action): (f: Option<nat>)
    ensures f.Some? <==> a.SetLoading? || a.SetError? || a.SetConnectionStatus? || a.SetUser? || a.SetSeatMap?
  {
    match a
    case SetLoading(_) => Some(0)
    case SetError(_) => Some(1)
    case SetConnectionStatus(_) => Some(2)
    case SetUser(_) => Some(3)
    case SetSeatMap(_) => Some(4)
    case _ => None
  }

  /** Each setter writes its own field only: setters of different fields commute, and of two
      writes to the same field the last one wins. */
  lemma SettersIndependent(s: StoreState, a: Action, b: Action)
    requires SetterField(a).Some? && SetterField(b).Some?
    ensures SetterField(a) != SetterField(b) ==> Reduce(Reduce(s, a), b) == Reduce(Reduce(s, b), a)
    ensures SetterField(a) == SetterField(b) ==> Reduce(Reduce(s, a), b) == Reduce(s, b)
    ensures Reduce(s, a).selectedSeats == s.selectedSeats
  {
  }

  /** `resetState` forgets every earlier action, and `clearSelectedSeats` touches the selection only. */
  lemma ResetForgets(s: StoreState, actions: seq<Action>)
    ensures Dispatch(s, actions + [ResetState]) == INITIAL_STATE
    ensures Reduce(s, ClearSelectedSeats).selectedSeats == []
    ensures Reduce(s, ClearSelectedSeats).(selectedSeats := s.selectedSeats) == s
  {
    DispatchSnoc(s, actions, ResetState);
  }

  /** The deselect case the slice's tests pin down: releasing 'seat-1' from ['seat-1', 'seat-2']
      leaves ['seat-2']. */
  lemma DeselectExample()
    ensures Without(["seat-1", "seat-2"], "seat-1") == ["seat-2"]
  {
    WithoutDistributes(["seat-1"], ["seat-2"], "seat-1");
    assert ["seat-1", "seat-2"] == ["seat-1"] + ["seat-2"];
    WithoutSingleton("seat-1", "seat-1");
    WithoutSingleton("seat-2", "seat-1");
  }

  /** Every action keeps the selection free of duplicates. */
  lemma {:induction false} ReduceKeepsSelectionDistinct(s: StoreState, a: Action)
    requires Distinct(s.selectedSeats)
    ensures Distinct(Reduce(s, a).selectedSeats)
  {
    match a
    case SelectSeat(id) => WithSelectedKeepsDistinct(s.selectedSeats, id);
    case DeselectSeat(id) => WithoutKeepsDistinct(s.selectedSeats, id);
    case _ =>
  }

  lemma {:induction false} WithoutKeepsDistinct(ids: seq<string>, id: string)
    requires Distinct(ids)
    ensures Distinct(Without(ids, id))
  {
    if ids != [] {
      assert ids == [ids[0]] + ids[1..];
      WithoutKeepsDistinct(ids[1..], id);
      assert ids[0] !in ids[1..];
    }
  }

  /** `bookSeats` empties the selection whether or not a seat map is loaded, and keeps the seat
      count and every seat id. */
  lemma BookSeatsShape(s: StoreState, ids: seq<string>)
    ensures Reduce(s, BookSeats(ids)).selectedSeats == []
    ensures Reduce(s, BookSeats(ids)).seatMap.Some? == s.seatMap.Some?
    ensures s.seatMap.Some? ==>
      SeatIds(Reduce(s, BookSeats(ids)).seatMap.value.seats) == SeatIds(s.seatMap.value.seats)
  {
  }

  /** `updateSeat` and `bookSeats` are no-ops on the seats while no seat map is loaded. */
  lemma NoSeatMapNoChange(s: StoreState, p: Seat, ids: seq<string>)
    requires s.seatMap.None?
    ensures Reduce(s, UpdateSeat(p)) == s
    ensures Reduce(s, BookSeats(ids)) == s.(selectedSeats := [])
  {
  }

  /** The Immer-style store: one mutable draft whose fields the reducers assign in place. */
  class SeatMapStore {
    var seatMap: Option<SeatMap>
    var selectedSeats: seq<string>
    var user: Option<User>
    var isLoading: bool
    var error: Option<string>
    var connectionStatus: ConnectionStatus

    function State(): StoreState
      reads this
    {
      StoreState(seatMap, selectedSeats, user, isLoading, error, connectionStatus)
    }

    constructor()
      ensures State() == INITIAL_STATE
    {
      seatMap := None;
      selectedSeats := [];
      user := None;
      isLoading := false;
      error := None;
      connectionStatus := Disconnected;
    }

    method SetLoading(v: bool)
      modifies this
      ensures State() == Reduce(old(State()), Action.SetLoading(v))
    {
      isLoading := v;
    }

    method SetError(e: Option<string>)
      modifies this
      ensures State() == Reduce(old(State()), Action.SetError(e))
    {
      error := e;
    }

    method SetConnectionStatus(c: ConnectionStatus)
      modifies this
      ensures State() == Reduce(old(State()), Action.SetConnectionStatus(c))
    {
      connectionStatus := c;
    }

    /** `setUser` stores its payload as is: a user on login, none on logout (`setUser(null)`). */
    method SetUser(u: Option<User>)
      modifies this
      ensures State() == Reduce(old(State()), Action.SetUser(u))
    {
      user := u;
    }

    method SetSeatMap(m: SeatMap)
      modifies this
      ensures State() == Reduce(old(State()), Action.SetSeatMap(m))
    {
      seatMap := Some(m);
    }

    method UpdateSeat(payload: Seat)
      modifies this
      ensures State() == Reduce(old(State()), Action.UpdateSeat(payload))
    {
      if seatMap.Some? {
        var seatIndex := FindIndex(seatMap.value.seats, payload.id);
        if seatIndex.Some? {
          seatMap := Some(seatMap.value.(seats := seatMap.value.seats[seatIndex.value := payload]));
        }
      }
    }

    method SelectSeat(seatId: string)
      modifies this
      ensures State() == Reduce(old(State()), Action.SelectSeat(seatId))
    {
      if seatId !in selectedSeats {
        selectedSeats := selectedSeats + [seatId];
      }
    }

    method DeselectSeat(seatId: string)
      modifies this
      ensures State() == Reduce(old(State()), Action.DeselectSeat(seatId))
    {
      selectedSeats := Without(selectedSeats, seatId);
    }

    method ClearSelectedSeats()
      modifies this
      ensures State() == Reduce(old(State()), Action.ClearSelectedSeats)
    {
      selectedSeats := [];
    }

    method BookSeats(seatIds: seq<string>)
      modifies this
      ensures State() == Reduce(old(State()), Action.BookSeats(seatIds))
    {
      if seatMap.Some? {
        var seats := OccupyEach(seatMap.value.seats, seatIds);
        seatMap := Some(seatMap.value.(seats := seats));
      }
      selectedSeats := [];
    }

    method ResetState()
      modifies this
      ensures State() == Reduce(old(State()), Action.ResetState)
    {
      seatMap := None;
      selectedSeats := [];
      user := None;
      isLoading := false;
      error := None;
      connectionStatus := Disconnected;
    }
  }
}
