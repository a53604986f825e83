/**
  The seat server: the theatre's 150-seat grid built at start-up, the reservation table, and the
  Socket.IO handlers that select, release and book seats and answer pings and snapshot requests.

  Each handler is specified twice: as a pure transition over `ServerState` that also lists the
  events it emits (`Select`, `Deselect`, `Book`), and as a method of `SeatAuthority`, which keeps
  the seats in an array updated in place and appends the emitted events to an outbox. The random
  draws made at start-up and the two clock readings a selection takes are parameters.
*/
module SeatServer {
  import opened Optional
  import opened SeatTypes

  const THEATER_ID: string := "theater-1"
  const THEATER_NAME: string := "Rạp chiếu phim ABC"
  const GRID_ROWS: nat := 10
  const SEATS_PER_ROW: nat := 15
  const GRID_SIZE: nat := 150
  const NOT_AVAILABLE: string := "Seat not available"
  const CANNOT_DESELECT: string := "Cannot deselect seat"

  function DigitChar(d: nat): (c: char)
    requires d < 10
    ensures c as int - '0' as int == d
  {
    ('0' as int + d) as char
  }

  /** A natural number in a template literal: its decimal digits, most significant first. */
  function Decimal(n: nat): (s: string)
    ensures |s| >= 1
    ensures n < 10 <==> |s| == 1
    decreases n
  {
    if n < 10 then [DigitChar(n)] else Decimal(n / 10) + [DigitChar(n % 10)]
  }

  /** The value a string of decimal digits denotes. */
  function DecimalValue(s: string): int
    decreases |s|
  {
    if s == [] then 0 else DecimalValue(s[..|s| - 1]) * 10 + (s[|s| - 1] as int - '0' as int)
  }

  /** Reading back the digits gives the number. */
  lemma {:induction false} DecimalRoundTrip(n: nat)
    ensures DecimalValue(Decimal(n)) == n
    decreases n
  {
    if n >= 10 {
      DecimalRoundTrip(n / 10);
      var s := Decimal(n);
      assert s[..|s| - 1] == Decimal(n / 10);
    } else {
      assert Decimal(n)[..0] == [];
    }
  }

  /** The seat id the grid gives the seat at `index`: `seat-${index + 1}`. */
  function GridSeatId(index: nat): string
  {
    "seat-" + Decimal(index + 1)
  }

  /** Different grid positions get different ids. */
  lemma GridSeatIdInjective(i: nat, j: nat)
    requires GridSeatId(i) == GridSeatId(j)
    ensures i == j
  {
    assert Decimal(i + 1) == GridSeatId(i)[5..];
    assert Decimal(j + 1) == GridSeatId(j)[5..];
    DecimalRoundTrip(i + 1);
    DecimalRoundTrip(j + 1);
  }

  /** The random draws made for one seat at start-up: occupied or not, and the numbers (below 100
      in the source) in the optional `user-N` id and `User N` name. */
  datatype Draw = Draw(occupied: bool, userNumber: Option<nat>, nameNumber: Option<nat>)

  function InitialSeat(index: nat, d: Draw): Seat
  {
    Seat(
      GridSeatId(index),
      index / SEATS_PER_ROW + 1,
      index % SEATS_PER_ROW + 1,
      if d.occupied then Occupied else Available,
      if d.userNumber.Some? then Some("user-" + Decimal(d.userNumber.value)) else None,
      if d.nameNumber.Some? then Some("User " + Decimal(d.nameNumber.value)) else None,
      None)
  }

  /** The grid built at start-up: the seat at each index has that position's id, row and number,
      is occupied exactly when its draw says so (and available otherwise), is held by the drawn
      user and name, if any, and carries no selection time. */
  function InitialSeats(draws: seq<Draw>): (seats: seq<Seat>)
    ensures |seats| == |draws|
    ensures forall k :: 0 <= k < |draws| ==> OnGrid(seats[k], k) && seats[k].selectedAt == None
    ensures forall k :: 0 <= k < |draws| ==>
      (seats[k].status == Occupied <==> draws[k].occupied) && seats[k].status in {Available, Occupied}
    ensures forall k :: 0 <= k < |draws| ==>
      (seats[k].userId.Some? <==> draws[k].userNumber.Some?) && (seats[k].userName.Some? <==> draws[k].nameNumber.Some?)
    ensures forall k :: 0 <= k < |draws| && draws[k].userNumber.Some? ==>
      seats[k].userId == Some("user-" + Decimal(draws[k].userNumber.value))
    ensures forall k :: 0 <= k < |draws| && draws[k].nameNumber.Some? ==>
      seats[k].userName == Some("User " + Decimal(draws[k].nameNumber.value))
  {
    seq(|draws|, k requires 0 <= k < |draws| => InitialSeat(k, draws[k]))
  }

  /** The seat at `index` carries that position's id, row and number. */
  predicate OnGrid(seat: Seat, index: nat)
  {
    seat.id == GridSeatId(index) && seat.row == index / SEATS_PER_ROW + 1 && seat.number == index % SEATS_PER_ROW + 1
  }

  /** Every index of the grid lands on a row of 10 and a place of 15, and no two share both. */
  lemma GridPositions(i: nat, j: nat)
    requires i < GRID_SIZE && j < GRID_SIZE
    ensures 1 <= i / SEATS_PER_ROW + 1 <= GRID_ROWS && 1 <= i % SEATS_PER_ROW + 1 <= SEATS_PER_ROW
    ensures i / SEATS_PER_ROW == j / SEATS_PER_ROW && i % SEATS_PER_ROW == j % SEATS_PER_ROW ==> i == j
  {
  }

  /** The holder recorded when a seat is selected. */
  datatype Reservation = Reservation(userId: string, userName: string, timestamp: int)

  datatype ServerState = ServerState(seats: seq<Seat>, reservations: map<string, Reservation>)

  /** `io.emit` reaches every client; `socket.emit` only the one that sent the request. */
  datatype Target = Everyone | ToClient(socketId: string)

  datatype Emission = Emission(to: Target, event: ServerEvent)

  /** A transition's new state and the events it emits, in order. */
  datatype Outcome = Outcome(state: ServerState, emitted: seq<Emission>)

  /** What the server keeps true: the grid layout never changes, no seat is ever 'reserved', and a
      selected seat has a reservation in its holder's name. */
  predicate Consistent(st: ServerState)
  {
    && |st.seats| == GRID_SIZE
    && (forall k :: 0 <= k < |st.seats| ==> OnGrid(st.seats[k], k) && st.seats[k].status != Reserved)
    && (forall k :: 0 <= k < |st.seats| && st.seats[k].status == Selected ==>
          st.seats[k].id in st.reservations && st.seats[k].userId == Some(st.reservations[st.seats[k].id].userId))
  }

  /** The state the server starts in: nothing is selected and nothing is reserved yet. */
  lemma InitialConsistent(draws: seq<Draw>)
    requires |draws| == GRID_SIZE
    ensures Consistent(ServerState(InitialSeats(draws), map[]))
    ensures forall k :: 0 <= k < GRID_SIZE ==> InitialSeats(draws)[k].status != Selected
  {
  }

  /** The start-up draws are independent, so an available seat can start with a holder id. */
  lemma InitialHolderIndependentOfStatus()
    ensures InitialSeat(0, Draw(false, Some(7), None)).status == Available
    ensures InitialSeat(0, Draw(false, Some(7), None)).userId == Some("user-7")
  {
    assert DigitChar(7) == '7';
    assert "user-" + Decimal(7) == "user-7";
  }

  /** The ids on a consistent grid are pairwise different, so each one finds its own seat. */
  lemma GridIdsDistinct(st: ServerState)
    requires Consistent(st)
    ensures Distinct(SeatIds(st.seats))
    ensures forall k :: 0 <= k < |st.seats| ==> FindIndex(st.seats, st.seats[k].id) == Some(k)
  {
    forall i, j | 0 <= i < j < |st.seats| ensures SeatIds(st.seats)[i] != SeatIds(st.seats)[j] {
      if GridSeatId(i) == GridSeatId(j) {
        GridSeatIdInjective(i, j);
      }
    }
    forall k | 0 <= k < |st.seats| ensures FindIndex(st.seats, st.seats[k].id) == Some(k) {
      var found := FindIndex(st.seats, st.seats[k].id);
      if found.value != k {
        GridSeatIdInjective(found.value, k);
      }
    }
  }

  /** The seat is selected by this user: the condition of both release and booking. */
  predicate HeldBy(seat: Seat, userId: string)
  {
    seat.userId == Some(userId) && seat.status == Selected
  }

  /** 'seat:select': an available seat becomes selected by the requester, a reservation is
      recorded, and the new seat is broadcast; anything else answers the requester alone with an
      error and changes nothing. Two clock readings are taken, one for the seat, one for the
      reservation. */
  function Select(st: ServerState, socketId: string, seatId: string, userId: string, userName: string,
                  selectedAt: int, reservedAt: int): (r: Outcome)
    ensures var found := FindIndex(st.seats, seatId);
      if found.Some? && st.seats[found.value].status == Available then
        var k := found.value;
        && |r.state.seats| == |st.seats|
        && HeldBy(r.state.seats[k], userId)
        && r.state.seats[k].userName == Some(userName) && r.state.seats[k].selectedAt == Some(selectedAt)
        && r.state.seats[k].id == seatId
        && r.state.seats[k].row == st.seats[k].row && r.state.seats[k].number == st.seats[k].number
        && (forall j :: 0 <= j < |st.seats| && j != k ==> r.state.seats[j] == st.seats[j])
        && r.state.reservations == st.reservations[seatId := Reservation(userId, userName, reservedAt)]
        && r.emitted == [Emission(Everyone, SeatUpdated(r.state.seats[k]))]
      else
        r.state == st && r.emitted == [Emission(ToClient(socketId), SeatError(NOT_AVAILABLE))]
  {
    match FindIndex(st.seats, seatId)
    case Some(k) =>
      if st.seats[k].status == Available then
        var seat := st.seats[k].(status := Selected, userId := Some(userId), userName := Some(userName),
                                 selectedAt := Some(selectedAt));
        Outcome(ServerState(st.seats[k := seat], st.reservations[seatId := Reservation(userId, userName, reservedAt)]),
                [Emission(Everyone, SeatUpdated(seat))])
      else
        Outcome(st, [Emission(ToClient(socketId), SeatError(NOT_AVAILABLE))])
    case None => Outcome(st, [Emission(ToClient(socketId), SeatError(NOT_AVAILABLE))])
  }

  /** 'seat:deselect': a seat the requester holds becomes available with no holder, its
      reservation is deleted, and the new seat is broadcast; anything else answers the requester
      alone with an error and changes nothing. */
  function Deselect(st: ServerState, socketId: string, seatId: string, userId: string): (r: Outcome)
    ensures var found := FindIndex(st.seats, seatId);
      if found.Some? && HeldBy(st.seats[found.value], userId) then
        var k := found.value;
        && |r.state.seats| == |st.seats|
        && r.state.seats[k] == Seat(seatId, st.seats[k].row, st.seats[k].number, Available, None, None, None)
        && (forall j :: 0 <= j < |st.seats| && j != k ==> r.state.seats[j] == st.seats[j])
        && r.state.reservations == st.reservations - {seatId}
        && r.emitted == [Emission(Everyone, SeatUpdated(r.state.seats[k]))]
      else
        r.state == st && r.emitted == [Emission(ToClient(socketId), SeatError(CANNOT_DESELECT))]
  {
    match FindIndex(st.seats, seatId)
    case Some(k) =>
      if HeldBy(st.seats[k], userId) then
        var seat := st.seats[k].(status := Available, userId := None, userName := None, selectedAt := None);
        Outcome(ServerState(st.seats[k := seat], st.reservations - {seatId}), [Emission(Everyone, SeatUpdated(seat))])
      else
        Outcome(st, [Emission(ToClient(socketId), SeatError(CANNOT_DESELECT))])
    case None => Outcome(st, [Emission(ToClient(socketId), SeatError(CANNOT_DESELECT))])
  }

  /** The seats after a booking pass and the seats it updated, in the order it updated them. */
  datatype Booking = Booking(seats: seq<Seat>, updated: seq<Seat>)

  /** The booking pass's treatment of one requested id: the first seat with that id, if the
      requester holds it, becomes occupied and is recorded as updated. */
  function BookOne(prev: Booking, id: string, userId: string): (next: Booking)
    ensures |next.seats| == |prev.seats| && SeatIds(next.seats) == SeatIds(prev.seats)
    ensures |next.updated| <= |prev.updated| + 1
    ensures forall k :: 0 <= k < |prev.seats| ==>
      next.seats[k] == prev.seats[k] || (HeldBy(prev.seats[k], userId) && next.seats[k] == Occupy(prev.seats[k]))
  {
    match FindIndex(prev.seats, id)
    case Some(k) =>
      if HeldBy(prev.seats[k], userId) then
        assert SeatIds(prev.seats[k := Occupy(prev.seats[k])]) == SeatIds(prev.seats);
        Booking(prev.seats[k := Occupy(prev.seats[k])], prev.updated + [Occupy(prev.seats[k])])
      else prev
    case None => prev
  }

  /** 'seats:book', one requested id after the other. */
  function BookAll(seats: seq<Seat>, ids: seq<string>, userId: string): (b: Booking)
    ensures |b.seats| == |seats| && SeatIds(b.seats) == SeatIds(seats)
    ensures |b.updated| <= |ids|
    ensures forall k :: 0 <= k < |seats| ==>
      b.seats[k] == seats[k] || (HeldBy(seats[k], userId) && b.seats[k] == Occupy(seats[k]))
    decreases |ids|
  {
    if ids == [] then Booking(seats, [])
    else BookOne(BookAll(seats, ids[..|ids| - 1], userId), ids[|ids| - 1], userId)
  }

  /** One more requested id is handled after the ones before it. */
  lemma BookAllStep(seats: seq<Seat>, ids: seq<string>, i: nat, userId: string)
    requires i < |ids|
    ensures BookAll(seats, ids[..i + 1], userId) == BookOne(BookAll(seats, ids[..i], userId), ids[i], userId)
  {
    assert ids[..i + 1][..i] == ids[..i];
  }

  /** Handling one id does not depend on the seats reported before, and only appends to them. */
  lemma BookOneAfter(prev: Booking, earlier: seq<Seat>, id: string, userId: string)
    ensures var next := BookOne(prev, id, userId);
      BookOne(Booking(prev.seats, earlier + prev.updated), id, userId) == Booking(next.seats, earlier + next.updated)
  {
    match FindIndex(prev.seats, id)
    case Some(k) =>
      if HeldBy(prev.seats[k], userId) {
        assert earlier + prev.updated + [Occupy(prev.seats[k])] == earlier + (prev.updated + [Occupy(prev.seats[k])]);
      }
    case None =>
  }

  /** The seat at `k` is the first with its id, its id was requested, and the requester holds it. */
  predicate FlippedBy(seats: seq<Seat>, ids: seq<string>, userId: string, k: int)
  {
    0 <= k < |seats| && FindIndex(seats, seats[k].id) == Some(k) && seats[k].id in ids && HeldBy(seats[k], userId)
  }

  /** After booking, exactly the requested seats the requester held are occupied; every other seat,
      including seats held by other users, is as it was. */
  lemma {:induction false} BookAllSeats(seats: seq<Seat>, ids: seq<string>, userId: string)
    ensures forall k :: 0 <= k < |seats| ==>
      BookAll(seats, ids, userId).seats[k] == if FlippedBy(seats, ids, userId, k) then Occupy(seats[k]) else seats[k]
    decreases |ids|
  {
    if ids != [] {
      var front := ids[..|ids| - 1];
      var id := ids[|ids| - 1];
      assert ids == front + [id];
      BookAllSeats(seats, front, userId);
      var prev := BookAll(seats, front, userId);
      FindIndexByIds(prev.seats, seats, id);
      forall k | 0 <= k < |seats|
        ensures BookAll(seats, ids, userId).seats[k] == if FlippedBy(seats, ids, userId, k) then Occupy(seats[k]) else seats[k]
      {
        if FlippedBy(seats, front, userId, k) {
          assert !HeldBy(prev.seats[k], userId);
        }
      }
    }
  }

  /** `seat` is the occupied form of a seat the booking flips. */
  predicate Origin(seats: seq<Seat>, ids: seq<string>, userId: string, seat: Seat)
  {
    var found := FindIndex(seats, seat.id);
    found.Some? && FlippedBy(seats, ids, userId, found.value) && seat == Occupy(seats[found.value])
  }

  /** Every seat the booking reports as updated is a flipped seat in its occupied form. */
  lemma {:induction false} BookAllOrigin(seats: seq<Seat>, ids: seq<string>, userId: string)
    ensures forall seat :: seat in BookAll(seats, ids, userId).updated ==> Origin(seats, ids, userId, seat)
    decreases |ids|
  {
    if ids != [] {
      var front := ids[..|ids| - 1];
      var id := ids[|ids| - 1];
      assert ids == front + [id];
      BookAllOrigin(seats, front, userId);
      var prev := BookAll(seats, front, userId);
      FindIndexByIds(prev.seats, seats, id);
      forall seat | Origin(seats, front, userId, seat) ensures Origin(seats, ids, userId, seat) {
      }
      var found := FindIndex(seats, id);
      if found.Some? && HeldBy(prev.seats[found.value], userId) {
        assert prev.seats[found.value] == seats[found.value];
        assert Origin(seats, ids, userId, Occupy(seats[found.value]));
      }
    }
  }

  /** Every seat the booking flips is reported as updated. */
  lemma {:induction false} BookAllCovers(seats: seq<Seat>, ids: seq<string>, userId: string)
    ensures forall k :: FlippedBy(seats, ids, userId, k) ==> Occupy(seats[k]) in BookAll(seats, ids, userId).updated
    decreases |ids|
  {
    if ids != [] {
      var front := ids[..|ids| - 1];
      var id := ids[|ids| - 1];
      assert ids == front + [id];
      BookAllCovers(seats, front, userId);
      BookAllSeats(seats, front, userId);
      var prev := BookAll(seats, front, userId);
      FindIndexByIds(prev.seats, seats, id);
      forall k | FlippedBy(seats, ids, userId, k) ensures Occupy(seats[k]) in BookAll(seats, ids, userId).updated {
        if !FlippedBy(seats, front, userId, k) {
          assert seats[k].id == id;
          assert prev.seats[k] == seats[k];
        }
      }
    }
  }

  /** No seat is reported twice. */
  lemma {:induction false} BookAllUpdatesDistinct(seats: seq<Seat>, ids: seq<string>, userId: string)
    ensures Distinct(SeatIds(BookAll(seats, ids, userId).updated))
    decreases |ids|
  {
    if ids != [] {
      var front := ids[..|ids| - 1];
      var id := ids[|ids| - 1];
      assert ids == front + [id];
      BookAllUpdatesDistinct(seats, front, userId);
      BookAllOrigin(seats, front, userId);
      BookAllSeats(seats, front, userId);
      var prev := BookAll(seats, front, userId);
      FindIndexByIds(prev.seats, seats, id);
      var found := FindIndex(seats, id);
      if found.Some? && HeldBy(prev.seats[found.value], userId) {
        var k0 := found.value;
        var b := BookAll(seats, ids, userId);
        assert b.updated == prev.updated + [Occupy(prev.seats[k0])];
        forall j | 0 <= j < |prev.updated| ensures prev.updated[j].id != id {
          assert Origin(seats, front, userId, prev.updated[j]);
        }
        forall i, j | 0 <= i < j < |b.updated| ensures SeatIds(b.updated)[i] != SeatIds(b.updated)[j] {
          if j < |prev.updated| {
            assert SeatIds(prev.updated)[i] != SeatIds(prev.updated)[j];
          }
        }
      }
    }
  }

  /** Booking a list in two parts is booking it at once, and the first part's updates are reported
      first: the report follows the order of the requested ids. */
  lemma {:induction false} BookAllSplits(seats: seq<Seat>, a: seq<string>, b: seq<string>, userId: string)
    ensures var first := BookAll(seats, a, userId);
      var second := BookAll(first.seats, b, userId);
      BookAll(seats, a + b, userId) == Booking(second.seats, first.updated + second.updated)
    decreases |b|
  {
    if b == [] {
      assert a + b == a;
    } else {
      var front, x := b[..|b| - 1], b[|b| - 1];
      BookAllSplits(seats, a, front, userId);
      assert (a + b)[..|a + b| - 1] == a + front && (a + b)[|a + b| - 1] == x;
      var first := BookAll(seats, a, userId);
      var part := BookAll(first.seats, front, userId);
      BookOneAfter(part, first.updated, x, userId);
    }
  }

  /** 'seats:book': the booking pass; the seats it updated are broadcast together, and only if
      there is at least one. Reservations are left as they are. */
  function Book(st: ServerState, seatIds: seq<string>, userId: string, userName: string): (r: Outcome)
    ensures r.state.reservations == st.reservations
    ensures |r.state.seats| == |st.seats|
    ensures forall k :: 0 <= k < |st.seats| ==>
      r.state.seats[k] == if FlippedBy(st.seats, seatIds, userId, k) then Occupy(st.seats[k]) else st.seats[k]
    ensures r.emitted == [] <==> forall k :: 0 <= k < |st.seats| ==> !FlippedBy(st.seats, seatIds, userId, k)
  {
    BookAllSeats(st.seats, seatIds, userId);
    BookAllOrigin(st.seats, seatIds, userId);
    BookAllCovers(st.seats, seatIds, userId);
    var b := BookAll(st.seats, seatIds, userId);
    if |b.updated| > 0 then
      assert Origin(st.seats, seatIds, userId, b.updated[0]);
      Outcome(st.(seats := b.seats), [Emission(Everyone, SeatsBooked(b.updated, userId, userName))])
    else
      Outcome(st.(seats := b.seats), [])
  }

  /** The broadcast of a booking names the requester and lists each seat that became occupied
      exactly once, in its new state. */
  lemma BookBroadcast(st: ServerState, seatIds: seq<string>, userId: string, userName: string)
    ensures var r := Book(st, seatIds, userId, userName);
      r.emitted != [] ==>
        && |r.emitted| == 1 && r.emitted[0].to == Everyone
        && r.emitted[0].event.SeatsBooked?
        && r.emitted[0].event.userId == userId && r.emitted[0].event.userName == userName
        && Distinct(SeatIds(r.emitted[0].event.seats))
        && (forall k :: FlippedBy(st.seats, seatIds, userId, k) ==> r.state.seats[k] in r.emitted[0].event.seats)
        && (forall seat :: seat in r.emitted[0].event.seats ==> seat in r.state.seats && seat.status == Occupied)
        && (forall seat :: seat in r.emitted[0].event.seats ==> Origin(st.seats, seatIds, userId, seat))
  {
    BookAllSeats(st.seats, seatIds, userId);
    BookAllOrigin(st.seats, seatIds, userId);
    BookAllCovers(st.seats, seatIds, userId);
    BookAllUpdatesDistinct(st.seats, seatIds, userId);
    var r := Book(st, seatIds, userId, userName);
    var b := BookAll(st.seats, seatIds, userId);
    if r.emitted != [] {
      assert r.emitted[0].event.seats == b.updated;
      forall seat | seat in b.updated ensures seat in r.state.seats && seat.status == Occupied {
        assert Origin(st.seats, seatIds, userId, seat);
        var k := FindIndex(st.seats, seat.id).value;
        assert r.state.seats[k] == seat;
      }
    }
  }

  /** Booking the same ids twice: the second pass finds nothing left to book. */
  lemma BookTwice(st: ServerState, seatIds: seq<string>, userId: string, userName: string)
    ensures var once := Book(st, seatIds, userId, userName);
      Book(once.state, seatIds, userId, userName) == Outcome(once.state, [])
  {
    var once := Book(st, seatIds, userId, userName);
    var twice := Book(once.state, seatIds, userId, userName);
    assert SeatIds(once.state.seats) == SeatIds(st.seats) by {
      forall k | 0 <= k < |st.seats| ensures SeatIds(once.state.seats)[k] == SeatIds(st.seats)[k] {
      }
    }
    forall k | 0 <= k < |once.state.seats| ensures !FlippedBy(once.state.seats, seatIds, userId, k) {
      FindIndexByIds(once.state.seats, st.seats, once.state.seats[k].id);
      assert FlippedBy(once.state.seats, seatIds, userId, k) ==> FlippedBy(st.seats, seatIds, userId, k);
    }
    assert twice.state.seats == once.state.seats;
  }

  /** Of two selections of the same seat, whoever comes second is refused and changes nothing. */
  lemma SecondSelectRefused(st: ServerState, seatId: string, a: string, b: string, userA: string, nameA: string,
                            userB: string, nameB: string, t1: int, t2: int, t3: int, t4: int)
    requires Select(st, a, seatId, userA, nameA, t1, t2).emitted[0].to == Everyone
    ensures var first := Select(st, a, seatId, userA, nameA, t1, t2).state;
      Select(first, b, seatId, userB, nameB, t3, t4) == Outcome(first, [Emission(ToClient(b), SeatError(NOT_AVAILABLE))])
  {
    var first := Select(st, a, seatId, userA, nameA, t1, t2).state;
    var k := FindIndex(st.seats, seatId).value;
    FindIndexByIds(first.seats, st.seats, seatId);
  }

  /** One 'seat:select' request: who sent it, for whom, and the two clock readings it meets. */
  datatype Requester = Requester(socketId: string, userId: string, userName: string, selectedAt: int, reservedAt: int)

  /** The same seat requested by several clients, handled one after the other. */
  function SelectEach(st: ServerState, seatId: string, reqs: seq<Requester>): Outcome
    decreases |reqs|
  {
    if reqs == [] then Outcome(st, [])
    else
      var q := reqs[0];
      var first := Select(st, q.socketId, seatId, q.userId, q.userName, q.selectedAt, q.reservedAt);
      var rest := SelectEach(first.state, seatId, reqs[1..]);
      Outcome(rest.state, first.emitted + rest.emitted)
  }

  /** Requests for a seat that is not available are all refused, each to its own sender. */
  lemma {:induction false} AllRefused(st: ServerState, seatId: string, reqs: seq<Requester>)
    requires FindIndex(st.seats, seatId).Some? && st.seats[FindIndex(st.seats, seatId).value].status != Available
    ensures SelectEach(st, seatId, reqs).state == st
    ensures |SelectEach(st, seatId, reqs).emitted| == |reqs|
    ensures forall i :: 0 <= i < |reqs| ==>
      SelectEach(st, seatId, reqs).emitted[i] == Emission(ToClient(reqs[i].socketId), SeatError(NOT_AVAILABLE))
    decreases |reqs|
  {
    if reqs != [] {
      AllRefused(st, seatId, reqs[1..]);
    }
  }

  /** Of any number of selections of an available seat, exactly the first wins: it is broadcast,
      and every later requester alone is told the seat is not available. */
  lemma OnlyFirstSelectWins(st: ServerState, seatId: string, reqs: seq<Requester>)
    requires FindIndex(st.seats, seatId).Some? && st.seats[FindIndex(st.seats, seatId).value].status == Available
    requires |reqs| >= 1
    ensures var r := SelectEach(st, seatId, reqs);
      && |r.emitted| == |reqs|
      && r.emitted[0].to == Everyone
      && forall i :: 1 <= i < |reqs| ==> r.emitted[i] == Emission(ToClient(reqs[i].socketId), SeatError(NOT_AVAILABLE))
  {
    var q := reqs[0];
    var first := Select(st, q.socketId, seatId, q.userId, q.userName, q.selectedAt, q.reservedAt);
    var k := FindIndex(st.seats, seatId).value;
    assert SeatIds(first.state.seats) == SeatIds(st.seats) by {
      forall j | 0 <= j < |st.seats| ensures SeatIds(first.state.seats)[j] == SeatIds(st.seats)[j] {
      }
    }
    FindIndexByIds(first.state.seats, st.seats, seatId);
    AllRefused(first.state, seatId, reqs[1..]);
  }

  /** Releasing a seat one just selected restores it to available with no holder and removes the
      reservation; the rest of the grid is untouched. */
  lemma SelectThenDeselect(st: ServerState, socketId: string, seatId: string, userId: string, userName: string,
                           t1: int, t2: int)
    requires Select(st, socketId, seatId, userId, userName, t1, t2).emitted[0].to == Everyone
    ensures var first := Select(st, socketId, seatId, userId, userName, t1, t2).state;
      var second := Deselect(first, socketId, seatId, userId).state;
      && second.reservations == st.reservations - {seatId}
      && |second.seats| == |st.seats|
      && var k := FindIndex(st.seats, seatId).value;
        second.seats[k] == st.seats[k].(userId := None, userName := None, selectedAt := None)
        && (forall j :: 0 <= j < |st.seats| && j != k ==> second.seats[j] == st.seats[j])
  {
    var first := Select(st, socketId, seatId, userId, userName, t1, t2).state;
    FindIndexByIds(first.seats, st.seats, seatId);
  }

  /** Only the holder can release a selected seat; anyone else is refused and changes nothing. */
  lemma DeselectByOtherRefused(st: ServerState, socketId: string, seatId: string, userId: string)
    requires FindIndex(st.seats, seatId).Some?
    requires st.seats[FindIndex(st.seats, seatId).value].userId != Some(userId)
    ensures Deselect(st, socketId, seatId, userId) == Outcome(st, [Emission(ToClient(socketId), SeatError(CANNOT_DESELECT))])
  {
  }

  /** A release repeated by the same user is refused and changes nothing. */
  lemma SecondDeselectRefused(st: ServerState, a: string, b: string, seatId: string, userId: string)
    requires Deselect(st, a, seatId, userId).emitted[0].to == Everyone
    ensures var first := Deselect(st, a, seatId, userId).state;
      Deselect(first, b, seatId, userId) == Outcome(first, [Emission(ToClient(b), SeatError(CANNOT_DESELECT))])
  {
    var first := Deselect(st, a, seatId, userId).state;
    FindIndexByIds(first.seats, st.seats, seatId);
  }

  lemma SelectKeepsConsistent(st: ServerState, socketId: string, seatId: string, userId: string, userName: string,
                              t1: int, t2: int)
    requires Consistent(st)
    ensures Consistent(Select(st, socketId, seatId, userId, userName, t1, t2).state)
  {
    var r := Select(st, socketId, seatId, userId, userName, t1, t2);
    var found := FindIndex(st.seats, seatId);
    if found.Some? && st.seats[found.value].status == Available {
      GridIdsDistinct(st);
      forall j | 0 <= j < |st.seats| && j != found.value ensures st.seats[j].id != seatId {
      }
    }
  }

  lemma DeselectKeepsConsistent(st: ServerState, socketId: string, seatId: string, userId: string)
    requires Consistent(st)
    ensures Consistent(Deselect(st, socketId, seatId, userId).state)
  {
    var found := FindIndex(st.seats, seatId);
    if found.Some? && HeldBy(st.seats[found.value], userId) {
      GridIdsDistinct(st);
      forall j | 0 <= j < |st.seats| && j != found.value ensures st.seats[j].id != seatId {
      }
    }
  }

  lemma BookKeepsConsistent(st: ServerState, seatIds: seq<string>, userId: string, userName: string)
    requires Consistent(st)
    ensures Consistent(Book(st, seatIds, userId, userName).state)
  {
  }

  /** The server's live state: the seat array and the reservation table, plus everything it has
      emitted so far. */
  class SeatAuthority {
    const seats: array<Seat>
    var reservations: map<string, Reservation>
    var outbox: seq<Emission>

    function State(): ServerState
      reads this, seats
    {
      ServerState(seats[..], reservations)
    }

    ghost predicate Valid()
      reads this, seats
    {
      seats.Length == GRID_SIZE && Consistent(State())
    }

    /** The seat map as the server sends it: the theatre's fixed header over the live seats (the
        same object the handlers update, not a start-up copy). On a valid state every seat lies
        inside the announced rows and places, and their count is the grid's. */
    function Snapshot(): (snap: SeatMap)
      reads this, seats
      ensures snap.id == THEATER_ID && snap.seats == seats[..]
      ensures Valid() ==>
        && |snap.seats| == snap.rows * snap.seatsPerRow
        && forall k :: 0 <= k < |snap.seats| ==>
             1 <= snap.seats[k].row <= snap.rows && 1 <= snap.seats[k].number <= snap.seatsPerRow
    {
      SeatMap(THEATER_ID, THEATER_NAME, GRID_ROWS, SEATS_PER_ROW, seats[..])
    }

    /** Start-up: the grid from the draws, an empty reservation table. */
    constructor(draws: seq<Draw>)
      requires |draws| == GRID_SIZE
      ensures Valid() && fresh(seats)
      ensures State() == ServerState(InitialSeats(draws), map[]) && outbox == []
    {
      seats := new Seat[GRID_SIZE](k requires 0 <= k < GRID_SIZE => InitialSeat(k, draws[k]));
      reservations := map[];
      outbox := [];
      new;
      assert seats[..] == InitialSeats(draws);
      InitialConsistent(draws);
    }

    /** `mockSeatMap.seats.find(s => s.id === seatId)`, as an index. */
    method Find(seatId: string) returns (found: Option<nat>)
      ensures found == FindIndex(seats[..], seatId)
    {
      var i := 0;
      while i < seats.Length
        invariant 0 <= i <= seats.Length
        invariant forall j :: 0 <= j < i ==> seats[j].id != seatId
      {
        if seats[i].id == seatId {
          assert seats[..][i].id == seatId;
          return Some(i);
        }
        i := i + 1;
      }
      return None;
    }

    /** A new connection receives the seat map. */
    method OnConnection(socketId: string)
      modifies this`outbox
      ensures outbox == old(outbox) + [Emission(ToClient(socketId), SeatMapData(Snapshot()))]
    {
      outbox := outbox + [Emission(ToClient(socketId), SeatMapData(Snapshot()))];
    }

    /** 'request-json-data': the requester receives the seat map again. */
    method OnRequestJsonData(socketId: string)
      modifies this`outbox
      ensures outbox == old(outbox) + [Emission(ToClient(socketId), SeatMapData(Snapshot()))]
    {
      outbox := outbox + [Emission(ToClient(socketId), SeatMapData(Snapshot()))];
    }

    /** 'ping': the requester receives 'pong'. */
    method OnPing(socketId: string)
      modifies this`outbox
      ensures outbox == old(outbox) + [Emission(ToClient(socketId), Pong)]
    {
      outbox := outbox + [Emission(ToClient(socketId), Pong)];
    }

    /** 'seat:select'. */
    method OnSeatSelect(socketId: string, seatId: string, userId: string, userName: string,
                        selectedAt: int, reservedAt: int)
      requires Valid()
      modifies seats, this`reservations, this`outbox
      ensures Valid()
      ensures var r := Select(old(State()), socketId, seatId, userId, userName, selectedAt, reservedAt);
        State() == r.state && outbox == old(outbox) + r.emitted
    {
      SelectKeepsConsistent(State(), socketId, seatId, userId, userName, selectedAt, reservedAt);
      var found := Find(seatId);
      if found.Some? && seats[found.value].status == Available {
        var k := found.value;
        var seat := seats[k].(status := Selected, userId := Some(userId), userName := Some(userName),
                              selectedAt := Some(selectedAt));
        seats[k] := seat;
        reservations := reservations[seatId := Reservation(userId, userName, reservedAt)];
        outbox := outbox + [Emission(Everyone, SeatUpdated(seat))];
      } else {
        outbox := outbox + [Emission(ToClient(socketId), SeatError(NOT_AVAILABLE))];
      }
    }

    /** 'seat:deselect'. */
    method OnSeatDeselect(socketId: string, seatId: string, userId: string)
      requires Valid()
      modifies seats, this`reservations, this`outbox
      ensures Valid()
      ensures var r := Deselect(old(State()), socketId, seatId, userId);
        State() == r.state && outbox == old(outbox) + r.emitted
    {
      DeselectKeepsConsistent(State(), socketId, seatId, userId);
      var found := Find(seatId);
      if found.Some? && HeldBy(seats[found.value], userId) {
        var k := found.value;
        var seat := seats[k].(status := Available, userId := None, userName := None, selectedAt := None);
        seats[k] := seat;
        reservations := reservations - {seatId};
        outbox := outbox + [Emission(Everyone, SeatUpdated(seat))];
      } else {
        outbox := outbox + [Emission(ToClient(socketId), SeatError(CANNOT_DESELECT))];
      }
    }

    /** The booking pass of 'seats:book', in place: each requested id in turn, the first seat with
        it is occupied if the requester holds it, and the updated seats are collected in order. */
    method BookPass(seatIds: seq<string>, userId: string) returns (updated: seq<Seat>)
      modifies seats
      ensures Booking(seats[..], updated) == BookAll(old(seats[..]), seatIds, userId)
    {
      ghost var before := seats[..];
      updated := [];
      var i := 0;
      while i < |seatIds|
        invariant 0 <= i <= |seatIds|
        invariant Booking(seats[..], updated) == BookAll(before, seatIds[..i], userId)
      {
        BookAllStep(before, seatIds, i, userId);
        ghost var prev := Booking(seats[..], updated);
        var found := Find(seatIds[i]);
        if found.Some? && HeldBy(seats[found.value], userId) {
          var seat := Occupy(seats[found.value]);
          seats[found.value] := seat;
          updated := updated + [seat];
          assert seats[..] == prev.seats[found.value := seat];
        }
        assert Booking(seats[..], updated) == BookOne(prev, seatIds[i], userId);
        i := i + 1;
      }
      assert seatIds[..i] == seatIds;
    }

    /** 'seats:book': the booking pass, then at most one broadcast. */
    method OnSeatsBook(seatIds: seq<string>, userId: string, userName: string)
      requires Valid()
      modifies seats, this`outbox
      ensures Valid()
      ensures var r := Book(old(State()), seatIds, userId, userName);
        State() == r.state && outbox == old(outbox) + r.emitted
    {
      BookKeepsConsistent(State(), seatIds, userId, userName);
      var updated := BookPass(seatIds, userId);
      if |updated| > 0 {
        outbox := outbox + [Emission(Everyone, SeatsBooked(updated, userId, userName))];
      }
    }
  }
}
