/**
  The client's connection manager: the socket hook's reconnect policy (exponential backoff with an
  attempt ceiling), its heartbeat, its manual connect/disconnect controls, its guarded emitters,
  and its handlers for the server's events, which dispatch into the store.

  The socket and the timers are abstracted: `transport` is the Socket.IO connection state, the
  library's callbacks ('connect', 'disconnect', 'connect_error') and the firing of a timer are
  methods the environment calls, and a timer is a numbered handle that stays pending until it
  fires or is cleared. Emitting to the server appends to `sent`.
*/
module UseSocket {
  import opened Optional
  import opened SeatTypes
  import opened SeatMapSlice
  import UseSeatSelection

  const MAX_ATTEMPTS: nat := 10
  const BASE_DELAY: real := 1000.0
  const MAX_DELAY: real := 30000.0
  const BACKOFF_MULTIPLIER: real := 1.5
  /** The reason Socket.IO gives when the client itself closed the socket. */
  const CLIENT_DISCONNECT_REASON: string := "io client disconnect"
  const GIVE_UP_MESSAGE: string := "Không thể kết nối đến server sau nhiều lần thử"
  const CONNECT_ERROR_MESSAGE: string := "Lỗi kết nối đến server"

  function Power(base: real, n: nat): real
  {
    if n == 0 then 1.0 else base * Power(base, n - 1)
  }

  lemma {:induction false} PowerAtLeastOne(n: nat)
    ensures 1.0 <= Power(BACKOFF_MULTIPLIER, n)
  {
    if n > 0 {
      PowerAtLeastOne(n - 1);
    }
  }

  lemma {:induction false} PowerMonotone(m: nat, n: nat)
    requires m <= n
    ensures Power(BACKOFF_MULTIPLIER, m) <= Power(BACKOFF_MULTIPLIER, n)
    decreases n
  {
    if m < n {
      PowerMonotone(m, n - 1);
      PowerAtLeastOne(n - 1);
    }
  }

  /** `calculateReconnectDelay`: `min(baseDelay * backoffMultiplier^attempt, maxDelay)`, in exact
      arithmetic. */
  function ReconnectDelay(attempt: nat): (delay: real)
    ensures BASE_DELAY <= delay <= MAX_DELAY
  {
    PowerAtLeastOne(attempt);
    var raw := BASE_DELAY * Power(BACKOFF_MULTIPLIER, attempt);
    if raw <= MAX_DELAY then raw else MAX_DELAY
  }

  /** The delay never shrinks as attempts accumulate. */
  lemma DelayMonotone(m: nat, n: nat)
    requires m <= n
    ensures ReconnectDelay(m) <= ReconnectDelay(n)
  {
    PowerMonotone(m, n);
  }

  /** The first delays of the schedule. */
  lemma DelaySchedule()
    ensures ReconnectDelay(0) == 1000.0
    ensures ReconnectDelay(1) == 1500.0
    ensures ReconnectDelay(2) == 2250.0
    ensures ReconnectDelay(3) == 3375.0
  {
  }

  /** The cap takes over from the tenth attempt on (attempt index 9): 1000 * 1.5^8 is still below
      30000, 1000 * 1.5^9 is above. */
  lemma DelayCapped(attempt: nat)
    ensures ReconnectDelay(attempt) == MAX_DELAY <==> attempt >= 9
  {
    assert Power(BACKOFF_MULTIPLIER, 8) == 25.62890625;
    assert Power(BACKOFF_MULTIPLIER, 9) == 38.443359375;
    if attempt >= 9 {
      PowerMonotone(9, attempt);
    } else {
      PowerMonotone(attempt, 8);
    }
  }

  /** The state of the Socket.IO connection underneath the hook. */
  datatype Transport = Closed | Opening | Open

  class ConnectionManager {
    /** The Redux store the hook dispatches into. */
    const store: SeatMapStore
    /** `socketRef.current !== null`. */
    var hasSocket: bool
    var transport: Transport
    /** The hook's own `isConnected` state. */
    var isConnected: bool
    var reconnectAttempts: nat
    /** `isManualDisconnectRef.current`. */
    var manualDisconnect: bool
    /** Pending reconnect timeouts: handle to delay. */
    var reconnectTimers: map<nat, real>
    /** `reconnectTimeoutRef.current`: the handle last scheduled (never reset to null). */
    var reconnectRef: Option<nat>
    /** Running heartbeat intervals. */
    var heartbeats: set<nat>
    /** `heartbeatIntervalRef.current`. */
    var heartbeatRef: Option<nat>
    /** The next timer handle the runtime will hand out. */
    var nextHandle: nat
    /** Messages emitted to the server. */
    var sent: seq<ClientMessage>

    /** The attempt counter never exceeds the ceiling, at most one heartbeat runs and only the one
        the ref holds, a heartbeat runs only over an open connection, and handles are unique. */
    ghost predicate Valid()
      reads this
    {
      && reconnectAttempts <= MAX_ATTEMPTS
      && (forall h :: h in reconnectTimers ==> h < nextHandle)
      && (reconnectRef.Some? ==> reconnectRef.value < nextHandle)
      && heartbeats == (if heartbeatRef.Some? then {heartbeatRef.value} else {})
      && (heartbeatRef.Some? ==> heartbeatRef.value < nextHandle && transport == Open)
      && (!hasSocket ==> transport == Closed)
      && (isConnected ==> transport == Open)
    }

    /** Mounting the hook: create the socket, dispatch 'connecting', start connecting. */
    constructor(store: SeatMapStore)
      modifies store
      ensures Valid() && this.store == store
      ensures store.State() == old(store.State()).(connectionStatus := Connecting)
      ensures hasSocket && transport == Opening && !isConnected && !manualDisconnect
      ensures reconnectAttempts == 0 && reconnectTimers == map[] && reconnectRef == None
      ensures heartbeats == {} && heartbeatRef == None && sent == []
    {
      this.store := store;
      hasSocket := true;
      transport := Closed;
      isConnected := false;
      reconnectAttempts := 0;
      manualDisconnect := false;
      reconnectTimers := map[];
      reconnectRef := None;
      heartbeats := {};
      heartbeatRef := None;
      nextHandle := 0;
      sent := [];
      new;
      store.SetConnectionStatus(Connecting);
      transport := Opening;
    }

    /** `socket.connect()`: a no-op while connected, otherwise (re)starts opening. */
    method ConnectSocket()
      requires Valid() && hasSocket
      modifies this`transport
      ensures Valid()
      ensures transport == if old(transport) == Open then Open else Opening
    {
      if transport != Open {
        transport := Opening;
      }
    }

    /** `startHeartbeat`: clear the running interval, if any, then start a fresh one. */
    method StartHeartbeat()
      requires Valid() && transport == Open
      modifies this`heartbeats, this`heartbeatRef, this`nextHandle
      ensures Valid()
      ensures heartbeatRef == Some(old(nextHandle)) && heartbeats == {old(nextHandle)}
      ensures nextHandle == old(nextHandle) + 1
    {
      if heartbeatRef.Some? {
        heartbeats := heartbeats - {heartbeatRef.value};
      }
      heartbeatRef := Some(nextHandle);
      heartbeats := heartbeats + {nextHandle};
      nextHandle := nextHandle + 1;
    }

    /** `stopHeartbeat`. */
    method StopHeartbeat()
      requires Valid()
      modifies this`heartbeats, this`heartbeatRef
      ensures Valid()
      ensures heartbeatRef == None && heartbeats == {}
    {
      if heartbeatRef.Some? {
        heartbeats := heartbeats - {heartbeatRef.value};
        heartbeatRef := None;
      }
    }

    /** `attemptReconnect`: nothing while manually disconnected; give up at the ceiling; otherwise
        dispatch 'reconnecting', count the attempt and schedule one reconnect after the backoff
        delay for the attempts made so far. */
    method AttemptReconnect()
      requires Valid()
      modifies this`reconnectAttempts, this`reconnectTimers, this`reconnectRef, this`nextHandle, store
      ensures Valid()
      ensures old(manualDisconnect) ==>
        store.State() == old(store.State()) && reconnectAttempts == old(reconnectAttempts)
        && reconnectTimers == old(reconnectTimers) && reconnectRef == old(reconnectRef)
        && nextHandle == old(nextHandle)
      ensures !old(manualDisconnect) && old(reconnectAttempts) >= MAX_ATTEMPTS ==>
        store.State() == old(store.State()).(connectionStatus := Error, error := Some(GIVE_UP_MESSAGE))
        && reconnectAttempts == old(reconnectAttempts)
        && reconnectTimers == old(reconnectTimers) && reconnectRef == old(reconnectRef)
        && nextHandle == old(nextHandle)
      ensures !old(manualDisconnect) && old(reconnectAttempts) < MAX_ATTEMPTS ==>
        store.State() == old(store.State()).(connectionStatus := Reconnecting)
        && reconnectAttempts == old(reconnectAttempts) + 1
        && reconnectTimers == old(reconnectTimers)[old(nextHandle) := ReconnectDelay(old(reconnectAttempts))]
        && reconnectRef == Some(old(nextHandle))
        && nextHandle == old(nextHandle) + 1
    {
      if manualDisconnect {
        return;
      }
      if reconnectAttempts >= MAX_ATTEMPTS {
        store.SetConnectionStatus(Error);
        store.SetError(Some(GIVE_UP_MESSAGE));
        return;
      }
      var delay := ReconnectDelay(reconnectAttempts);
      store.SetConnectionStatus(Reconnecting);
      reconnectAttempts := reconnectAttempts + 1;
      reconnectTimers := reconnectTimers[nextHandle := delay];
      reconnectRef := Some(nextHandle);
      nextHandle := nextHandle + 1;
    }

    /** Socket.IO's 'connect' event. */
    method OnConnect()
      requires Valid() && transport == Opening
      modifies this, store
      ensures Valid()
      ensures transport == Open && isConnected && reconnectAttempts == 0
      ensures store.State() == old(store.State()).(connectionStatus := Connected, error := None)
      ensures heartbeatRef == Some(old(nextHandle)) && heartbeats == {old(nextHandle)}
      ensures manualDisconnect == old(manualDisconnect) && hasSocket == old(hasSocket)
      ensures reconnectTimers == old(reconnectTimers) && reconnectRef == old(reconnectRef)
      ensures sent == old(sent)
    {
      transport := Open;
      store.SetConnectionStatus(Connected);
      isConnected := true;
      store.SetError(None);
      reconnectAttempts := 0;
      StartHeartbeat();
    }

    /** Socket.IO's 'disconnect' event: reconnect unless the disconnect was asked for. */
    method OnDisconnect(reason: string)
      requires Valid() && transport == Open
      modifies this, store
      ensures Valid()
      ensures transport == Closed && !isConnected && heartbeatRef == None && heartbeats == {}
      ensures manualDisconnect == old(manualDisconnect) && hasSocket == old(hasSocket)
      ensures sent == old(sent)
      ensures old(manualDisconnect) || reason == CLIENT_DISCONNECT_REASON ==>
        store.State() == old(store.State()).(connectionStatus := Disconnected)
        && reconnectAttempts == old(reconnectAttempts)
        && reconnectTimers == old(reconnectTimers) && reconnectRef == old(reconnectRef)
      ensures !old(manualDisconnect) && reason != CLIENT_DISCONNECT_REASON ==>
        if old(reconnectAttempts) >= MAX_ATTEMPTS then
          store.State() == old(store.State()).(connectionStatus := Error, error := Some(GIVE_UP_MESSAGE))
          && reconnectAttempts == old(reconnectAttempts) && reconnectTimers == old(reconnectTimers)
          && reconnectRef == old(reconnectRef)
        else
          store.State() == old(store.State()).(connectionStatus := Reconnecting)
          && reconnectAttempts == old(reconnectAttempts) + 1
          && reconnectTimers == old(reconnectTimers)[old(nextHandle) := ReconnectDelay(old(reconnectAttempts))]
          && reconnectRef == Some(old(nextHandle))
    {
      StopHeartbeat();
      transport := Closed;
      store.SetConnectionStatus(Disconnected);
      isConnected := false;
      if !manualDisconnect && reason != CLIENT_DISCONNECT_REASON {
        AttemptReconnect();
      }
    }

    /** Socket.IO's 'connect_error' event: report it and reconnect unless disconnected on purpose. */
    method OnConnectError()
      requires Valid() && transport == Opening
      modifies this, store
      ensures Valid()
      ensures transport == Closed && !isConnected && heartbeatRef == None && heartbeats == {}
      ensures manualDisconnect == old(manualDisconnect) && hasSocket == old(hasSocket)
      ensures sent == old(sent)
      ensures old(manualDisconnect) ==>
        store.State() == old(store.State()).(connectionStatus := Error, error := Some(CONNECT_ERROR_MESSAGE))
        && reconnectAttempts == old(reconnectAttempts)
        && reconnectTimers == old(reconnectTimers) && reconnectRef == old(reconnectRef)
      ensures !old(manualDisconnect) ==>
        if old(reconnectAttempts) >= MAX_ATTEMPTS then
          store.State() == old(store.State()).(connectionStatus := Error, error := Some(GIVE_UP_MESSAGE))
          && reconnectAttempts == old(reconnectAttempts) && reconnectTimers == old(reconnectTimers)
          && reconnectRef == old(reconnectRef)
        else
          store.State() == old(store.State()).(connectionStatus := Reconnecting, error := Some(CONNECT_ERROR_MESSAGE))
          && reconnectAttempts == old(reconnectAttempts) + 1
          && reconnectTimers == old(reconnectTimers)[old(nextHandle) := ReconnectDelay(old(reconnectAttempts))]
          && reconnectRef == Some(old(nextHandle))
    {
      transport := Closed;
      store.SetConnectionStatus(Error);
      store.SetError(Some(CONNECT_ERROR_MESSAGE));
      isConnected := false;
      StopHeartbeat();
      if !manualDisconnect {
        AttemptReconnect();
      }
    }

    /** A pending reconnect timeout fires: connect if there is a socket and it is not connected.
        The callback does not look at the manual-disconnect flag. */
    method OnReconnectTimer(handle: nat)
      requires Valid() && handle in reconnectTimers
      modifies this`reconnectTimers, this`transport
      ensures Valid()
      ensures reconnectTimers == old(reconnectTimers) - {handle}
      ensures transport == if old(hasSocket) && old(transport) != Open then Opening else old(transport)
      ensures manualDisconnect == old(manualDisconnect) && reconnectAttempts == old(reconnectAttempts)
      ensures hasSocket == old(hasSocket) && sent == old(sent) && heartbeats == old(heartbeats)
    {
      reconnectTimers := reconnectTimers - {handle};
      if hasSocket && transport != Open {
        ConnectSocket();
      }
    }

    /** A pending reconnect timeout fires, as evidently intended: the callback also re-checks the
        manual-disconnect flag, so a timeout scheduled before a manual disconnect cannot reopen. */
    method OnReconnectTimerGuarded(handle: nat)
      requires Valid() && handle in reconnectTimers
      modifies this`reconnectTimers, this`transport
      ensures Valid()
      ensures reconnectTimers == old(reconnectTimers) - {handle}
      ensures old(manualDisconnect) ==> transport == old(transport)
      ensures transport ==
        if old(hasSocket) && !old(manualDisconnect) && old(transport) != Open then Opening else old(transport)
      ensures manualDisconnect == old(manualDisconnect) && reconnectAttempts == old(reconnectAttempts)
      ensures hasSocket == old(hasSocket) && sent == old(sent) && heartbeats == old(heartbeats)
    {
      reconnectTimers := reconnectTimers - {handle};
      if hasSocket && !manualDisconnect && transport != Open {
        ConnectSocket();
      }
    }

    /** The heartbeat interval fires: ping while connected. */
    method OnHeartbeat(handle: nat)
      requires Valid() && handle in heartbeats
      modifies this`sent
      ensures Valid()
      ensures sent == old(sent) + (if hasSocket && transport == Open then [Ping] else [])
    {
      if hasSocket && transport == Open {
        sent := sent + [Ping];
      }
    }

    /** `manualReconnect`: clear the flag and the counter, dispatch 'connecting' and connect.
        A reconnect timeout that is still pending is left pending. */
    method ManualReconnect()
      requires Valid()
      modifies this`manualDisconnect, this`reconnectAttempts, this`transport, store
      ensures Valid()
      ensures !old(hasSocket) ==>
        store.State() == old(store.State()) && transport == old(transport)
        && manualDisconnect == old(manualDisconnect) && reconnectAttempts == old(reconnectAttempts)
      ensures old(hasSocket) ==>
        !manualDisconnect && reconnectAttempts == 0
        && store.State() == old(store.State()).(connectionStatus := Connecting)
        && transport == (if old(transport) == Open then Open else Opening)
      ensures reconnectTimers == old(reconnectTimers) && reconnectRef == old(reconnectRef)
      ensures heartbeats == old(heartbeats) && hasSocket == old(hasSocket) && sent == old(sent)
    {
      if hasSocket {
        manualDisconnect := false;
        reconnectAttempts := 0;
        store.SetConnectionStatus(Connecting);
        ConnectSocket();
      }
    }

    /** `socket.disconnect()`: closing an open socket makes Socket.IO fire 'disconnect' with the
        client-disconnect reason at once. */
    method CloseSocket()
      requires Valid() && hasSocket && manualDisconnect && heartbeatRef == None
      modifies this, store
      ensures Valid()
      ensures transport == Closed && heartbeatRef == None && heartbeats == {}
      ensures old(transport) == Open ==> !isConnected
      ensures old(transport) != Open ==> isConnected == old(isConnected)
      ensures store.State() == if old(transport) == Open
        then old(store.State()).(connectionStatus := Disconnected) else old(store.State())
      ensures manualDisconnect && hasSocket
      ensures reconnectAttempts == old(reconnectAttempts)
      ensures reconnectTimers == old(reconnectTimers) && reconnectRef == old(reconnectRef)
      ensures sent == old(sent)
    {
      if transport == Open {
        OnDisconnect(CLIENT_DISCONNECT_REASON);
      }
      transport := Closed;
    }

    /** `disconnect`: set the flag, stop the heartbeat, clear the reconnect timeout the ref holds,
        close the socket and dispatch 'disconnected'. */
    method Disconnect()
      requires Valid()
      modifies this, store
      ensures Valid()
      ensures !old(hasSocket) ==>
        store.State() == old(store.State()) && transport == old(transport) && isConnected == old(isConnected)
        && manualDisconnect == old(manualDisconnect) && reconnectTimers == old(reconnectTimers)
      ensures old(hasSocket) ==>
        manualDisconnect && transport == Closed && !isConnected
        && heartbeatRef == None && heartbeats == {}
        && store.State() == old(store.State()).(connectionStatus := Disconnected)
        && reconnectTimers == (if old(reconnectRef).Some? then old(reconnectTimers) - {old(reconnectRef).value}
                               else old(reconnectTimers))
      ensures reconnectAttempts == old(reconnectAttempts) && reconnectRef == old(reconnectRef)
      ensures hasSocket == old(hasSocket) && sent == old(sent)
    {
      if hasSocket {
        manualDisconnect := true;
        StopHeartbeat();
        if reconnectRef.Some? {
          reconnectTimers := reconnectTimers - {reconnectRef.value};
        }
        CloseSocket();
        store.SetConnectionStatus(Disconnected);
        isConnected := false;
      }
    }

    /** Unmounting the hook: set the flag, stop the heartbeat, clear the reconnect timeout the ref
        holds, close the socket and drop it. */
    method Unmount()
      requires Valid()
      modifies this, store
      ensures Valid()
      ensures manualDisconnect && !hasSocket && transport == Closed
      ensures heartbeatRef == None && heartbeats == {}
      ensures reconnectTimers == (if old(reconnectRef).Some? then old(reconnectTimers) - {old(reconnectRef).value}
                                  else old(reconnectTimers))
      ensures store.State() == if old(hasSocket) && old(transport) == Open
        then old(store.State()).(connectionStatus := Disconnected) else old(store.State())
      ensures reconnectAttempts == old(reconnectAttempts) && reconnectRef == old(reconnectRef) && sent == old(sent)
      ensures isConnected == if old(hasSocket) && old(transport) == Open then false else old(isConnected)
    {
      manualDisconnect := true;
      StopHeartbeat();
      if reconnectRef.Some? {
        reconnectTimers := reconnectTimers - {reconnectRef.value};
      }
      if hasSocket {
        CloseSocket();
        hasSocket := false;
      }
    }

    /** The emit guard shared by the three seat requests: a user, a 'connected' status and a socket. */
    predicate CanEmit()
      reads this, store
    {
      store.user.Some? && store.connectionStatus == Connected && hasSocket
    }

    /** `selectSeat`: ask the server for the seat, if the guard allows. */
    method SelectSeat(seatId: string)
      modifies this`sent
      ensures sent == old(sent) +
        (if CanEmit() then [SelectRequest(seatId, store.user.value.id, store.user.value.name)] else [])
    {
      if CanEmit() {
        sent := sent + [SelectRequest(seatId, store.user.value.id, store.user.value.name)];
      }
    }

    /** `deselectSeat`: ask the server to release the seat, if the guard allows. */
    method DeselectSeat(seatId: string)
      modifies this`sent
      ensures sent == old(sent) + (if CanEmit() then [DeselectRequest(seatId, store.user.value.id)] else [])
    {
      if CanEmit() {
        sent := sent + [DeselectRequest(seatId, store.user.value.id)];
      }
    }

    /** `bookSelectedSeats`: ask the server to book the whole selection, if the guard allows and
        something is selected. */
    method BookSelectedSeats()
      modifies this`sent
      ensures sent == old(sent) +
        (if CanEmit() && store.selectedSeats != []
         then [BookRequest(store.selectedSeats, store.user.value.id, store.user.value.name)] else [])
    {
      if CanEmit() && store.selectedSeats != [] {
        sent := sent + [BookRequest(store.selectedSeats, store.user.value.id, store.user.value.name)];
      }
    }

    /** 'seatMap:data': the whole map replaces the store's. */
    method OnSeatMapData(seatMap: SeatMap)
      modifies store
      ensures store.State() == Reduce(old(store.State()), Action.SetSeatMap(seatMap))
    {
      store.SetSeatMap(seatMap);
    }

    /** 'seat:updated': the seat replaces the store's copy. */
    method OnSeatUpdated(seat: Seat)
      modifies store
      ensures store.State() == Reduce(old(store.State()), Action.UpdateSeat(seat))
    {
      store.UpdateSeat(seat);
    }

    /** 'seat:error': the message becomes the store's error. */
    method OnSeatError(message: string)
      modifies store
      ensures store.State() == Reduce(old(store.State()), Action.SetError(Some(message)))
    {
      store.SetError(Some(message));
    }

    /** 'seats:booked': every booked seat replaces the store's copy, then `bookSeats` runs on their
        ids, which also empties the local selection. */
    method OnSeatsBooked(seats: seq<Seat>)
      modifies store
      ensures store.State() == Dispatch(old(store.State()), UpdateActions(seats) + [Action.BookSeats(SeatIds(seats))])
    {
      var i := 0;
      while i < |seats|
        invariant 0 <= i <= |seats|
        invariant store.State() == Dispatch(old(store.State()), UpdateActions(seats[..i]))
      {
        DispatchSnoc(old(store.State()), UpdateActions(seats[..i]), Action.UpdateSeat(seats[i]));
        UpdateActionsSnoc(seats, i);
        store.UpdateSeat(seats[i]);
        i := i + 1;
      }
      assert seats[..i] == seats;
      DispatchSnoc(old(store.State()), UpdateActions(seats), Action.BookSeats(SeatIds(seats)));
      store.BookSeats(SeatIds(seats));
    }

    /** 'seats:booked' as evidently intended: the booked seats are updated, and only their ids
        leave the local selection. */
    method OnSeatsBookedKeepingOthers(seats: seq<Seat>)
      modifies store
      ensures store.State() == Dispatch(old(store.State()), UpdateActions(seats) + DeselectActions(SeatIds(seats)))
      ensures forall x :: x in store.selectedSeats <==> x in old(store.selectedSeats) && x !in SeatIds(seats)
    {
      var i := 0;
      while i < |seats|
        invariant 0 <= i <= |seats|
        invariant store.State() == Dispatch(old(store.State()), UpdateActions(seats[..i]))
      {
        DispatchSnoc(old(store.State()), UpdateActions(seats[..i]), Action.UpdateSeat(seats[i]));
        UpdateActionsSnoc(seats, i);
        store.UpdateSeat(seats[i]);
        i := i + 1;
      }
      assert seats[..i] == seats;
      ghost var updated := store.State();
      var ids := SeatIds(seats);
      var j := 0;
      while j < |ids|
        invariant 0 <= j <= |ids|
        invariant store.State() == Dispatch(updated, DeselectActions(ids[..j]))
      {
        DispatchSnoc(updated, DeselectActions(ids[..j]), Action.DeselectSeat(ids[j]));
        DeselectActionsSnoc(ids, j);
        store.DeselectSeat(ids[j]);
        j := j + 1;
      }
      assert ids[..j] == ids;
      DispatchAppend(old(store.State()), UpdateActions(seats), DeselectActions(ids));
      BookedLeaveSelection(old(store.State()), seats);
    }
  }

  /** The stale reconnect timeout, as written. The connection drops and a reconnect is scheduled;
      the user reconnects by hand before it fires, that attempt fails and schedules a second one,
      which overwrites the single ref; the user then disconnects, which clears only the second.
      The first still fires, reopens the socket, and the connection comes back although the user
      asked to stay disconnected. */
  method StaleReconnectAfterDisconnect() returns (m: ConnectionManager)
    ensures m.manualDisconnect && m.transport == Open && m.store.connectionStatus == Connected
  {
    var store := new SeatMapStore();
    m := new ConnectionManager(store);
    m.OnConnect();
    m.OnDisconnect("transport close");
    var first := m.reconnectRef.value;
    m.ManualReconnect();
    m.OnConnectError();
    assert first != m.reconnectRef.value;
    m.Disconnect();
    m.OnReconnectTimer(first);
    m.OnConnect();
  }

  /** The same sequence with the guarded timer callback: the socket stays closed. */
  method GuardedTimerStaysClosed() returns (m: ConnectionManager)
    ensures m.manualDisconnect && m.transport == Closed && m.store.connectionStatus == Disconnected
  {
    var store := new SeatMapStore();
    m := new ConnectionManager(store);
    m.OnConnect();
    m.OnDisconnect("transport close");
    var first := m.reconnectRef.value;
    m.ManualReconnect();
    m.OnConnectError();
    assert first != m.reconnectRef.value;
    m.Disconnect();
    m.OnReconnectTimerGuarded(first);
  }

  /** The `updateSeat` actions for a list of seats, in order. */
  function UpdateActions(seats: seq<Seat>): (r: seq<Action>)
    ensures |r| == |seats|
    ensures forall i :: 0 <= i < |seats| ==> r[i] == Action.UpdateSeat(seats[i])
  {
    seq(|seats|, i requires 0 <= i < |seats| => Action.UpdateSeat(seats[i]))
  }

  /** The `deselectSeat` actions for a list of ids, in order. */
  function DeselectActions(ids: seq<string>): (r: seq<Action>)
    ensures |r| == |ids|
    ensures forall i :: 0 <= i < |ids| ==> r[i] == Action.DeselectSeat(ids[i])
  {
    seq(|ids|, i requires 0 <= i < |ids| => Action.DeselectSeat(ids[i]))
  }

  lemma UpdateActionsSnoc(seats: seq<Seat>, i: nat)
    requires i < |seats|
    ensures UpdateActions(seats[..i + 1]) == UpdateActions(seats[..i]) + [Action.UpdateSeat(seats[i])]
  {
  }

  lemma DeselectActionsSnoc(ids: seq<string>, j: nat)
    requires j < |ids|
    ensures DeselectActions(ids[..j + 1]) == DeselectActions(ids[..j]) + [Action.DeselectSeat(ids[j])]
  {
  }

  /** Seat updates never touch the selection. */
  lemma {:induction false} UpdatesKeepSelection(s: StoreState, seats: seq<Seat>)
    ensures Dispatch(s, UpdateActions(seats)).selectedSeats == s.selectedSeats
    decreases |seats|
  {
    if seats != [] {
      assert UpdateActions(seats)[1..] == UpdateActions(seats[1..]);
      UpdatesKeepSelection(Reduce(s, Action.UpdateSeat(seats[0])), seats[1..]);
    }
  }

  /** Deselecting a list of ids removes exactly those ids from the selection. */
  lemma {:induction false} DeselectsRemoveExactly(s: StoreState, ids: seq<string>)
    ensures forall x :: x in Dispatch(s, DeselectActions(ids)).selectedSeats <==> x in s.selectedSeats && x !in ids
    decreases |ids|
  {
    if ids != [] {
      assert DeselectActions(ids)[1..] == DeselectActions(ids[1..]);
      DeselectsRemoveExactly(Reduce(s, Action.DeselectSeat(ids[0])), ids[1..]);
    }
  }

  /** The emit guard of the three seat requests is the selection hook's `canSelectSeats` on the
      store, plus a live socket. */
  lemma EmitGuardIsSelectionGuard(m: ConnectionManager)
    ensures m.CanEmit() <==> UseSeatSelection.CanSelectSeats(m.store.State()) && m.hasSocket
  {
  }

  /** Logging out (`setUser(null)`) revokes both guards: the selection hook allows no pick, and a
      manager over the resulting store sends no seat request, whatever the connection state. */
  lemma LogoutRevokesGuards(m: ConnectionManager, s: StoreState)
    ensures !UseSeatSelection.CanSelectSeats(Reduce(s, Action.SetUser(None)))
    ensures m.store.State() == Reduce(s, Action.SetUser(None)) ==> !m.CanEmit()
  {
    EmitGuardIsSelectionGuard(m);
  }

  /** As written, a 'seats:booked' broadcast empties the whole local selection, whoever booked and
      whatever was booked. With 'seat-1' picked locally and another user's 'seat-2' booked, the
      selection ends up empty. */
  lemma SeatsBookedClearsForeignSelection(s: StoreState, seats: seq<Seat>)
    ensures Dispatch(s, UpdateActions(seats) + [Action.BookSeats(SeatIds(seats))]).selectedSeats == []
  {
    DispatchAppend(s, UpdateActions(seats), [Action.BookSeats(SeatIds(seats))]);
    assert [Action.BookSeats(SeatIds(seats))][1..] == [];
  }

  /** With the intended handler, a picked id leaves the selection only if it was booked. */
  lemma BookedLeaveSelection(s: StoreState, seats: seq<Seat>)
    ensures forall x ::
      x in Dispatch(s, UpdateActions(seats) + DeselectActions(SeatIds(seats))).selectedSeats
      <==> x in s.selectedSeats && x !in SeatIds(seats)
  {
    DispatchAppend(s, UpdateActions(seats), DeselectActions(SeatIds(seats)));
    UpdatesKeepSelection(s, seats);
    DeselectsRemoveExactly(Dispatch(s, UpdateActions(seats)), SeatIds(seats));
  }
}
