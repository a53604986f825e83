# Real-time seat booking: a Dafny model

This project models the core of a real-time seat-booking application. A Node server owns a 150-seat theatre grid. Browser clients connect over Socket.IO to select, release and book seats, and every change is broadcast to all clients.

The model covers seven core files:

- **The server's seat authority** (`server.js`):
  - the grid built at start-up and the reservation table;
  - the `seat:select`, `seat:deselect` and `seats:book` handlers;
  - ping/pong and the snapshot sent on connection.
  - Modelled as the `SeatAuthority` class: the seats are an array updated in place, and every `io.emit`/`socket.emit` is appended to an outbox. Each handler is proved equal to a pure transition (`Select`, `Deselect`, `Book`), and the lemmas are about those transitions.
- **The client store** (`src/store/seatMapSlice.ts`):
  - modelled as the pure reducer `Reduce`;
  - and as the class `SeatMapStore`, whose methods make the Immer-style in-place updates and are proved to agree with `Reduce`.
- **The client connection manager** (`src/hooks/useSocket.ts`):
  - the exponential backoff, computed on `real`;
  - the class `ConnectionManager`, holding the socket state, the attempt counter, the manual-disconnect flag, the timer handles and the sent messages. Socket.IO's callbacks and the firing of timers are methods the environment calls.
- **The selection hook** (`src/hooks/useSeatSelection.ts`): pure functions of the store state.
- **The status-code conversions** in `src/protobuf/schema.js`, `src/protobuf/client-schema.js` and `src/protobuf/simple-demo.js`.

The files are:

- `optional.dfy`
- `seat_types.dfy`: shared records, plus `FindIndex`, which is JavaScript's `find`/`findIndex` by id
- `schema.dfy`
- `client_schema.dfy`
- `simple_demo.dfy`
- `seat_map_slice.dfy`
- `use_seat_selection.dfy`
- `use_socket.dfy`
- `server.dfy`

Some of the code's behaviour differs from what its comments, names and data suggest. The model follows the code:

- Seats start with a random status and, independently, a random holder. So "a holder is present exactly when the seat is selected or occupied" does not hold (`SeatServer.InitialHolderIndependentOfStatus`). The invariant that does hold is that every selected seat has a reservation in its holder's name (`SeatServer.Consistent`).
- `seats:book` broadcasts only when at least one seat changed, not always.
- Booking does not delete reservations.
- A `seats:booked` event empties the client's whole selection, not just the booked ids (Findings).
- `manualReconnect` cancels no pending timeout, and `disconnect` cancels only the newest one (Findings).
- When a reconnect timeout fires, the status stays `reconnecting` until the socket connects. It does not pass through `connecting`.
- The rejections are the strings `Seat not available` and `Cannot deselect seat`.
- `setUser` is declared to take a `User`, but logging out dispatches `setUser(null)` (`src/components/UserLogin.tsx:31`). The model's payload is optional, so a logout clears the user.

## Model

| member | source | states |
|---|---|---|
| SeatTypes.Occupy | src/store/seatMapSlice.ts:96 | booking a seat sets its status to occupied and changes no other field |
| SeatTypes.FindIndex | src/store/seatMapSlice.ts:70 | the index found holds the id, no earlier seat holds it, and none is found exactly when no seat holds it |
| SeatTypes.FindIndexByIds | src/store/seatMapSlice.ts:70 | the search depends only on the seat ids |
| Schema.StatusToString | src/protobuf/schema.js:129-136 | the result is always one of the three names; only code 1 gives 'selected', only 2 gives 'occupied', and a code outside the enum gives 'available' |
| Schema.StringToStatus | src/protobuf/schema.js:138-145 | the result is always in 0..2; only 'selected' gives 1 and only 'occupied' gives 2 |
| Schema.CodeRoundTrip | src/protobuf/schema.js:11-15 | each enum code survives the trip through its name |
| Schema.NameRoundTrip | src/protobuf/schema.js:129-145 | each status except 'reserved' survives the trip through its code |
| Schema.ReservedIsLossy | src/protobuf/schema.js:143 | 'reserved' maps to 0 and comes back as 'available' |
| ClientSchema.StatusToString | src/protobuf/client-schema.js:96-103 | always one of the three names; codes outside the enum give 'available' |
| ClientSchema.StringToStatus | src/protobuf/client-schema.js:105-112 | always a code in 0..2 |
| ClientSchema.AgreesWithServerSchema | src/protobuf/client-schema.js:96-112 | the client's copies agree with the server schema's on every input |
| ClientSchema.Truthy | src/protobuf/client-schema.js:121-122 | `x \|\| undefined` keeps a non-empty string and turns an empty or missing one into absent |
| ClientSchema.ConvertSeat | src/protobuf/client-schema.js:115-124 | id, row and number are copied; the status is the one the code names, never 'reserved'; holder fields pass through `\|\| undefined` |
| ClientSchema.ConvertSeatMap | src/protobuf/client-schema.js:127-135 | the map's fields are copied and its seats converted one for one, in order |
| ClientSchema.ConvertSeatStatusRoundTrip | src/protobuf/client-schema.js:115-121 | a converted seat's status reads back as the original enum code |
| SimpleDemo.InitializeProtobuf | src/protobuf/simple-demo.js:6-9 | initialisation always reports success |
| SimpleDemo.EncodeSeatMap | src/protobuf/simple-demo.js:11-14 | never produces bytes, forcing the JSON fallback |
| SimpleDemo.DecodeSeatMap | src/protobuf/simple-demo.js:16-19 | never yields a seat map |
| SimpleDemo.EncodeSelectSeatRequest | src/protobuf/simple-demo.js:21-24 | never produces bytes |
| SimpleDemo.DecodeSelectSeatRequest | src/protobuf/simple-demo.js:26-29 | never yields a request |
| SimpleDemo.StatusToString | src/protobuf/simple-demo.js:31-34 | the lookup-with-default agrees with the schema's switch on every code |
| SimpleDemo.StatusMapLookup | src/protobuf/simple-demo.js:37-38 | indexing the object literal gives an own entry exactly for the three names and an inherited member exactly for `Object.prototype`'s keys |
| SimpleDemo.StringToStatusAsWritten | src/protobuf/simple-demo.js:36-39 | as written, a code in 0..2 comes back for every key except `Object.prototype`'s |
| SimpleDemo.InheritedKeyEscapesDefault | src/protobuf/simple-demo.js:38 | 'toString' yields an inherited function instead of 0 |
| SimpleDemo.StringToStatus | src/protobuf/simple-demo.js:36-39 | as intended, it agrees with the schema's switch on every string |
| SimpleDemo.AsWrittenAgreesOffPrototype | src/protobuf/simple-demo.js:36-39 | off the inherited keys, the code as written and as intended agree |
| SimpleDemo.RoundTrips | src/protobuf/simple-demo.js:31-39 | codes 0..2 survive the trip through names, and the three names survive the trip through codes |
| SeatMapSlice.ReplaceSeat | src/store/seatMapSlice.ts:68-75 | the first seat with the payload's id becomes the payload and every other seat and the count stay; an unknown id changes nothing |
| SeatMapSlice.ReplaceSeatThenFind | src/store/__tests__/seatMapSlice.test.ts:115-134 | after the update, looking up the payload's id finds the payload at the same index |
| SeatMapSlice.WithSelected | src/store/seatMapSlice.ts:77-81 | the id is in the selection afterwards; an absent id is appended at the end, and a present id changes nothing |
| SeatMapSlice.WithSelectedIdempotent | src/store/__tests__/seatMapSlice.test.ts:58-66 | selecting twice is selecting once |
| SeatMapSlice.WithSelectedKeepsDistinct | src/store/seatMapSlice.ts:78 | selecting never introduces a duplicate |
| SeatMapSlice.Without | src/store/seatMapSlice.ts:83-85 | every occurrence of the id is removed, and every other id keeps its multiplicity |
| SeatMapSlice.WithoutDistributes | src/store/seatMapSlice.ts:84 | the filter distributes over concatenation, so the remaining ids keep their order |
| SeatMapSlice.WithoutSingleton | src/store/seatMapSlice.ts:84 | a single id is kept exactly when it is not the removed one |
| SeatMapSlice.WithoutKeepsDistinct | src/store/seatMapSlice.ts:84 | deselecting keeps the selection free of duplicates |
| SeatMapSlice.OccupyAll | src/store/seatMapSlice.ts:92-99 | booking keeps the seat count and every seat id |
| SeatMapSlice.OccupyEach | src/store/seatMapSlice.ts:92-97 | the `forEach` loop over the listed ids computes exactly the booking pass `OccupyAll` |
| SeatMapSlice.OccupyAllExactly | src/store/seatMapSlice.ts:91-99 | exactly the first seat of each listed id becomes occupied; every other seat and field is unchanged, and unknown ids are ignored |
| SeatMapSlice.DispatchSnoc | src/store/seatMapSlice.ts:44-105 | dispatching one more action reduces the state reached so far |
| SeatMapSlice.DispatchAppend | src/store/seatMapSlice.ts:44-105 | dispatching two lists is dispatching the first, then the second |
| SeatMapSlice.ReduceWritesOwnFields | src/store/seatMapSlice.ts:44-105 | apart from reset, each action writes only the fields its reducer names; the seat actions keep the map present or absent, its other fields and its seat ids |
| SeatMapSlice.DispatchKeepsMapAndUser | src/store/seatMapSlice.ts:44-105 | a run of actions with no setSeatMap and no reset keeps the map present or absent and keeps its seat ids; one with no setUser and no reset keeps the user |
| SeatMapSlice.SettersIndependent | src/store/seatMapSlice.ts:48-66 | each setter writes only its own field: different setters commute, the last write to a field wins, and the selection is untouched |
| SeatMapSlice.ResetForgets | src/store/seatMapSlice.ts:87-103 | reset yields the initial state after any history; clear empties the selection and nothing else |
| SeatMapSlice.DeselectExample | src/store/__tests__/seatMapSlice.test.ts:68-77 | deselecting 'seat-1' from ['seat-1', 'seat-2'] leaves ['seat-2'] |
| SeatMapSlice.ReduceKeepsSelectionDistinct | src/store/seatMapSlice.ts:77-85 | no action introduces a duplicate into the selection |
| SeatMapSlice.BookSeatsShape | src/store/seatMapSlice.ts:91-101 | booking always empties the selection, even with no seat map, and keeps the seat ids |
| SeatMapSlice.NoSeatMapNoChange | src/store/seatMapSlice.ts:69 | with no seat map, updating is a no-op and booking only clears the selection |
| SeatMapSlice.SeatMapStore.constructor | src/store/seatMapSlice.ts:35-42 | the store starts in the initial state |
| SeatMapSlice.SeatMapStore.SetLoading | src/store/seatMapSlice.ts:48-50 | the new state is the reducer applied to the old one |
| SeatMapSlice.SeatMapStore.SetError | src/store/seatMapSlice.ts:52-54 | the new state is the reducer applied to the old one |
| SeatMapSlice.SeatMapStore.SetConnectionStatus | src/store/seatMapSlice.ts:56-58 | the new state is the reducer applied to the old one |
| SeatMapSlice.SeatMapStore.SetUser | src/store/seatMapSlice.ts:60-62 | the new state is the reducer applied to the old one; the payload is stored as is, so a logout (`setUser(null)`) leaves no user |
| SeatMapSlice.SeatMapStore.SetSeatMap | src/store/seatMapSlice.ts:64-66 | the new state is the reducer applied to the old one |
| SeatMapSlice.SeatMapStore.UpdateSeat | src/store/seatMapSlice.ts:68-75 | the in-place replacement agrees with the reducer |
| SeatMapSlice.SeatMapStore.SelectSeat | src/store/seatMapSlice.ts:77-81 | the guarded push agrees with the reducer |
| SeatMapSlice.SeatMapStore.DeselectSeat | src/store/seatMapSlice.ts:83-85 | the filter agrees with the reducer |
| SeatMapSlice.SeatMapStore.ClearSelectedSeats | src/store/seatMapSlice.ts:87-89 | agrees with the reducer |
| SeatMapSlice.SeatMapStore.BookSeats | src/store/seatMapSlice.ts:91-101 | the in-place booking loop agrees with the reducer |
| SeatMapSlice.SeatMapStore.ResetState | src/store/seatMapSlice.ts:103 | agrees with the reducer |
| UseSeatSelection.LookUpAll | src/hooks/useSeatSelection.ts:15-23 | no longer than the selection, every entry's id is selected, and full length exactly when every selected id is found |
| UseSeatSelection.SelectionGuardFollowsStore | src/hooks/useSeatSelection.ts:9-10 | seats may be picked only when connected with a user: never in the initial state, following each setConnectionStatus and setUser (revoked by a logout, `setUser(null)`), revoked by reset, and unchanged by every other action |
| UseSeatSelection.LookUpAllDistributes | src/hooks/useSeatSelection.ts:15-23 | the lookup distributes over concatenation, so it follows selection order |
| UseSeatSelection.LookUpOne | src/hooks/useSeatSelection.ts:16-22 | one id gives the details of the first seat with it, or nothing |
| UseSeatSelection.SelectedSeatsDetails | src/hooks/useSeatSelection.ts:12-24 | empty without a seat map or a selection; otherwise bounded by the selection and made of selected ids |
| UseSeatSelection.TotalPrice | src/hooks/useSeatSelection.ts:26-28 | 100000 per selected id, ids missing from the seat map included; zero exactly when nothing is selected |
| UseSeatSelection.PriceCoversDetails | src/hooks/useSeatSelection.ts:26-28 | the price counts every selected id, so it covers the listed seats and equals their price exactly when every id is found |
| UseSeatSelection.HandleSelectSeat | src/hooks/useSeatSelection.ts:30-33 | dispatches something exactly when seats may be picked |
| UseSeatSelection.HandleDeselectSeat | src/hooks/useSeatSelection.ts:35-38 | dispatches something exactly when seats may be picked |
| UseSeatSelection.HandleClearAllSelections | src/hooks/useSeatSelection.ts:40-42 | always dispatches one action |
| UseSeatSelection.HandlersEffect | src/hooks/useSeatSelection.ts:9-42 | the guarded handlers change nothing unless connected with a user; otherwise they only add or remove the id; clear always empties the selection |
| UseSocket.ReconnectDelay | src/hooks/useSocket.ts:53-56 | the delay lies between 1000 and 30000 |
| UseSocket.DelayMonotone | src/hooks/useSocket.ts:53-56 | the delay never decreases as attempts grow |
| UseSocket.DelaySchedule | src/hooks/useSocket.ts:45-56 | the first delays are 1000, 1500, 2250 and 3375 |
| UseSocket.DelayCapped | src/hooks/useSocket.ts:55 | the 30000 cap applies exactly from attempt index 9 on |
| UseSocket.ConnectionManager.constructor | src/hooks/useSocket.ts:184-190 | mounting dispatches 'connecting' and starts opening, with no timers and no attempts |
| UseSocket.ConnectionManager.ConnectSocket | src/hooks/useSocket.ts:77 | connecting is a no-op while connected and otherwise starts opening |
| UseSocket.ConnectionManager.StartHeartbeat | src/hooks/useSocket.ts:83-93 | the previous interval is cleared, so exactly one heartbeat runs |
| UseSocket.ConnectionManager.StopHeartbeat | src/hooks/useSocket.ts:96-101 | no heartbeat runs afterwards |
| UseSocket.ConnectionManager.AttemptReconnect | src/hooks/useSocket.ts:59-80 | nothing happens under the manual flag; at 10 attempts the status becomes error with the give-up message and no timer is scheduled; otherwise 'reconnecting', one more attempt, and one timeout with the backoff delay |
| UseSocket.ConnectionManager.OnConnect | src/hooks/useSocket.ts:117-124 | connected, error cleared, attempts reset, one fresh heartbeat |
| UseSocket.ConnectionManager.OnDisconnect | src/hooks/useSocket.ts:126-136 | 'disconnected', heartbeat stopped, and a retry only without the manual flag and for a reason other than a client disconnect; when no retry is scheduled, the counter, the timeouts and the timeout ref stay as they were |
| UseSocket.ConnectionManager.OnConnectError | src/hooks/useSocket.ts:138-149 | 'error' with the connection message, heartbeat stopped, and a retry unless the manual flag is set; when no retry is scheduled, the counter, the timeouts and the timeout ref stay as they were |
| UseSocket.ConnectionManager.OnReconnectTimer | src/hooks/useSocket.ts:75-79 | the timeout is consumed and reconnects whenever a socket exists and is not connected, whatever the manual flag; only the pending timeouts and the transport may change |
| UseSocket.ConnectionManager.OnReconnectTimerGuarded | src/hooks/useSocket.ts:75-79 | as intended: under the manual flag a firing timeout leaves the socket as it is; only the pending timeouts and the transport may change |
| UseSocket.ConnectionManager.OnHeartbeat | src/hooks/useSocket.ts:88-92 | a ping is sent exactly when connected |
| UseSocket.ConnectionManager.ManualReconnect | src/hooks/useSocket.ts:237-244 | clears the flag and the counter, dispatches 'connecting' and connects; pending timeouts stay pending, and only the flag, the counter, the transport and the store may change |
| UseSocket.ConnectionManager.CloseSocket | src/hooks/useSocket.ts:256 | closing an open socket runs the disconnect handler with the client-disconnect reason, which schedules nothing |
| UseSocket.ConnectionManager.Disconnect | src/hooks/useSocket.ts:247-260 | sets the flag, stops the heartbeat, clears only the timeout the ref holds, closes the socket and dispatches 'disconnected' |
| UseSocket.ConnectionManager.Unmount | src/hooks/useSocket.ts:192-204 | sets the flag, stops the heartbeat, clears the ref's timeout (the ref itself keeps its handle), closes and drops the socket; `isConnected` becomes false only if the socket was open |
| UseSocket.ConnectionManager.SelectSeat | src/hooks/useSocket.ts:207-215 | a select request goes out exactly when there is a user, a 'connected' status and a socket |
| UseSocket.ConnectionManager.DeselectSeat | src/hooks/useSocket.ts:217-224 | a release request goes out exactly under the same guard |
| UseSocket.ConnectionManager.BookSelectedSeats | src/hooks/useSocket.ts:226-234 | a booking request goes out exactly under the guard and with a non-empty selection, carrying the selection |
| UseSocket.ConnectionManager.OnSeatMapData | src/hooks/useSocket.ts:156-159 | the received map replaces the store's |
| UseSocket.ConnectionManager.OnSeatUpdated | src/hooks/useSocket.ts:162-165 | the received seat replaces the store's copy |
| UseSocket.ConnectionManager.OnSeatError | src/hooks/useSocket.ts:177-180 | the message becomes the store's error |
| UseSocket.ConnectionManager.OnSeatsBooked | src/hooks/useSocket.ts:168-174 | each booked seat is updated in order, then the store books their ids |
| UseSocket.ConnectionManager.OnSeatsBookedKeepingOthers | src/hooks/useSocket.ts:168-174 | as intended: an id leaves the selection exactly when it was booked |
| UseSocket.StaleReconnectAfterDisconnect | src/hooks/useSocket.ts:75-79 | a sequence of events after which the user has disconnected by hand and the socket is connected again |
| UseSocket.GuardedTimerStaysClosed | src/hooks/useSocket.ts:247-260 | with the guarded callback, the same sequence leaves the socket closed |
| UseSocket.EmitGuardIsSelectionGuard | src/hooks/useSocket.ts:207-234 | the seat requests are sent exactly when the selection hook would allow picking and a socket exists |
| UseSocket.LogoutRevokesGuards | src/components/UserLogin.tsx:30-32 | after a logout no seat may be picked, and no seat request is sent from the resulting store |
| UseSocket.UpdatesKeepSelection | src/hooks/useSocket.ts:170-172 | seat updates never touch the selection |
| UseSocket.DeselectsRemoveExactly | src/store/seatMapSlice.ts:83-85 | releasing a list of ids removes exactly those ids |
| UseSocket.SeatsBookedClearsForeignSelection | src/hooks/useSocket.ts:168-174 | as written, any booking broadcast leaves the selection empty, including another user's booking of a seat that was not picked |
| UseSocket.BookedLeaveSelection | src/hooks/useSocket.ts:168-174 | with the intended handler, a picked id leaves the selection exactly when it was booked |
| SeatServer.DigitChar | server.js:18 | the character's code, minus that of '0', is the digit |
| SeatServer.Decimal | server.js:18 | the decimal rendering is non-empty and has one digit exactly below 10 |
| SeatServer.DecimalRoundTrip | server.js:18 | reading the digits back gives the number |
| SeatServer.GridSeatIdInjective | server.js:18 | different grid positions get different seat ids |
| SeatServer.InitialSeats | server.js:17-24 | each seat sits at its index's grid position with id `seat-N`, is occupied exactly when drawn so and available otherwise, has no selection time, and has a holder id and name exactly when drawn, the id being `user-` and the drawn number |
| SeatServer.GridPositions | server.js:19-20 | rows lie in 1..10 and numbers in 1..15, and no two indices share both |
| SeatServer.InitialConsistent | server.js:12-28 | the start-up grid is consistent with an empty reservation table, and no seat starts selected |
| SeatServer.InitialHolderIndependentOfStatus | server.js:21-23 | an available seat can start with a holder id |
| SeatServer.GridIdsDistinct | server.js:17-18 | on a consistent grid the ids are distinct, and each finds its own seat |
| SeatServer.Select | server.js:79-101 | succeeds exactly when the seat exists and is available: the requester holds it, a reservation is recorded, only that seat changes, and it is broadcast; otherwise only the requester gets 'Seat not available' and nothing changes |
| SeatServer.Deselect | server.js:104-122 | succeeds exactly when the requester holds the seat: it becomes available with no holder, the reservation is deleted and it is broadcast; otherwise only the requester gets 'Cannot deselect seat' and nothing changes |
| SeatServer.BookOne | server.js:130-134 | one requested id keeps the count and the ids, reports at most one more seat, and changes a seat only by occupying one the requester held |
| SeatServer.BookAll | server.js:129-135 | booking keeps the count and the ids, reports at most as many seats as requested, and changes a seat only by occupying one the requester held |
| SeatServer.BookAllSeats | server.js:129-135 | exactly the requested seats the requester held become occupied; seats held by others and unknown ids are untouched |
| SeatServer.BookAllOrigin | server.js:131-133 | every reported seat is a flipped seat in its occupied form |
| SeatServer.BookAllCovers | server.js:131-133 | every flipped seat is reported |
| SeatServer.BookAllUpdatesDistinct | server.js:129-135 | no seat is reported twice, even when ids repeat |
| SeatServer.BookAllSplits | server.js:129-135 | booking two parts of a list in turn is booking the whole list, with the first part's seats reported first |
| SeatServer.Book | server.js:125-142 | exactly the held requested seats are occupied, reservations stay, and nothing is emitted exactly when nothing flipped |
| SeatServer.BookBroadcast | server.js:137-141 | the single broadcast names the requester and lists exactly the seats this booking flipped from selected-by-the-requester to occupied, each once, as they now are |
| SeatServer.BookTwice | server.js:129-137 | booking the same ids again changes nothing and emits nothing |
| SeatServer.SecondSelectRefused | server.js:85-100 | after a successful select, a select of the same seat by anyone is refused and changes nothing |
| SeatServer.AllRefused | server.js:98-100 | selects of an unavailable seat are all refused, each to its own sender |
| SeatServer.OnlyFirstSelectWins | server.js:83-100 | of any number of selects of an available seat, exactly the first is broadcast and all later ones are refused |
| SeatServer.SelectThenDeselect | server.js:83-114 | releasing a seat one just selected restores it with no holder and removes its reservation |
| SeatServer.DeselectByOtherRefused | server.js:108-121 | a non-holder's release is refused and changes nothing |
| SeatServer.SecondDeselectRefused | server.js:108-121 | a repeated release is refused and changes nothing |
| SeatServer.SelectKeepsConsistent | server.js:85-91 | a select keeps the grid layout and the selected-implies-reserved invariant |
| SeatServer.DeselectKeepsConsistent | server.js:108-114 | a release keeps the invariant |
| SeatServer.BookKeepsConsistent | server.js:131-132 | a booking keeps the invariant |
| SeatServer.SeatAuthority.constructor | server.js:12-28 | the array holds the initial grid and the reservation table is empty |
| SeatServer.SeatAuthority.Find | server.js:83 | the linear search returns the first index holding the id |
| SeatServer.SeatAuthority.Snapshot | server.js:69-76 | the seat map sent to a client is the current seat array; under the invariant its length is rows × seats per row and every seat lies within those bounds |
| SeatServer.SeatAuthority.OnConnection | server.js:69 | a new connection receives the current seat map |
| SeatServer.SeatAuthority.OnRequestJsonData | server.js:73-76 | the requester receives the current seat map again |
| SeatServer.SeatAuthority.OnPing | server.js:64-66 | the requester receives 'pong' |
| SeatServer.SeatAuthority.OnSeatSelect | server.js:79-101 | the in-place handler agrees with Select and keeps the invariant |
| SeatServer.SeatAuthority.OnSeatDeselect | server.js:104-122 | the in-place handler agrees with Deselect and keeps the invariant |
| SeatServer.SeatAuthority.OnSeatsBook | server.js:125-142 | the booking pass and the conditional broadcast agree with Book and keep the invariant |
| SeatServer.SeatAuthority.BookPass | server.js:127-135 | the in-place loop leaves the array and the collected seats exactly as the pure booking pass `BookAll` does |

## Left out

- Transport plumbing is not modelled: HTTP, Next.js, CORS, listening, and the construction of the Socket.IO client and server. An emit is an append to `SeatAuthority.outbox` or `ConnectionManager.sent`, and delivery is not modelled.
- The React machinery is not modelled: re-renders, `useCallback` dependency lists, and effect re-runs. In the source the mount effect depends on `attemptReconnect`, which changes with the attempt counter. The model treats the hook as mounted once, and every handler reads the current counter, not a stale closure's copy.
- Real time is not modelled. A timer is a numbered handle that fires when the environment calls `OnReconnectTimer` or `OnHeartbeat`. The reconnect delays are recorded with each pending timeout. The 30-second heartbeat period is not modelled.
- UseSocket.ReconnectDelay: computed in exact real arithmetic, not IEEE doubles. It agrees with the double values on the first delays and on the cap, but not on rounding.
- Randomness and the clock are parameters. The start-up draws are `Draw` values, and the two `Date.now()` readings of a select are `selectedAt` and `reservedAt`. The source's bound of 100 on the drawn user numbers is not enforced.
- The protobufjs encode/decode wrappers and `initializeProtobuf` in `src/protobuf/schema.js` and `src/protobuf/client-schema.js` are not modelled, because the library they call is not part of this model.
- SeatServer.Select, SeatServer.Deselect and SeatServer.Book: request payloads are typed, with string ids and names and a list of seat ids. Malformed payloads, which would make the JavaScript handlers throw, are not modelled.
- SimpleDemo.StatusToString: takes an integer code. A string key such as 'toString' is not modelled; it would hit the same prototype lookup as `stringToStatus`.
- ClientSchema.ConvertSeat: status codes are integers, as protobufjs decodes them.
- The client's 'pong' handler and the server's 'disconnect' handler only log, and are left out with the rest of the logging.
- The UI components, the store setup and the test scaffolding are not part of this model.

## Findings

| source | as written | input that shows it | evidently intended | confidence | as-written member | corrected member |
|---|---|---|---|---|---|---|
| src/hooks/useSocket.ts:75-79 | Each retry stores its timeout in one ref and overwrites the previous handle. `manualReconnect` cancels nothing, and `disconnect` clears only the handle in the ref. A timeout scheduled earlier then still fires and reconnects. | The connection drops with 'transport close' (timeout 1 pending). `manualReconnect` is called. The attempt fails with `connect_error` (timeout 2 replaces 1 in the ref). `disconnect` clears timeout 2, timeout 1 fires, and the socket connects. This holds for a hook mounted once. In the real hook, each `setReconnectAttempts` (line 73) gives `attemptReconnect` a new identity (line 80). That re-runs the mount effect (line 205), whose cleanup (lines 192-204) sets the flag, clears the ref's timeout and drops the socket, which masks this sequence. | After a manual disconnect, no pending retry reopens the connection. | low; not executed | UseSocket.StaleReconnectAfterDisconnect | UseSocket.ConnectionManager.OnReconnectTimerGuarded |
| src/hooks/useSocket.ts:168-174 | The `seats:booked` broadcast reaches every client. Its handler dispatches `bookSeats`, which empties the whole local selection. | A client has 'seat-1' picked. Another user's booking of 'seat-2' arrives, and the client's selection becomes empty. | Only the booked ids leave the local selection. | medium; not executed | UseSocket.SeatsBookedClearsForeignSelection | UseSocket.ConnectionManager.OnSeatsBookedKeepingOthers |
| src/protobuf/simple-demo.js:36-39 | `statusMap[status] \|\| 0` on a plain object literal also finds members inherited from `Object.prototype`. | 'toString' gives the inherited function instead of 0. | Every string other than the three names gives 0. | high; not executed | SimpleDemo.StringToStatusAsWritten | SimpleDemo.StringToStatus |
