# Reservations: an event-sourced room booking system, modelled in Dafny

The system books meeting rooms through commands and events. This project
verifies four components:

- **The reservation aggregate.** This is the write side. It guards each
  command on the reservation's status and emits at most one event. It folds
  events back into its fields and its status, which follows a fixed
  transition table.
- **The conflict saga.** It keeps an index of
  `room -> reservation id -> interval` over rooms 1 to 6. It reacts to
  Created, TimeChanged and Cancelled by confirming or declining reservations.
  Its index keeps the held intervals of each room pairwise disjoint.
- **The billing ledger projector.** It keeps per-user billing histories
  with one bill per calendar month and lifetime totals. It charges a booking
  when it is confirmed and reverses the charge on cancellation or a time
  change.
- **The reservation view projector.** It advances one reservation snapshot
  per event and bumps its version each time.

Files:

- `wrappers.dfy`: `Option` and `Result`.
- `events.dfy`: event payloads, the five commands, and which handler
  receives which event kinds.
- `aggregate.dfy`: the status table, the pure `Decide`/`Evolve` specification
  and the `ReservationAggregate` class.
- `saga.dfy`: the overlap test, the pure reactions `OnCreated`,
  `OnTimeChanged` and `OnCancelled`, and the `ConflictSaga` class whose
  `RunSaga` scans the index with loops.
- `billing.dfy`: the pure ledger step `Step` and the
  `BillingHistoryProjector` class whose `HandleEvent` is proved equal to it.
- `view.dfy`: the read-model projection.
- `scenarios.dfy`: concrete runs across the components.

Modelling choices:

- Instants are whole seconds (`int`).
- Money is in integer hundredths: one minute costs 4.
- A uuid is a natural number. The billing projector draws fresh ones from a
  counter.
- The current month is a parameter of the billing handler.
- Each handler call is one atomic step.
- The saga returns the commands it would dispatch, in order, as a sequence.
- A Go map range loop visits keys in an unspecified order. The saga scans
  pick an arbitrary remaining key. Where that choice matters (which room
  holds an id), the contract says "for some room the scan may stop at".
- Two saga paths panic in Go by writing into a nil map: a Created for a room
  that does not exist, and a TimeChanged for an id no room holds. Both end
  in an explicit `Crashed` outcome, after whatever commands the code issued
  before the panic.

Behaviour that is easy to misread, where the model follows the code:

- The saga discards the error of every command it dispatches.
- A create command is not checked for `end > start`. Only a time change is.
- A degenerate interval `[s, s)` counts as intersecting an interval that
  contains `s`.
- The billing handler's "No user found" error (pkg/billing/projector.go:90-93)
  cannot be reached. Every recorded reservation's user has a history id, an
  invariant that `HandleEvent` keeps. The pure `Step` keeps the branch; the
  method does not need it.

## Model

| member | source | states |
|---|---|---|
| Aggregate.Fire | pkg/reservations/aggregate.go:46-52 | the transition table: confirmed and declined are defined only from pending, cancelled only from pending or confirmed, changed from every status, and lands on pending |
| Aggregate.Decide | pkg/reservations/aggregate.go:59-112 | at most one event per command; Create emits Created with the command's room, name, user and times iff not created; Confirm/Decline iff pending; Cancel iff pending or confirmed; ChangeTime iff end > start; every emitted transition is legal from the current status |
| Aggregate.Evolve | pkg/reservations/aggregate.go:115-143 | Created sets `created` and copies the payload; TimeChanged replaces the times and moves to pending; BookingConflicted only sets the error marker; confirm/decline/cancel change only the status, by the table; an illegal event leaves the status; each status is entered only by its own permitted transition |
| Aggregate.ReplayAppend | pkg/reservations/aggregate.go:115-143 | applying events one at a time is a left fold: replaying `a + b` equals replaying `b` after `a`, which lets facts about a log prefix carry over to its extensions |
| Aggregate.CreatedIsSticky | pkg/reservations/aggregate.go:118-119 | once created, no later event clears `created` |
| Aggregate.CancelledLeftOnlyByTimeChange | pkg/reservations/aggregate.go:47-52 | cancelled is left only by a time change |
| Aggregate.LaterEventsKeepCreatedAndCancelled | pkg/reservations/aggregate.go:47-52 | a log that has created the reservation stays created under any extension, and one that has cancelled it stays cancelled under an extension without a time change |
| Aggregate.DecidedEventTakesEffect | pkg/reservations/aggregate.go:74-108 | applying what a permitted command emitted reaches that command's target status (and times, for a time change) |
| Aggregate.ReservationAggregate.constructor | pkg/reservations/aggregate.go:43-56 | a fresh aggregate is pending, not created, with no events |
| Aggregate.ReservationAggregate.FireTransition | pkg/reservations/aggregate.go:46-52 | fires one table transition; an illegal one reports failure and keeps the status |
| Aggregate.ReservationAggregate.HandleCommand | pkg/reservations/aggregate.go:59-112 | appends exactly `Decide` of the current state to the uncommitted events, at most one |
| Aggregate.ReservationAggregate.ApplyEvent | pkg/reservations/aggregate.go:115-143 | the new fields are `Evolve` of the old ones; uncommitted events are untouched |
| Saga.TimeIntersectSymmetric | pkg/reservations/saga.go:164-167 | the overlap test is symmetric in its two intervals |
| Saga.TimeIntersectHalfOpen | pkg/reservations/saga.go:160-167 | for non-empty intervals the test is half-open overlap `s1 < e2 && s2 < e1`; touching intervals do not intersect |
| Saga.InitialRoomsValid | pkg/reservations/saga.go:32-43 | rooms 1 to 6 start empty and satisfy the no-overlap invariant |
| Saga.Take | pkg/reservations/saga.go:98-101 | holding an interval adds exactly that entry and keeps the others |
| Saga.Release | pkg/reservations/saga.go:113-119 | releasing an id from a room removes only that entry and touches no other room |
| Saga.RemoveKeepsNoOverlap | pkg/reservations/saga.go:115 | deleting a held interval keeps a room free of overlaps |
| Saga.InsertKeepsNoOverlap | pkg/reservations/saga.go:83-101 | inserting an interval that clashes with none keeps a room free of overlaps |
| Saga.OnCreatedKeepsInvariant | pkg/reservations/saga.go:53-108 | a Created reaction keeps every room free of overlaps |
| Saga.OnTimeChangedKeepsInvariant | pkg/reservations/saga.go:109-145 | a TimeChanged reaction keeps every room free of overlaps |
| Saga.OnCancelledKeepsInvariant | pkg/reservations/saga.go:146-155 | a Cancelled reaction keeps every room free of overlaps |
| Saga.CreatedAlreadyHeld | pkg/reservations/saga.go:65-71 | a Created for an id its room already holds issues nothing and changes nothing |
| Saga.CreatedClashDeclines | pkg/reservations/saga.go:83-95 | a Created clashing with a held interval issues exactly one Decline "Room occupied." and changes nothing |
| Saga.CreatedNoClashConfirms | pkg/reservations/saga.go:97-106 | a Created with no clash inserts the interval, issues one Confirm by "Scheduler", and leaves every other room and entry unchanged |
| Saga.CreatedUnknownRoomCrashes | pkg/reservations/saga.go:56-101 | a Created for a room outside 1 to 6 issues "Room does not exist." twice, then crashes |
| Saga.TimeChangedUnheldCrashes | pkg/reservations/saga.go:112-138 | a TimeChanged for an id held nowhere falls back to room 0 and crashes without a command |
| Saga.TimeChangedHeld | pkg/reservations/saga.go:110-144 | a TimeChanged releases the old interval, then either declines with "Room occupied" leaving the id released, or re-holds the new interval in the same room and confirms; other rooms untouched |
| Saga.CancelledReleases | pkg/reservations/saga.go:146-154 | a Cancelled removes the id from the room the scan stops at, issues nothing, and changes nothing else |
| Saga.CancelFreesSlot | pkg/reservations/saga.go:83-106 | after cancelling a held reservation, a Created whose interval clashed only with it is confirmed and takes the slot |
| Saga.FirstRequestTaken | pkg/reservations/saga.go:97-106 | the first of such requests is confirmed and taken, and the rest are again such requests for the resulting room |
| Saga.DisjointCreatesConfirmed | pkg/reservations/saga.go:83-106 | Created events for distinct new ids with pairwise disjoint intervals, none clashing with the room, are all confirmed, one Confirm each, in order |
| Saga.DisjointCreatesHeld | pkg/reservations/saga.go:97-101 | after such a run every requested interval is held under its id, earlier entries are kept and other rooms are unchanged |
| Saga.DisjointCreatesHoldNothingElse | pkg/reservations/saga.go:97-101 | after such a run the room holds only its earlier entries and the requested ids |
| Saga.OverlappingCreateDeclined | pkg/reservations/saga.go:83-95 | after such a run, a Created for a new id overlapping one of those intervals is declined with "Room occupied." and changes nothing |
| Saga.AnyOf | pkg/reservations/saga.go:84-95 | the next key of a map range loop is some key not yet visited |
| Saga.FindClash | pkg/reservations/saga.go:83-95 | the clash scan reports a clash iff some held interval intersects the new one |
| Saga.FindHolder | pkg/reservations/saga.go:112-119 | the holder scan finds the id iff some room holds it, and stops at a room that holds it (or at 0) |
| Saga.ConflictSaga.constructor | pkg/reservations/saga.go:32-43 | the index starts with rooms 1 to 6, all empty |
| Saga.ConflictSaga.RunSaga | pkg/reservations/saga.go:51-158 | the no-overlap invariant is kept; for Created the new index, commands and outcome are `OnCreated`; for TimeChanged and Cancelled they are the reaction for some room the scan may stop at; other kinds change nothing |
| Saga.ConflictSaga.HandleCreated | pkg/reservations/saga.go:53-108 | the Created branch: the new index, commands and outcome are exactly `OnCreated` of the old index, and the invariant is kept |
| Saga.ConflictSaga.HandleTimeChanged | pkg/reservations/saga.go:109-145 | the TimeChanged branch: the result is `OnTimeChanged` for some room the holder scan may stop at, and the invariant is kept |
| Saga.ConflictSaga.HandleCancelled | pkg/reservations/saga.go:146-155 | the Cancelled branch: the new index is `OnCancelled` for some room the holder scan may stop at, and the invariant is kept |
| Billing.RoundMinutes | pkg/billing/projector.go:123 | seconds to minutes, rounded to nearest with ties away from zero |
| Billing.RoundMinutesOdd | pkg/billing/projector.go:123 | rounding is symmetric about zero |
| Billing.Charge | pkg/billing/projector.go:121-138 | adds the minutes and 4 per minute to this month's bill (created at zero with the given id if absent), bumps the bill and history versions, adds to the lifetime totals, and keeps other months' bills |
| Billing.Refund | pkg/billing/projector.go:142-177 | takes the same amounts back only when this month's bill exists; otherwise the history is unchanged |
| Billing.RefundUndoesCharge | pkg/billing/projector.go:119-156 | a refund after a charge of the same minutes restores the month's minutes and amount and the totals |
| Billing.StepKeepsValid | pkg/billing/projector.go:70-185 | each step keeps the ledger invariant (every reservation's user has a history id; ids in use lie below the next fresh id; the repository keys entries by id) |
| Billing.RegisteredKeepsValid | pkg/billing/projector.go:77-84 | the Created pre-step (record the user, assign a fresh history id) keeps the ledger invariant |
| Billing.ApplyKeepsValid | pkg/billing/projector.go:111-183 | the per-kind part of a step keeps the invariant when the history found has ids in use |
| Billing.SaveKeepsValid | pkg/billing/projector.go:181-183 | saving a history whose ids are in use keeps the invariant |
| Billing.CreatedRegisters | pkg/billing/projector.go:77-118 | Created records the user, gives the user a previously unused history id, stores the pending booking and saves a new history with version 1, no bills and zero totals |
| Billing.UnseenReservationRejected | pkg/billing/projector.go:86-89 | any non-Created event for an unseen reservation returns "No reservation found" and changes nothing |
| Billing.ConfirmedCharges | pkg/billing/projector.go:119-134 | Confirmed with a pending booking charges its rounded minutes to this month's bill and the totals, bumps both versions, keeps the booking pending and leaves other histories alone |
| Billing.ConfirmedWithoutBookingRejected | pkg/billing/projector.go:135-138 | Confirmed without a pending booking changes nothing and returns an error, which is "Event not found" for a known reservation |
| Billing.DeclinedDropsBooking | pkg/billing/projector.go:140-141 | Declined deletes the pending booking, saves the history unchanged (a fresh empty one if the repository had none) and leaves the user maps and the id supply as they were |
| Billing.CancelledRefunds | pkg/billing/projector.go:142-156 | Cancelled with a pending booking saves `Refund` of the history when this month's bill exists: minutes and charge subtracted from that bill and the totals, bill and history versions bumped, other months and histories kept; otherwise the history is saved unchanged; the booking stays pending and the user maps are untouched |
| Billing.TimeChangedRefundsAndMoves | pkg/billing/projector.go:157-177 | TimeChanged with a pending booking saves `Refund` of the history for the old minutes, charges nothing, moves the pending booking to the new times and leaves the user maps untouched |
| Billing.TimeChangedWithoutBookingSavesUnchanged | pkg/billing/projector.go:157-177 | TimeChanged without a pending booking saves the history unchanged and changes nothing else |
| Billing.OtherKindsRejected | pkg/billing/projector.go:178-179 | another event kind returns an error and nothing is saved |
| Billing.RepeatedConfirmChargesTwice | pkg/billing/projector.go:119-139 | Confirmed keeps the booking pending, so a second Confirmed charges the same minutes again |
| Billing.ConfirmThenCancelRestores | pkg/billing/projector.go:119-156 | Confirmed then Cancelled in the same month restores the month's minutes and amount and the lifetime totals |
| Billing.CreateConfirmCancelReturnsToZero | pkg/billing/projector.go:77-156 | Created, Confirmed, Cancelled leave the fresh history's bill and totals at zero |
| Billing.BillingHistoryProjector.constructor | pkg/billing/projector.go:55-62 | the internal maps start empty over a given repository |
| Billing.BillingHistoryProjector.NewId | pkg/billing/projector.go:83 | each uuid drawn is fresh |
| Billing.BillingHistoryProjector.HandleEvent | pkg/billing/projector.go:70-185 | the new maps, repository and error are exactly `Step` of the old ones, and the ledger invariant is kept |
| Billing.BillingHistoryProjector.HandleKind | pkg/billing/projector.go:111-184 | the per-kind switch: the new maps, repository and error are exactly `Apply` of the old ones for the history found |
| View.Project | pkg/reservations/projector.go:56-95 | a non-reservation entity yields "model is of incorrect type"; success iff the kind is one the view receives; the version grows by one; Created sets id, name, creator, room and times with pending; TimeChanged sets pending and the times only; the other kinds set only the status, to confirmed, declined, cancelled, or declined for BookingConflicted |
| View.StatusIndependentOfPrior | pkg/reservations/projector.go:62-93 | the new status depends on the event kind alone, never on the prior snapshot |
| View.ProjectAllCounts | pkg/reservations/projector.go:94 | a stream of handled events projects without error, the version grows by the stream's length and the status is the one the last event sets |
| View.ProjectAllRejectsUnknown | pkg/reservations/projector.go:91-92 | a stream containing an unhandled kind ends in an error |
| Scenarios.CreatedThenSagaConfirms | pkg/reservations/saga.go:97-106 | a create in a free slot: the aggregate emits Created, the saga confirms the same id, and the confirm takes the aggregate to confirmed |
| Scenarios.TimeIntersectCases | pkg/reservations/saga_test.go:24-63 | the four test cases of the overlap test |
| Scenarios.WriterScenario | cmd/writer/main.go:39-95 | Matt's booking is confirmed, moved and confirmed again; Joyce's clashing booking is declined; Matt's cancellation empties room 3, and the next request for the freed hour is confirmed |
| Scenarios.ThirtyMinuteBookingScenario | pkg/billing/projector.go:112-156 | a 30-minute booking bills 30 minutes at 120 hundredths, and cancelling it brings bill and totals back to zero |

## Left out

- Process wiring, the event bus, the event store, the repositories' storage, the scripted client, tracing and logging: all I/O. The read-model repository is a map.
- The mutexes: every handler call is one atomic step. The saga's read-lock/write-lock double lookup of the room collapses into the same lookup done twice.
- Clock reads: event timestamps are dropped and the current month is a parameter.
- Billing.HandleEvent: calls `thisMonth()` twice in the Confirmed branch (pkg/billing/projector.go:122,128). The model reads the month once, so a call that straddles a month boundary is not modelled.
- Billing.Charge: money is float32 in the source. The model uses exact integer hundredths, so float rounding is not modelled.
- Billing.RoundMinutes: a Go duration saturates at about 292 years. Times here are unbounded integers, so saturation is not modelled.
- `uuid.New` is replaced by a counter. Freshness is what the model relies on.
- Billing.HandleEvent: repository find and save failures and the "incorrect entity type" branch (pkg/billing/projector.go:101-108,181-183) come from the external store and are not modelled.
- Billing.HandleEvent: "could not handle event" is returned without the formatted event text.
- View.Project: "could not handle event" is returned without the formatted event text (pkg/reservations/projector.go:92).
- Billing.HandleEvent: the pending entry is a pointer to the Created payload, and TimeChanged mutates it in place. The model updates the map entry instead; nothing else observes that payload.
- The type-assertion failures on event payloads cannot occur: each event kind is a datatype constructor.
- The aggregate's event versioning, the framework's command registration and the command-bus dispatch are foreign code. `HandleCommand` keeps its events in a sequence. Dispatch errors are discarded by the saga, so they are not modelled.
- Saga.ConflictSaga.RunSaga: for TimeChanged and Cancelled the holder is "some room the scan may stop at", because Go map order is unspecified.
