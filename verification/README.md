# Verified model of the booking platform's protocols

A Dafny 4.11 model of the concurrent core of the multi-tenant booking backend: bookings and their
outbox events, recurring series, the outbox relay, idempotent requests, refresh-token families,
payment webhooks, the availability read model, and the request transaction that carries them.
`dafny verify dfyconfig.toml` checks all of it.

The protocols are state machines whose steps are single database statements (READ COMMITTED rows,
row and unique-key locks held to the end of a transaction, the exclusion constraint, commit,
rollback, crash). A step that would wait leaves the state as it is, so a run is any list of actions
and every theorem about runs covers every interleaving of any number of clients. The services and
repositories that change rows in place are classes with the same names; each method's contract gives
its whole new state and every error case. The scan loops are methods proved against declarative
specifications that determine their results.

| area | files |
|---|---|
| bookings | `BookingDomain`, `BookingProtocol`, `BookingSlots`, `BookingLifecycle`, `BookingAtomicity`, `BookingTrail`, `BookingDisconnects`, `BookingVersions`, `BookingSeries`, `TenantConnection`, `BookingService` |
| recurring series | `RecurrenceExpander`, `RecurrenceService`, `SeriesRefinement` |
| availability | `WorkingHours`, `SlotGenerator`, `Availability` |
| outbox | `OutboxDomain`, `OutboxProtocol`, `OutboxMarks`, `OutboxRelay` |
| idempotency | `IdempotencyProtocol`, `IdempotentBooking` |
| sessions | `RefreshTokens`, `RefreshProtocol`, `RefreshBurn` |
| payments | `SubscriptionReference`, `SubscriptionDomain`, `SubscriptionService`, `WebhookProtocol` |
| requests | `RequestLifecycle` |
| shared | `Wrappers`, `Sequences`, `Arithmetic`, `Finite` |

## Where the code meets its promise only under a condition

- **A connection leaks if the client goes away during set-up and the handler then throws.** The
  middleware registers its `finish` and `close` listeners only after four awaits
  (`src/common/middlewares/tenant-context.middleware.ts:49-57`, `:100-101`), and a `close` before that
  is heard by nobody. `RequestLifecycle.CloseDuringSetupLeaks` gives the order of events,
  `RequestLifecycle.LeakIsForever` shows that the connection never returns, with its transaction open.
  `RequestLifecycle.EndedRequestsHaveReleasedExactly`: an ended request has released its connection
  exactly once, unless its response closed before the listeners were registered, its handler threw and
  no later response event came; then it has released nothing. The first of these can be tested where
  the listeners are registered, and a request that passes that test always releases
  (`RequestLifecycle.HeardRequestsRelease`).
- **A client that goes away during the handler can leave an event for work that was undone.** On `close`
  the middleware queues ROLLBACK behind the statement in flight
  (`src/common/middlewares/tenant-context.middleware.ts:89-101`); the handler then goes on with the same
  connection until its release. Bookings are under row security and out of its reach by then, but
  `outbox_events` is not (`src/database/migrations/1780299000000-OutboxEvents.ts:7-9`), so an event whose
  preceding statement was in flight is recorded on its own. Inputs: a close during the INSERT of a
  booking (`BookingDisconnects.LostBookingIsAnnounced`: `booking.created` without a booking), and a close
  during the read-back that follows a status change, a reschedule or a series cancellation
  (`BookingDisconnects.UndoneChangeIsAnnounced`: the event of a change that did not happen, about a
  booking that is there). `BookingDisconnects.CloseRecordsLateExactly`: some continuation records such an
  event if and only if a row had been written whose event was still owed, and the request was a booking
  request or that read-back was in flight. `BookingDisconnects.TrailIsExactUnlessLate`: a committed
  booking has its exact trail if and only if none of its events came late; closes that catch only inserts
  leave all committed bookings exact (`BookingDisconnects.CaughtInsertsSpareCommitted`).
- **A version from the future breaks the lifecycle.** The status guard of a change or a reschedule runs
  on a possibly stale read and only the version in the UPDATE protects it.
  `BookingVersions.StaleCheckIsSoundExactly`: every continuation stays legal if and only if the version
  is tolerable (`BookingLifecycle.Tolerable`). A request that would pass its guard now may not be ahead
  of the row at all; completing a pending booking has one version of slack; a request that can never
  pass its guard is always harmless; a booking that does not exist yet counts as pending at version 1.
  Clients that present a version they were shown always meet this.
- **A family burn can be outrun.** A rotation past its lookup still issues a working successor after
  the burn (`RefreshBurn.BurnCanBeOutrun`). `RefreshBurn.BurnIsFinalExactly`: the burn is final if and
  only if no rotation of the family is past its lookup and still able to win.
- **The webhook's UPDATE carries no version.** A cancellation between its read and its update is
  overwritten (`WebhookProtocol.UncalmCancelIsOverwritten`). `WebhookProtocol.CommitIsLegalExactly` and
  `WebhookProtocol.CommitIsDeliveryExactly` give the exact conditions. No code path of the repository
  cancels a subscription; the model's `Cancel` is an operator.
- **The day-bounded booking fetch is exact only without buffers**
  (`Availability.DayFetchIsExactWithoutBuffers`). Slots on offer are bookable with any buffers.
- **On a day on which the clock moves forward the slots of one staff member can overlap.** Minutes of the
  skipped hour are moved past later ones. `Availability.SlotsApartExactly`: given whole-minute offsets
  and minutes that stay between the day's midnights, slots of a date never overlap, whatever the hours,
  if and only if the conversion keeps the order of that date's minutes.
- **An impossible `until` date bounds nothing.** `2026-13-45` passes the pattern, luxon's invalid date
  compares false, and the series runs to its count (`RecurrenceExpander.ExpandRecurrence`).
- **Extra segments of a payment reference are ignored**
  (`SubscriptionReference.AcceptedReferences`).
- `SubscriptionRepository.findActive` is documented as the current non-canceled subscription; the code
  returns the newest one of any status. The model follows the code, and
  `SubscriptionServiceModule.SubscriptionService.Subscribe` shows that with the unique index the
  outcome is the documented one.

## Model

| member | source | states |
|---|---|---|
| BookingSlots.NoDoubleBooking | src/database/migrations/1780298800000-BookingsCore.ts:57-64 | in every run, whatever versions clients send, no two active committed bookings of one tenant and staff overlap |
| BookingSlots.NobodyIsOccupiedTwice | src/database/migrations/1780298800000-BookingsCore.ts:57-64 | the same in instants: in no run, at no time, is a staff member of a tenant occupied by two bookings |
| BookingDomain.ConflictMeans | src/database/migrations/1780298800000-BookingsCore.ts:57-64 | the constraint forbids exactly that two pending or confirmed bookings of one tenant and staff share an instant |
| BookingDomain.LifecycleIs | src/modules/booking/domain/booking-state-machine.ts:8-18 | the lifecycle in full, and a status holds its slot exactly if it leads anywhere |
| BookingSlots.WriteKeepsSlots | src/database/migrations/1780298800000-BookingsCore.ts:57-64 | one constrained write under row locks keeps pending and committed rows of all transactions free of conflicts |
| BookingSlots.CommitKeepsSlots | src/database/migrations/1780298800000-BookingsCore.ts:57-64 | making one transaction's writes visible creates no overlap, although no check runs at commit |
| BookingLifecycle.EveryChangeIsLegal | src/modules/booking/booking.service.ts:148-186 | in honest runs each step changes a committed row only along the lifecycle table with its slot kept, or moves an active booking, one version at a time |
| BookingLifecycle.BookingsOnlyMoveForward | src/modules/booking/domain/booking-state-machine.ts:8-18 | over any continuation a booking stays, its version never decreases, and a terminal row is final |
| BookingLifecycle.StatusChangeNeverConflicts | src/modules/booking/booking.repository.ts:58-70 | a checked status change meets neither a settled nor a pending slot conflict, which is why 23P01 is not mapped there |
| BookingLifecycle.RunKeepsInv | src/modules/booking/booking.repository.ts:58-94 | shown versions never run ahead, and a stale check still holds as long as the row has the presented version |
| BookingAtomicity.ChangesAreAtomic | src/modules/booking/booking.service.ts:148-186 | in every run a status change or reschedule, at its commit, has exactly the effect of the whole operation executed then: tenant, version and slot pass on the committed rows (in honest runs the status guard too), one row changes, to the requested status or to exactly the requested start and end, one version on and otherwise as it was, and one event of that kind is recorded |
| BookingAtomicity.CreationIsAtomic | src/modules/booking/booking.service.ts:65-88 | the same for a booking, in every run: at its commit its slot is still free beside every committed row, and every field of the row is as requested |
| BookingSeries.SeriesCommitsWhole | src/modules/recurrence/recurrence.service.ts:94-106 | in every run a booking request that skips nothing commits one row and one event for each of its slots, in order, every field as requested, or nothing |
| BookingSeries.CancellationStaysInReach | src/modules/booking/booking.repository.ts:28-43 | in every run all that a series cancellation ever writes are future active bookings of that series and tenant, cancelled and otherwise as committed |
| BookingSeries.CancellationIsComplete | src/modules/booking/booking.repository.ts:28-43 | a series cancellation during which nothing else commits writes every such booking by the time no row is left to visit, however the steps of others interleave |
| BookingSeries.CancellationCommitsWhole | src/modules/booking/booking.service.ts:116-124 | in every run a series cancellation records nothing before its bulk update is over and commits exactly one cancelled event for each row that it wrote |
| SeriesRefinement.QuietBookingCommits | src/modules/booking/booking.service.ts:65-88 | progress: if nobody else is writing, a booking request commits its one row and event exactly if the slot is free, and otherwise leaves everything as it was |
| SeriesRefinement.QuietSeriesIsFirstFit | src/modules/recurrence/recurrence.service.ts:94-134 | refinement: if nobody else is writing, the statements of a series request commit exactly the rows and events of the first fit, unless it may not skip and first fit skips; then nothing changes |
| SeriesRefinement.QuietCancellationCommits | src/modules/booking/booking.service.ts:116-124 | progress: if nobody else is writing, a series cancellation, whatever the order of its visits, commits every future active booking of the series cancelled, one event each, and changes no other row |
| SeriesRefinement.PlaceAlone | src/modules/recurrence/recurrence.service.ts:120-132 | one occurrence: inserted with its event if its slot is free in the request's own view, else skipped or the end of the request |
| BookingTrail.EventsMatchBookings | src/modules/booking/booking.service.ts:44-186 | conservation over every run, whatever versions clients send: each committed booking has exactly `version` events, the first and only the first `booking.created`, all about the row's staff, service and customer, the last with the row's status and start; no committed transaction leaves an event without a booking |
| BookingTrail.EventsFollowLifecycle | src/modules/booking/domain/booking-state-machine.ts:8-18 | if clients present versions they were shown, each trail is a path of the lifecycle table |
| BookingDisconnects.CloseIsRollback | src/common/middlewares/tenant-context.middleware.ts:89-101 | tables, transactions and locks are those of a run in which closed requests were rolled back and silent, so every theorem about runs holds with clients that go away |
| BookingDisconnects.TrailIsExactUnlessLate | src/modules/booking/booking.service.ts:43-58 | the relay finds a committed booking's trail with late events merged in; it is the exact trail if and only if none came late; no late event of a committed booking is `booking.created` |
| BookingDisconnects.LostBookingsHaveOneEvent | src/modules/booking/booking.service.ts:76-87 | of a booking that is not there the relay finds at most one event, a late `booking.created` |
| BookingDisconnects.CaughtInsertsSpareCommitted | src/modules/booking/booking.service.ts:95-108 | if no close came during a read-back, every committed booking has its exact trail |
| BookingDisconnects.CloseRecordsLateExactly | src/modules/booking/booking.service.ts:171-185 | after a close some continuation records the event of undone work if and only if a written row's event was owed and the request was a booking request or was reading that row back |
| BookingDisconnects.ReleaseSilences | src/common/middlewares/tenant-context.middleware.ts:88-101 | in every run a closed request records at most one event, and none once its connection was released |
| BookingDisconnects.LostBookingIsAnnounced | src/modules/booking/booking.service.ts:76-87 | the order of statements that leaves `booking.created` without a booking |
| BookingDisconnects.UndoneChangeIsAnnounced | src/modules/booking/booking.service.ts:179-184 | a close during the read-back leaves rows and trail as they were and records the change's event all the same |
| BookingTrail.CommitKeepsTrail | src/modules/booking/booking.service.ts:43-58 | a commit publishes rows and events together, so no trail is ever cut or doubled |
| BookingDomain.FaithfulStep | src/modules/booking/booking.service.ts:44-58 | a write and its event extend a faithful trail; a legal step and the event that announces it extend a path of the lifecycle |
| BookingVersions.UncontendedRequestCommits | src/modules/booking/booking.service.ts:148-186 | progress: a legal request with the current version on an unlocked row for an unopposed slot commits, and changes exactly that row and event list |
| BookingVersions.RefusedRequestFails | src/modules/booking/booking.service.ts:148-186 | and a request for a row that is not there for its tenant, in a status that does not allow it or with another version fails, and its rollback leaves everything as before |
| BookingVersions.StaleCheckIsSoundExactly | src/modules/booking/booking.service.ts:148-186 | after any status change or reschedule of any booking begins with an arbitrary version, every continuation stays legal if and only if the version is tolerable for the booking as it is |
| BookingVersions.CancelAt | src/modules/booking/booking.service.ts:138-186 | other honest clients can bring an active booking to any later version, cancelled |
| BookingVersions.IntolerableIsUnsound | src/modules/booking/booking.repository.ts:57-94 | any other version has a continuation of honest requests in which this one commits over a cancelled booking |
| BookingVersions.TolerableIsSound | src/modules/booking/booking.service.ts:148-186 | a tolerable version stays harmless in every continuation, although the check may run much later |
| TenantConnection.Find | src/modules/recurrence/recurrence.service.ts:120-128 | a savepoint name means the most recent savepoint of that name |
| TenantConnection.Connection.OpenSavepoint | src/modules/recurrence/recurrence.service.ts:122 | pushes the tables of that moment, unless the transaction is aborted |
| TenantConnection.Connection.ReleaseSavepoint | src/modules/recurrence/recurrence.service.ts:125 | forgets the savepoint and all later ones |
| TenantConnection.Connection.RollbackToSavepoint | src/modules/recurrence/recurrence.service.ts:128 | restores all tables, clears the aborted flag and keeps the savepoint |
| TenantConnection.Connection.Commit | src/common/interceptors/tenant-transaction.interceptor.ts:9-21 | publishes all tables; an aborted transaction is rolled back instead |
| TenantConnection.Connection.Rollback | src/common/middlewares/tenant-context.middleware.ts:89-99 | back to what was committed |
| TenantConnection.Connection.Create | src/modules/booking/booking.repository.ts:15-22 | inserts exactly if the slot is free and the row is not refused; an error aborts the transaction and is told apart |
| TenantConnection.Connection.ApplyStatus | src/modules/booking/booking.repository.ts:57-70 | changes status and version, and nothing else of one row, exactly if id, tenant and version match and the constraint allows it |
| TenantConnection.Connection.ApplyReschedule | src/modules/booking/booking.repository.ts:72-101 | sets start and end as given and the next version, all else of the row kept, exactly if id, tenant and version match and the new slot is free; a taken slot is its own error |
| TenantConnection.Connection.CancelFutureSeries | src/modules/booking/booking.repository.ts:28-43 | cancels exactly the future active rows of the series and tenant, field by field otherwise as they were, and lists each once |
| TenantConnection.Connection.Record | src/modules/outbox/outbox.repository.ts:17-25 | appends the event on the same transaction |
| BookingServiceModule.BookingService.CreateOccurrence | src/modules/booking/booking.service.ts:94-109 | one pending row at version 1, every field as given, with its created event, or an error with rows and events unchanged |
| BookingServiceModule.BookingService.DoCreate | src/modules/booking/booking.service.ts:65-88 | 404, 400 and 404 in this order, then the slot decides; the row has the request's staff, service, customer and start, the service's price, and ends after its duration; all or nothing |
| BookingServiceModule.BookingService.Transition | src/modules/booking/booking.service.ts:176-186 | 404, 422 and 409 in this order, else exactly one legal row step with its event; no database error is possible |
| BookingServiceModule.BookingService.Reschedule | src/modules/booking/booking.service.ts:146-174 | If-Match before the body's version, 412 or 409 accordingly, every other error case, else the row starts as requested, ends after the service's duration, has the next version and is otherwise as it was, with its event |
| BookingServiceModule.BookingService.CancelSeries | src/modules/booking/booking.service.ts:116-124 | the future active rows of the series are cancelled, field by field otherwise as they were; exactly one cancellation event for each and none for any other booking |
| RecurrenceExpander.ExpandRecurrence | src/modules/recurrence/domain/recurrence-expander.ts:20-38 | the first `limit` firing days in order, none missing, none repeated; at most 100 and at most the count, exactly that many when no real until date is given |
| RecurrenceExpander.FiresMeans | src/modules/recurrence/domain/recurrence-expander.ts:40-81 | the firing days on the calendar: from the start to the last day, every `interval` days, or in every `interval`-th Monday-based week on each listed weekday (0 Sunday to 6 Saturday), the start's own if none is listed |
| RecurrenceExpander.ExpandDaily | src/modules/recurrence/domain/recurrence-expander.ts:40-52 | the loop meets the declarative meaning of a daily rule |
| RecurrenceExpander.ExpandWeekly | src/modules/recurrence/domain/recurrence-expander.ts:54-81 | the day-by-day scan with its computed bound meets the declarative meaning of a weekly rule |
| RecurrenceExpander.ScanBoundSuffices | src/modules/recurrence/domain/recurrence-expander.ts:65-68 | the scanned days always hold at least `limit` hits, for any interval, weekdays and start |
| RecurrenceExpander.ActiveWeekHits | src/modules/recurrence/domain/recurrence-expander.ts:74-77 | a whole active week has one hit for each distinct chosen weekday |
| RecurrenceExpander.ExpansionIsUnique | src/modules/recurrence/domain/recurrence-expander.ts:19-38 | the declarative meaning admits one list only |
| RecurrenceExpander.WeeklyIsSevenTimesDaily | src/modules/recurrence/domain/recurrence-expander.ts:40-81 | weekly without weekdays at interval n means the same as daily at interval 7n |
| RecurrenceExpander.AllWeekdaysIsDaily | src/modules/recurrence/domain/recurrence-expander.ts:40-81 | weekly on all seven days at interval 1 means the same as daily at interval 1 |
| RecurrenceServiceModule.FirstFitIsSound | src/modules/recurrence/recurrence.service.ts:109-134 | created and skipped split the occurrences in order, the created are there, each skipped one overlaps an active booking of the final state, older rows are untouched, overlap freedom is kept |
| RecurrenceServiceModule.FirstFitIsGreedy | src/modules/recurrence/recurrence.service.ts:120-132 | an occurrence is created exactly if it overlaps no earlier booking and no earlier created occurrence |
| RecurrenceServiceModule.FirstFitTrails | src/modules/recurrence/recurrence.service.ts:120-132 | each new booking has just its created event; older trails are as before |
| RecurrenceServiceModule.RecurrenceService.TryOccurrence | src/modules/recurrence/recurrence.service.ts:121-131 | kept, or undone to rows and events before it; the transaction is never left aborted |
| RecurrenceServiceModule.RecurrenceService.SkipConflicts | src/modules/recurrence/recurrence.service.ts:109-134 | succeeds exactly if the database refuses no free occurrence, and then is first fit; savepoints pile up by one for each skip |
| RecurrenceServiceModule.RecurrenceService.AllOrNothing | src/modules/recurrence/recurrence.service.ts:94-106 | succeeds exactly if first fit skips nothing and nothing is refused, and then equals first fit; a taken slot and a refusal by the database are told apart |
| RecurrenceServiceModule.RecurrenceService.CreateInTransaction | src/modules/recurrence/recurrence.service.ts:31-88 | each rejection in the source's order, 400 exactly when the rule fires on no day, else success exactly if no free occurrence is refused and, under all-or-nothing, none is taken, with the error that fits; the outcome is the series' row and first fit over the expanded instants |
| RecurrenceServiceModule.RecurrenceService.Create | src/modules/recurrence/recurrence.service.ts:31-88 | to the end of the transaction, with the same rejections: an error leaves the committed tables as they were, an answer means that the series' row, with the request's own fields, and the first-fit outcome under its id were committed, each new booking an occurrence field by field |
| WorkingHoursModule.WorkingHoursService.Create | src/modules/working-hours/working-hours.service.ts:15-39 | adds the interval exactly if staff exists, interval is proper and nothing overlaps; the table stays free of overlaps |
| WorkingHoursModule.ClashMeans | src/modules/working-hours/working-hours.service.ts:22-23 | two intervals clash exactly if they share a minute of one weekday of one staff member |
| WorkingHoursModule.ForStaffWeekdayIs | src/modules/working-hours/working-hours.repository.ts:16-18 | exactly the intervals of that tenant, staff and weekday |
| SlotGenerator.GenerateSlots | src/modules/availability/domain/slot-generator.ts:12-25 | exactly the grid slots inside the window that overlap no blocker, in order and disjoint |
| SlotGenerator.OverlapsMeans | src/modules/availability/domain/slot-generator.ts:7-9 | two proper intervals overlap exactly if they share an instant |
| SlotGenerator.GeneratedIsUnique | src/modules/availability/domain/slot-generator.ts:11-25 | that specification admits one list only |
| Availability.FreeMeansBookable | src/modules/availability/availability.service.ts:106-112 | a slot of the day that no fetched padded booking overlaps is overlapped by no active booking at all |
| Availability.DayFetchIsExactWithoutBuffers | src/modules/booking/booking.repository.ts:45-55 | the day-bounded fetch agrees with a scan of all rows, for all tables and slots of the day, if and only if there are no buffers |
| Availability.TimeOffFetchIsExact | src/modules/time-off/time-off.repository.ts:20-23 | for every slot of the day, the day-bounded fetch blocks it if and only if it overlaps some time off of that tenant and staff at all |
| Availability.OfferedSlotsAreBookable | src/modules/availability/availability.service.ts:39-113 | an offered slot, booked in the same state, passes the capability check and the exclusion constraint, for any buffers, and overlaps no time off of that staff member |
| Availability.WindowsApart | src/modules/availability/availability.service.ts:76-88 | slots of two non-overlapping intervals of one day are disjoint if the conversion keeps the order of that date's minutes |
| Availability.SlotsApartExactly | src/modules/availability/domain/local-time.ts:4-10 | that assumption is exact: if the order is not kept, two intervals that do not clash both give the same slot |
| Availability.SortFacts | src/modules/availability/availability.service.ts:91 | a sorted permutation of the slots |
| Availability.StaffSlots | src/modules/availability/availability.service.ts:67-88 | exactly the slots of one staff member's schedule, disjoint if the conversion keeps the order of that date's minutes |
| Availability.Compute | src/modules/availability/availability.service.ts:39-93 | 400, 404, else exactly the offered slots, sorted, disjoint for each staff member if the conversion keeps the order of that date's minutes |
| Availability.OfferedExactly | src/modules/availability/availability.service.ts:39-113 | what is on offer, from the tables: capable and active staff, a whole number of durations into listed hours of that weekday, clear of time off, the buffer before kept free ahead of each booking and the buffer after behind it |
| Availability.ComputeThenBook | src/modules/booking/booking.service.ts:65-88 | any slot taken from the answer and booked at once becomes a booking of exactly that staff and time, outside any time off |
| OutboxDomain.MarksFollowPolicy | src/modules/outbox/outbox.repository.ts:45-76 | both marks keep the retry policy (pending below five attempts, doubling waits) and make the event not due |
| OutboxDomain.MarksHandle | src/modules/outbox/outbox.repository.ts:45-76 | field by field: a delivered event is dispatched and otherwise as it was; a failed one has one more attempt and is dead at the fifth, else put off by 30 s doubled for each failure before |
| OutboxDomain.EarlierIsAnOrder | src/modules/outbox/outbox.repository.ts:31-43 | the relay's order is strict and total, by creation first |
| OutboxProtocol.DeadEventsWaited | src/modules/outbox/outbox.repository.ts:66-76 | in every run a dead event failed five times and was scheduled to wait 30, 60, 120 and 240 s, 450 s in all |
| OutboxProtocol.RelayIsSafe | src/modules/outbox/outbox.service.ts:25-43 | over all interleavings and crashes: claims of live batches are disjoint, a committed dispatched booking event has both jobs in the queue, every job belongs to a committed booking event, rows follow the retry policy |
| OutboxProtocol.EventsAreKept | src/modules/outbox/outbox.repository.ts:27-76 | no committed event or job ever disappears, and a dispatched or dead event is final |
| OutboxProtocol.ClaimKeepsInv | src/modules/outbox/outbox.repository.ts:31-43 | claiming any due events that nobody holds keeps live batches disjoint |
| OutboxProtocol.CommitKeepsEvents | src/modules/outbox/outbox.service.ts:25-43 | a batch's commit keeps every event's identity and changes pending events only |
| OutboxMarks.CommitMarksAsDelivered | src/modules/outbox/outbox.service.ts:25-43 | in every run the commit of a batch marks each of its events as its own delivery went: dispatched, or one attempt further and put off or dead |
| OutboxMarks.CommitMarksNoOther | src/modules/outbox/outbox.service.ts:25-43 | and no other event |
| OutboxMarks.HeldEventsAreDue | src/modules/outbox/outbox.repository.ts:31-43 | in every run no relay holds an event before its time, a finished one, or more than twenty |
| OutboxMarks.FreeEventsCanBeTaken | src/modules/outbox/outbox.repository.ts:31-43 | and any twenty due events in nobody's hands can be taken together |
| OutboxMarks.DeliveredIsDispatched | src/modules/outbox/outbox.service.ts:29-36 | progress: a due event in nobody's hands that is claimed and delivered ends dispatched, a booking event with exactly its two jobs added |
| OutboxMarks.FailedIsPutOff | src/modules/outbox/outbox.service.ts:35-40 | one whose delivery fails, before, between or at either of its jobs, is put off or given up; the jobs added so far stay, and nothing else changes |
| OutboxRelay.DueAfterMark | src/modules/outbox/outbox.repository.ts:31-43 | marking the oldest due event removes just it from the due list |
| OutboxRelay.Relay.ClaimBatch | src/modules/outbox/outbox.repository.ts:31-43 | the first min(limit, due) due events |
| OutboxRelay.Relay.Dispatch | src/jobs/workers/outbox-relay.worker.ts:14-37 | both jobs of a booking event in order, or an error after none or one; nothing for a foreign event |
| OutboxRelay.Relay.Handle | src/modules/outbox/outbox.service.ts:29-40 | one row changes, to dispatched if the event was delivered, else to one more attempt and the next wait or dead; the event leaves the due list |
| OutboxRelay.Relay.ProcessBatch | src/modules/outbox/outbox.service.ts:25-43 | handles exactly the first min(limit, due) events, each marked as its own delivery went and all other rows kept, and counts the delivered ones |
| OutboxRelay.Relay.Tick | src/jobs/workers/outbox-relay.worker.ts:46-64 | the drain loop ends; the rows taken, twenty a batch, are marked as their deliveries went and all others kept; unless stopped, nothing due is left when every delivery succeeds; stopped exactly if told to before the end; no re-entry |
| IdempotencyProtocol.RunsAreIdempotent | src/modules/idempotency/idempotency.service.ts:12-50 | for each tenant and key at most one operation commits, a committed key has its response (the in-progress branch is unreachable), each answer under a key is the stored response to the same body |
| IdempotencyProtocol.FirstRequestRuns | src/modules/idempotency/idempotency.service.ts:12-32 | progress: a request with a new key runs its operation once and stores the result with the hash of its body; one without a key runs it and stores nothing; both answer its result |
| IdempotencyProtocol.FailedOperationLeavesNothing | src/modules/idempotency/idempotency.service.ts:12-32 | an operation that throws cannot be committed, and its rollback leaves nothing of the request, whatever came before |
| IdempotencyProtocol.RetryAfterCommit | src/modules/idempotency/idempotency.service.ts:22-49 | a retry with the same body gets the winner's response, with another body is refused; neither runs anything |
| IdempotencyProtocol.RollbackFreesTheKey | src/modules/idempotency/idempotency.repository.ts:13-24 | a second claimer waits for the first, and may run if the first rolls back |
| IdempotencyProtocol.CommittedKeyIsReplayed | src/modules/idempotency/idempotency.service.ts:22-26 | a committed key always leads to the replay |
| IdempotentBooking.BookingApi.Claim | src/modules/idempotency/idempotency.repository.ts:13-24 | insert or ignore on the key |
| IdempotentBooking.BookingApi.Replay | src/modules/idempotency/idempotency.service.ts:34-49 | reused key, in progress, or the stored response |
| IdempotentBooking.BookingApi.Create | src/modules/booking/booking.service.ts:60-63 | a known key touches nothing; otherwise each refusal for its own reason only, or one booking with the request's fields and its event, stored under a new key |
| IdempotentBooking.BookingApi.Handle | src/modules/idempotency/idempotency.service.ts:12-32 | the same to the end of the transaction: anything but a made booking leaves keys, rows and events as they were |
| IdempotentBooking.BookingApi.SendTwice | src/modules/idempotency/idempotency.service.ts:12-50 | the same request sent twice gets the same booking and makes it once |
| RefreshTokens.RefreshTokenService.Issue | src/modules/refresh-token/refresh-token.service.ts:24-36 | one fresh token with the given tenant and role, in the given family or one of its own |
| RefreshTokens.RefreshTokenService.MarkUsedIfUnused | src/modules/refresh-token/refresh-token.repository.ts:21-28 | wins exactly if the token is unused |
| RefreshTokens.RefreshTokenService.Claim | src/modules/refresh-token/refresh-token.service.ts:38-58 | consumed, burnt, expired or invalid, each with its whole effect |
| RefreshTokens.RefreshTokenService.Logout | src/modules/refresh-token/refresh-token.service.ts:64-70 | burns the family; an unknown token changes nothing |
| RefreshTokens.RefreshTokenService.Refresh | src/modules/auth/auth.service.ts:102-123 | an unusable token changes nothing; else the family is burnt, or exactly one successor is issued with the role looked up now |
| RefreshProtocol.FamiliesAreChains | src/modules/refresh-token/refresh-token.service.ts:25-58 | over all interleavings: unused tokens plus carrying rotations of a family number at most one, each token is exchanged at most once, a family is a single chain of one user and tenant |
| RefreshProtocol.UnusedTokenIsExchanged | src/modules/auth/auth.service.ts:102-123 | progress: an unused token becomes used and one successor appears, of its family, user and tenant, with the role looked up now, for thirty days; no other token changes |
| RefreshProtocol.BadTokenBurnsItsFamily | src/modules/refresh-token/refresh-token.service.ts:38-58 | a used token, or one whose membership is gone, revokes just its family and issues nothing |
| RefreshProtocol.LoginAndLogout | src/modules/refresh-token/refresh-token.service.ts:24-70 | a login starts a family with one token for thirty days, a logout revokes just the token's family |
| RefreshProtocol.TokensOnlyAge | src/modules/refresh-token/refresh-token.service.ts:38-58 | over any continuation a token keeps its session and expiry, a used one stays used, and a revoked or expired one is never usable again |
| RefreshProtocol.ConsumeMovesLiveEnd | src/modules/refresh-token/refresh-token.repository.ts:21-28 | the atomic consume moves the family's one live end into the rotation |
| RefreshBurn.BurnRevokesAll | src/modules/refresh-token/refresh-token.service.ts:47-51 | the reuse response leaves no unrevoked token in the family |
| RefreshBurn.LogoutRevokesAll | src/modules/refresh-token/refresh-token.service.ts:64-70 | so does logout |
| RefreshBurn.BurnIsFinalExactly | src/modules/refresh-token/refresh-token.service.ts:47-70 | in a burnt family a later claim can succeed if and only if some rotation is past its lookup and still able to win |
| RefreshBurn.BurnCanBeOutrun | src/modules/auth/auth.service.ts:103-123 | a concrete race in which the burnt family gets a working token |
| SubscriptionReference.ReferenceRoundTrip | src/modules/subscription/domain/subscription-reference.ts:5-13 | parsing a built reference gives back its tenant |
| SubscriptionReference.AcceptedReferences | src/modules/subscription/domain/subscription-reference.ts:9-13 | the references accepted for a tenant are exactly the built ones, possibly with further segments |
| SubscriptionReference.UuidIs | src/modules/subscription/domain/subscription-reference.ts:12 | the tenant segment: thirty-six characters, hyphens at four places and hexadecimal digits elsewhere |
| SubscriptionReference.SplitJoin | src/modules/subscription/domain/subscription-reference.ts:10 | splitting what was joined gives the segments back |
| SubscriptionReference.JoinSplit | src/modules/subscription/domain/subscription-reference.ts:10 | joining what was split gives the string back |
| SubscriptionDomain.OnceOnly | src/modules/subscription/subscription.service.ts:79-95 | any delivery sequence with repeats, foreign references and rolled-back attempts ends in the same tables as its first committed copies |
| SubscriptionDomain.LifecycleIs | src/modules/subscription/domain/subscription-state-machine.ts:4-17 | the lifecycle in full |
| SubscriptionDomain.AppliedSettles | src/modules/subscription/subscription.service.ts:83-93 | row by row: the named subscription of the tenant becomes active, or past due after a failed payment, unless canceled; every other row stays |
| SubscriptionDomain.DeliveriesAreLegal | src/modules/subscription/domain/subscription-state-machine.ts:4-17 | over any sequence rows stay, each net status change is on the table, canceled is absorbing, references and current subscriptions stay unique |
| SubscriptionDomain.OnlyNamedSubscriptionsMove | src/modules/subscription/subscription.service.ts:79-95 | over any sequence a subscription moves only if some committed delivery carries its reference, built for its tenant |
| SubscriptionDomain.DeliveryTouchesItsTenantOnly | src/modules/subscription/subscription.service.ts:79-95 | a delivery changes at most the subscription its reference names, by one legal transition |
| SubscriptionServiceModule.SubscriptionService.Subscribe | src/modules/subscription/subscription.service.ts:42-76 | succeeds exactly if the plan exists and the tenant has no current subscription, with one trialing row; the new reference parses to the tenant |
| SubscriptionServiceModule.SubscriptionService.ConsumeWebhook | src/modules/subscription/subscription.service.ts:79-95 | claim and apply together, or neither: a first committed event makes the subscription it names active if the payment succeeded and past due if it failed, a canceled one and all other rows stay |
| WebhookProtocol.EventsApplyOnce | src/modules/payment/webhook-receipt.repository.ts:11-23 | over all interleavings no event is applied twice, and a delivery writes only a subscription of the tenant its reference names |
| WebhookProtocol.CommitSettles | src/modules/subscription/subscription.service.ts:86-93 | in every run a delivery's commit leaves the row it wrote active or, for a failed payment, past due, and every other row as it was |
| WebhookProtocol.DeliverySettles | src/modules/subscription/subscription.service.ts:79-95 | progress: an undisturbed first delivery settles the subscription that its reference names and adds only its receipt |
| WebhookProtocol.RepeatChangesNothing | src/modules/payment/webhook-receipt.repository.ts:11-23 | a repeated event goes through and changes nothing |
| WebhookProtocol.UnknownIsReceipted | src/modules/subscription/subscription.service.ts:83-93 | an event that names no subscription is receipted and changes nothing else |
| WebhookProtocol.UpdatesAreExclusive | src/modules/subscription/subscription.repository.ts:33-36 | in every run no two deliveries have uncommitted updates of one subscription |
| WebhookProtocol.SubscriptionsBeginOnTrial | src/modules/subscription/subscription.service.ts:42-76 | every new subscription is on trial under a reference of its own that names its tenant, and a free one is never refused |
| WebhookProtocol.QuietRunsAreSerial | src/modules/subscription/subscription.service.ts:79-95 | interleaved deliveries end in the tables of whole deliveries in commit order |
| WebhookProtocol.CommitIsDeliveryExactly | src/modules/subscription/subscription.service.ts:83-93 | in any run a commit equals one whole delivery if and only if the decision taken on the read still stands |
| WebhookProtocol.CalmRunsAreLegal | src/modules/subscription/subscription.service.ts:86-93 | unless an operator cancels between read and update, every status change is legal |
| WebhookProtocol.CommitIsLegalExactly | src/modules/subscription/subscription.repository.ts:33-36 | a delivery's commit is a legal change if and only if the row has not been canceled since it was read |
| WebhookProtocol.UncalmCancelIsOverwritten | src/modules/subscription/subscription.repository.ts:33-36 | a cancellation between read and update is undone |
| RequestLifecycle.ConnectionsAreConserved | src/common/middlewares/tenant-context.middleware.ts:46-103 | for any order and repetition of failures, blocks, commits and response events, early ones included, every pool connection is free or held by exactly one request, none is released twice, and a transaction ends at most once |
| RequestLifecycle.CommitsAndRollbacksHaveCauses | src/common/interceptors/tenant-transaction.interceptor.ts:9-21 | in every run a request is served only after its tenant was found in good standing, in an open transaction until that is settled; only a handler that returned has it committed, and only an event of the response has it rolled back |
| RequestLifecycle.ServedRequestsAreSettled | src/common/interceptors/tenant-transaction.interceptor.ts:12-16 | progress, from any reachable state: a handler that returns first has its transaction committed, a response that ends first has it rolled back; either way the connection is back in the pool a step later |
| RequestLifecycle.SetupServesOrReleases | src/common/middlewares/tenant-context.middleware.ts:46-87 | a tenant in good standing is served in an open transaction; otherwise the transaction is rolled back and the connection comes back |
| RequestLifecycle.FailedStartReleases | src/common/middlewares/tenant-context.middleware.ts:46-87 | without a transaction or a connection there is no rollback, and whatever connection was taken comes back |
| RequestLifecycle.EndedRequestsHaveReleasedExactly | src/common/interceptors/tenant-transaction.interceptor.ts:9-21 | an ended request has released its connection exactly once, except, and then never, if its response closed before the listeners were registered, its handler threw and no later response event came |
| RequestLifecycle.HeardRequestsRelease | src/common/middlewares/tenant-context.middleware.ts:88-101 | a request whose response was still open when the listeners were registered always releases |
| RequestLifecycle.CloseDuringSetupLeaks | src/common/middlewares/tenant-context.middleware.ts:46-103 | the order of events that loses a connection with its transaction open |
| RequestLifecycle.LeakIsForever | src/common/middlewares/tenant-context.middleware.ts:88-101 | whatever other requests do, the lost connection never returns to the pool |

## Left out

- Controllers, DTO decorators, logging, metrics, mail, OAuth, admin, plans, staff and customer CRUD, reporting: plumbing or easy members; DTO bounds appear as preconditions.
- Booking price currency, soft deletion of bookings, and the seed data, which writes bookings without events.
- Row-level security itself: statements carry the tenant condition explicitly.
- Luxon: local days are integers with day 0 a Monday and the conversion to instants is a parameter; wall-clock drift after a start time inside a DST gap is not modelled. The theorems that need it assume, of the date at hand, that every minute lies between its two midnights, or that the conversion keeps the order of its minutes.
- Database errors on the insertion of the series' own row: it is taken to succeed.
- Concurrent writers during the insertion of a series are modelled in `BookingProtocol`, where first fit is not claimed: a skipped slot may have become free by the commit.
- BullMQ: the queue is the set of job ids ever added, so only at-least-once enqueueing is stated; completed jobs are removed and may be added again.
- The relay reads one clock where the code compares with the database's and schedules with its own; a failing mark aborts the batch and is the model's crash.
- Nothing is said about the order in which the relay sees two events of one booking.
- Replayed responses are the booking's id, not its serialised form; hashing is an arbitrary function, injective where a theorem needs it.
- The order of the ids returned by the bulk cancellation is the order of ids; nothing depends on it but the order of its events.
- Foreign keys and other reasons for the database to refuse a row are one parameter, `refused`.
- In `WebhookProtocol` the partial unique index on current subscriptions is not modelled, so it admits more runs than the database; `SubscriptionServiceModule` has it.
- Rollbacks and releases that never return.
- In `IdempotencyProtocol` a rolled-back request issues no further statement: keys are under row security, so after ROLLBACK it could write none; its operation's late events are those of `BookingDisconnects`.
- The staff limit of a plan: a soft check without a concurrent guarantee.
- UUID check: the 8-4-4-4-12 shape in hexadecimal digits, not the version and variant digits.
- BookingLifecycle.EveryChangeIsLegal: holds for runs whose clients present versions they were shown; `BookingVersions.StaleCheckIsSoundExactly` says exactly which other versions are harmless.
- WebhookProtocol.QuietRunsAreSerial: excludes runs in which an operator cancels a row between a delivery's read and update, or a subscription appears under a reference just looked up in vain; `WebhookProtocol.CommitIsDeliveryExactly` covers every run.
- Availability.Compute: `staffId` in the query is taken as given or absent; an empty string counts as absent in the code.
