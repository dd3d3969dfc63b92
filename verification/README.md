# Verified model of the wakewake booking saga

wakewake books water-sport products in three services. Availability owns reservations and the exclusion
constraint that keeps them apart, Booking owns bookings and drives the saga, Payment owns payments and listens to
Stripe. Each has its own database. They talk through a transactional outbox, an at-least-once broker and an
inbox, except for one synchronous call: Booking calls Availability's confirm endpoint inside its own transaction,
while the booking row is locked. This project models those services, states what their code and documentation
promise, and proves it.

It has three parts.

**The saga** (`Saga`, `SagaInvariant`, `SagaFrames`, `SagaMoves`, `SagaSteps`, `SagaTheorems`, `SagaOrder`,
`SagaLoss`, `SagaRuns`, `SagaRelay`, `SagaConsumer`, `SagaCalls`, `DeliveryOrder`). A `System` holds the three
databases, the processed-event sets, the calls in progress, Stripe's intents, the outbox marks, the messages in flight
and the dead-letter queue. `Next` is one of 25 steps: a create call starts, places its hold, loses or receives the
reply, inserts its booking or dies; a hold is swept; a payment is started, recorded, settled by a webhook; a consumer
commits or never does; a confirm is begun, served (perhaps late, perhaps several times, perhaps after its caller gave
up), finished or aborted; a message is published, published without being marked, marked without being in any queue,
duplicated, acknowledged, dead-lettered, redriven. A crash before a commit is a step that was not taken.
`SagaInvariant.Inv` is the invariant, spanning all three services; `SagaSteps.RunKeeps` shows that every run keeps it;
`SagaTheorems` draws the promises from it, `SagaOrder` shows that the order of deliveries does not matter in any run,
`SagaLoss` what a misread confirm costs, and `SagaRelay`, `SagaConsumer` and `SagaCalls` that what the relay, the
consumers and the endpoints do are steps of the saga.

**The databases** (`Reservations`, `AvailabilityDb`, `Bookings`, `BookingDb`, `Payments`, `PaymentDb`,
`Idempotency`, and the classes in `AvailabilityStore`, `BookingStore`, `PaymentStore`). The `*Db` modules give each
transaction as a function on a database value; the saga is composed of these functions. The `*Store` classes do
what the Go stores do, statement by statement on mutable tables, and each method is proved equal to its function.

**The loops** (`Relay`, `Publisher`, `Consumer`, `Keyset`, `Catalog`, `Sql`, and the sweeper in `AvailabilityStore`). The
outbox relay and the publisher below it, the consumer with its inbox, the TTL sweeper and the keyset-paged lists,
with their termination measures. What can go wrong in a loop - refusals, failed commits, unreadable scans, shutdowns -
is a parameter, and each loop's contract says what it does and reports under every such schedule.

## Assumptions

- A transaction (`WithinTx`, `inbox.Process`) is atomic, and `FOR UPDATE` gives mutual exclusion per row.
- Minted ids are fresh where the code mints them; a collision is refused by the primary key, as in the code.
- A fingerprint is an injective digest, so the decoded request body stands for it.
- Stripe answers the same key and parameters with the same intent and refuses other parameters under that key.
- Rows are never deleted, except published outbox rows by the relay's prune.
- Closed world: only Booking calls Availability's create and confirm endpoints, and nobody calls its release
  endpoint. Each event has one consumer; notification's mail is not part of this model.
- Readings of an application clock are arbitrary in every step. Availability's database clock is part of the state.
- An envelope's identity is the service that staged it and its position in that service's log.
- A message in a queue stays there until it is acknowledged or dead-lettered (durable queues, persistent messages),
  and the broker answers the messages of one channel in the order they were sent.
- That Publish returning nil means the message is in its consumer's queue is not assumed: when it does is
  `Publisher.NilMeansQueued`, and the saga has a step for when it does not.

## Where the code and its comments differ

- services/booking/internal/domain/booking.go:59-65 says that concurrent creates under one key all receive the same
  reservation. Each call mints its own booking id, and the id is part of the body Availability fingerprints, so
  only the call that made the reservation ever gets it; any other is refused with idempotency_key_reuse, and so is a client
  that repeats its request after losing the first reply (`SagaRuns.UsedKeyServesItsOwnCall`, `OneHolderPerKey`,
  `RetryCanBeRefused`). What holds is "at most one".
- An expiry that is delivered before Booking has inserted the booking is accepted as unknown and dropped, and the
  booking then stays held on a released reservation (`SagaRuns.ExpiryCanBeDropped`). Nothing is lost exactly when
  the expiry was not dropped, and only expiries staged before the booking's row existed can be
  (`SagaTheorems.NoLostExpiry`).
- shared/platform/outbox/relay.go:235-236 says that after a refusal the next tick retries. `publishBatch` returns the
  rows it claimed, not the rows it published, so with a full batch and a refusing broker `drain` retries at once, and an
  outage spends the whole retry budget of all but one batch of the backlog in one drain (`Relay.OutageDrain`). With the
  broker down, the comment holds exactly if the backlog is smaller than a batch (`Relay.NextTickRetriesIff`); one row,
  batches of one and two tries are enough to break it (`Relay.TwoTriesInOneDrain`).
- shared/platform/broker/broker.go:160-187 says that a row is marked published only after the broker has acknowledged
  it. Publish takes whatever confirm comes next and never looks whose it is, and the stream of confirms lives as long
  as the process: after one timeout every later row is marked on its predecessor's confirm
  (`Publisher.TakesAnEarlierConfirm`, `LagOnlyGrows`). And `mandatory` is set without a listener for returned
  messages, so a message no queue is bound for is confirmed and marked all the same. A nil return means what the relay
  takes it for exactly if no confirm is outstanding and a queue is bound (`Publisher.NilMeansQueued`); a counterexample
  is `Publisher.MarkedButNotQueued`. What is lost that way is lost in every continuation, and a cancelled booking's
  slot stays blocked for good (`SagaLoss.LossIsForever`, `MisconfirmKeepsTheSlot`). Nothing else loses an event
  (`SagaTheorems.OnlyMisconfirmedIsLost`).
- Order of delivery would matter in one case: word that a payment succeeded on a live hold meets word of a failure or
  of an expiry (`DeliveryOrder.OrderDoesNotMatter`, `ConflictingOrderMatters`). No run of the saga produces it
  (`SagaOrder.RunOrderDoesNotMatter`).

## Model

| member | source | states |
|---|---|---|
| SagaSteps.RunKeeps | services/booking/internal/domain/service.go:52-212 | the seventeen-clause invariant across the three services holds after every sequence of steps |
| SagaSteps.NextKeeps | services/booking/internal/domain/service.go:52-212 | each of the 25 steps, crashes, duplicates and misconfirms included, keeps that invariant |
| SagaTheorems.NoDoubleBooking | services/availability/internal/infra/store.go:70-73 | in every reachable state two confirmed bookings of one resource never overlap |
| SagaTheorems.ConfirmedBookingIsBacked | services/booking/internal/domain/service.go:156-182 | a confirmed booking has a confirmed reservation with its id, window and resource, and a payment that succeeded for it |
| SagaTheorems.ConfirmedReservationAccounted | services/booking/internal/domain/service.go:171-180 | a confirmed reservation's booking exists and is confirmed, or held with its payment outstanding, or cancelled with its cancellation outstanding |
| SagaTheorems.NoLostCompensation | services/booking/internal/domain/booking.go:237-269 | a cancelled booking's reservation is released, or its cancellation is outstanding: on its way unless lost, and lost only if it was misconfirmed |
| SagaTheorems.NoLostExpiry | services/booking/internal/domain/service.go:205-212 | while a booking is held, an expiry of its hold is consumed iff it was dropped as unknown, dropped ones were staged before the row existed, all others are outstanding in that sense |
| SagaTheorems.OnlyMisconfirmedIsLost | shared/platform/outbox/relay.go:161-259 | a staged event some service consumes is consumed, on its way, or lost; it is lost only if it was marked published without a queue holding it |
| SagaTheorems.EarlyAndDropped | services/booking/internal/events/reservation.go:33-71 | an expiry becomes early only in the sweep that stages it, while its booking has no row, and dropped only in the delivery that finds the booking unknown |
| SagaTheorems.OutcomeFollowsFacts | services/booking/internal/domain/service.go:156-212 | in every reachable state a booking decided, and not by its customer, is confirmed iff its payment succeeded and its hold did not expire; paid and expired ends as hold_expired with one BookingCancelled |
| SagaTheorems.RunsAgree | services/booking/internal/domain/service.go:156-212 | two runs that agree on those two facts agree on the booking, whatever the order and number of deliveries |
| SagaTheorems.ConsumedDecides | services/booking/internal/domain/service.go:156-212 | after any consumed success, failure or expiry that was not dropped, the booking is not held |
| SagaOrder.RunOrderDoesNotMatter | services/booking/internal/domain/service.go:156-212 | in every run the status of a held booking follows from what its deliveries told, not from their order; the one conflict in which order would matter occurs in no run |
| SagaOrder.RunDelivers | services/booking/internal/infra/store.go:199-230 | along every run a booking's row is what its own deliveries make of it, one after the other; no other step but its customer's touches it |
| SagaLoss.LossIsForever | shared/platform/outbox/relay.go:237-242 | a lost cancellation of a confirmed booking stays lost in every continuation and its reservation stays confirmed |
| SagaLoss.MisconfirmKeepsTheSlot | shared/platform/broker/broker.go:199-221 | from every confirmed booking a cancellation and one misconfirm lead to that state |
| SagaTheorems.CancelReasonsAreTrue | services/booking/internal/domain/service.go:171-196 | a booking is cancelled iff it has a reason, and the reason is one of three: hold_expired only if its hold did expire after its TTL, payment_failed only if its payment failed and none succeeded, or its customer |
| SagaTheorems.ReleaseReasonsAreTrue | services/availability/internal/domain/reservation.go:174-219 | a released reservation expired, or its booking is cancelled |
| SagaTheorems.FailureNeverMeetsConfirmed | services/booking/internal/domain/service.go:187-198 | a staged PaymentFailed is about a booking that exists and is not confirmed: the confirmed branch is unreachable |
| SagaTheorems.CancellationAlwaysLands | services/availability/internal/events/bookingcancelled.go:45-104 | the consumer never hits its not-found branch or its ownership error, and the reservation ends released |
| SagaTheorems.ConfirmNeverMisses | services/booking/internal/infra/availability.go:96-118 | a confirm request is answered with success or released, never not found |
| SagaTheorems.MoneyConserved | services/payment/internal/domain/service.go:99-104 | one price per booking: in every staged fact, the projection, every Stripe request and intent, and the payment row, whose intent was made for it |
| SagaTheorems.HoldExpiryConserved | services/booking/internal/domain/booking.go:168-194 | while a booking is held on a live reservation, creation plus TTL, hold_expires_at, BookingHeld and the projection name one instant |
| SagaTheorems.ProjectionIsTheFact | services/payment/internal/events/bookingheld.go:40-65 | the projection of a booking is, field by field, the one BookingHeld ever staged about it |
| SagaTheorems.CreatedAsRequested | services/booking/internal/domain/service.go:85-103 | a create call ends with no booking or the one asked for: its customer, product, window, party, the catalogue's price, on the one reservation made for it |
| SagaTheorems.ReplyIsOwn | services/booking/internal/domain/service.go:82-95 | a reply a create call holds carries its own booking id, resource and window, on a reservation Availability has |
| SagaTheorems.FactsMatchState | services/booking/internal/infra/store.go:199-230 | every fact is stated exactly as often as the tables say; previous_status is confirmed iff BookingConfirmed was stated |
| SagaTheorems.OneOutcomeStaged | services/payment/internal/infra/store.go:194-266 | Payment stages at most one outcome per booking, whatever Stripe sends |
| SagaTheorems.ReservationsAreSound | services/availability/internal/infra/store.go:70-89 | live reservations of a resource are pairwise disjoint, held iff an expiry is set, released iff a reason is set |
| SagaTheorems.ExpiryIsNeverEarly | services/availability/internal/domain/reservation.go:208-219 | the only step that expires a hold is a sweep at or after its creation plus TTL on the database clock |
| SagaTheorems.RunIsLater | services/availability/internal/infra/store.go:219-249 | along every run rows keep identity, window and price, released, cancelled and settled are terminal with their first reason, keys never rebind, logs only grow |
| SagaRuns.DeliveryDecides | services/booking/internal/domain/service.go:156-182 | delivering a payment decides the booking, whatever a half-done attempt left behind and whatever steps run between the lock, Availability's answer and the commit |
| SagaRuns.FinishDecides | services/booking/internal/domain/service.go:156-182 | a locked booking with a reply in hand is decided by its commit, by the status its reservation has then; the commit never fails |
| SagaRuns.ReplyArrives | services/booking/internal/infra/availability.go:96-118 | a call waiting with the lock has a reply once Availability has served it, and keeps it |
| SagaRuns.BookingCanBeConfirmed | services/booking/internal/domain/service.go:156-182 | a run from the empty system reaches a confirmed booking on a confirmed reservation, so the promises above are not empty |
| SagaRuns.UsedKeyServesItsOwnCall | services/availability/internal/api/server.go:266-272 | under a claimed key Availability returns the reservation iff this very call made it, otherwise key reuse |
| SagaRuns.OneHolderPerKey | services/booking/internal/domain/service.go:78-95 | of all create calls ever made under one key, finished, dropped or waiting, replies received or lost, only one ever has a reservation placed for it |
| SagaRuns.RetryCanBeRefused | services/booking/internal/domain/booking.go:59-65 | a run in which an unchanged retry after a lost reply is refused with key reuse |
| SagaRuns.ExpiryCanBeDropped | services/booking/internal/events/reservation.go:33-71 | a reachable state with a held booking on an expired reservation and no expiry left to deliver |
| DeliveryOrder.FirstDeliveryDecides | services/booking/internal/domain/service.go:156-212 | the first delivery that tells anything decides the row and the log; failed attempts before it and all deliveries after it change nothing |
| DeliveryOrder.OrderDoesNotMatter | services/booking/internal/domain/service.go:156-212 | sequences that tell the same, each with its own replies and failed attempts, end in the same status unless they conflict |
| DeliveryOrder.ConflictingOrderMatters | services/booking/internal/domain/service.go:187-198 | whenever they do conflict, some order of the same news ends confirmed and another cancelled |
| DeliveryOrder.PaidAfterExpiry | services/booking/internal/domain/service.go:171-175 | an expiry and any number of successes, in any order, end cancelled as hold_expired with exactly one BookingCancelled |
| Idempotency.OneRowPerKey | shared/platform/idempotency/idempotency.go:51-77 | once a request was answered with a row, every later one under its key gets that row or is refused by its body, whatever other requests come in between |
| Idempotency.RowIsMadeOnce | shared/platform/idempotency/idempotency.go:51-77 | a request creates a row iff its key is fresh, no earlier request under it was answered with one, and the guard admits it: a refused request spends no key |
| Idempotency.OneAnswerPerKey | shared/platform/idempotency/idempotency.go:51-77 | every store whose insert is this transaction has the contract: one answer per key and body among any calls |
| Idempotency.ClaimKey | shared/platform/idempotency/idempotency.go:51-77 | insert-or-compare claims, replays or refuses a key and writes it only when claimed |
| Idempotency.ClaimedKeyIsInert | shared/platform/idempotency/idempotency.go:51-77 | a claimed key changes nothing again, after any requests under any keys: same body, same row; other body, refusal |
| AvailabilityDb.OneReservationPerKey | services/availability/internal/infra/store.go:123-171 | among any inserts under any keys, all calls under one key are answered with one reservation or refused |
| BookingDb.OneBookingPerKey | services/booking/internal/infra/store.go:91-136 | among any inserts under any keys, all calls under one key are answered with one booking or refused |
| PaymentDb.OnePaymentPerKey | services/payment/internal/infra/store.go:150-185 | among any inserts under any keys, all calls under one key are answered with one payment or refused |
| PaymentDb.OnePaymentPerBooking | services/payment/internal/infra/store.go:150-185 | while a booking has a payment no insert under any key adds another |
| AvailabilityDb.ApplyKeepsConstraints | services/availability/internal/infra/store.go:219-249 | whatever transition is applied, checks and disjointness of the table survive |
| AvailabilityDb.ApplyWrites | services/availability/internal/infra/store.go:219-249 | for any transition: nothing is written if nothing changes or if the row breaks a check or meets another live one of the resource, in fields; otherwise its four columns and its facts |
| BookingDb.ApplyWrites | services/booking/internal/infra/store.go:199-230 | for any transition: nothing is written if nothing changes or if the row breaks a check, in fields; otherwise its six columns and its facts |
| AvailabilityDb.ConfirmEffect | services/availability/internal/domain/reservation.go:150-172 | no table constraint ever refuses a confirm: unknown, released, repeated and held rows each have one outcome |
| AvailabilityDb.ReleaseEffect | services/availability/internal/domain/reservation.go:174-200 | no constraint refuses a release: an unknown reason is an error, a released row keeps its reason, any other is released with one fact whose payload is the row's |
| AvailabilityDb.ExpireEffect | services/availability/internal/domain/reservation.go:208-224 | the re-check releases exactly a held row whose expiry is not after the clock reading, for hold_expired, with its one fact |
| AvailabilityDb.BookingCancelledEffect | services/availability/internal/events/bookingcancelled.go:45-104 | a cancellation releases the live reservation it names if it is the booking's own; none or an unknown one is accepted, a foreign one is an error |
| AvailabilityDb.ReserveOutcome | services/availability/internal/infra/store.go:123-171 | every createReservation request, in fields: each refusal with its error, the replay, the taken slot, and otherwise the row, the key and the fact |
| AvailabilityDb.InsertOutcome | services/availability/internal/infra/store.go:123-171 | every insert of a reservation, in fields: refusals, replay, taken slot, and otherwise the row, the key and ReservationCreated |
| Common.OverlapIsSharedInstant | services/availability/internal/infra/store.go:97-103 | two windows overlap iff they share an instant; back-to-back windows do not |
| AvailabilityDb.BusyAgreesWithInsert | services/availability/internal/infra/store.go:97-103 | a fresh valid insert succeeds iff Busy over its window is empty, which is iff every live reservation of the resource ends before it starts or starts after it ends, and is refused as a taken slot otherwise |
| AvailabilityDb.InsertKeepsInv | services/availability/internal/infra/store.go:123-171 | an insert keeps disjointness, key resolution, lifetimes and the match of facts and rows |
| BookingDb.CancellingKeepsInv | services/booking/internal/domain/booking.go:237-269 | a cancellation keeps the table and states one BookingCancelled whose previous status is true |
| BookingDb.ConfirmingKeepsInv | services/booking/internal/domain/booking.go:198-232 | a confirmation keeps the table and states one BookingConfirmed with the row's terms |
| Bookings.ValidCommands | services/booking/internal/domain/service.go:215-226 | a command is valid iff its window is not empty and not in the past and its party is at least one and fits; which refusal has which error |
| Bookings.RefusedWhen | services/booking/internal/domain/service.go:156-184 | a payment is refused iff it finds a held booking that Availability does not settle either way, a cancellation iff its reason is none of the four |
| BookingDb.InsertOutcome | services/booking/internal/infra/store.go:91-136 | every insert of a booking, in fields: refusals, replay, the table's checks, and otherwise the row, the key and BookingHeld |
| BookingDb.CreateOutcome | services/booking/internal/infra/store.go:91-136 | every create call that has its hold, in fields: each refusal with its error, the replay, and otherwise the row, the key and BookingHeld |
| BookingDb.PaymentSucceededEffect | services/booking/internal/domain/service.go:156-184 | a held booking is confirmed or cancelled as Availability answers, with the row and the payload written out; anything else is left alone or retried |
| BookingDb.CancelEffect | services/booking/internal/domain/service.go:129-145 | who may cancel what; the caller is answered the row the cancellation leaves, or the row as it is if it was cancelled before |
| BookingDb.CancellingEffect | services/booking/internal/domain/booking.go:237-268 | the row a cancellation leaves and the fact it states, with the status before it |
| PaymentDb.RecordOutcomeKeepsInv | services/payment/internal/infra/store.go:194-266 | an outcome moves only a pending payment, once, with exactly its fact |
| PaymentDb.RecordOutcomeEffect | services/payment/internal/infra/store.go:194-266 | every outcome of a recorded intent, in fields: a repeated event, a settled payment, a success, a failure with its code |
| PaymentDb.InsertOutcome | services/payment/internal/infra/store.go:150-185 | every recording of a payment, in fields: a booking that has one is told so, a recorded intent is an internal error; the replay; otherwise the row and the key |
| PaymentDb.BookingHeldEffect | services/payment/internal/infra/store.go:271-281 | the first BookingHeld of a booking is projected as it is, a later one is not |
| AvailabilityStore.Store.Insert | services/availability/internal/infra/store.go:123-171 | claim, guarded insert and staged fact equal the insert transaction, claim taken back on refusal |
| AvailabilityStore.Store.Apply | services/availability/internal/infra/store.go:219-249 | lock, transition, update and staged facts equal the apply transaction |
| AvailabilityStore.Store.HandleBookingCancelled | services/availability/internal/events/bookingcancelled.go:45-104 | unknown reservation accepted, ownership mismatch rolled back, otherwise released |
| AvailabilityStore.Store.Busy | services/availability/internal/infra/store.go:252-275 | lists exactly the live windows meeting the range, each once, sorted and disjoint |
| AvailabilityStore.Store.ExpiredHolds | services/availability/internal/infra/store.go:288-308 | the first limit due holds by expiry |
| AvailabilityStore.ScansFirstDue | services/availability/internal/infra/store.go:109-114 | the scan in fields: holds whose time has come, in the order of their expiry; one left out expires no earlier, and then the scan is full |
| AvailabilityStore.Service.Reserve | services/availability/internal/domain/service.go:50-62 | validation and one store call equal the reserve transaction |
| AvailabilityStore.Service.Confirm | services/availability/internal/domain/service.go:70-75 | equals the confirm transaction |
| AvailabilityStore.Service.Release | services/availability/internal/domain/service.go:79-91 | an unknown reason changes nothing, any other equals the release transaction |
| AvailabilityStore.Service.Sweep | services/availability/internal/domain/service.go:114-155 | under any faults the pass re-checks exactly the candidates it scanned, reached and could commit, counts the holds gone, and is clean iff it tried all without a failure; clean and not full leaves nothing held that was due |
| AvailabilityStore.NothingDueIsLeft | services/availability/internal/infra/store.go:109-114 | completeness of a clean pass from the order by expiry, the limit and the re-check |
| AvailabilityStore.Sweeper.SweepOnce | services/availability/internal/sweeper/sweeper.go:67-97 | the drain is exactly its passes, each full one followed by another; it terminates, is clean if nothing goes wrong, and then nothing due at the last reading is held |
| BookingStore.Store.Insert | services/booking/internal/infra/store.go:91-136 | claim, insert and staged BookingHeld equal the insert transaction |
| BookingStore.Store.Apply | services/booking/internal/infra/store.go:199-230 | lock, transition, update and staged facts equal the apply transaction |
| BookingStore.Store.CreateBooking | services/booking/internal/domain/service.go:52-104 | Availability is asked once, for exactly the command, iff the command is valid, in fields, and its key unknown; otherwise each refusal has its error, a known key replays or is refused, and nothing changes |
| BookingStore.Store.BeginCreate | services/booking/internal/domain/service.go:52-94 | the half before the call: refused, replayed, or a hold request for the resource, window, key and fresh id |
| BookingStore.Store.FinishCreate | services/booking/internal/domain/service.go:94-104 | the half after it, on whatever the table has become: the hold's booking id is adopted and the insert transaction decides |
| BookingStore.Store.CancelBooking | services/booking/internal/domain/service.go:129-145 | ownership before the lock, then the cancel transaction |
| BookingStore.Store.ConsumePaymentSucceeded | services/booking/internal/events/payment.go:41-80 | the consumer's writes equal the handler transaction; an error leaves nothing |
| BookingStore.Store.ConsumePaymentFailed | services/booking/internal/events/payment.go:94-122 | the consumer's writes equal the handler transaction; an unknown booking is accepted |
| BookingStore.Store.ConsumeReservationReleased | services/booking/internal/events/reservation.go:33-71 | only hold_expired has an effect; an unknown booking is accepted |
| BookingStore.Store.List | services/booking/internal/infra/store.go:234-293 | a page is the next slice of the simple sorted list with the token of its last row; in fields: the caller's bookings of the status asked for beyond the cursor, newest first, what is left out comes after, a token iff there is any; a malformed cursor starts from the top |
| BookingStore.CursorContinues | services/booking/internal/infra/store.go:234-293 | the token of a page leads to exactly the boundary the next page starts after |
| PaymentStore.Store.InsertPayment | services/payment/internal/infra/store.go:150-185 | claim and insert equal the insert transaction, claim taken back on a conflict |
| PaymentStore.Store.RecordOutcome | services/payment/internal/infra/store.go:194-266 | an intent without a row changes nothing; otherwise dedupe, transition and fact equal the outcome transaction |
| PaymentStore.Store.UpsertBookingContext | services/payment/internal/infra/store.go:271-281 | the first projection of a booking wins |
| PaymentStore.Store.ConsumeBookingHeld | services/payment/internal/events/bookingheld.go:40-65 | the consumer's write equals the handler transaction |
| PaymentStore.Store.CreatePayment | services/payment/internal/domain/service.go:51-117 | Stripe is asked once, under the request's key and for the recorded price, exactly if the booking is payable and free and the key fresh, or the key is the booking's own; the answer and the row in every case |
| PaymentStore.Store.BeginPayment | services/payment/internal/domain/service.go:51-99 | the half before Stripe: a refusal, a request to charge the recorded price, or one to hand out the recorded payment's intent again |
| PaymentStore.Store.FinishPayment | services/payment/internal/domain/service.go:99-117 | the half after it, on whatever the tables have become: only an answered charge inserts, by the insert transaction |
| SagaCalls.StartCreateIsBegin | services/booking/internal/domain/service.go:52-94 | a create call enters the saga iff its command is valid, in fields, and its key unknown |
| SagaCalls.PlaceHoldIsAsked | services/booking/internal/domain/service.go:81-97 | what Availability serves in the saga is the request BeginCreate makes |
| SagaCalls.FinishCreateIsFinish | services/booking/internal/domain/service.go:94-104 | the saga's end of a create call is the transaction FinishCreate runs |
| SagaCalls.ServedReply | services/booking/internal/infra/availability.go:96-118 | the answer a waiting confirm call gets is the status of the reservation when it is served |
| SagaCalls.StartPaymentIsBegin | services/payment/internal/domain/service.go:51-99 | the saga sends Stripe a request iff BeginPayment does, and the same one; only an answered charge stays in progress |
| SagaCalls.FinishPaymentIsFinish | services/payment/internal/domain/service.go:99-117 | the saga's end of a charge is the insert FinishPayment does |
| SagaCalls.TransactionsAtAnyTime | services/booking/internal/domain/service.go:129-145 | a sweep candidate, a customer's cancellation, a confirm request however late and a webhook are their stores' transactions in the saga, and possible at any time |
| SagaCalls.RoutedToItsHandler | services/booking/cmd/booking/main.go:163-178 | an event is routed to the one service whose handler is for it |
| SagaCalls.AnyNumberOfCopies | shared/platform/consumer/consumer.go:94-132 | from any state with a message in flight, the saga can reach any number of further copies of it |
| SagaCalls.RedriveUndoesDeadLetter | shared/platform/consumer/consumer.go:176-188 | a message sent again from the dead-letter queue is as if it had never been there |
| Relay.Relay.Enqueue | shared/platform/outbox/outbox.go:90-133 | stages a record iff it is acceptable, as exactly the row with its defaults filled in; each refusal has its error |
| Relay.StagedIsPending | shared/platform/outbox/outbox.go:90-133 | a staged row is pending and untried, and publishable iff the record's own correlation id is not too long |
| Relay.Relay.PublishBatch | shared/platform/outbox/relay.go:171-259 | claims the first pending rows, tries them up to the first refusal, marks on commit exactly those a Publish call returned nil for; a failed commit undoes every mark; it fails iff the database does |
| Relay.ClaimsOldest | shared/platform/outbox/relay.go:171-196 | a batch is of rows neither published nor failed; one it leaves out was staged later, or at the same instant with a greater id, and the batch is full |
| Relay.TriesInLine | shared/platform/outbox/relay.go:197-289 | row by row, in fields: malformed rows fail, accepted ones are published, a refused one has a try less or fails with its last and ends the batch; no other row changes |
| SagaRelay.PublishableRows | shared/platform/outbox/relay.go:197-230 | a row can be published iff it names one of the seven events and has a schema version and a correlation id of at most 128 characters |
| Relay.Relay.Drain | shared/platform/outbox/relay.go:130-143 | terminates under every pattern of refusals and failures; the table is the one its batches leave, one after the other, up to the first short or failed one; order, reasons and leftovers are as DrainEnds states |
| Relay.DrainMoves | shared/platform/outbox/relay.go:130-152 | over a whole drain settled rows never change and rows are published in the order of (occurred_at, id) |
| Relay.DrainSettles | shared/platform/outbox/relay.go:197-289 | whatever the broker does, a row a drain publishes was accepted in one of its batches, and one it fails is malformed or has used up its tries |
| Relay.HealthyDrain | shared/platform/outbox/relay.go:126-143 | with a broker that accepts, a drain that ends leaves nothing pending: every row published, malformed ones failed |
| Relay.OutageDrain | shared/platform/outbox/relay.go:130-143 | with the broker down, a drain that ends has failed all but less than a batch of the backlog |
| Relay.SmallBacklog | shared/platform/outbox/relay.go:130-143 | a backlog smaller than a batch is tried at most once per drain |
| Relay.NextTickRetriesIff | shared/platform/outbox/relay.go:231-238 | with the broker down and rows that survive a refusal, a drain tries no row twice iff the backlog is smaller than a batch |
| Relay.TwoTriesInOneDrain | shared/platform/outbox/relay.go:130-143 | a drain over one row, batches of one and two tries, spends both at once |
| SagaRelay.RoundIsRun | shared/platform/outbox/relay.go:171-259 | a batch is a run of the saga's publishing steps between reachable states, committed or not: the marks are the table's columns, queues gain exactly what was queued, and exactly the rows acknowledged without being queued are misconfirmed |
| SagaRelay.DrainIsRun | shared/platform/outbox/relay.go:130-143 | so is a whole drain, so that the saga's promises hold of the relay at work |
| Publisher.Publisher.Publish | shared/platform/broker/broker.go:188-221 | returns nil iff the confirm it takes is positive; with none outstanding that is its own; a call that goes without one leaves one outstanding for good |
| Publisher.NilMeansQueued | shared/platform/broker/broker.go:160-221 | for every behaviour of the broker, nil implies the message is in its queue iff no confirm is outstanding and a queue is bound |
| Publisher.TakesAnEarlierConfirm | shared/platform/broker/broker.go:207-218 | over a whole process, a call takes the confirm of the message sent as many sends ago as calls went without theirs |
| Publisher.LagOnlyGrows | shared/platform/broker/broker.go:207-218 | the messages without a taken confirm are the last ones sent, one more for each timeout, never fewer |
| Publisher.NilMeansQueuedWhile | shared/platform/broker/broker.go:182-221 | as long as no call went without its confirm, every nil is about its own message, which is queued if it was routed |
| Publisher.MarkedButNotQueued | shared/platform/broker/broker.go:207-218 | after one timeout a refused message is reported as published and its row settled |
| Relay.Relay.Prune | shared/platform/outbox/relay.go:295-311 | a row that is gone was published longer ago than the retention, the others are untouched, and unless 10000 are gone none published before it is left |
| Relay.BatchSpends | shared/platform/outbox/relay.go:262-289 | a committed non-empty batch strictly spends the pending rows' remaining tries |
| Relay.BatchCommits | shared/platform/outbox/relay.go:197-259 | after a commit a row is exactly one of pending, published, failed; published implies a nil return; publication follows (occurred_at, id) |
| Consumer.Inbox.Process | shared/platform/inbox/inbox.go:54-88 | the outcome of one transaction in every case; the database always equals the replay of its committed entries, each event once, matching the processed_event rows |
| Consumer.Inbox.WriteLocally | shared/platform/inbox/inbox.go:54-88 | a service's own transactions between deliveries keep the same replay |
| Consumer.Consumer.HandleDelivery | shared/platform/consumer/consumer.go:134-188 | parsed or dead-lettered at once; settlement, runs, database and history are what Settle says, with any commits of other consumers, replicas and requests before each attempt; acknowledged only if processed |
| Consumer.SettledFor | shared/platform/consumer/consumer.go:134-188 | acknowledged iff an attempt succeeds before a shutdown, requeued iff a shutdown comes first, dead-lettered iff every attempt failed, whatever others write meanwhile |
| Consumer.AttemptDecides | shared/platform/consumer/consumer.go:148-188 | one attempt, case by case: a fresh event handled and committed is acknowledged at once with its effect, a processed one without; a failure or a rollback leaves the database as found; a lost commit is found by the next attempt |
| Consumer.OthersAct | shared/platform/inbox/inbox.go:54-88 | what one more commit of others makes of the database: a write is applied, a delivery is if it is fresh and its handler succeeds |
| Consumer.SettleReplays | shared/platform/consumer/consumer.go:148-188 | whatever others commit around a delivery, the database it leaves is the replay of all that was committed, each event once; at most MaxAttempts runs |
| Consumer.DuplicateIsInert | shared/platform/inbox/inbox.go:54-88 | for a processed event the handler never runs, only others change the database, and the first attempt that begins acknowledges it |
| Consumer.AckedIsSeen | shared/platform/consumer/consumer.go:94-132 | over any queue the database is the replay of all that was committed, each event once, and every acknowledged delivery is processed |
| SagaConsumer.BookingAttempt | services/booking/internal/events/payment.go:41-122 | save for the payment of a held booking (the next row), an attempt of Booking's consumer that commits is the saga's consuming step, one that does not is none, and a handled delivery may be acknowledged |
| SagaConsumer.ConfirmAttempt | services/booking/internal/events/payment.go:41-80 | an attempt at a held booking's payment, with Availability's answer in hand, commits the confirm or gives the lock back |
| SagaConsumer.AvailabilityAttempt | services/availability/internal/events/bookingcancelled.go:45-104 | the same for Availability's consumer |
| SagaConsumer.PaymentAttempt | services/payment/internal/events/bookingheld.go:40-65 | the same for Payment's consumer |
| Consumer.Consumer.Serve | shared/platform/consumer/consumer.go:94-132 | a queue leaves the database, settlements and history that its deliveries and the commits of others make one after the other |
| Consumer.OnceAppend | shared/platform/inbox/inbox.go:54-88 | appending an unseen event to a history keeps every event in it at most once |
| Keyset.WalkServes | services/catalog/internal/infra/store.go:51-109 | a finished walk over a growing table serves strictly newest first, nothing twice, everything that was there from the start |
| Keyset.WalkIsListing | services/catalog/internal/domain/service.go:29-52 | if inserts are newer the walk is the simple sorted list of the start, in exactly the pages needed |
| Keyset.FewestPages | services/catalog/internal/domain/service.go:29-52 | what "the pages needed" means: the list fits on that many pages and on no fewer |
| Keyset.SelectedIsPrefix | services/catalog/internal/infra/store.go:85-109 | the keyset query returns the beginning of the simple sorted list of the rows it matches |
| Keyset.PageIsPage | services/catalog/internal/domain/service.go:29-52 | a page in terms of its rows: only wanted ones, newest first, what it leaves out comes after all of it, a cursor iff there is any |
| Catalog.Store.List | services/catalog/internal/infra/store.go:51-109 | conditions built one by one select the first rows after the cursor that match the filter |
| Catalog.Service.List | services/catalog/internal/domain/service.go:29-52 | clamp, lookahead and cut give one page of the simple list; in fields: products that pass the filter beyond the cursor, newest first, what is left out comes after, with the last row's token as next cursor iff there is any |
| Catalog.TokenWalkIsListing | services/catalog/internal/domain/service.go:29-52 | a client that follows next_cursor from the top to the end sees the simple list of the start in the fewest responses, if inserts are newer |
| Catalog.TokenWalkIsWalk | services/catalog/internal/domain/cursor.go:38-74 | going by tokens is going by positions |
| Catalog.TokensAreAccepted | services/catalog/internal/domain/cursor.go:49-74 | no token a client was given is rejected |
| Catalog.CursorRoundTrip | services/catalog/internal/domain/cursor.go:38-74 | decoding an encoded cursor gives the position back |
| Catalog.TokenStandsFor | services/catalog/internal/domain/cursor.go:50-74 | a token is accepted for a position iff it decodes to its timestamp, a separator and its id; every other token is rejected |
| Catalog.CursorsDiffer | services/catalog/internal/domain/cursor.go:38-48 | two positions never share a token |
| Sql.Select | services/availability/internal/infra/store.go:109-114 | ORDER BY and LIMIT: distinct, sorted, as many as there are up to the limit, nothing smaller left out |

## Left out

- HTTP routing, request decoding, status codes and error envelopes, authentication, health, logging, tracing and
  configuration, including the status-code mapping of services/booking/internal/infra/availability.go:46-94: a
  call's outcome is modelled as the value it is decoded to.
- Postgres, AMQP and Stripe themselves: atomic transactions, a broker that confirms or refuses, duplicates and
  reorders, and an intent table by idempotency key stand for them.
- JSON, SHA-256, HMAC, base64 and timestamp formatting: injective or inverse functions, assumed pointwise.
- "The same key always returns the original" for bookings and payments as a whole: validation and payability are
  checked before the replay lookup, and concurrent calls under one key can be refused.
- AvailabilityStore.Service.Sweep: completeness of a pass is stated without writers beside it, because a hold
  confirmed during the pass makes a full scan release less than a batch and ends the drain early. In the saga each
  candidate is its own step and interleaves with everything.
- Relay.Relay.PublishBatch: its order statement is for one relay on the table; with several, `SKIP LOCKED` makes
  the batches disjoint and only the order is lost. A statement failing half way through a batch is a batch that does
  not commit.
- Backoff durations, jitter and kicks: timing without effect on safety.
- Delivery out of the dead-letter queue and of failed outbox rows: an operator does that; such messages count as
  undelivered.
- Notification, the gateway and its rate limiter, and the Stripe signature check.
