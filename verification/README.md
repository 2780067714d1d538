# Verified model of the travel booking backend

This project models the Python backend's transactional core in Dafny and proves what every run of it
keeps. Each area has the same shape: an immutable `State` with one function per transaction and an
`Apply` over a `Step` datatype; theorems over `Run`, that is, over every sequence of steps by any number
of users, workers and gateways; and, where the source updates objects in place, a class whose methods
follow the source statement by statement and are proved to end in exactly the state of the step.

- **Stock** (`Inventory`, `InventoryStore`): flight seats, tour slots and the sparse hotel night calendar,
  which refines a total function from nights to free rooms.
- **Booking lifecycle** (`Lifecycle*`): bookings, payments, gateway callbacks, refunds, coupons and stock as
  one state machine with thirteen kinds of steps. `LifecycleInvariant` and `LifecycleRuns` hold the joint
  invariant, `LifecycleLedger` the stock books with a ghost release counter, `LifecycleTheorems` the
  properties of all runs, `LifecycleRetries` idempotency keys over all runs, `LifecyclePrices` the coupon
  prices. `LifecycleAnswers`, `LifecycleSweep` and `LifecycleCreation` say from the rows and the clock alone
  exactly when each request is accepted and what it leaves behind, and what a booking costs in every run.
  `LifecycleHolds`, `LifecycleConservation` and `LifecycleAgreement` give the exact guards under which holds,
  stock and statuses stay right, step by step and over runs; `LifecycleLimits` and `LifecycleRaces` show runs
  in which they do not. `LifecycleStore` is the class over the tables.
- **Outbox** (`Outbox*`): leases, tokens, crashes and retries. `OutboxInvariant` has what holds in every run,
  `OutboxFencing` what holds exactly as long as every mark still finds its token, `OutboxLimits` runs in
  which one does not, `OutboxAnswers` what claims and marks do row by row, `OutboxStore` the class over the
  table.
- **Accounts** (`Lockout`, `RateLimit`, `Sessions`): timed state machines with numeric bounds over runs.
- **Amounts and feed** (`CouponAmounts`, `StripeAmounts`, `StripeLimits`, `Feed`): rounding, minor units, and the merged
  newest-first notification list.

Money is counted in hundredths and times are integers. A run is a `seq` of steps; `Run` applies them from
the left, `Reachable(s, t)` says that some run leads from the empty tables and opening stock `s` to `t`,
`GuardedReach(s, t)` that some run does in which every step passes `HoldGuard`, and
`DisciplinedReach(s, t, b)` that some run does in which booking `b` gets at most one payment, inserted while
it is pending, and is cancelled only while pending or confirmed.

A database transaction that takes row locks is one step. Where the source reads without a lock and writes
later, the model has two steps, and any step may come between:

- a payment request is a look (`DoLook`, or a repeated `DoCheckout`) and an insertion (`DoInsert`);
- a gateway callback looks for its reference before it takes its locks, so `DoDeliver` may find that it has
  been stored meanwhile;
- an outbox mark is a look by token (`LookUp`) and a write by row identity (`Commit`);
- a login reads the user row (`LookAt`) and writes it later (`Finish`);
- revoke-all selects tokens (`Select`) and writes them later (`Write`).

For the simulated success, the administrator's refund update and a callback's early reading of its payment,
`LifecycleRaces` treats the late write separately. The lifecycle steps themselves assume that a row read
under a lock is read fresh. The source loads a callback's payment before it locks it and does not ask the
session to refresh it, so for that row freshness is an assumption; `StaleReportIff` says exactly what
follows without it. The booking services look for an earlier booking before they insert one; a request that
loses that race gets the replay of the winner's booking from the violated constraint, as the step of the
later request does, unless it runs out of stock first, which the source then reports instead.

## What the proofs found

Some intents of the code hold only under a condition, which the model states as an equivalence:

- Stock stays right, booking by booking, if and only if cancellations and paid reports concern pending or
  confirmed bookings and failed or cancelled reports do not concern confirmed ones (`StepKeepsHoldIff`,
  `HeldAlongIff`). The code checks only that a booking is not cancelled twice. Cancelling an expired booking gives its stock back twice
  (`CancelAfterExpiryOverfills`), for a room night as soon as another guest holds it
  (`CancelAfterExpiryOverbooks`); expiry closes only the latest payment, so an older one can confirm a
  released booking (`OlderPaymentReconfirms`), whose cancellation is then a second release
  (`CancelConfirmedOverfills`); and an older payment that fails closes a paid booking without giving its
  stock back (`LateFailureLeaks`).
- A payment request does not look at its booking again when it inserts the payment. If the booking has
  expired meanwhile, one payment suffices to confirm a released booking (`InsertAgreesIff`,
  `LateInsertReconfirms`).
- Processing a refund does not look at the payment, so a charge can be paid back twice
  (`ProcessingOnceIff`, `TwoProcessedRefunds`).
- The simulated success and the administrator's refund update do not look again before they commit
  (`StaleSimulateIff`, `StaleRefundIff`, `SimulatedAfterFailure`).
- An outbox mark looks for its token and then writes by row identity. Written after its lease has run out and
  the event was reclaimed, it can make a processed event due again (`ProcessedIsUndone`), spoil the accounts
  (`AccountsAreBroken`) and end another worker's running lease (`RunningLeaseIsEnded`). It is harmless if and
  only if the row still holds its token (`CommitKeepsIff`), which a deadline ensures (`TimelyIsGuarded`).
- Logins that read the user row side by side count as one failure and lock nothing
  (`ParallelFailuresCountOnce`); the lockout bound holds if and only if each write still fits the row
  (`FinishKeepsIff`, `InvAlongIff`).
- A refresh between the query and the writes of a revoke-all, which password changes and resets use too,
  leaves a live session (`NoneLeftIff`, `RefreshSurvivesRevokeAll`).
- Bookings are priced in VND, a zero-decimal currency, while coupons round to hundredths: an honest Stripe
  report of an amount that is not whole never matches (`HonestEchoAcceptedIff`, `CouponStrandsPayment`).

Smaller findings: the outbox's 300 second cap is unreachable because the exponent stops at 8
(`DelayBounds`); a lost EXPIRE blocks a rate-limit key for good (`LostExpiryCountsForever`); marking an old
notification read succeeds and still answers NotFound (`Notifications.MarkRead`); a refresh token is still
accepted at the very moment its session stops being valid (`Validate` and `SessionValid`); a coupon applied
after a checkout turns the checkout's idempotent replay into a conflict (`CheckoutRetry`). Where a coupon is
declared for all products, the code rejects it for every booking; the model follows the code.

## Model

| member | source | states |
|---|---|---|
| LifecycleTheorems.VoucherSafety | backend/app/services/voucher_service.py:50-62 | in every run, with any number of payments, a booking that is confirmed and paid has a payment in state paid whose amount is at least the booking's current final amount |
| LifecycleTheorems.RefundsBacked | backend/app/services/admin_service.py:355-417 | in every run a payment is refunded exactly when one of its refunds is processed; refunds belong to charged payments and none exceeds its payment |
| LifecycleTheorems.OneAutomaticRelease | backend/app/services/payment_callback_service.py:344-424 | in every run callbacks and the expiry sweep together give a booking's stock back at most once; a pending booking is unpaid, has an expiry, was never released and has only pending payments |
| LifecycleTheorems.CouponBalance | backend/app/services/coupon_service.py:51-147 | in every run a coupon's counter equals its usage rows, the total and per-user limits hold, a booking carries a coupon exactly when the usage row exists, and prices stay between zero and the base |
| LifecycleTheorems.StockLedger | backend/app/services/booking_inventory_service.py:21-53 | in every run no unit of stock is negative or above its ceiling; flight seats equal the opening seats less every booking plus every release; a capped unit is at least the opening level less what unreleased bookings hold |
| LifecycleTheorems.LifecyclesAcyclic | backend/app/services/payment_callback_domain_service.py:82-102 | from any reachable state every further run moves payments, bookings and refunds only forward: pending to paid, failed or cancelled, paid to refunded, nothing else, and never back to a pending booking |
| LifecycleTheorems.DuplicateChangesNothing | backend/app/services/payment_callback_service.py:126-204 | a delivery whose transaction reference is stored changes nothing on either path, and whatever the locked path acknowledges the early path acknowledges too |
| LifecycleTheorems.CallbackAtMostOnce | backend/app/services/payment_callback_service.py:332-485 | however deliveries of one (gateway, transaction reference) interleave with each other and with all other services, at most one of them changes a payment, a booking or stock |
| LifecycleTheorems.RedeliveryAcknowledged | backend/app/services/payment_callback_service.py:206-330 | an accepted notification repeated at any later time, after any other steps, is answered with the same payment and changes nothing |
| LifecycleAnswers.FirstDeliveryAcceptedIff | backend/app/services/payment_callback_domain_service.py:19-41 | a first delivery is accepted if and only if some payment of an existing booking has its order reference, the amount read is exactly that payment's, the currencies agree apart from case, the status is one of the three words apart from case, and the payment is undecided or repeats its own failure or cancellation; refused, it changes nothing, and both paths agree |
| LifecycleAnswers.FirstDeliverySettles | backend/app/services/payment_callback_service.py:395-424 | what an accepted first delivery leaves behind for each of the three words: payment, booking, stored callback, and the stock, which goes back exactly when a pending payment of a pending booking ends unpaid |
| LifecycleAnswers.FirstDeliveryRefused | backend/app/services/payment_callback_domain_service.py:82-102 | which refusal is answered: unknown reference, unreadable amount, mismatch, unknown word, or a payment already decided |
| LifecycleSweep.SweepSpares | backend/app/repositories/booking_repository.py:96-106 | a booking that is not pending and unpaid, has no expiry, or whose hold has not run out, keeps its row and its tally in every sweep |
| LifecycleSweep.SweepCloses | backend/app/repositories/booking_repository.py:96-113 | a pending, unpaid booking whose expiry is at or before now is closed and released by the sweep, unless a hundred others whose holds ran out no later are closed instead |
| LifecycleSweep.SweepPayments | backend/app/core/runtime_tasks.py:109-115 | of the payments a sweep cancels exactly the open one that is the newest of a booking it closes |
| LifecycleSweep.SweepBounded | backend/app/core/runtime_tasks.py:92-119 | a sweep closes as many bookings as its batch has, at most a hundred, and touches nothing but bookings, payments and stock |
| LifecycleLedger.StepBooks | backend/app/services/booking_inventory_service.py:21-53 | every single step keeps the balance between stock levels, booked quantities and counted releases, unit by unit |
| LifecyclePrices.PricesExact | backend/app/services/coupon_service.py:90-137 | in every run each booking costs its base price less exactly its coupon's discount on that base, and coupons change only their counter |
| LifecycleCreation.PriceLaw | backend/app/services/tour_booking_service.py:139-143 | in every run a booking has one item, its base price is the list price of that item in the opening stock (price per seat, per room and night, per traveller by type), and its final price is the base less exactly the nearest-even least of nominal discount, ceiling and base that its coupon gives |
| LifecycleCreation.FlightBookedIff | backend/app/services/booking_service.py:114-156 | a first request is accepted exactly for a free code and a known, bookable flight with the seats; it costs the seat price times the quantity, takes that many seats and is held until now plus the hold |
| LifecycleCreation.StayBookedIff | backend/app/services/hotel_booking_service.py:99-150 | a first request is accepted exactly with a key and a free code, for at least one night and rooms on every night; it costs night price times quantity times nights and lowers exactly those nights |
| LifecycleCreation.TourBookedIff | backend/app/services/tour_booking_service.py:113-185 | a first request is accepted exactly with a key and a free code for an open schedule with the slots and an adult price; each traveller pays the rule of their type, children and infants nothing without one |
| LifecycleCreation.CheckoutIff | backend/app/services/checkout_service.py:241-355 | a first checkout is accepted exactly if its tour booking is, at a positive price, by an available method and under a free reference that fits; it adds that booking and one pending payment of its price, or neither |
| LifecycleLimits.ProcessingOnceIff | backend/app/services/admin_service.py:378-417 | processing a refund pays a charge back for the first time if and only if the payment is not already refunded, which the code does not check |
| LifecycleLimits.RefundedAtMostOnce | backend/app/services/admin_service.py:378-417 | in every run in which administrators process no refund of a refunded payment, no payment has two processed refunds |
| LifecycleRuns.StepKeeps | backend/app/services/payment_callback_domain_service.py:43-80 | every step of every service, with payment requests split into a look and an insertion, keeps the joint invariant over bookings, payments, refunds, coupons and stock, and moves rows only as their lifecycles allow |
| LifecycleRuns.StepKeepsLooks | backend/app/services/payment_service.py:92-113 | every request in flight goes on to cover its booking: the amount that was looked up stays positive and at least the current final amount, whatever comes between look and insertion |
| LifecycleRetries.OneBookingPerKey | backend/app/services/booking_service.py:58-61 | in every run at most one booking has a given code |
| LifecycleRetries.FlightRetry | backend/app/services/booking_service.py:71-112 | once a flight was booked, any request under that code in any later state changes nothing, and is answered with the booking exactly when it is the same request and the booking is still open, otherwise with a conflict |
| LifecycleRetries.HotelRetry | backend/app/services/hotel_booking_service.py:53-94 | the same for a stay: no room night, no inventory row |
| LifecycleRetries.TourRetry | backend/app/services/tour_booking_service.py:68-115 | the same for a tour |
| LifecycleRetries.CheckoutRetry | backend/app/services/checkout_service.py:69-118 | the same for a checkout and its payment, for which schedule, party and method must agree, the booking be open and its price unchanged: a coupon in between turns the replay into a conflict |
| LifecycleRetries.InitiateRetry | backend/app/services/payment_service.py:262-308 | once a booking has a payment under a key, a request under that key in any later state changes nothing, and is answered with that payment exactly when the booking can still be paid and method and price agree |
| LifecycleRetries.InsertRetry | backend/app/services/payment_service.py:310-345 | of two requests in flight under one key, a later insertion never adds a second payment |
| LifecycleAnswers.FirstLookIff | backend/app/services/payment_service.py:84-114 | a first payment request goes ahead if and only if the booking is the user's, pending, not paid, its hold has not run out, it has a price, the key is given, the method is available and the reference fits; it has then read that price and currency, and nothing else has changed |
| LifecycleAnswers.FirstPaymentIff | backend/app/services/payment_service.py:262-321 | with nothing in between, the same condition and a free reference are exactly when one pending payment of the booking's price, currency, method and key is added |
| LifecycleAnswers.InsertionIff | backend/app/services/payment_service.py:184-209 | an insertion adds one pending payment of what was looked up exactly if key and reference are unused, and otherwise nothing |
| LifecycleAnswers.LostRaceIff | backend/app/services/payment_service.py:322-345 | a payment request whose key was used meanwhile is answered with that payment exactly if method, amount and currency agree; a checkout fails |
| LifecycleAnswers.LateRequestConflicts | backend/app/services/payment_service.py:98-103 | any request for a booking that is not pending or whose hold has run out is told that it conflicts and changes nothing |
| LifecycleAnswers.RepeatedCheckoutIff | backend/app/services/checkout_service.py:69-175 | a repeated checkout without a payment goes ahead exactly for the same schedule and travellers of an open, payable booking, at its present price |
| LifecycleAnswers.SimulatedIff | backend/app/services/payment_service.py:351-414 | the simulated success is accepted exactly for a pending payment of the user's own booking, and confirms both |
| LifecycleAnswers.CancellationIff | backend/app/services/booking_cancellation_domain_service.py:21-79 | a cancellation is accepted exactly for the user's own booking that is not cancelled; it gives back every item and moves the newest payment by its status: charged ones are refunded at the booking's final price, open ones cancelled, decided ones kept |
| LifecycleAnswers.RefundRequestIff | backend/app/services/payment_service.py:220-260 | a refund request is accepted exactly from the owner, with a reason, when the newest payment is a positive charge whose newest refund, if any, has failed or was cancelled; it adds one pending refund of the full amount |
| LifecycleAnswers.SecondRefundConflicts | backend/app/services/payment_service.py:220-260 | after an accepted refund request a second one conflicts, whenever it comes, as long as the clock did not run backwards before the first |
| LifecycleAnswers.RefundUpdateIff | backend/app/services/admin_service.py:355-417 | an update is accepted exactly for the five named moves; processing marks payment and booking refunded whatever they were, any other move changes the refund alone |
| LifecycleAnswers.CouponIff | backend/app/services/coupon_service.py:51-147 | a coupon is accepted exactly when it is active now, made for the booking's product, within both limits counted as usage rows, and the booking is dear enough and has none; the discount is then the one number that kind, value, ceiling and base determine |
| LifecycleHolds.StepKeepsHoldIff | backend/app/services/payment_callback_service.py:395-421 | from any state of the invariant, a step keeps one booking rightly held (released exactly when closed, never twice) if and only if: a cancellation is of a pending or confirmed booking, a paid report too, and a failed or cancelled report is not of a confirmed one |
| LifecycleHolds.StepKeepsAllHeldIff | backend/app/services/payment_callback_service.py:395-421 | the same for all bookings at once |
| LifecycleHolds.HeldAlongIff | backend/app/services/booking_cancellation_domain_service.py:21-24 | in every run, whatever other bookings do, a booking is rightly held all along if and only if every step passes the guard at that booking |
| LifecycleConservation.CancellationExactIff | backend/app/services/booking_cancellation_service.py:58-74 | an accepted cancellation keeps the books of a seat, night or slot exact if and only if the booking was never released before, does not use the unit, or finds it full; otherwise the surplus is all that it gave back |
| LifecycleConservation.CancellationByStatus | backend/app/services/booking_cancellation_domain_service.py:21-24 | for a booking whose own requests were guarded so far, that is the case exactly when it is pending or confirmed, does not use the unit, or finds it full |
| LifecycleConservation.StepKeepsExactIff | backend/app/services/booking_inventory_service.py:21-53 | no step of any service breaks the exact books of a unit but a surplus cancellation, and that always does |
| LifecycleConservation.Conservation | backend/app/services/booking_inventory_service.py:21-53 | in guarded runs, with any number of payments per booking, every unit satisfies level + held by pending and confirmed bookings = opening level: nothing is overbooked, the ceiling never bites, and a booking is released exactly once, when it closes |
| LifecycleAgreement.InsertAgreesIff | backend/app/services/payment_service.py:310-321 | inserting the payment of a request keeps its booking and payment in agreement if and only if it is the first payment and the booking is still pending |
| LifecycleAgreement.OnePaymentHolds | backend/app/core/runtime_tasks.py:97-117 | a booking with at most one payment, inserted while it was pending, and cancelled only while pending or confirmed, is released at most once and exactly when it closes, whatever other bookings do |
| LifecycleAgreement.OnePaymentCancellation | backend/app/services/booking_cancellation_domain_service.py:21-24 | cancelling such a booking keeps the books of a unit exact if and only if it is pending or confirmed, does not use the unit, or finds it full |
| LifecycleAgreement.StatusesAgree | backend/app/services/payment_callback_domain_service.py:43-80 | the status of such a booking's payment determines both booking statuses; its voucher exists exactly while the payment is paid, and it holds its stock exactly while it is alive |
| LifecycleAgreement.UnpaidStaysUnconfirmed | backend/app/services/payment_service.py:84-114 | without a payment such a booking is only ever pending, expired or cancelled unpaid |
| LifecycleAgreement.OnePaymentEachConserves | backend/app/services/booking_inventory_service.py:21-53 | if every booking is like that, the run is guarded, so stock is conserved exactly |
| LifecycleLimits.CancelAfterExpiryOverfills | backend/app/services/booking_cancellation_domain_service.py:21-24 | a run that ends with two seats on a one-seat flight: book, expire, cancel |
| LifecycleLimits.OlderPaymentReconfirms | backend/app/core/runtime_tasks.py:109-115 | a run that ends with a voucher for a released seat: the sweep closes only the latest payment and the older one is paid |
| LifecycleLimits.CancelConfirmedOverfills | backend/app/services/booking_cancellation_domain_service.py:21-24 | the same run and a cancellation: the status guard alone is not enough with several payments |
| LifecycleLimits.LateFailureLeaks | backend/app/services/payment_callback_domain_service.py:64-71 | a run in which the failure of an older payment closes a paid booking without giving its seat back |
| LifecycleLimits.CancelFailedRestores | backend/app/services/booking_cancellation_domain_service.py:21-24 | the same run and a cancellation, which then restores the seat correctly |
| LifecycleLimits.LateInsertReconfirms | backend/app/services/payment_service.py:310-321 | a run with one payment and no cancellation that ends with a voucher for a released seat: the payment is inserted after the expiry of the booking it looked at |
| LifecycleLimits.CancelAfterExpiryOverbooks | backend/app/services/booking_inventory_service.py:31-44 | a run that sells one room night twice: the ceiling does not absorb the second release because another guest holds the night |
| LifecycleLimits.TwoProcessedRefunds | backend/app/services/admin_service.py:378-417 | a run that pays one charge back twice: refund request, cancellation, administrator |
| LifecycleRaces.StaleSimulateIff | backend/app/services/payment_service.py:351-414 | a simulated success that commits late keeps the invariant and every lifecycle if and only if the payment is still pending or was paid meanwhile |
| LifecycleRaces.StaleRefundIff | backend/app/services/admin_service.py:378-417 | a refund update that commits late keeps the invariant and every lifecycle if and only if the refund may still move there or is there already |
| LifecycleRaces.SimulatedAfterFailure | backend/app/services/payment_service.py:351-414 | a run that revives a failed payment and its booking while the seat is free |
| LifecycleStore.Database.MatchTourRequest | backend/app/services/checkout_service.py:87-118 | accepts exactly an open tour booking of the same schedule and travellers, and otherwise reports a conflict |
| LifecycleStore.Database.PersistPayment | backend/app/services/payment_service.py:184-209 | adds exactly the looked-up pending payment, or nothing when a unique constraint refuses it |
| LifecycleStore.Database.MatchPayment | backend/app/services/payment_service.py:49-64 | the earlier payment is the answer exactly when method, amount and currency agree, otherwise a conflict |
| LifecycleStore.Database.BeginPayment | backend/app/services/payment_service.py:84-308 | the unlocked part, with state and answer of the look step, which `FirstLookIff` and `InitiateRetry` describe; it writes nothing but the request in flight |
| LifecycleStore.Database.FinishPayment | backend/app/services/payment_service.py:310-345 | the transaction: inserts without reading the booking again, and answers a lost race with the payment that won it |
| LifecycleStore.Database.InitiatePayment | backend/app/services/payment_service.py:262-349 | both parts with nothing in between, as `FirstPaymentIff` and `InitiateRetry` describe |
| LifecycleStore.Database.AcknowledgeDuplicate | backend/app/services/payment_callback_service.py:126-204 | acknowledges exactly the same, existing payment with the same payload, upper and lower case apart |
| LifecycleStore.Database.CheckCoupon | backend/app/services/coupon_service.py:51-88 | accepts exactly a coupon that is active now, made for the booking's one product, within both limits, for a booking dear enough and without coupon |
| Sessions.TokenTable.ValidateRefreshToken | backend/app/services/auth_token_service.py:56-73 | accepts exactly stored, unrevoked tokens whose expiry has not passed |
| StripeAmounts.HonestReportExists | backend/app/services/payment_gateway_service.py:80-100 | every payment that a gateway can refer to has an honest webhook, which is read back with its order reference |
| StripeAmounts.StrandedIsRefused | backend/app/services/payment_callback_domain_service.py:29-32 | in every state an honest report of a pending, not whole payment in a zero-decimal currency is refused and changes nothing |
| StripeLimits.CouponStrandsPayment | backend/app/services/payment_gateway_service.py:140-198 | a run from a 101 dong flight with a half-price coupon to a payment of 50.50 whose literal honest webhook is refused and changes nothing |
| Lifecycle.Latest | backend/app/repositories/payment_repository.py:28-43 | the row found belongs to the owner and no row of that owner is newer; nothing is found only when there is none |
| Lifecycle.FindByRef | backend/app/repositories/payment_repository.py:59-68 | finds a payment by its order reference if and only if there is one |
| Lifecycle.FindByKey | backend/app/repositories/payment_repository.py:45-57 | finds a booking's payment by idempotency key if and only if there is one |
| Lifecycle.ExpiredAreDue | backend/app/repositories/booking_repository.py:87-118 | the sweep's batch is within its limit, free of duplicates and holds only pending, unpaid bookings with an expiry at or before now |
| Lifecycle.DueBookings | backend/app/repositories/booking_repository.py:96-106 | exactly the bookings that are pending and unpaid with an expiry at or before now, each once |
| LifecycleStore.Database.CreateBooking | backend/app/services/booking_service.py:93-156 | the method's new state and answer are those of the flight step, which `FlightBookedIff` and `FlightRetry` describe |
| LifecycleStore.Database.CreateHotelBooking | backend/app/services/hotel_booking_service.py:78-150 | creates rows, validates and lowers each night in loops, with the new state and answer of the hotel step; a refusal rolls the created rows back |
| LifecycleStore.Database.CreateTourBooking | backend/app/services/tour_booking_service.py:97-180 | the method's new state and answer are those of the tour step |
| LifecycleStore.Database.CreateTourCheckout | backend/app/services/checkout_service.py:192-330 | booking and payment are created together or not at all; a failing payment restores every table |
| LifecycleStore.Database.SimulateSuccess | backend/app/services/payment_service.py:351-414 | marks an owned pending payment paid and confirms its booking |
| LifecycleStore.Database.ProcessLocked | backend/app/services/payment_callback_service.py:332-485 | decides on the release before anything is written and ends in the state and answer of the delivery step, which `FirstDeliveryAcceptedIff` and `FirstDeliverySettles` describe |
| LifecycleStore.Database.ProcessCallback | backend/app/services/payment_callback_service.py:206-485 | early duplicate look-up, then the locked part; state and answer are those of the callback step, for a first delivery as in `FirstDeliveryAcceptedIff` |
| LifecycleStore.Database.ExpireBooking | backend/app/core/runtime_tasks.py:97-117 | one turn of the sweep, and whether it cancelled a payment |
| LifecycleStore.Database.CleanupExpiredBookingHolds | backend/app/core/runtime_tasks.py:80-125 | the loop ends in the state of the sweep step, which `SweepSpares` and `SweepCloses` describe row by row; its counts are the bookings and the payments that differ afterwards |
| LifecycleStore.Database.CancelBooking | backend/app/services/booking_cancellation_service.py:45-123 | restores stock, then updates booking, payment and refund by the latest payment's status |
| LifecycleStore.Database.CreateRefundRequest | backend/app/services/payment_service.py:427-496 | files a pending refund of the full amount only for the latest paid payment with no open or processed refund |
| LifecycleStore.Database.UpdateRefundStatus | backend/app/services/admin_service.py:378-417 | moves a refund along its table and, when processed, marks payment and booking refunded |
| LifecycleStore.Database.ApplyCoupon | backend/app/services/coupon_service.py:113-147 | updates booking, usage table and counter together, as `CouponIff` describes |
| CouponAmounts.HalfEvenIsNearest | backend/app/services/coupon_service.py:111 | the rounding is the one number nearest to the exact value, the even one on a tie |
| CouponAmounts.DiscountWithinBase | backend/app/services/coupon_service.py:90-111 | the discount lies between zero and the base and is the clamped value rounded to the nearest-even hundredth; `DiscountIff` says what that is without the clamp |
| CouponAmounts.DiscountMonotone | backend/app/services/coupon_service.py:90-111 | a dearer booking never gets a smaller discount from the same coupon |
| CouponAmounts.DiscountIff | backend/app/services/coupon_service.py:90-111 | the discount is the nearest-even hundredth of the least of nominal discount, ceiling and base, or of zero if that least is negative: this number and no other |
| CouponAmounts.DiscountWithinCeiling | backend/app/services/coupon_service.py:102-103 | no discount is above the ceiling, and a negative ceiling leaves nothing |
| CouponAmounts.FixedIsLeast | backend/app/services/coupon_service.py:97-111 | a fixed coupon gives exactly the least of value, ceiling and base, or nothing if that is negative |
| CouponAmounts.PercentageUncut | backend/app/services/coupon_service.py:93-96 | a percentage that neither ceiling nor base cuts is the nearest-even hundredth of base times value |
| CouponAmounts.PercentageExactWhenWhole | backend/app/services/coupon_service.py:90-111 | an uncapped percentage is charged exactly if and only if it comes out in whole hundredths |
| Inventory.RowsAreInvisible | backend/app/repositories/hotel_repository.py:146-172 | creating missing night rows changes no night of the abstract calendar |
| Inventory.RowsFirst | backend/app/services/booking_inventory_service.py:31-44 | taking or restoring a stay gives the same rows whether or not they were created first |
| Inventory.TakeLowers | backend/app/services/hotel_booking_service.py:148-150 | booking an item lowers each seat, night and slot by exactly its demand and changes nothing else |
| Inventory.RestoreAllRaises | backend/app/services/booking_inventory_service.py:21-53 | restoring a whole booking raises every unit by its total demand, capped once at the ceiling |
| Inventory.RestoreAllValid | backend/app/services/booking_inventory_service.py:21-53 | restoring keeps every level between zero and its ceiling and every ceiling fixed |
| Inventory.RestoreUndoesTake | backend/app/services/booking_inventory_service.py:21-53 | restoring what was just booked gives back the level of every unit |
| Inventory.SearchAgreesWithBooking | backend/app/repositories/hotel_repository.py:115-144 | for a non-empty stay the scarcest night is at least q exactly when the booking validation accepts q |
| InventoryStore.AddMissingNights | backend/app/repositories/hotel_repository.py:146-172 | the loop adds exactly the missing rows of the stay |
| InventoryStore.RaiseNights | backend/app/services/booking_inventory_service.py:31-44 | the loop raises each night of the stay once, capped at the room count |
| InventoryStore.LowerNights | backend/app/services/hotel_booking_service.py:148-150 | the loop lowers each night of the stay once by the booked quantity |
| InventoryStore.InventoryTables.EnsureRoomInventoryRows | backend/app/repositories/hotel_repository.py:146-172 | only the room's rows change, and as if they had always been there |
| InventoryStore.InventoryTables.RestoreInventory | backend/app/services/booking_inventory_service.py:21-53 | the loop over a booking's items gives the stock of restoring them all; unknown units are skipped |
| InventoryStore.InventoryTables.ValidateInventory | backend/app/services/hotel_booking_service.py:38-41 | accepts exactly when every night of the stay has the quantity |
| InventoryStore.InventoryTables.BuildRoomAvailabilityMap | backend/app/repositories/hotel_repository.py:115-144 | the map holds for each known room the minimum over the nights of the abstract calendar |
| OutboxInvariant.DelayBounds | backend/app/services/outbox_service.py:210-238 | the retry delay never shrinks, and the cap of 300 seconds is never reached |
| OutboxInvariant.BatchFair | backend/app/repositories/outbox_repository.py:39-59 | an eligible event left out of a batch waits behind a full batch of events that became available no later |
| Outbox.DueIds | backend/app/repositories/outbox_repository.py:39-57 | exactly the due events whose rows are not locked elsewhere, each once |
| Outbox.BatchIsDue | backend/app/repositories/outbox_repository.py:39-59 | a batch is within its limit, free of duplicates, due and unlocked |
| OutboxStore.OutboxTable.AddEvent | backend/app/services/outbox_service.py:50-73 | appends a waiting event that is available at once |
| OutboxStore.OutboxTable.ClaimDueEvents | backend/app/repositories/outbox_repository.py:31-81 | the loop gives every event of the batch a fresh token and a lease, as the claiming step |
| OutboxAnswers.ClaimedIff | backend/app/repositories/outbox_repository.py:31-81 | a ready event whose row is free is taken under a fresh token with a lease from now, unless a full batch of others goes before it; every other event stays as it is |
| OutboxAnswers.BatchOrder | backend/app/repositories/outbox_repository.py:53-57 | what is left out waits behind a full batch of events that became available earlier, or at the same time and were created no later |
| OutboxAnswers.EnqueuedIsReady | backend/app/repositories/outbox_repository.py:26-29 | a new event waits without attempts, token or lease and is ready from now on |
| OutboxAnswers.MarkLooks | backend/app/repositories/outbox_repository.py:90-98 | the look of a mark finds its event exactly while that is processing under the very token |
| OutboxAnswers.MarkWrites | backend/app/repositories/outbox_repository.py:102-142 | a success ends the event; a failure counts one attempt more than was read and makes it ready after 2, 4, 8, up to 256 seconds |
| OutboxStore.OutboxTable.CountBacklog | backend/app/repositories/outbox_repository.py:143-149 | counts the events that are not processed |
| OutboxInvariant.NoEventLost | backend/app/repositories/outbox_repository.py:83-141 | in every run an enqueued event stays in the table with its content |
| OutboxInvariant.FencedAlways | backend/app/repositories/outbox_repository.py:60-72 | in every run an event is processing exactly while it has a token and a lease, those of an unmarked claim of it, and a processed event was delivered by a claim that marked it |
| OutboxInvariant.AccountingBound | backend/app/repositories/outbox_repository.py:39-141 | in every run an event has no more claims than its marks, its reclaims and its current claim account for, and counts no more attempts than failures were recorded |
| OutboxInvariant.NeverStuck | backend/app/repositories/outbox_repository.py:39-57 | in every run an unprocessed event is due exactly from its availability, or from the end of a crashed worker's lease |
| OutboxInvariant.LeaseRespected | backend/app/repositories/outbox_repository.py:47-67 | claiming never takes an event whose lease is still running |
| OutboxInvariant.LeaseEndsByWrite | backend/app/repositories/outbox_repository.py:102-110 | in every run a running lease is ended by nothing but the write of a mark that has found the event |
| OutboxInvariant.FoundIffHeld | backend/app/repositories/outbox_repository.py:90-98 | the look of a mark finds the event exactly while it holds the token, and changes no event |
| OutboxInvariant.StaleForever | backend/app/repositories/outbox_repository.py:90-98 | a worker that has lost its token before it looked never finds the event again and never writes, in any run |
| OutboxInvariant.FinalisedOnce | backend/app/repositories/outbox_repository.py:90-141 | a token is marked at most once in every run |
| OutboxInvariant.BacklogBound | backend/app/repositories/outbox_repository.py:143-149 | in every run the backlog is at least the enqueued events less the claims that won |
| OutboxFencing.CommitKeepsIff | backend/app/repositories/outbox_repository.py:102-141 | from any state with exact books, the write of a mark keeps them, undoes no processed event and ends no other claim's lease if and only if the event still holds the mark's token, which the code does not check again |
| OutboxFencing.HarmlessRunIff | backend/app/repositories/outbox_repository.py:83-141 | in every run the steps are harmless in this sense all along if and only if every mark that is written still finds its token |
| OutboxFencing.TimelyIsGuarded | backend/app/services/outbox_service.py:75-98 | that is so in every run in which each mark is written before the lease of its claim has run out |
| OutboxFencing.OutboxAccounting | backend/app/repositories/outbox_repository.py:39-141 | in guarded runs, for every event: claims = attempts + lease reclaims + (1 if processing or processed), with exactly one success for a processed event |
| OutboxFencing.ProcessedIsFinal | backend/app/repositories/outbox_repository.py:102-110 | in guarded runs a processed event never changes again |
| OutboxFencing.OwnLeaseOnly | backend/app/repositories/outbox_repository.py:102-141 | a guarded step ends a running lease only as the mark of that lease's own claim |
| OutboxFencing.BackoffBound | backend/app/services/outbox_service.py:210-238 | in guarded runs the n-th recorded failure of an event comes at least the sum of the delays after its first |
| OutboxFencing.BacklogBalance | backend/app/repositories/outbox_repository.py:143-149 | in guarded runs the backlog plus the claims that won equals the enqueued events |
| OutboxLimits.ProcessedIsUndone | backend/app/repositories/outbox_repository.py:120-139 | a run in which a late failure turns a processed event back into a due one, so that it will be delivered again |
| OutboxLimits.AccountsAreBroken | backend/app/repositories/outbox_repository.py:90-110 | a run with two claims against one attempt, one reclaim and one success |
| OutboxLimits.RunningLeaseIsEnded | backend/app/repositories/outbox_repository.py:90-110 | a run in which a late success ends the running lease of another worker |
| OutboxStore.OutboxTable.MarkEventProcessed | backend/app/repositories/outbox_repository.py:83-110 | with nothing between its two statements: succeeds exactly for the holder of the token, and otherwise changes nothing |
| OutboxStore.OutboxTable.MarkEventFailed | backend/app/repositories/outbox_repository.py:112-141 | the same for a failure, with the attempts and the time of the look |
| OutboxStore.OutboxTable.DispatchAndMark | backend/app/services/outbox_service.py:98-117 | one undisturbed turn of the batch loop as four steps of the protocol |
| OutboxStore.OutboxTable.ProcessDueEvents | backend/app/services/outbox_service.py:75-141 | one undisturbed worker cycle is a run of the protocol, and its count is the number of successful dispatches |
| Lockout.FinishKeepsIff | backend/app/services/auth_service.py:358-384 | from any state of the invariant, a login that writes keeps it if and only if what it read still fits the row: an unchanged count and no later lock for a wrong password, nothing unseen to reset for a success |
| Lockout.InvAlongIff | backend/app/services/auth_service.py:350-397 | in every run, with any overlap of logins, the count, the lock and the spacing of failures are right all along if and only if every login that writes fits its row |
| Lockout.UnchangedFits | backend/app/services/auth_service.py:358-384 | a login fits whose row nobody has changed since it was read |
| Lockout.LockoutBound | backend/app/services/auth_domain_service.py:56-82 | in runs whose writes fit, with no successful login in between, the n-th verified failure comes at least (n - max) lockout periods after the max-th |
| Lockout.ParallelFailuresCountOnce | backend/app/services/auth_service.py:358-384 | without that condition any number of parallel logins are all verified at one moment, counted as one failure, and lock nothing |
| Lockout.LockedAttemptsAreBlind | backend/app/services/auth_service.py:358-373 | a login that finds the account locked verifies no password, answers right and wrong ones alike and writes nothing |
| Lockout.NextFailureRelocks | backend/app/services/auth_domain_service.py:61-69 | in runs whose writes fit, the failure count outlives the lock: the next failure locks again for a full period |
| Lockout.User.BeginLogin | backend/app/services/auth_service.py:358-373 | reads the row; an active lock is the answer, otherwise the login goes on with what it has read |
| Lockout.User.ApplyFailedLogin | backend/app/services/auth_domain_service.py:61-69 | writes one more failure than was read, and a lock exactly from the max-th on |
| Lockout.User.ApplySuccessfulLogin | backend/app/services/auth_domain_service.py:71-89 | writes exactly for an active user, and leaves count and lock clear if what had to be reset was there to be seen |
| Lockout.User.LogIn | backend/app/services/auth_service.py:350-397 | an undisturbed login: lock, password and status are looked at in this order |
| Lockout.LoginIff | backend/app/services/auth_service.py:350-398 | an undisturbed login answers and writes exactly by lock, password, status and count: a wrong password is counted and locks from the max-th on for a full period from now, a right one of an active user clears both |
| Sessions.SurvivorsAreNewer | backend/app/repositories/user_repository.py:85-100 | what a revoke-all leaves unrevoked of its user is what it did not select, and all of that was issued after its query |
| Sessions.NoneLeftIff | backend/app/repositories/user_repository.py:85-100 | no unrevoked token of the user is left after the writes if and only if none that is still unrevoked was issued since the query |
| Sessions.RevokeAllEndsSessions | backend/app/repositories/user_repository.py:85-100 | revoke-all touches nobody else; under that exact condition it ends every session of the user, and whatever is accepted for the user later descends from a later login |
| Sessions.RefreshSurvivesRevokeAll | backend/app/repositories/user_repository.py:85-100 | a run in which a refresh between query and writes leaves an accepted token of the same user and the same old login |
| Sessions.TokenTable.RevokeAllForUser | backend/app/repositories/user_repository.py:85-100 | with nothing between query and writes: revokes exactly the user's unrevoked rows, counts them, and touches no other row |
| LifecycleRaces.StaleReportIff | backend/app/services/payment_callback_service.py:324-360 | a callback that was validated against an older reading of its payment keeps the invariant and every lifecycle if and only if the payment is still pending, or already is what the callback reports |
| RateLimit.RateBound | backend/app/middleware/rate_limit_middleware.py:115-147 | with the backend up, under any interleaving of increments and expiries, a counter lifetime admits at most the limit and any half-open window at most 2 * limit - 1 (none for a zero limit) |
| RateLimit.BoundIsAttained | backend/app/middleware/rate_limit_middleware.py:115-147 | for every positive limit and window of at least two units some run admits exactly 2 * limit - 1 in one window |
| RateLimit.LostExpiryCountsForever | backend/app/middleware/rate_limit_middleware.py:115-122 | when the EXPIRE of the first request is lost the counter never lapses: later values only grow |
| RateLimit.ResolveLimit | backend/app/middleware/rate_limit_middleware.py:38-60 | the login limit leaves room for the lockout threshold and two more requests, unless overridden |
| RateLimit.Limiter.Incr | backend/app/middleware/rate_limit_middleware.py:115-117 | returns 1 exactly when it created the counter, otherwise one more than before |
| RateLimit.Limiter.Dispatch | backend/app/middleware/rate_limit_middleware.py:124-172 | admits exactly the values within the limit; a failing backend answers 503 on fail-closed paths and passes elsewhere; Retry-After reaches the expiry |
| Sessions.SessionChains | backend/app/services/auth_token_service.py:75-98 | in every run each token has at most one successor, and each login chain at most one unrevoked token, its newest |
| Sessions.SpentTokensStaySpent | backend/app/services/auth_token_service.py:56-73 | a token that was rotated, logged out or revoked is refused in every later state |
| Sessions.AcceptedIff | backend/app/services/auth_token_service.py:20-73 | a token issued by a login or a refresh is accepted in a later state if and only if no more than its lifetime has passed and no step rotated, logged out or revoked it; its session serves its own user only, and stops a moment earlier |
| Sessions.DeadChainsStayDead | backend/app/services/auth_token_service.py:75-98 | a login chain without an unrevoked token stays dead whatever is replayed |
| Sessions.LogoutEndsChain | backend/app/services/auth_service.py:444-487 | logging out with an accepted token ends its whole chain |
| Sessions.RefreshMovesTheSession | backend/app/services/auth_service.py:399-442 | a valid session can be refreshed; the old one ends at once and the new one is accepted |
| Sessions.CleanupUnobservable | backend/app/core/runtime_tasks.py:50-62 | a run with clean-ups at any points accepts exactly the tokens and sessions, and issues exactly the tokens, of the same run without them |
| Sessions.TokenTable.RotateRefreshToken | backend/app/services/auth_token_service.py:75-98 | revokes the stored token and inserts a fresh one, as the refresh step |
| Sessions.TokenTable.RefreshAccessToken | backend/app/services/auth_service.py:399-442 | succeeds exactly for an accepted token of an active user, otherwise changes nothing |
| Sessions.TokenTable.LogOut | backend/app/services/auth_service.py:444-487 | revokes an accepted token and refuses any other |
| Sessions.TokenTable.CleanUp | backend/app/repositories/user_repository.py:102-123 | deletes exactly the expired rows and those revoked before the retention, changes no other row, and counts every deleted row once |
| StripeAmounts.HalfUpIsNearest | backend/app/services/payment_gateway_service.py:319 | the quantised amount is within half a hundredth and exact if and only if the amount has at most two decimals |
| StripeAmounts.MinorUnitsRoundTrip | backend/app/services/payment_gateway_service.py:316-330 | to minor units and back gives the amount exactly if and only if it has at most two decimals and, in a zero-decimal currency, none; the loss is otherwise bounded |
| StripeAmounts.FormatRead | backend/app/services/payment_gateway_service.py:332-334 | the formatted text of every amount reads back as that amount |
| StripeAmounts.HonestEchoAcceptedIff | backend/app/services/payment_callback_domain_service.py:29-39 | an honest report of a pending payment passes the callback check if and only if the currency has decimals or the amount is whole; otherwise it is an amount mismatch whatever its status |
| StripeAmounts.HonestEventSettles | backend/app/services/payment_gateway_service.py:140-215 | an honest event about a pending payment whose amount survives the minor units, under a new transaction reference, settles payment and booking as its kind says |
| Feed.SortConcat | backend/app/services/notification_service.py:221-223 | a stable sort of a concatenation is the stable merge of the sorted parts |
| Feed.TakeMerge | backend/app/services/notification_service.py:221-223 | the first elements of a merge depend only on the first elements of its parts |
| Feed.FeedIsTopOfAll | backend/app/services/notification_service.py:137-223 | cutting each of the four sources to the limit first gives exactly the first `limit` of sorting everything |
| Feed.ShorterIsPrefix | backend/app/services/notification_service.py:137-223 | a shorter feed is the beginning of a longer one |
| Feed.FeedShowsTheNewest | backend/app/services/notification_service.py:137-223 | the feed shows only the user's visible rows, and leaves one out only behind a full feed of rows at least as new |
| Feed.FeedInOrder | backend/app/services/notification_service.py:137-223 | a feed is within its limit and newest first |
| Feed.Notifications.MarkRead | backend/app/services/notification_service.py:64-93 | marks exactly an owned notification, but answers NotFound unless it is also among the newest 25 |
| Feed.Notifications.MarkAllRead | backend/app/services/notification_service.py:95-123 | marks exactly the shown items, after which every feed up to that length is read |
| Feed.Notifications.List | backend/app/services/notification_service.py:32-62 | each item of the feed with its own mark |
| Sorting.SortFacts | backend/app/services/notification_service.py:222 | the sort orders its input and permutes it |
| Sorting.SortStable | backend/app/services/notification_service.py:222 | the sort is stable |
| Sorting.TopIsLeast | backend/app/repositories/booking_repository.py:107-112 | ORDER BY with LIMIT leaves no element out that is smaller than one it keeps |

## Left out

- LifecycleConservation.Conservation: claimed for guarded runs only, because it is false in others (`LifecycleLimits`); `LifecycleTheorems.StockLedger` covers all runs.
- LifecycleTheorems.LifecyclesAcyclic: the simulated success and the administrator's refund update are single steps; what a late commit of theirs does is stated in `LifecycleRaces`.
- LifecycleStore.Database.SimulateSuccess: look and commit in one step, see `LifecycleRaces.StaleSimulateIff`.
- LifecycleStore.Database.UpdateRefundStatus: look and commit in one step, see `LifecycleRaces.StaleRefundIff`.
- LifecycleStore.Database.InitiatePayment: the undisturbed case; `BeginPayment` and `FinishPayment` are its parts, and the theorems are about those.
- LifecycleStore.Database.CreateRefundRequest: its look at the booking's owner, which never changes, is part of the step.
- LifecycleStore.Database.ProcessLocked: takes the locked payment as the table has it; see `LifecycleRaces.StaleReportIff` for an older reading.
- LifecycleStore.Database.ProcessCallback: takes a verified callback; signature, timestamp and address checks are not modelled.
- CouponAmounts.DiscountMonotone: states monotonicity for one coupon and a non-negative base, as booking totals are.
- OutboxFencing.OutboxAccounting: claimed for guarded runs, because it is false in others (`OutboxLimits`); `OutboxInvariant.AccountingBound` covers all runs. The same goes for OutboxFencing's other results.
- OutboxStore.OutboxTable.MarkEventProcessed: the undisturbed case; `FindHeld` and `WriteProcessed` are its parts, and the theorems are about those.
- OutboxStore.OutboxTable.MarkEventFailed: the undisturbed case; `FindHeld` and `WriteFailed` are its parts. The count of attempts and the token are read in one look: the source reads the count first, but while the event keeps the token the count does not change.
- OutboxStore.OutboxTable.ProcessDueEvents: one undisturbed cycle; interleaved workers are covered by the step theorems, not by this method.
- Lockout.LockoutBound: claimed for runs whose writes fit, because it is false in others (`Lockout.ParallelFailuresCountOnce`).
- Lockout.User.LogIn: the undisturbed login; its parts are `BeginLogin`, `ApplyFailedLogin` and `ApplySuccessfulLogin`.
- Sessions.RevokeAllEndsSessions: a selected row that a clean-up deletes before the write is skipped; the database layer may abort the whole revoke-all instead.
- Sessions.TokenTable.RevokeAllForUser: the undisturbed case; its parts are `SelectActive` and `WriteRevoked`.
- Sessions.TokenTable.LogOut: validation and revocation in one step; the `Logout` step of the theorems also allows anything in between.
- RateLimit.Limiter.Dispatch: one request with no other command in between; interleavings are covered by the step theorems.
- RateLimit.ResolveLimit: distinguishes the login path from all others, whose configured rates are plain constants.
- Descriptive columns: payment and cancellation timestamps, reasons, the transaction reference on a payment, worker names, error texts; only fields that some branch reads are kept.
- Administrator edits of seats, slots, capacities and coupon limits, which may overwrite the counters freely.
- Stripe session calls, audit rows, log lines, metrics and the outbox rows the services enqueue: input and output around the steps.
- Booking codes are arbitrary strings supplied with a request; the hash that makes them is not modelled, and uniqueness is the database constraint.
- Case folding and blank trimming work on ASCII only, and decimal texts are plain signed numerals; the text and the number of a callback amount are separate inputs except in `StripeAmounts`.
- The maximum of failed logins and the lockout duration are taken to be positive, as the configuration requires.
- Outbox and session tokens are counters instead of random values, so freshness is by construction; the clock of each area never goes back.
- Password reset and e-mail verification tokens, whose single-use checks are one branch each.
- Voucher rendering and listing order, search listings, dashboards, support, profile, documents, exports and the frontend: plumbing or single-branch updates.
