/** The database tables and the services that change them, statement by statement. What a method leaves
    behind is the step or function of `Lifecycle` with the same name. A payment request is two methods,
    a look and an insertion, and other requests may come between them. */
module LifecycleStore {
  import opened Basics
  import opened Inventory
  import opened InventoryStore
  import opened CouponAmounts
  import opened Lifecycle
  import opened LifecycleSweep

  class Database {
    var bookings: seq<Booking>
    var items: seq<seq<Item>>
    var payments: seq<Payment>
    var refunds: seq<Refund>
    var callbacks: map<(string, string), Callback>
    var coupons: map<string, Coupon>
    var usages: seq<Usage>
    const inventory: InventoryTables

    /** Payment requests in flight, kept by the workers that serve them. */
    var looks: seq<Look>

    /** History: the stock before the first booking, and the releases of each booking. */
    ghost var opening: Stock
    ghost var tallies: seq<Tally>

    ghost function View(): State
      reads this, inventory
    {
      State(bookings, items, payments, refunds, callbacks, coupons, usages, inventory.View(), opening, tallies, looks)
    }

    constructor (stock: Stock, coupons: map<string, Coupon>)
      ensures fresh(inventory)
      ensures View() == State([], [], [], [], map[], coupons, [], stock, stock, [], [])
    {
      inventory := new InventoryTables(stock);
      bookings, items, payments, refunds := [], [], [], [];
      callbacks, usages := map[], [];
      this.coupons := coupons;
      opening, tallies, looks := stock, [], [];
    }

    // ---- creating bookings ----

    /** Adds the booking and its item, or reports the violated constraint. */
    method AddBooking(code: string, user: Id, item: Item, total: int, now: int, hold: nat) returns (r: Result<nat>)
      modifies this`bookings, this`items, this`tallies
      ensures r.Err? <==> CodeTaken(old(bookings), code) || item.quantity == 0 || total < 0
      ensures r.Err? ==> r == Err(Integrity)
      ensures r.Err? ==> bookings == old(bookings) && items == old(items) && tallies == old(tallies)
      ensures r.Ok? ==>
        && r == Ok(|old(bookings)|) && items == old(items) + [[item]] && tallies == old(tallies) + [Tally(0, 0, 0)]
        && bookings == old(bookings) +
             [Booking(code, user, Pending, PayPending, total, 0, total, CURRENCY, None, Some(now + hold))]
    {
      if CodeTaken(bookings, code) || item.quantity == 0 || total < 0 {
        return Err(Integrity);
      }
      r := Ok(|bookings|);
      bookings := bookings + [Booking(code, user, Pending, PayPending, total, 0, total, CURRENCY, None,
                                      Some(now + hold))];
      items := items + [[item]];
      tallies := tallies + [Tally(0, 0, 0)];
    }

    method CreateBooking(user: Id, code: string, flight: Id, quantity: int, now: int,
                         hold: nat) returns (r: Result<nat>)
      requires Aligned(View())
      modifies this, inventory
      ensures (View(), r) == CreateFlight(old(View()), user, code, flight, quantity, now, hold)
    {
      var existing := FindBooking(bookings, code, user);
      if existing.Some? {
        var item := items[existing.value];
        if item == [] || !item[0].FlightItem? || item[0].flight != flight || item[0].quantity != quantity
           || !Open(bookings[existing.value]) {
          return Err(Conflict);
        }
        return Ok(existing.value);
      }
      if flight !in inventory.flights {
        return Err(NotFound);
      }
      var row := inventory.flights[flight];
      if !row.bookable || row.seats < quantity {
        return Err(Validation);
      }
      r := AddBooking(code, user, FlightItem(flight, Positive(quantity)), row.price * quantity, now, hold);
      if r.Ok? {
        inventory.flights := inventory.flights[flight := row.(seats := row.seats - quantity)];
      }
    }

    method CreateHotelBooking(user: Id, key: string, code: string, room: Id, checkIn: Day, checkOut: Day, quantity: int,
                              now: int, hold: nat) returns (r: Result<nat>)
      requires Aligned(View())
      modifies this, inventory
      ensures (View(), r) == CreateHotel(old(View()), user, key, code, room, checkIn, checkOut, quantity, now, hold)
    {
      if key == "" {
        return Err(Validation);
      }
      var existing := FindBooking(bookings, code, user);
      if existing.Some? {
        var item := items[existing.value];
        if item == [] || !item[0].StayItem? {
          return Err(Conflict);
        }
        if item[0].room != room || item[0].checkIn != checkIn || item[0].checkOut != checkOut
           || item[0].quantity != quantity || !Open(bookings[existing.value]) {
          return Err(Conflict);
        }
        return Ok(existing.value);
      }
      if room !in inventory.rooms {
        return Err(NotFound);
      }
      if checkOut <= checkIn {
        return Err(Validation);
      }
      var savepoint := inventory.rooms;
      var days := inventory.EnsureRoomInventoryRows(room, checkIn, checkOut);
      var fits := inventory.ValidateInventory(room, checkIn, checkOut, days, quantity);
      RowsKeepFit(old(inventory.View()), inventory.View(), room, checkIn, checkOut, quantity);
      if !fits {
        inventory.rooms := savepoint;
        return Err(Validation);
      }
      var price := inventory.rooms[room].nightPrice;
      r := AddBooking(code, user, StayItem(room, checkIn, checkOut, Positive(quantity)),
                      price * quantity * (checkOut - checkIn), now, hold);
      if r.Ok? {
        ghost var rows := inventory.View();
        inventory.TakeStay(room, checkIn, checkOut, days, quantity);
        RowsThenTake(old(inventory.View()), rows, room, checkIn, checkOut, quantity);
      } else {
        inventory.rooms := savepoint;
      }
    }

    /** The insertion that both tour services share. */
    method AddTour(user: Id, code: string, schedule: Id, party: Party, now: int, hold: nat) returns (r: Result<nat>)
      modifies this`bookings, this`items, this`tallies, inventory`schedules
      ensures (View(), r) == InsertTour(old(View()), user, code, schedule, party, now, hold)
    {
      if schedule !in inventory.schedules {
        return Err(NotFound);
      }
      var row := inventory.schedules[schedule];
      if !row.open || row.slots < party.Size() || Adult !in row.prices {
        return Err(Validation);
      }
      r := AddBooking(code, user, TourOf(schedule, party), TourPrice(row.prices, party), now, hold);
      if r.Ok? {
        inventory.schedules := inventory.schedules[schedule := row.(slots := row.slots - party.Size())];
      }
    }

    /** `_assert_existing_tour_checkout_matches_request` and its sibling in the tour service: a repeated
        request is accepted exactly for a tour booking that is still open, of the same schedule and the
        same travellers. */
    method MatchTourRequest(b: nat, schedule: Id, party: Party, compareQuantity: bool) returns (r: Result<nat>)
      requires Aligned(View()) && b < |bookings|
      ensures r == ReplayTour(View(), b, schedule, party, compareQuantity)
      ensures r.Ok? <==>
        && items[b] != [] && items[b][0].TourItem? && items[b][0].schedule == schedule
        && items[b][0].adults == party.adults && items[b][0].children == party.children
        && items[b][0].infants == party.infants && (compareQuantity ==> items[b][0].quantity == party.Size())
        && bookings[b].status == Pending && bookings[b].payStatus == PayPending
      ensures r.Err? ==> r == Err(Conflict)
      ensures r.Ok? ==> r == Ok(b)
    {
      if items[b] == [] || !items[b][0].TourItem? {
        return Err(Conflict);
      }
      var item := items[b][0];
      if item.schedule != schedule || (compareQuantity && item.quantity != party.Size()) {
        return Err(Conflict);
      }
      if item.adults != party.adults || item.children != party.children || item.infants != party.infants {
        return Err(Conflict);
      }
      return if Open(bookings[b]) then Ok(b) else Err(Conflict);
    }

    method CreateTourBooking(user: Id, key: string, code: string, schedule: Id, party: Party, now: int, hold: nat)
      returns (r: Result<nat>)
      requires Aligned(View())
      modifies this, inventory
      ensures (View(), r) == CreateTour(old(View()), user, key, code, schedule, party, now, hold)
    {
      if key == "" {
        return Err(Validation);
      }
      var existing := FindBooking(bookings, code, user);
      if existing.Some? {
        r := MatchTourRequest(existing.value, schedule, party, true);
      } else {
        r := AddTour(user, code, schedule, party, now, hold);
      }
    }

    // ---- payments ----

    /** The insertion of a payment, guarded by both unique constraints. */
    method PersistPayment(look: Look, now: int) returns (r: Result<nat>)
      requires look.booking < |bookings|
      modifies this`payments
      ensures (View(), r) == AddPayment(old(View()), look, now)
      ensures r.Err? ==> r == Err(Integrity) && payments == old(payments)
      ensures r.Ok? ==>
        r == Ok(|old(payments)|) && payments == old(payments) + [NewPayment(look, bookings[look.booking].code, now)]
    {
      var orderRef := OrderRef(bookings[look.booking].code, look.key);
      if FindByKey(payments, look.booking, look.key).Some? || FindByRef(payments, orderRef).Some? {
        return Err(Integrity);
      }
      r := Ok(|payments|);
      payments := payments +
        [Payment(look.booking, look.via, PayPending, look.amount, look.currency, orderRef, look.key, now)];
    }

    /** `_assert_idempotent_request_matches_existing`: the earlier payment is the answer exactly when
        method, amount and currency agree. */
    method MatchPayment(p: nat, via: PaymentMethod, amount: int, currency: string) returns (r: Result<nat>)
      requires p < |payments|
      ensures r == ReplayPayment(View(), p, via, amount, currency)
      ensures r.Ok? <==> payments[p].via == via && payments[p].amount == amount && payments[p].currency == currency
      ensures r.Err? ==> r == Err(Conflict)
      ensures r.Ok? ==> r == Ok(p)
    {
      if payments[p].via != via {
        return Err(Conflict);
      }
      if payments[p].amount != amount || payments[p].currency != currency {
        return Err(Conflict);
      }
      return Ok(p);
    }

    /** `initiate_payment` up to its transaction: reads without locks, and writes nothing but the
        request itself. */
    method BeginPayment(b: nat, user: Id, via: PaymentMethod, key: string, now: int, available: set<PaymentMethod>)
      returns (r: Result<Begun>)
      modifies this`looks
      ensures (View(), r) == LookAt(old(View()), b, user, via, key, now, available)
    {
      if b >= |bookings| || bookings[b].user != user || key == "" {
        return Err(Validation);
      }
      var booking := bookings[b];
      if booking.expiresAt.Some? && booking.expiresAt.value <= now {
        return Err(Conflict);
      }
      if booking.status != Pending {
        return Err(Conflict);
      }
      if via !in available || booking.final <= 0 {
        return Err(Validation);
      }
      var existing := FindByKey(payments, b, key);
      if existing.Some? {
        var matched := MatchPayment(existing.value, via, booking.final, booking.currency);
        return AsBegun(matched);
      }
      if booking.payStatus == PayPaid {
        return Err(Conflict);
      }
      if |OrderRef(booking.code, key)| > MAX_REFERENCE_LENGTH {
        return Err(Validation);
      }
      r := Ok(Waiting(|looks|));
      looks := looks + [Look(b, via, key, booking.final, booking.currency, true)];
    }

    /** The transaction of a payment request, however long after its look. A violated key constraint is
        answered with the payment that got there first, if the service does so. */
    method FinishPayment(i: nat, now: int) returns (r: Result<nat>)
      modifies this`payments
      ensures (View(), r) == InsertLook(old(View()), i, now)
    {
      if i >= |looks| || looks[i].booking >= |bookings| {
        return Err(NotFound);
      }
      var look := looks[i];
      r := PersistPayment(look, now);
      if r.Err? && look.reuse {
        var existing := FindByKey(payments, look.booking, look.key);
        if existing.Some? {
          r := MatchPayment(existing.value, look.via, look.amount, look.currency);
        }
      }
    }

    /** Both parts with nothing in between. */
    method InitiatePayment(b: nat, user: Id, via: PaymentMethod, key: string, now: int, available: set<PaymentMethod>)
      returns (r: Result<nat>)
      modifies this`payments, this`looks
      ensures (View(), r) == Lifecycle.InitiatePayment(old(View()), b, user, via, key, now, available)
    {
      var begun := BeginPayment(b, user, via, key, now, available);
      if begun.Err? {
        return Err(begun.error);
      }
      if begun.value.Done? {
        return Ok(begun.value.payment);
      }
      r := FinishPayment(begun.value.look, now);
    }

    /** A repeated checkout up to the insertion it may still have to make. */
    method RepeatCheckout(b: nat, schedule: Id, party: Party, via: PaymentMethod, key: string,
                          available: set<PaymentMethod>) returns (r: Result<Begun>)
      requires Aligned(View()) && b < |bookings|
      modifies this`looks
      ensures (View(), r) == ReplayCheckout(old(View()), b, schedule, party, via, key, available)
    {
      var replay := MatchTourRequest(b, schedule, party, false);
      if replay.Err? {
        return Err(replay.error);
      }
      var earlier := FindByKey(payments, b, key);
      if earlier.Some? {
        var matched := MatchPayment(earlier.value, via, bookings[b].final, bookings[b].currency);
        return AsBegun(matched);
      }
      if !Payable(bookings[b], via, key, available) {
        return Err(Validation);
      }
      r := Ok(Waiting(|looks|));
      looks := looks + [Look(b, via, key, bookings[b].final, bookings[b].currency, false)];
    }

    /** A new checkout: booking and payment, or every table as it was. */
    method FirstCheckout(user: Id, code: string, schedule: Id, party: Party, via: PaymentMethod, key: string,
                         now: int, hold: nat, available: set<PaymentMethod>) returns (r: Result<nat>)
      requires Aligned(View())
      modifies this`bookings, this`items, this`tallies, this`payments, inventory`schedules
      ensures (View(), r) == NewCheckout(old(View()), user, code, schedule, party, via, key, now, hold, available)
      ensures r.Err? ==> View() == old(View())
    {
      var bookingsBefore, itemsBefore, schedulesBefore := bookings, items, inventory.schedules;
      ghost var talliesBefore := tallies;
      var inserted := AddTour(user, code, schedule, party, now, hold);
      if inserted.Err? {
        return inserted;
      }
      var row := bookings[inserted.value];
      r := Err(Validation);
      if Payable(row, via, key, available) {
        r := PersistPayment(Look(inserted.value, via, key, row.final, row.currency, false), now);
      }
      if r.Err? {
        bookings, items, inventory.schedules := bookingsBefore, itemsBefore, schedulesBefore;
        tallies := talliesBefore;
      }
    }

    method CreateTourCheckout(user: Id, code: string, schedule: Id, party: Party, via: PaymentMethod, key: string,
                              now: int, hold: nat, available: set<PaymentMethod>) returns (r: Result<(nat, nat)>)
      requires Aligned(View())
      modifies this, inventory
      ensures (View(), r) == Checkout(old(View()), user, code, schedule, party, via, key, now, hold, available)
    {
      if key == "" {
        return Err(Validation);
      }
      var existing := FindBooking(bookings, code, user);
      if existing.None? {
        var b := |bookings|;
        var payment := FirstCheckout(user, code, schedule, party, via, key, now, hold, available);
        return if payment.Err? then Err(payment.error) else Ok((b, payment.value));
      }
      var begun := RepeatCheckout(existing.value, schedule, party, via, key, available);
      if begun.Err? {
        return Err(begun.error);
      }
      if begun.value.Done? {
        return Ok((existing.value, begun.value.payment));
      }
      var payment := FinishPayment(begun.value.look, now);
      return if payment.Err? then Err(payment.error) else Ok((existing.value, payment.value));
    }

    method SimulateSuccess(p: nat, user: Id) returns (r: Result<nat>)
      modifies this`payments, this`bookings
      ensures (View(), r) == Lifecycle.SimulateSuccess(old(View()), p, user)
    {
      if p >= |payments| {
        return Err(NotFound);
      }
      var b := payments[p].booking;
      if b >= |bookings| || bookings[b].user != user {
        return Err(Validation);
      }
      if payments[p].status != PayPending {
        return Err(Conflict);
      }
      payments := payments[p := payments[p].(status := PayPaid)];
      bookings := bookings[b := bookings[b].(status := Confirmed, payStatus := PayPaid, expiresAt := None)];
      return Ok(p);
    }

    // ---- gateway callbacks ----

    /** `_acknowledge_duplicate_callback`: compares and answers, without writing. A repeated reference is
        acknowledged exactly when it names the same, existing payment with the same payload, upper and
        lower case apart. */
    method AcknowledgeDuplicate(stored: Callback, hint: nat, d: Delivery) returns (r: Result<nat>)
      ensures r == Acknowledge(View(), stored, hint, d)
      ensures r.Ok? <==>
        && stored.payment == hint < |payments| && payments[hint].booking < |bookings|
        && Lower(stored.payload.gateway) == Lower(d.gateway) && Lower(stored.payload.orderRef) == Lower(d.orderRef)
        && Lower(stored.payload.txnRef) == Lower(d.txnRef)
        && Lower(stored.payload.amountText) == Lower(d.amountText)
        && Lower(stored.payload.currency) == Lower(d.currency) && Lower(stored.payload.status) == Lower(d.status)
      ensures r.Ok? ==> r == Ok(hint)
    {
      if stored.payment != hint {
        return Err(Validation);
      }
      var old', new' := stored.payload, d;
      if Lower(old'.gateway) != Lower(new'.gateway) || Lower(old'.orderRef) != Lower(new'.orderRef)
         || Lower(old'.txnRef) != Lower(new'.txnRef) || Lower(old'.amountText) != Lower(new'.amountText)
         || Lower(old'.currency) != Lower(new'.currency) || Lower(old'.status) != Lower(new'.status) {
        return Err(Validation);
      }
      if hint >= |payments| || payments[hint].booking >= |bookings| {
        return Err(NotFound);
      }
      return Ok(hint);
    }

    /** The part of `process_callback` that holds the locks of booking `b` and payment `p`. The
        decision to release is taken before anything is written. */
    method ProcessLocked(p: nat, d: Delivery) returns (r: Result<nat>)
      requires Aligned(View()) && FindByRef(payments, d.orderRef) == Some(p)
      modifies this, inventory
      ensures (View(), r) == DeliverLocked(old(View()), d)
    {
      var b := payments[p].booking;
      if b >= |bookings| {
        return Err(NotFound);
      }
      var payment, booking := payments[p], bookings[b];
      var report := ValidateCallback(payment, d);
      if report.Err? {
        return Err(report.error);
      }
      var shouldRelease := report.value in {PayFailed, PayCancelled}
        && payment.status == PayPending && booking.status == Pending;
      if (d.gateway, d.txnRef) in callbacks {
        r := AcknowledgeDuplicate(callbacks[(d.gateway, d.txnRef)], p, d);
        return;
      }
      callbacks := callbacks[(d.gateway, d.txnRef) := Callback(p, d)];
      payment := payment.(status := report.value);
      if report.value == PayPaid {
        booking := booking.(status := Confirmed, payStatus := PayPaid, expiresAt := None);
      } else if report.value == PayFailed {
        booking := booking.(status := Failed, payStatus := PayFailed, expiresAt := None);
      } else if report.value == PayCancelled {
        booking := booking.(status := Cancelled, payStatus := PayCancelled, expiresAt := None);
      }
      if shouldRelease {
        inventory.RestoreInventory(items[b]);
        tallies := tallies[b := Bump(tallies[b], ByCallback)];
      }
      payments := payments[p := payment];
      bookings := bookings[b := booking];
      return Ok(p);
    }

    method ProcessCallback(d: Delivery) returns (r: Result<nat>)
      requires Aligned(View())
      modifies this, inventory
      ensures (View(), r) == Lifecycle.ProcessCallback(old(View()), d)
    {
      var hint := FindByRef(payments, d.orderRef);
      if hint.None? {
        return Err(NotFound);
      }
      if (d.gateway, d.txnRef) in callbacks {
        r := AcknowledgeDuplicate(callbacks[(d.gateway, d.txnRef)], hint.value, d);
      } else {
        r := ProcessLocked(hint.value, d);
      }
    }

    // ---- expiry sweep ----

    /** One turn of the loop in `cleanup_expired_booking_holds`. */
    method ExpireBooking(b: nat) returns (cancelled: bool)
      requires Aligned(View()) && b < |bookings|
      modifies this, inventory
      ensures View() == ExpireOne(old(View()), b)
      ensures if cancelled
              then exists p: nat | p < |old(payments)| && old(payments)[p].status == PayPending ::
                     payments == old(payments)[p := old(payments)[p].(status := PayCancelled)]
              else payments == old(payments)
    {
      inventory.RestoreInventory(items[b]);
      tallies := tallies[b := Bump(tallies[b], BySweep)];
      bookings := bookings[b := bookings[b].(status := Expired, payStatus := PayCancelled, expiresAt := None)];
      var latest := Latest(payments, (p: Payment) => p.booking, (p: Payment) => p.createdAt, b);
      cancelled := latest.Some? && payments[latest.value].status == PayPending;
      if cancelled {
        payments := payments[latest.value := payments[latest.value].(status := PayCancelled)];
      }
    }

    /** The same turn, with what it adds to the count of cancelled payments. */
    method ExpireAndCount(b: nat, ghost before: seq<Payment>) returns (closed: nat)
      requires Aligned(View()) && b < |bookings| && |before| == |payments|
      requires forall p | 0 <= p < |payments| :: payments[p] == before[p] || payments[p].status == PayCancelled
      modifies this, inventory
      ensures View() == ExpireOne(old(View()), b) && |payments| == |before|
      ensures closed <= 1
      ensures |ChangedPayments(before, payments)| == |ChangedPayments(before, old(payments))| + closed
      ensures forall p | 0 <= p < |payments| :: payments[p] == before[p] || payments[p].status == PayCancelled
    {
      ghost var start := payments;
      var cancelled := ExpireBooking(b);
      if cancelled {
        ghost var p: nat :| p < |start| && start[p].status == PayPending
                       && payments == start[p := start[p].(status := PayCancelled)];
        OneMoreCancelled(before, start, p);
      }
      closed := if cancelled then 1 else 0;
    }

    /** One sweep; it counts the bookings it has closed and the payments it has cancelled. */
    method CleanupExpiredBookingHolds(now: int) returns (expired: nat, cancelled: nat)
      requires Aligned(View())
      modifies this, inventory
      ensures View() == Sweep(old(View()), now)
      ensures |bookings| == |old(bookings)| && |payments| == |old(payments)|
      ensures expired == |Changed(old(View()), View())| <= 100
      ensures cancelled == |ChangedPayments(old(payments), payments)| <= expired
    {
      ExpiredAreDue(bookings, now, SWEEP_LIMIT);
      var ids := ExpiredPending(bookings, now, SWEEP_LIMIT);
      expired, cancelled := 0, 0;
      assert ChangedPayments(payments, payments) == {};
      while expired < |ids|
        invariant expired <= |ids| && cancelled <= expired
        invariant Aligned(View()) && |bookings| == |old(bookings)| && |payments| == |old(payments)|
        invariant ExpireAll(View(), ids[expired..]) == ExpireAll(old(View()), ids)
        invariant cancelled == |ChangedPayments(old(payments), payments)|
        invariant forall p | 0 <= p < |payments| ::
          payments[p] == old(payments)[p] || payments[p].status == PayCancelled
      {
        assert ids[expired..][1..] == ids[expired + 1..];
        var closed := ExpireAndCount(ids[expired], old(payments));
        cancelled := cancelled + closed;
        expired := expired + 1;
      }
      SweepBounded(old(View()), now);
    }

    // ---- cancellation and refunds ----

    method CancelBooking(b: nat, user: Id, now: int) returns (r: Result<nat>)
      requires Aligned(View())
      modifies this, inventory
      ensures (View(), r) == Lifecycle.CancelBooking(old(View()), b, user, now)
    {
      if b >= |bookings| || bookings[b].user != user {
        return Err(NotFound);
      }
      if bookings[b].status == Cancelled {
        return Err(Conflict);
      }
      var latest := Latest(payments, (p: Payment) => p.booking, (p: Payment) => p.createdAt, b);
      inventory.RestoreInventory(items[b]);
      tallies := tallies[b := Bump(tallies[b], ByCancel)];
      var booking := bookings[b].(status := Cancelled, expiresAt := None);
      if latest.Some? {
        var payment := payments[latest.value];
        if payment.status == PayPaid {
          refunds := refunds + [Refund(latest.value, booking.final, RefundProcessed, now)];
          payments := payments[latest.value := payment.(status := PayRefunded)];
          booking := booking.(payStatus := PayRefunded);
        } else if payment.status == PayPending || payment.status == PayAuthorized {
          payments := payments[latest.value := payment.(status := PayCancelled)];
          booking := booking.(payStatus := PayCancelled);
        }
      }
      bookings := bookings[b := booking];
      return Ok(b);
    }

    method CreateRefundRequest(b: nat, user: Id, reason: string, now: int) returns (r: Result<nat>)
      modifies this`refunds
      ensures (View(), r) == RequestRefund(old(View()), b, user, reason, now)
    {
      if b >= |bookings| || bookings[b].user != user || Blank(reason) {
        return Err(Validation);
      }
      var latest := Latest(payments, (p: Payment) => p.booking, (p: Payment) => p.createdAt, b);
      if latest.None? {
        return Err(Conflict);
      }
      var payment := payments[latest.value];
      if payment.status != PayPaid {
        return Err(Conflict);
      }
      var previous := Latest(refunds, (x: Refund) => x.payment, (x: Refund) => x.createdAt, latest.value);
      if previous.Some? && refunds[previous.value].status in {RefundPending, RefundProcessed} {
        return Err(Conflict);
      }
      if payment.amount <= 0 {
        return Err(Validation);
      }
      r := Ok(|refunds|);
      refunds := refunds + [Refund(latest.value, payment.amount, RefundPending, now)];
    }

    method UpdateRefundStatus(x: nat, next: RefundStatus) returns (r: Result<nat>)
      modifies this`refunds, this`payments, this`bookings
      ensures (View(), r) == UpdateRefund(old(View()), x, next)
    {
      if x >= |refunds| {
        return Err(NotFound);
      }
      if !RefundMayMove(refunds[x].status, next) {
        return Err(Conflict);
      }
      refunds := refunds[x := refunds[x].(status := next)];
      var p := refunds[x].payment;
      if next == RefundProcessed && p < |payments| {
        payments := payments[p := payments[p].(status := PayRefunded)];
        var b := payments[p].booking;
        if b < |bookings| {
          bookings := bookings[b := bookings[b].(payStatus := PayRefunded)];
        }
      }
      return Ok(x);
    }

    // ---- coupons ----

    /** `_validate_coupon`: one check after another. A coupon is accepted exactly when it is active now,
        made for the one product of the booking, within both limits, and the booking is dear enough and
        has no coupon. */
    method CheckCoupon(code: string, b: nat, user: Id, now: int) returns (r: Result<Coupon>)
      requires Aligned(View()) && b < |bookings|
      ensures r == ValidateCoupon(View(), code, b, user, now)
      ensures r.Ok? ==> code in coupons && r == Ok(coupons[code])
      ensures r.Ok? <==>
        code in coupons &&
        var c := coupons[code];
        && c.active && (c.startsAt.Some? ==> c.startsAt.value <= now)
        && (c.expiresAt.Some? ==> now <= c.expiresAt.value)
        && items[b] != [] && (forall i | 0 <= i < |items[b]| :: ProductOf(items[b][i]) == c.product)
        && bookings[b].coupon.None? && c.minimum <= bookings[b].base
        && (c.limitTotal.Some? ==> c.used < c.limitTotal.value)
        && (c.limitPerUser.Some? ==> UsesBy(usages, code, user) < c.limitPerUser.value)
        && !UsedFor(usages, code, b)
    {
      if code !in coupons {
        return Err(NotFound);
      }
      var c := coupons[code];
      if !c.active {
        return Err(Validation);
      }
      if (c.startsAt.Some? && c.startsAt.value > now) || (c.expiresAt.Some? && c.expiresAt.value < now) {
        return Err(Validation);
      }
      if bookings[b].coupon.Some? {
        return Err(Conflict);
      }
      var product := BookingProduct(items[b]);
      if product.Err? {
        return Err(product.error);
      }
      if c.product != product.value || bookings[b].base < c.minimum {
        return Err(Validation);
      }
      if c.limitTotal.Some? && c.used >= c.limitTotal.value {
        return Err(Validation);
      }
      if c.limitPerUser.Some? && UsesBy(usages, code, user) >= c.limitPerUser.value {
        return Err(Validation);
      }
      return if UsedFor(usages, code, b) then Err(Conflict) else Ok(c);
    }

    method ApplyCoupon(b: nat, user: Id, code: string, now: int) returns (r: Result<nat>)
      requires Aligned(View())
      modifies this`bookings, this`usages, this`coupons
      ensures (View(), r) == Lifecycle.ApplyCoupon(old(View()), b, user, code, now)
    {
      if b >= |bookings| || bookings[b].user != user {
        return Err(Validation);
      }
      var valid := CheckCoupon(code, b, user, now);
      if valid.Err? {
        return Err(valid.error);
      }
      var coupon, booking := valid.value, bookings[b];
      var discount := Discount(coupon.kind, coupon.value, coupon.ceiling, booking.base);
      booking := booking.(coupon := Some(code), discount := discount);
      booking := booking.(final := booking.base - discount);
      bookings := bookings[b := booking];
      usages := usages + [Usage(code, booking.user, b)];
      coupons := coupons[code := coupon.(used := coupon.used + 1)];
      return Ok(b);
    }
  }

  /** Missing rows do not change whether a stay fits. */
  lemma RowsKeepFit(before: Stock, after: Stock, room: Id, checkIn: Day, checkOut: Day, quantity: int)
    requires room in before.rooms
    requires after == before.(rooms := before.rooms[room := WithRows(before.rooms[room], checkIn, checkOut)])
    ensures StayFits(after, room, checkIn, checkOut, quantity) <==> StayFits(before, room, checkIn, checkOut, quantity)
  {
    forall d ensures Level(after, NightOf(room, d)) == Level(before, NightOf(room, d)) {
      RowsAreInvisible(before.rooms[room], checkIn, checkOut, d);
    }
  }

  lemma RowsThenTake(before: Stock, after: Stock, room: Id, checkIn: Day, checkOut: Day, quantity: nat)
    requires room in before.rooms
    requires after == before.(rooms := before.rooms[room := WithRows(before.rooms[room], checkIn, checkOut)])
    ensures TakeItem(after, StayItem(room, checkIn, checkOut, quantity)) ==
            TakeItem(before, StayItem(room, checkIn, checkOut, quantity))
  {
    RowsFirst(before.rooms[room], checkIn, checkOut, quantity);
  }
}
