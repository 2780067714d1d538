/** Bookings, payments, callbacks, refunds, coupons and stock as one state, and every service
    transaction as one atomic step of it.

    Tables are append-only sequences whose index is the row's identity; `items[b]` holds the rows of
    booking `b`. Two parts are history only and no step reads them: `opening`, the stock before the
    first booking, and `tallies[b]`, how often and why the stock of booking `b` was given back.
    `looks` are the payment requests in flight: each has read its booking without a lock and inserts
    its payment in a later transaction, or never. */
module Lifecycle {
  import opened Basics
  import opened Inventory
  import opened Sorting
  import opened CouponAmounts

  // ---- rows ----

  datatype BookingStatus = Pending | Confirmed | Cancelled | Expired | Failed

  datatype PaymentStatus = PayPending | PayAuthorized | PayPaid | PayFailed | PayRefunded | PayCancelled

  datatype PaymentMethod = Vnpay | Momo | Stripe | Manual

  datatype RefundStatus = RefundPending | RefundProcessed | RefundFailed | RefundCancelled

  datatype Product = AllProducts | FlightProduct | HotelProduct | TourProduct

  datatype Booking = Booking(
    code: string, user: Id, status: BookingStatus, payStatus: PaymentStatus,
    base: int, discount: int, final: int, currency: string,
    coupon: Option<string>, expiresAt: Option<int>)

  datatype Payment = Payment(
    booking: nat, via: PaymentMethod, status: PaymentStatus, amount: int, currency: string,
    orderRef: string, key: string, createdAt: int)

  datatype Refund = Refund(payment: nat, amount: int, status: RefundStatus, createdAt: int)

  /** A verified gateway notification. `amountText` is compared between deliveries, `amount` is the
      number it denotes (absent when it denotes none). */
  datatype Delivery = Delivery(
    gateway: string, orderRef: string, txnRef: string,
    amountText: string, amount: Option<real>, currency: string, status: string)

  datatype Callback = Callback(payment: nat, payload: Delivery)

  datatype Coupon = Coupon(
    active: bool, startsAt: Option<int>, expiresAt: Option<int>, product: Product,
    kind: CouponKind, value: int, ceiling: Option<int>, minimum: int,
    limitTotal: Option<int>, limitPerUser: Option<int>, used: int)

  datatype Usage = Usage(coupon: string, user: Id, booking: nat)

  /** A payment request between its checks and its insertion. `reuse` says how it answers when its key
      was used meanwhile: the payment service returns the existing payment, the checkout fails. */
  datatype Look = Look(
    booking: nat, via: PaymentMethod, key: string, amount: int, currency: string, reuse: bool)

  /** How the first part of a payment request ends well: with a payment, or with a look. */
  datatype Begun = Done(payment: nat) | Waiting(look: nat)

  datatype Tally = Tally(byCallback: nat, bySweep: nat, byCancel: nat) {
    function Total(): nat { byCallback + bySweep + byCancel }
  }

  datatype Cause = ByCallback | BySweep | ByCancel

  datatype State = State(
    bookings: seq<Booking>, items: seq<seq<Item>>, payments: seq<Payment>, refunds: seq<Refund>,
    callbacks: map<(string, string), Callback>, coupons: map<string, Coupon>, usages: seq<Usage>,
    stock: Stock, opening: Stock, tallies: seq<Tally>, looks: seq<Look>)

  const CURRENCY := "VND"
  const MAX_REFERENCE_LENGTH := 255
  const SWEEP_LIMIT := 100

  // ---- look-ups ----

  predicate Owns(s: State, b: nat, user: Id) {
    b < |s.bookings| && s.bookings[b].user == user
  }

  /** The newest row of `owner`; a tie in the creation time goes to the later insertion. */
  function Latest<T>(rows: seq<T>, ownerOf: T -> nat, createdAt: T -> int, owner: nat): (r: Option<nat>)
    ensures r.Some? ==> r.value < |rows| && ownerOf(rows[r.value]) == owner
    ensures r.Some? ==>
      forall i | 0 <= i < |rows| && ownerOf(rows[i]) == owner :: createdAt(rows[i]) <= createdAt(rows[r.value])
    ensures r.None? ==> forall i | 0 <= i < |rows| :: ownerOf(rows[i]) != owner
  {
    if rows == [] then None
    else
      var n := |rows| - 1;
      var earlier := Latest(rows[..n], ownerOf, createdAt, owner);
      if ownerOf(rows[n]) == owner && (earlier.None? || createdAt(rows[earlier.value]) <= createdAt(rows[n]))
      then Some(n)
      else earlier
  }

  function LatestPayment(s: State, b: nat): (r: Option<nat>)
    ensures r.Some? ==> r.value < |s.payments| && s.payments[r.value].booking == b
    ensures r.None? ==> forall p | 0 <= p < |s.payments| :: s.payments[p].booking != b
  {
    Latest(s.payments, (p: Payment) => p.booking, (p: Payment) => p.createdAt, b)
  }

  function LatestRefund(s: State, p: nat): (r: Option<nat>)
    ensures r.Some? ==> r.value < |s.refunds| && s.refunds[r.value].payment == p
  {
    Latest(s.refunds, (r: Refund) => r.payment, (r: Refund) => r.createdAt, p)
  }

  function FindBooking(bookings: seq<Booking>, code: string, user: Id): (r: Option<nat>)
    ensures r.Some? ==> r.value < |bookings| && bookings[r.value].code == code && bookings[r.value].user == user
  {
    if bookings == [] then None
    else
      var n := |bookings| - 1;
      if bookings[n].code == code && bookings[n].user == user then Some(n)
      else FindBooking(bookings[..n], code, user)
  }

  function FindByRef(payments: seq<Payment>, orderRef: string): (r: Option<nat>)
    ensures r.Some? ==> r.value < |payments| && payments[r.value].orderRef == orderRef
    ensures r.None? ==> forall p | 0 <= p < |payments| :: payments[p].orderRef != orderRef
  {
    if payments == [] then None
    else
      var n := |payments| - 1;
      if payments[n].orderRef == orderRef then Some(n) else FindByRef(payments[..n], orderRef)
  }

  function FindByKey(payments: seq<Payment>, b: nat, key: string): (r: Option<nat>)
    ensures r.Some? ==> r.value < |payments| && payments[r.value].booking == b && payments[r.value].key == key
    ensures r.None? ==> forall p | 0 <= p < |payments| :: payments[p].booking != b || payments[p].key != key
  {
    if payments == [] then None
    else
      var n := |payments| - 1;
      if payments[n].booking == b && payments[n].key == key then Some(n) else FindByKey(payments[..n], b, key)
  }

  predicate CodeTaken(bookings: seq<Booking>, code: string) {
    exists b | 0 <= b < |bookings| :: bookings[b].code == code
  }

  function UsesOf(usages: seq<Usage>, coupon: string): nat {
    if usages == [] then 0
    else UsesOf(usages[..|usages| - 1], coupon) + (if usages[|usages| - 1].coupon == coupon then 1 else 0)
  }

  function UsesBy(usages: seq<Usage>, coupon: string, user: Id): nat {
    if usages == [] then 0
    else
      var last := usages[|usages| - 1];
      UsesBy(usages[..|usages| - 1], coupon, user) + (if last.coupon == coupon && last.user == user then 1 else 0)
  }

  predicate UsedFor(usages: seq<Usage>, coupon: string, b: nat) {
    exists i | 0 <= i < |usages| :: usages[i].coupon == coupon && usages[i].booking == b
  }

  // ---- giving stock back ----

  function Bump(t: Tally, cause: Cause): Tally {
    match cause
    case ByCallback => t.(byCallback := t.byCallback + 1)
    case BySweep => t.(bySweep := t.bySweep + 1)
    case ByCancel => t.(byCancel := t.byCancel + 1)
  }

  function Release(s: State, b: nat, cause: Cause): State
    requires b < |s.items| == |s.tallies|
  {
    s.(stock := RestoreAll(s.stock, s.items[b]), tallies := s.tallies[b := Bump(s.tallies[b], cause)])
  }

  // ---- creating bookings ----

  predicate Open(b: Booking) {
    b.status == Pending && b.payStatus == PayPending
  }

  function Positive(q: int): nat {
    if q > 0 then q else 0
  }

  /** Inserts a pending booking with one item and takes its stock. The unique booking code and the
      checks on quantity and price are enforced by the database. */
  function Insert(s: State, code: string, user: Id, item: Item, total: int, now: int, hold: nat): (State, Result<nat>)
    requires Listed(s.stock, item)
  {
    if CodeTaken(s.bookings, code) || item.quantity == 0 || total < 0 then (s, Err(Integrity))
    else
      (s.(bookings := s.bookings + [Booking(code, user, Pending, PayPending, total, 0, total, CURRENCY, None,
                                            Some(now + hold))],
          items := s.items + [[item]],
          tallies := s.tallies + [Tally(0, 0, 0)],
          stock := TakeItem(s.stock, item)),
       Ok(|s.bookings|))
  }

  function ReplayFlight(s: State, b: nat, flight: Id, quantity: int): Result<nat>
    requires b < |s.bookings| == |s.items|
  {
    if s.items[b] == [] || !s.items[b][0].FlightItem? || s.items[b][0].flight != flight then Err(Conflict)
    else if s.items[b][0].quantity != quantity then Err(Conflict)
    else if !Open(s.bookings[b]) then Err(Conflict)
    else Ok(b)
  }

  function CreateFlight(s: State, user: Id, code: string, flight: Id, quantity: int, now: int, hold: nat): (State,
                                                                                                            Result<nat>)
    requires |s.bookings| == |s.items|
  {
    var existing := FindBooking(s.bookings, code, user);
    if existing.Some? then (s, ReplayFlight(s, existing.value, flight, quantity))
    else if flight !in s.stock.flights then (s, Err(NotFound))
    else
      var row := s.stock.flights[flight];
      if !row.bookable || row.seats < quantity then (s, Err(Validation))
      else Insert(s, code, user, FlightItem(flight, Positive(quantity)), row.price * quantity, now, hold)
  }

  function ReplayHotel(s: State, b: nat, room: Id, checkIn: Day, checkOut: Day, quantity: int): Result<nat>
    requires b < |s.bookings| == |s.items|
  {
    if s.items[b] == [] || !s.items[b][0].StayItem? then Err(Conflict)
    else
      var item := s.items[b][0];
      if item.room != room || item.checkIn != checkIn || item.checkOut != checkOut || item.quantity != quantity
      then Err(Conflict)
      else if !Open(s.bookings[b]) then Err(Conflict)
      else Ok(b)
  }

  function CreateHotel(s: State, user: Id, key: string, code: string, room: Id, checkIn: Day, checkOut: Day,
                       quantity: int, now: int, hold: nat): (State, Result<nat>)
    requires |s.bookings| == |s.items|
  {
    if key == "" then (s, Err(Validation))
    else
      var existing := FindBooking(s.bookings, code, user);
      if existing.Some? then (s, ReplayHotel(s, existing.value, room, checkIn, checkOut, quantity))
      else if room !in s.stock.rooms then (s, Err(NotFound))
      else if checkOut <= checkIn || !StayFits(s.stock, room, checkIn, checkOut, quantity) then (s, Err(Validation))
      else
        Insert(s, code, user, StayItem(room, checkIn, checkOut, Positive(quantity)),
               s.stock.rooms[room].nightPrice * quantity * (checkOut - checkIn), now, hold)
  }

  datatype Party = Party(adults: nat, children: nat, infants: nat) {
    function Size(): nat { adults + children + infants }
  }

  function TourOf(schedule: Id, party: Party): Item {
    TourItem(schedule, party.Size(), party.adults, party.children, party.infants)
  }

  function PriceOf(prices: map<TravelerType, int>, t: TravelerType): int {
    if t in prices then prices[t] else 0
  }

  function TourPrice(prices: map<TravelerType, int>, party: Party): int {
    PriceOf(prices, Adult) * party.adults + PriceOf(prices, Child) * party.children
    + PriceOf(prices, Infant) * party.infants
  }

  /** `create_tour_booking` compares the stored quantity too, `create_tour_checkout` only the three
      counts; the item stores their sum. */
  function ReplayTour(s: State, b: nat, schedule: Id, party: Party, compareQuantity: bool): Result<nat>
    requires b < |s.bookings| == |s.items|
  {
    if s.items[b] == [] || !s.items[b][0].TourItem? then Err(Conflict)
    else
      var item := s.items[b][0];
      if item.schedule != schedule || (compareQuantity && item.quantity != party.Size())
         || item.adults != party.adults || item.children != party.children || item.infants != party.infants
      then Err(Conflict)
      else if !Open(s.bookings[b]) then Err(Conflict)
      else Ok(b)
  }

  /** The part that both tour services share: validate, price, insert. */
  function InsertTour(s: State, user: Id, code: string, schedule: Id, party: Party, now: int, hold: nat)
    : (State, Result<nat>)
  {
    if schedule !in s.stock.schedules then (s, Err(NotFound))
    else
      var row := s.stock.schedules[schedule];
      if !row.open || row.slots < party.Size() || Adult !in row.prices then (s, Err(Validation))
      else Insert(s, code, user, TourOf(schedule, party), TourPrice(row.prices, party), now, hold)
  }

  function CreateTour(s: State, user: Id, key: string, code: string, schedule: Id, party: Party, now: int,
                      hold: nat): (State, Result<nat>)
    requires |s.bookings| == |s.items|
  {
    if key == "" then (s, Err(Validation))
    else
      var existing := FindBooking(s.bookings, code, user);
      if existing.Some? then (s, ReplayTour(s, existing.value, schedule, party, true))
      else InsertTour(s, user, code, schedule, party, now, hold)
  }

  // ---- payments ----

  function OrderRef(code: string, key: string): string {
    "PAY-" + code + "-" + key
  }

  function NewPayment(look: Look, code: string, now: int): Payment {
    Payment(look.booking, look.via, PayPending, look.amount, look.currency, OrderRef(code, look.key), look.key, now)
  }

  /** Adds a pending payment of the amount that was looked up; both unique constraints of the payments
      table are checked by the database, the booking is not read again. */
  function AddPayment(s: State, look: Look, now: int): (State, Result<nat>)
    requires look.booking < |s.bookings|
  {
    var code := s.bookings[look.booking].code;
    if FindByKey(s.payments, look.booking, look.key).Some?
       || FindByRef(s.payments, OrderRef(code, look.key)).Some?
    then (s, Err(Integrity))
    else (s.(payments := s.payments + [NewPayment(look, code, now)]), Ok(|s.payments|))
  }

  function ReplayPayment(s: State, p: nat, via: PaymentMethod, amount: int, currency: string): Result<nat>
    requires p < |s.payments|
  {
    var row := s.payments[p];
    if row.via != via || row.amount != amount || row.currency != currency then Err(Conflict) else Ok(p)
  }

  function AsBegun(r: Result<nat>): Result<Begun> {
    if r.Err? then Err(r.error) else Ok(Done(r.value))
  }

  function WithLook(s: State, look: Look): (State, Result<Begun>) {
    (s.(looks := s.looks + [look]), Ok(Waiting(|s.looks|)))
  }

  /** The part of `initiate_payment` before its transaction; it reads without a lock. */
  function LookAt(s: State, b: nat, user: Id, via: PaymentMethod, key: string, now: int,
                  available: set<PaymentMethod>): (State, Result<Begun>)
  {
    if !Owns(s, b, user) || key == "" then (s, Err(Validation))
    else
      var row := s.bookings[b];
      if row.expiresAt.Some? && row.expiresAt.value <= now then (s, Err(Conflict))
      else if row.status != Pending then (s, Err(Conflict))
      else if via !in available || row.final <= 0 then (s, Err(Validation))
      else
        var existing := FindByKey(s.payments, b, key);
        if existing.Some? then (s, AsBegun(ReplayPayment(s, existing.value, via, row.final, row.currency)))
        else if row.payStatus == PayPaid then (s, Err(Conflict))
        else if |OrderRef(row.code, key)| > MAX_REFERENCE_LENGTH then (s, Err(Validation))
        else WithLook(s, Look(b, via, key, row.final, row.currency, true))
  }

  /** The transaction of a payment request, some time after its look. */
  function InsertLook(s: State, i: nat, now: int): (State, Result<nat>) {
    if i >= |s.looks| || s.looks[i].booking >= |s.bookings| then (s, Err(NotFound))
    else
      var look := s.looks[i];
      var existing := FindByKey(s.payments, look.booking, look.key);
      if existing.Some? && look.reuse
      then (s, ReplayPayment(s, existing.value, look.via, look.amount, look.currency))
      else AddPayment(s, look, now)
  }

  /** `initiate_payment` when nothing comes between its look and its transaction. */
  function InitiatePayment(s: State, b: nat, user: Id, via: PaymentMethod, key: string, now: int,
                           available: set<PaymentMethod>): (State, Result<nat>)
  {
    var (s1, begun) := LookAt(s, b, user, via, key, now, available);
    if begun.Err? then (s1, Err(begun.error))
    else if begun.value.Done? then (s1, Ok(begun.value.payment))
    else InsertLook(s1, begun.value.look, now)
  }

  /** The checks of the checkout's `_create_payment`. */
  predicate Payable(row: Booking, via: PaymentMethod, key: string, available: set<PaymentMethod>) {
    row.final > 0 && via in available && |OrderRef(row.code, key)| <= MAX_REFERENCE_LENGTH
  }

  /** A repeated checkout: the booking was read without a lock. */
  function ReplayCheckout(s: State, b: nat, schedule: Id, party: Party, via: PaymentMethod, key: string,
                          available: set<PaymentMethod>): (State, Result<Begun>)
    requires b < |s.bookings| == |s.items|
  {
    var replay := ReplayTour(s, b, schedule, party, false);
    if replay.Err? then (s, Err(replay.error))
    else
      var row := s.bookings[b];
      var paid := FindByKey(s.payments, b, key);
      if paid.Some? then (s, AsBegun(ReplayPayment(s, paid.value, via, row.final, row.currency)))
      else if !Payable(row, via, key, available) then (s, Err(Validation))
      else WithLook(s, Look(b, via, key, row.final, row.currency, false))
  }

  /** A new checkout: booking, item and payment in one transaction, or nothing. */
  function NewCheckout(s: State, user: Id, code: string, schedule: Id, party: Party, via: PaymentMethod,
                       key: string, now: int, hold: nat, available: set<PaymentMethod>): (State, Result<nat>)
  {
    var b := |s.bookings|;
    var (s1, inserted) := InsertTour(s, user, code, schedule, party, now, hold);
    if inserted.Err? then (s, Err(inserted.error))
    else
      var row := s1.bookings[b];
      if !Payable(row, via, key, available) then (s, Err(Validation))
      else
        var (s2, r) := AddPayment(s1, Look(b, via, key, row.final, row.currency, false), now);
        if r.Err? then (s, r) else (s2, r)
  }

  /** `create_tour_checkout` up to the insertion that a repeated one may still have to make. */
  function BeginCheckout(s: State, user: Id, code: string, schedule: Id, party: Party, via: PaymentMethod,
                         key: string, now: int, hold: nat, available: set<PaymentMethod>)
    : (State, Result<(nat, Begun)>)
    requires |s.bookings| == |s.items|
  {
    if key == "" then (s, Err(Validation))
    else
      var existing := FindBooking(s.bookings, code, user);
      var b := if existing.Some? then existing.value else |s.bookings|;
      var (t, begun) :=
        if existing.Some? then ReplayCheckout(s, b, schedule, party, via, key, available)
        else
          var (t, r) := NewCheckout(s, user, code, schedule, party, via, key, now, hold, available);
          (t, AsBegun(r));
      (t, if begun.Err? then Err(begun.error) else Ok((b, begun.value)))
  }

  /** `create_tour_checkout` when nothing comes between its parts. */
  function Checkout(s: State, user: Id, code: string, schedule: Id, party: Party, via: PaymentMethod, key: string,
                    now: int, hold: nat, available: set<PaymentMethod>): (State, Result<(nat, nat)>)
    requires |s.bookings| == |s.items|
  {
    var (s1, begun) := BeginCheckout(s, user, code, schedule, party, via, key, now, hold, available);
    if begun.Err? then (s1, Err(begun.error))
    else if begun.value.1.Done? then (s1, Ok((begun.value.0, begun.value.1.payment)))
    else
      var (s2, r) := InsertLook(s1, begun.value.1.look, now);
      (s2, if r.Err? then Err(r.error) else Ok((begun.value.0, r.value)))
  }

  function SimulateSuccess(s: State, p: nat, user: Id): (State, Result<nat>) {
    if p >= |s.payments| then (s, Err(NotFound))
    else if !Owns(s, s.payments[p].booking, user) then (s, Err(Validation))
    else if s.payments[p].status != PayPending then (s, Err(Conflict))
    else (ApplyReport(s, p, PayPaid), Ok(p))
  }

  // ---- gateway callbacks ----

  /** `_assert_transition_allowed`. */
  function CheckTransition(current: PaymentStatus, incoming: PaymentStatus): Result<PaymentStatus> {
    if current == PayRefunded then Err(Conflict)
    else if current == PayPaid && incoming == PayPaid then Err(Conflict)
    else if current in {PayPaid, PayFailed, PayCancelled, PayRefunded} && current != incoming then Err(Conflict)
    else Ok(incoming)
  }

  function NormalizeStatus(status: string): Result<PaymentStatus> {
    var text := Lower(status);
    if text == "paid" then Ok(PayPaid)
    else if text == "failed" then Ok(PayFailed)
    else if text == "cancelled" then Ok(PayCancelled)
    else Err(Validation)
  }

  predicate SameAmount(amount: Option<real>, hundredths: int) {
    amount.Some? && amount.value * 100.0 == hundredths as real
  }

  /** `validate_callback_against_payment`. */
  function ValidateCallback(p: Payment, d: Delivery): Result<PaymentStatus> {
    var status := NormalizeStatus(d.status);
    if status.Err? then status
    else if d.amount.None? then Err(Malformed)
    else if !SameAmount(d.amount, p.amount) then Err(Validation)
    else if Upper(d.currency) != Upper(p.currency) then Err(Validation)
    else CheckTransition(p.status, status.value)
  }

  /** `_acknowledge_duplicate_callback`: answers a repeated transaction reference without changing
      anything. */
  function Acknowledge(s: State, existing: Callback, hint: nat, d: Delivery): Result<nat> {
    if existing.payment != hint then Err(Validation)
    else if Lower(existing.payload.gateway) != Lower(d.gateway)
         || Lower(existing.payload.orderRef) != Lower(d.orderRef)
         || Lower(existing.payload.txnRef) != Lower(d.txnRef)
         || Lower(existing.payload.amountText) != Lower(d.amountText)
         || Lower(existing.payload.currency) != Lower(d.currency)
         || Lower(existing.payload.status) != Lower(d.status)
    then Err(Validation)
    else if hint >= |s.payments| || s.payments[hint].booking >= |s.bookings| then Err(NotFound)
    else Ok(hint)
  }

  /** The booking side of `apply_callback`. */
  function Reported(row: Booking, report: PaymentStatus): Booking {
    match report
    case PayPaid => row.(status := Confirmed, payStatus := PayPaid, expiresAt := None)
    case PayFailed => row.(status := Failed, payStatus := PayFailed, expiresAt := None)
    case PayCancelled => row.(status := Cancelled, payStatus := PayCancelled, expiresAt := None)
    case _ => row
  }

  /** `apply_callback`: payment and booking follow the reported status. */
  function ApplyReport(s: State, p: nat, report: PaymentStatus): State
    requires p < |s.payments| && s.payments[p].booking < |s.bookings|
  {
    var b := s.payments[p].booking;
    s.(payments := s.payments[p := s.payments[p].(status := report)],
       bookings := s.bookings[b := Reported(s.bookings[b], report)])
  }

  /** A failed or cancelled report gives the stock back only while payment and booking are pending. */
  predicate ReleasesStock(s: State, p: nat, report: PaymentStatus)
    requires p < |s.payments| && s.payments[p].booking < |s.bookings|
  {
    report in {PayFailed, PayCancelled}
    && s.payments[p].status == PayPending
    && s.bookings[s.payments[p].booking].status == Pending
  }

  /** The locked part of `process_callback`, which the unique index on (gateway, transaction
      reference) guards: a reference inserted since the first look turns the delivery into a
      duplicate. */
  function DeliverLocked(s: State, d: Delivery): (State, Result<nat>)
    requires |s.bookings| == |s.items| == |s.tallies|
  {
    var hint := FindByRef(s.payments, d.orderRef);
    if hint.None? || s.payments[hint.value].booking >= |s.bookings| then (s, Err(NotFound))
    else
      var p := hint.value;
      var b := s.payments[p].booking;
      var report := ValidateCallback(s.payments[p], d);
      var key := (d.gateway, d.txnRef);
      if report.Err? then (s, Err(report.error))
      else if key in s.callbacks then (s, Acknowledge(s, s.callbacks[key], p, d))
      else
        var s1 := s.(callbacks := s.callbacks[key := Callback(p, d)]);
        var s2 := ApplyReport(s1, p, report.value);
        (if ReleasesStock(s, p, report.value) then Release(s2, b, ByCallback) else s2, Ok(p))
  }

  /** `process_callback` when nothing interferes between its first look and its locks. */
  function ProcessCallback(s: State, d: Delivery): (State, Result<nat>)
    requires |s.bookings| == |s.items| == |s.tallies|
  {
    var hint := FindByRef(s.payments, d.orderRef);
    if hint.None? then (s, Err(NotFound))
    else if (d.gateway, d.txnRef) in s.callbacks
    then (s, Acknowledge(s, s.callbacks[(d.gateway, d.txnRef)], hint.value, d))
    else DeliverLocked(s, d)
  }

  // ---- expiry sweep ----

  function ExpiryKey(bookings: seq<Booking>, b: nat): int {
    if b < |bookings| && bookings[b].expiresAt.Some? then bookings[b].expiresAt.value else 0
  }

  predicate IsDue(b: Booking, now: int) {
    Open(b) && b.expiresAt.Some? && b.expiresAt.value <= now
  }

  /** Indices of the expired pending bookings, in insertion order. */
  function DueBookings(bookings: seq<Booking>, now: int): (r: seq<nat>)
    ensures forall i | 0 <= i < |r| ::
      && r[i] < |bookings| && bookings[r[i]].status == Pending && bookings[r[i]].payStatus == PayPending
      && bookings[r[i]].expiresAt.Some? && bookings[r[i]].expiresAt.value <= now
    ensures forall i, j | 0 <= i < j < |r| :: r[i] != r[j]
    ensures forall b | 0 <= b < |bookings| && bookings[b].status == Pending && bookings[b].payStatus == PayPending
                       && bookings[b].expiresAt.Some? && bookings[b].expiresAt.value <= now :: b in r
  {
    if bookings == [] then []
    else
      var n := |bookings| - 1;
      var earlier := DueBookings(bookings[..n], now);
      if IsDue(bookings[n], now) then
        assert forall b | 0 <= b < n && IsDue(bookings[b], now) :: bookings[..n][b] == bookings[b];
        earlier + [n]
      else
        assert forall b | 0 <= b < n && IsDue(bookings[b], now) :: bookings[..n][b] == bookings[b];
        earlier
  }

  /** `list_expired_pending_bookings`: the earliest expiries first, at most `limit` of them. */
  function ExpiredPending(bookings: seq<Booking>, now: int, limit: nat): seq<nat> {
    Take(limit, Sort(DueBookings(bookings, now), (b: nat) => ExpiryKey(bookings, b)))
  }

  /** One turn of the sweep loop. */
  function ExpireOne(s: State, b: nat): State
    requires b < |s.bookings| == |s.items| == |s.tallies|
  {
    var s1 := Release(s, b, BySweep);
    var s2 := s1.(bookings := s1.bookings[b := s1.bookings[b].(
      status := Expired, payStatus := PayCancelled, expiresAt := None)]);
    var latest := LatestPayment(s2, b);
    if latest.Some? && s2.payments[latest.value].status == PayPending
    then s2.(payments := s2.payments[latest.value := s2.payments[latest.value].(status := PayCancelled)])
    else s2
  }

  function ExpireAll(s: State, ids: seq<nat>): (t: State)
    requires forall i | 0 <= i < |ids| :: ids[i] < |s.bookings|
    requires |s.bookings| == |s.items| == |s.tallies|
    ensures |s.bookings| == |t.bookings| == |t.items| == |t.tallies|
    decreases |ids|
  {
    if ids == [] then s else ExpireAll(ExpireOne(s, ids[0]), ids[1..])
  }

  lemma DueMember(bookings: seq<Booking>, now: int, b: nat)
    requires b in DueBookings(bookings, now)
    ensures b < |bookings| && IsDue(bookings[b], now)
  {
  }

  lemma BatchWithinDue(bookings: seq<Booking>, now: int, limit: nat)
    ensures |ExpiredPending(bookings, now, limit)| <= limit
    ensures forall b | b in ExpiredPending(bookings, now, limit) :: b in DueBookings(bookings, now)
  {
    var due := DueBookings(bookings, now);
    if due != [] {
      TopIsLeast(due, (b: nat) => ExpiryKey(bookings, b), limit, 0);
    }
  }

  lemma BatchDistinct(bookings: seq<Booking>, now: int, limit: nat)
    ensures var ids := ExpiredPending(bookings, now, limit); forall i, j | 0 <= i < j < |ids| :: ids[i] != ids[j]
  {
    SortDistinct(DueBookings(bookings, now), (b: nat) => ExpiryKey(bookings, b));
  }

  lemma ExpiredAreDue(bookings: seq<Booking>, now: int, limit: nat)
    ensures var ids := ExpiredPending(bookings, now, limit);
            && |ids| <= limit
            && (forall i | 0 <= i < |ids| ::
                  && ids[i] < |bookings| && bookings[ids[i]].status == Pending
                  && bookings[ids[i]].payStatus == PayPending
                  && bookings[ids[i]].expiresAt.Some? && bookings[ids[i]].expiresAt.value <= now)
            && (forall i, j | 0 <= i < j < |ids| :: ids[i] != ids[j])
  {
    BatchWithinDue(bookings, now, limit);
    BatchDistinct(bookings, now, limit);
    var ids := ExpiredPending(bookings, now, limit);
    forall i | 0 <= i < |ids| ensures ids[i] < |bookings| && IsDue(bookings[ids[i]], now) {
      assert ids[i] in ids;
      DueMember(bookings, now, ids[i]);
    }
  }

  function Sweep(s: State, now: int): State
    requires |s.bookings| == |s.items| == |s.tallies|
  {
    ExpiredAreDue(s.bookings, now, SWEEP_LIMIT);
    ExpireAll(s, ExpiredPending(s.bookings, now, SWEEP_LIMIT))
  }

  // ---- cancellation ----

  /** `apply_cancellation`, after the stock went back. */
  function ApplyCancellation(s: State, b: nat, latest: Option<nat>, now: int): State
    requires b < |s.bookings|
    requires latest.Some? ==> latest.value < |s.payments|
  {
    var row := s.bookings[b].(status := Cancelled, expiresAt := None);
    if latest.None? then s.(bookings := s.bookings[b := row])
    else
      var p := latest.value;
      match s.payments[p].status
      case PayPaid =>
        s.(bookings := s.bookings[b := row.(payStatus := PayRefunded)],
           payments := s.payments[p := s.payments[p].(status := PayRefunded)],
           refunds := s.refunds + [Refund(p, row.final, RefundProcessed, now)])
      case PayPending =>
        s.(bookings := s.bookings[b := row.(payStatus := PayCancelled)],
           payments := s.payments[p := s.payments[p].(status := PayCancelled)])
      case PayAuthorized =>
        s.(bookings := s.bookings[b := row.(payStatus := PayCancelled)],
           payments := s.payments[p := s.payments[p].(status := PayCancelled)])
      case _ => s.(bookings := s.bookings[b := row])
  }

  function CancelBooking(s: State, b: nat, user: Id, now: int): (State, Result<nat>)
    requires |s.bookings| == |s.items| == |s.tallies|
  {
    if !Owns(s, b, user) then (s, Err(NotFound))
    else if s.bookings[b].status == Cancelled then (s, Err(Conflict))
    else (ApplyCancellation(Release(s, b, ByCancel), b, LatestPayment(s, b), now), Ok(b))
  }

  // ---- refunds ----

  predicate Blank(text: string) {
    forall c | c in text :: c in {' ', '\t', '\n', '\r'}
  }

  function RequestRefund(s: State, b: nat, user: Id, reason: string, now: int): (State, Result<nat>) {
    if !Owns(s, b, user) || Blank(reason) then (s, Err(Validation))
    else
      var latest := LatestPayment(s, b);
      if latest.None? || s.payments[latest.value].status != PayPaid then (s, Err(Conflict))
      else
        var p := latest.value;
        var previous := LatestRefund(s, p);
        if previous.Some? && s.refunds[previous.value].status in {RefundPending, RefundProcessed}
        then (s, Err(Conflict))
        else if s.payments[p].amount <= 0 then (s, Err(Validation))
        else
          (s.(refunds := s.refunds + [Refund(p, s.payments[p].amount, RefundPending, now)]), Ok(|s.refunds|))
  }

  /** `_assert_refund_transition_allowed`. */
  predicate RefundMayMove(current: RefundStatus, next: RefundStatus) {
    match current
    case RefundPending => next in {RefundProcessed, RefundFailed, RefundCancelled}
    case RefundFailed => next in {RefundProcessed, RefundCancelled}
    case _ => false
  }

  function UpdateRefund(s: State, r: nat, next: RefundStatus): (State, Result<nat>) {
    if r >= |s.refunds| then (s, Err(NotFound))
    else if !RefundMayMove(s.refunds[r].status, next) then (s, Err(Conflict))
    else
      var s1 := s.(refunds := s.refunds[r := s.refunds[r].(status := next)]);
      var p := s.refunds[r].payment;
      if next != RefundProcessed || p >= |s.payments| then (s1, Ok(r))
      else
        var s2 := s1.(payments := s1.payments[p := s1.payments[p].(status := PayRefunded)]);
        var b := s.payments[p].booking;
        if b >= |s.bookings| then (s2, Ok(r))
        else (s2.(bookings := s2.bookings[b := s2.bookings[b].(payStatus := PayRefunded)]), Ok(r))
  }

  // ---- coupons ----

  function ProductOf(item: Item): Product {
    match item
    case FlightItem(_, _) => FlightProduct
    case StayItem(_, _, _, _) => HotelProduct
    case TourItem(_, _, _, _, _) => TourProduct
  }

  /** `_resolve_booking_product_type`. */
  function BookingProduct(items: seq<Item>): Result<Product> {
    if items == [] then Err(Validation)
    else if exists i | 0 <= i < |items| :: ProductOf(items[i]) != ProductOf(items[0]) then Err(Validation)
    else Ok(ProductOf(items[0]))
  }

  /** `_validate_coupon`, in the order of its checks. */
  function ValidateCoupon(s: State, code: string, b: nat, user: Id, now: int): Result<Coupon>
    requires b < |s.bookings| == |s.items|
  {
    if code !in s.coupons then Err(NotFound)
    else
      var c := s.coupons[code];
      if !c.active || (c.startsAt.Some? && c.startsAt.value > now) || (c.expiresAt.Some? && c.expiresAt.value < now)
      then Err(Validation)
      else if s.bookings[b].coupon.Some? then Err(Conflict)
      else
        var product := BookingProduct(s.items[b]);
        if product.Err? then Err(product.error)
        else if c.product != product.value || s.bookings[b].base < c.minimum then Err(Validation)
        else if c.limitTotal.Some? && c.used >= c.limitTotal.value then Err(Validation)
        else if c.limitPerUser.Some? && UsesBy(s.usages, code, user) >= c.limitPerUser.value then Err(Validation)
        else if UsedFor(s.usages, code, b) then Err(Conflict)
        else Ok(c)
  }

  function ApplyCoupon(s: State, b: nat, user: Id, code: string, now: int): (State, Result<nat>)
    requires |s.bookings| == |s.items|
  {
    if !Owns(s, b, user) then (s, Err(Validation))
    else
      var valid := ValidateCoupon(s, code, b, user, now);
      if valid.Err? then (s, Err(valid.error))
      else
        var c := valid.value;
        var row := s.bookings[b];
        var discount := Discount(c.kind, c.value, c.ceiling, row.base);
        (s.(bookings := s.bookings[b := row.(coupon := Some(code), discount := discount, final := row.base - discount)],
            usages := s.usages + [Usage(code, row.user, b)],
            coupons := s.coupons[code := c.(used := c.used + 1)]),
         Ok(b))
  }

  /** `_booking_has_issued_voucher_access`. */
  predicate HasVoucher(b: Booking) {
    b.status == Confirmed && b.payStatus == PayPaid
  }

  // ---- runs ----

  datatype Step =
    | DoFlight(user: Id, code: string, flight: Id, quantity: int, now: int, hold: nat)
    | DoHotel(user: Id, key: string, code: string, room: Id, checkIn: Day, checkOut: Day, quantity: int, now: int,
              hold: nat)
    | DoTour(user: Id, key: string, code: string, schedule: Id, party: Party, now: int, hold: nat)
    | DoCheckout(user: Id, code: string, schedule: Id, party: Party, via: PaymentMethod, key: string, now: int,
                 hold: nat, available: set<PaymentMethod>)
    | DoLook(booking: nat, user: Id, via: PaymentMethod, key: string, now: int, available: set<PaymentMethod>)
    | DoInsert(look: nat, now: int)
    | DoSimulate(payment: nat, user: Id)
    | DoDeliver(delivery: Delivery)
    | DoSweep(now: int)
    | DoCancel(booking: nat, user: Id, now: int)
    | DoRequestRefund(booking: nat, user: Id, reason: string, now: int)
    | DoUpdateRefund(refund: nat, next: RefundStatus)
    | DoCoupon(booking: nat, user: Id, code: string, now: int)

  predicate Aligned(s: State) {
    |s.bookings| == |s.items| == |s.tallies|
  }

  function Apply(s: State, step: Step): (t: State)
    requires Aligned(s)
    ensures Aligned(t)
  {
    match step
    case DoFlight(user, code, flight, quantity, now, hold) => CreateFlight(s, user, code, flight, quantity, now, hold).0
    case DoHotel(user, key, code, room, checkIn, checkOut, quantity, now, hold) =>
      CreateHotel(s, user, key, code, room, checkIn, checkOut, quantity, now, hold).0
    case DoTour(user, key, code, schedule, party, now, hold) => CreateTour(s, user, key, code, schedule, party,
                                                                           now, hold).0
    case DoCheckout(user, code, schedule, party, via, key, now, hold, available) =>
      BeginCheckout(s, user, code, schedule, party, via, key, now, hold, available).0
    case DoLook(b, user, via, key, now, available) => LookAt(s, b, user, via, key, now, available).0
    case DoInsert(i, now) => InsertLook(s, i, now).0
    case DoSimulate(p, user) => SimulateSuccess(s, p, user).0
    case DoDeliver(d) => DeliverLocked(s, d).0
    case DoSweep(now) => Sweep(s, now)
    case DoCancel(b, user, now) => CancelBooking(s, b, user, now).0
    case DoRequestRefund(b, user, reason, now) => RequestRefund(s, b, user, reason, now).0
    case DoUpdateRefund(r, next) => UpdateRefund(s, r, next).0
    case DoCoupon(b, user, code, now) => ApplyCoupon(s, b, user, code, now).0
  }

  /** The state after the steps of a run. */
  function Run(s: State, steps: seq<Step>): (t: State)
    requires Aligned(s)
    ensures Aligned(t)
  {
    if steps == [] then s else Apply(Run(s, steps[..|steps| - 1]), steps[|steps| - 1])
  }

  /** Before the first booking: no bookings, payments, requests, refunds, callbacks or coupon uses, and stock
      within its ceilings. */
  ghost predicate Fresh(s: State) {
    && s.bookings == [] && s.items == [] && s.payments == [] && s.refunds == []
    && s.callbacks == map[] && s.usages == [] && s.tallies == [] && s.looks == []
    && (forall c | c in s.coupons :: s.coupons[c].used == 0)
    && s.opening == s.stock && Valid(s.stock)
  }

  /** Some run leads from the fresh state `s` to `t`. */
  ghost predicate Reachable(s: State, t: State) {
    Fresh(s) && exists steps :: Run(s, steps) == t
  }
}
