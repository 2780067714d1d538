/** What every transaction keeps, and hence what holds in every reachable state, whatever the order
    of the transactions and however many payments a booking has. */
module LifecycleInvariant {
  import opened Basics
  import opened Inventory
  import opened CouponAmounts
  import opened Lifecycle

  // ---- the invariant, one predicate per concern ----

  /** References between tables point to existing rows. */
  ghost predicate Refs(bookings: seq<Booking>, payments: seq<Payment>, refunds: seq<Refund>) {
    && (forall p | 0 <= p < |payments| :: payments[p].booking < |bookings|)
    && (forall r | 0 <= r < |refunds| :: refunds[r].payment < |payments|)
  }

  /** A pending booking is untouched: unpaid, with an expiry, never released, and with pending
      payments only. A booking is released at most once by callbacks and the sweep together. */
  ghost predicate PendingClean(bookings: seq<Booking>, payments: seq<Payment>, tallies: seq<Tally>) {
    && |tallies| == |bookings|
    && (forall b | 0 <= b < |bookings| && bookings[b].status == Pending ::
          bookings[b].payStatus == PayPending && bookings[b].expiresAt.Some? && tallies[b] == Tally(0, 0, 0))
    && (forall p | 0 <= p < |payments| && payments[p].booking < |bookings|
                   && bookings[payments[p].booking].status == Pending ::
          payments[p].status == PayPending)
    && (forall b | 0 <= b < |tallies| :: tallies[b].byCallback + tallies[b].bySweep <= 1)
  }

  predicate Priced(b: Booking) {
    0 <= b.discount <= b.base && b.final == b.base - b.discount && (b.coupon.None? ==> b.discount == 0)
  }

  /** Amounts add up, and every payment covers what its booking costs now. */
  ghost predicate Money(bookings: seq<Booking>, payments: seq<Payment>) {
    && (forall b | 0 <= b < |bookings| :: Priced(bookings[b]))
    && (forall p | 0 <= p < |payments| && payments[p].booking < |bookings| ::
          0 < payments[p].amount && bookings[payments[p].booking].final <= payments[p].amount)
  }

  ghost predicate HasPaidPayment(payments: seq<Payment>, b: nat) {
    exists p | 0 <= p < |payments| :: payments[p].booking == b && payments[p].status == PayPaid
  }

  ghost predicate HasProcessedRefund(refunds: seq<Refund>, p: nat) {
    exists r | 0 <= r < |refunds| :: refunds[r].payment == p && refunds[r].status == RefundProcessed
  }

  /** Vouchers are backed by a paid payment. */
  ghost predicate VouchersBacked(bookings: seq<Booking>, payments: seq<Payment>) {
    forall b | 0 <= b < |bookings| && HasVoucher(bookings[b]) :: HasPaidPayment(payments, b)
  }

  /** A payment is refunded exactly when it has a processed refund; only charged payments have
      refunds, and no refund is above the charge. */
  ghost predicate RefundsMatch(payments: seq<Payment>, refunds: seq<Refund>) {
    && (forall p | 0 <= p < |payments| :: payments[p].status == PayRefunded <==> HasProcessedRefund(refunds, p))
    && (forall r | 0 <= r < |refunds| && refunds[r].payment < |payments| ::
          payments[refunds[r].payment].status in {PayPaid, PayRefunded}
          && refunds[r].amount <= payments[refunds[r].payment].amount)
    && (forall p | 0 <= p < |payments| :: payments[p].status != PayAuthorized)
  }

  function Max0(n: int): nat {
    if n < 0 then 0 else n
  }

  /** The usage table, the counters and the bookings tell the same story. */
  ghost predicate CouponBooks(bookings: seq<Booking>, coupons: map<string, Coupon>, usages: seq<Usage>) {
    && (forall c | c in coupons ::
          && coupons[c].used == UsesOf(usages, c)
          && (coupons[c].limitTotal.Some? ==> UsesOf(usages, c) <= Max0(coupons[c].limitTotal.value)))
    && (forall c, u: Id | c in coupons && coupons[c].limitPerUser.Some? ::
          UsesBy(usages, c, u) <= Max0(coupons[c].limitPerUser.value))
    && (forall i | 0 <= i < |usages| ::
          && usages[i].coupon in coupons
          && usages[i].booking < |bookings|
          && bookings[usages[i].booking].user == usages[i].user
          && bookings[usages[i].booking].coupon == Some(usages[i].coupon))
    && (forall b | 0 <= b < |bookings| && bookings[b].coupon.Some? :: UsedFor(usages, bookings[b].coupon.value, b))
  }

  /** The unique constraints hold. */
  ghost predicate Unique(bookings: seq<Booking>, payments: seq<Payment>) {
    && (forall a, b | 0 <= a < b < |bookings| :: bookings[a].code != bookings[b].code)
    && (forall p, q | 0 <= p < q < |payments| :: payments[p].orderRef != payments[q].orderRef)
    && (forall p, q | 0 <= p < q < |payments| && payments[p].booking == payments[q].booking ::
          payments[p].key != payments[q].key)
  }

  ghost predicate StockInRange(stock: Stock, opening: Stock) {
    SameUnits(opening, stock) && Valid(opening) && Valid(stock)
  }

  ghost predicate Inv(s: State) {
    && Aligned(s)
    && Refs(s.bookings, s.payments, s.refunds)
    && PendingClean(s.bookings, s.payments, s.tallies)
    && Money(s.bookings, s.payments)
    && VouchersBacked(s.bookings, s.payments)
    && RefundsMatch(s.payments, s.refunds)
    && CouponBooks(s.bookings, s.coupons, s.usages)
    && Unique(s.bookings, s.payments)
    && StockInRange(s.stock, s.opening)
  }

  /** A request in flight will insert a positive amount that covers what its booking costs now: the
      price was read earlier, and since then it can only have fallen. */
  ghost predicate LooksSound(bookings: seq<Booking>, looks: seq<Look>) {
    forall i | 0 <= i < |looks| ::
      looks[i].booking < |bookings| && 0 < looks[i].amount && bookings[looks[i].booking].final <= looks[i].amount
  }

  // ---- what one step may do to an existing row ----

  /** The payment lifecycle: pending payments are paid, fail or are cancelled; only paid ones are
      refunded; nothing else moves. */
  predicate PaymentMoves(a: PaymentStatus, b: PaymentStatus) {
    || a == b
    || (a == PayPending && b in {PayPaid, PayFailed, PayCancelled})
    || (a == PayPaid && b == PayRefunded)
  }

  /** Bookings persist, keep code, owner, base price and currency, never become pending again and never lose a
      discount. */
  ghost predicate BookingsMove(old': seq<Booking>, new': seq<Booking>) {
    && |old'| <= |new'|
    && (forall b | 0 <= b < |old'| ::
          && new'[b].code == old'[b].code && new'[b].user == old'[b].user
          && new'[b].base == old'[b].base && new'[b].final <= old'[b].final
          && new'[b].currency == old'[b].currency
          && (new'[b].status == Pending ==> old'[b].status == Pending))
  }

  ghost predicate PaymentsMove(old': seq<Payment>, new': seq<Payment>) {
    && |old'| <= |new'|
    && (forall p | 0 <= p < |old'| ::
          && new'[p] == old'[p].(status := new'[p].status)
          && PaymentMoves(old'[p].status, new'[p].status))
  }

  ghost predicate RefundsMove(old': seq<Refund>, new': seq<Refund>) {
    && |old'| <= |new'|
    && (forall r | 0 <= r < |old'| ::
          && new'[r] == old'[r].(status := new'[r].status)
          && (new'[r].status == old'[r].status || RefundMayMove(old'[r].status, new'[r].status)))
  }

  ghost predicate Moves(s: State, t: State) {
    && BookingsMove(s.bookings, t.bookings) && PaymentsMove(s.payments, t.payments)
    && RefundsMove(s.refunds, t.refunds) && s.items <= t.items && s.opening == t.opening
    && (forall k | k in s.callbacks :: k in t.callbacks && t.callbacks[k] == s.callbacks[k])
  }

  // ---- row changes ----

  /** Booking `b` is rewritten; code, owner and price stay. */
  ghost predicate SameBooking(row: Booking, row': Booking) {
    row' == row.(status := row'.status, payStatus := row'.payStatus, expiresAt := row'.expiresAt)
  }

  /** Closing a booking (together with a change of one of its payments) keeps the invariant on
      bookings and payments: the new booking row is not pending, and if it grants a voucher the
      payment has just been paid. */
  lemma CloseKeeps(bookings: seq<Booking>, payments: seq<Payment>, refunds: seq<Refund>, tallies: seq<Tally>,
                   coupons: map<string, Coupon>, usages: seq<Usage>, b: nat, row: Booking, tally: Tally)
    requires b < |bookings| == |tallies|
    requires PendingClean(bookings, payments, tallies) && Refs(bookings, payments, refunds)
    requires SameBooking(bookings[b], row) && row.status != Pending
    requires tally.byCallback + tally.bySweep <= 1
    ensures PendingClean(bookings[b := row], payments, tallies[b := tally])
    ensures Refs(bookings[b := row], payments, refunds)
    ensures BookingsMove(bookings, bookings[b := row])
    ensures Money(bookings, payments) ==> Money(bookings[b := row], payments)
    ensures Unique(bookings, payments) ==> Unique(bookings[b := row], payments)
    ensures CouponBooks(bookings, coupons, usages) ==> CouponBooks(bookings[b := row], coupons, usages)
  {
  }

  lemma CloseKeepsVouchers(bookings: seq<Booking>, payments: seq<Payment>, b: nat, row: Booking)
    requires VouchersBacked(bookings, payments) && b < |bookings|
    requires HasVoucher(row) ==> HasPaidPayment(payments, b)
    ensures VouchersBacked(bookings[b := row], payments)
  {
  }

  /** Changing the status of one payment along its graph. */
  lemma PayKeeps(bookings: seq<Booking>, payments: seq<Payment>, refunds: seq<Refund>, tallies: seq<Tally>,
                 p: nat, status: PaymentStatus)
    requires p < |payments|
    requires PaymentMoves(payments[p].status, status)
    requires Refs(bookings, payments, refunds)
    ensures var payments' := payments[p := payments[p].(status := status)];
      && Refs(bookings, payments', refunds)
      && PaymentsMove(payments, payments')
      && (Money(bookings, payments) ==> Money(bookings, payments'))
      && (Unique(bookings, payments) ==> Unique(bookings, payments'))
      && (PendingClean(bookings, payments, tallies) && bookings[payments[p].booking].status != Pending ==>
            PendingClean(bookings, payments', tallies))
  {
  }

  /** A payment that stops being paid must not leave a voucher behind. */
  lemma PayKeepsVouchers(bookings: seq<Booking>, payments: seq<Payment>, p: nat, status: PaymentStatus)
    requires VouchersBacked(bookings, payments) && p < |payments| && payments[p].booking < |bookings|
    requires status == PayPaid || payments[p].status != PayPaid || !HasVoucher(bookings[payments[p].booking])
    ensures VouchersBacked(bookings, payments[p := payments[p].(status := status)])
    ensures status == PayPaid ==>
      HasPaidPayment(payments[p := payments[p].(status := status)], payments[p].booking)
  {
    var payments' := payments[p := payments[p].(status := status)];
    forall b | 0 <= b < |bookings| && HasVoucher(bookings[b]) ensures HasPaidPayment(payments', b) {
      var q :| 0 <= q < |payments| && payments[q].booking == b && payments[q].status == PayPaid;
      assert payments'[q].booking == b && payments'[q].status == PayPaid;
    }
    if status == PayPaid {
      assert payments'[p].booking == payments[p].booking;
    }
  }

  /** Pending payments have no refunds, so settling one does not touch the refund table's story. */
  lemma PayKeepsRefunds(payments: seq<Payment>, refunds: seq<Refund>, p: nat, status: PaymentStatus)
    requires RefundsMatch(payments, refunds) && p < |payments|
    requires forall r | 0 <= r < |refunds| :: refunds[r].payment < |payments|
    requires PaymentMoves(payments[p].status, status) && status != PayRefunded
    ensures RefundsMatch(payments[p := payments[p].(status := status)], refunds)
  {
  }

  /** A step that settles payment `p` of booking `b` without refunding it. */
  lemma SettleKeeps(s: State, t: State, row: Booking, p: nat, status: PaymentStatus, tally: Tally)
    requires Inv(s) && p < |s.payments|
    requires var b := s.payments[p].booking;
      && t.bookings == s.bookings[b := row]
      && t.payments == s.payments[p := s.payments[p].(status := status)]
      && t.tallies == s.tallies[b := tally]
      && SameBooking(s.bookings[b], row)
    requires t.items == s.items && t.refunds == s.refunds && t.opening == s.opening
    requires t.coupons == s.coupons && t.usages == s.usages
    requires row.status != Pending && (HasVoucher(row) ==> status == PayPaid)
    requires PaymentMoves(s.payments[p].status, status) && status != PayRefunded
    requires tally.byCallback + tally.bySweep <= 1 && StockInRange(t.stock, t.opening)
    requires forall k | k in s.callbacks :: k in t.callbacks && t.callbacks[k] == s.callbacks[k]
    ensures Inv(t) && Moves(s, t)
  {
    var b := s.payments[p].booking;
    CloseKeeps(s.bookings, s.payments, s.refunds, s.tallies, s.coupons, s.usages, b, row, tally);
    PayKeeps(t.bookings, s.payments, s.refunds, t.tallies, p, status);
    PayKeepsRefunds(s.payments, s.refunds, p, status);
    if status == PayPaid {
      PayKeepsVouchers(s.bookings, s.payments, p, status);
      CloseKeepsVouchers(s.bookings, t.payments, b, row);
    } else {
      CloseKeepsVouchers(s.bookings, s.payments, b, row);
      PayKeepsVouchers(t.bookings, s.payments, p, status);
    }
  }

  /** A step that closes booking `b` and leaves its payments alone. */
  lemma CloseOnlyKeeps(s: State, t: State, b: nat, row: Booking, tally: Tally)
    requires Inv(s) && b < |s.bookings|
    requires t.bookings == s.bookings[b := row] && t.tallies == s.tallies[b := tally]
    requires t.items == s.items && t.payments == s.payments && t.refunds == s.refunds && t.opening == s.opening
    requires t.coupons == s.coupons && t.usages == s.usages && t.callbacks == s.callbacks
    requires SameBooking(s.bookings[b], row) && row.status != Pending && !HasVoucher(row)
    requires tally.byCallback + tally.bySweep <= 1 && StockInRange(t.stock, t.opening)
    ensures Inv(t) && Moves(s, t)
  {
    CloseKeeps(s.bookings, s.payments, s.refunds, s.tallies, s.coupons, s.usages, b, row, tally);
    CloseKeepsVouchers(s.bookings, s.payments, b, row);
  }

  // ---- every transaction keeps the invariant ----

  lemma ReleaseInRange(s: State, b: nat, cause: Cause)
    requires Inv(s) && b < |s.bookings|
    ensures StockInRange(Release(s, b, cause).stock, s.opening)
  {
    RestoreAllValid(s.stock, s.items[b]);
  }

  lemma InsertKeeps(s: State, code: string, user: Id, item: Item, total: int, now: int, hold: nat)
    requires Inv(s) && Listed(s.stock, item)
    requires forall u: Unit | Has(s.stock, u) :: Demand(item, u) <= Level(s.stock, u)
    ensures Inv(Insert(s, code, user, item, total, now, hold).0)
    ensures Moves(s, Insert(s, code, user, item, total, now, hold).0)
  {
    if !CodeTaken(s.bookings, code) && item.quantity != 0 && total >= 0 {
      var t := Insert(s, code, user, item, total, now, hold).0;
      var row := t.bookings[|s.bookings|];
      forall u: Unit | Has(s.stock, u) { TakeLowers(s.stock, item, u); }
      AppendBookingKeeps(s.bookings, s.payments, s.refunds, s.tallies, s.coupons, s.usages, row);
    }
  }

  lemma AppendBookingKeeps(bookings: seq<Booking>, payments: seq<Payment>, refunds: seq<Refund>, tallies: seq<Tally>,
                           coupons: map<string, Coupon>, usages: seq<Usage>, row: Booking)
    requires |bookings| == |tallies|
    requires Refs(bookings, payments, refunds) && PendingClean(bookings, payments, tallies)
    requires Money(bookings, payments) && VouchersBacked(bookings, payments)
    requires CouponBooks(bookings, coupons, usages) && Unique(bookings, payments)
    requires Open(row) && row.expiresAt.Some? && Priced(row) && row.coupon.None? && !CodeTaken(bookings, row.code)
    ensures Refs(bookings + [row], payments, refunds)
    ensures PendingClean(bookings + [row], payments, tallies + [Tally(0, 0, 0)])
    ensures Money(bookings + [row], payments) && VouchersBacked(bookings + [row], payments)
    ensures CouponBooks(bookings + [row], coupons, usages) && Unique(bookings + [row], payments)
  {
  }

  /** A payment of a positive amount that covers the booking may be added whatever has become of the
      booking. */
  lemma AddPaymentKeeps(s: State, look: Look, now: int)
    requires Inv(s) && look.booking < |s.bookings|
    requires 0 < look.amount && s.bookings[look.booking].final <= look.amount
    ensures Inv(AddPayment(s, look, now).0) && Moves(s, AddPayment(s, look, now).0)
  {
    var (t, r) := AddPayment(s, look, now);
    if r.Ok? {
      var row := t.payments[|s.payments|];
      AppendPaymentKeeps(s.bookings, s.payments, s.refunds, s.tallies, row);
      AppendPaymentUnique(s.bookings, s.payments, row);
      AppendPaymentVouchers(s.bookings, s.payments, row);
      AppendPaymentRefunds(s.payments, s.refunds, row);
    }
  }

  lemma AppendPaymentKeeps(bookings: seq<Booking>, payments: seq<Payment>, refunds: seq<Refund>, tallies: seq<Tally>,
                           row: Payment)
    requires Refs(bookings, payments, refunds) && PendingClean(bookings, payments, tallies)
    requires Money(bookings, payments)
    requires row.booking < |bookings| && row.status == PayPending
    requires 0 < row.amount && bookings[row.booking].final <= row.amount
    ensures Refs(bookings, payments + [row], refunds) && PendingClean(bookings, payments + [row], tallies)
    ensures Money(bookings, payments + [row])
  {
  }

  lemma AppendPaymentUnique(bookings: seq<Booking>, payments: seq<Payment>, row: Payment)
    requires Unique(bookings, payments)
    requires FindByRef(payments, row.orderRef).None? && FindByKey(payments, row.booking, row.key).None?
    ensures Unique(bookings, payments + [row])
  {
  }

  lemma AppendPaymentVouchers(bookings: seq<Booking>, payments: seq<Payment>, row: Payment)
    requires VouchersBacked(bookings, payments)
    ensures VouchersBacked(bookings, payments + [row])
  {
    forall b | 0 <= b < |bookings| && HasVoucher(bookings[b]) ensures HasPaidPayment(payments + [row], b) {
      var q :| 0 <= q < |payments| && payments[q].booking == b && payments[q].status == PayPaid;
      assert (payments + [row])[q] == payments[q];
    }
  }

  lemma AppendPaymentRefunds(payments: seq<Payment>, refunds: seq<Refund>, row: Payment)
    requires RefundsMatch(payments, refunds) && row.status == PayPending
    requires forall r | 0 <= r < |refunds| :: refunds[r].payment < |payments|
    ensures RefundsMatch(payments + [row], refunds)
  {
  }

  /** What an accepted first delivery of a transaction reference does, in terms of the report. */
  lemma DeliverChange(s: State, d: Delivery)
    requires Aligned(s) && DeliverLocked(s, d).1.Ok? && (d.gateway, d.txnRef) !in s.callbacks
    ensures var t := DeliverLocked(s, d).0;
      exists p: nat, report |
        && p < |s.payments| && s.payments[p].booking < |s.bookings|
        && FindByRef(s.payments, d.orderRef) == Some(p)
        && NormalizeStatus(d.status) == Ok(report) ::
        && report in {PayPaid, PayFailed, PayCancelled}
        && CheckTransition(s.payments[p].status, report).Ok?
        && var b := s.payments[p].booking;
        && t.bookings == s.bookings[b := Reported(s.bookings[b], report)]
        && t.payments == s.payments[p := s.payments[p].(status := report)]
        && t.tallies == s.tallies[b :=
             if ReleasesStock(s, p, report) then Bump(s.tallies[b], ByCallback) else s.tallies[b]]
        && t.stock == (if ReleasesStock(s, p, report) then RestoreAll(s.stock, s.items[b]) else s.stock)
        && t.callbacks == s.callbacks[(d.gateway, d.txnRef) := Callback(p, d)]
        && t == s.(bookings := t.bookings, payments := t.payments, tallies := t.tallies, stock := t.stock,
                   callbacks := t.callbacks)
  {
    var p := FindByRef(s.payments, d.orderRef).value;
    var b := s.payments[p].booking;
    assert s.tallies[b := s.tallies[b]] == s.tallies;
  }

  /** The invariant after a report, from the rows it rewrites. */
  lemma ReportKeeps(s: State, t: State, p: nat, report: PaymentStatus)
    requires Inv(s) && p < |s.payments| && report in {PayPaid, PayFailed, PayCancelled}
    requires CheckTransition(s.payments[p].status, report).Ok?
    requires var b := s.payments[p].booking;
      && b < |s.bookings| && b < |s.tallies|
      && t.bookings == s.bookings[b := Reported(s.bookings[b], report)]
      && t.payments == s.payments[p := s.payments[p].(status := report)]
      && t.tallies == s.tallies[b :=
           if ReleasesStock(s, p, report) then Bump(s.tallies[b], ByCallback) else s.tallies[b]]
    requires StockInRange(t.stock, t.opening)
    requires t.items == s.items && t.refunds == s.refunds && t.opening == s.opening
    requires t.coupons == s.coupons && t.usages == s.usages
    requires forall k | k in s.callbacks :: k in t.callbacks && t.callbacks[k] == s.callbacks[k]
    ensures Inv(t) && Moves(s, t)
  {
    var b := s.payments[p].booking;
    SettleKeeps(s, t, Reported(s.bookings[b], report), p, report, t.tallies[b]);
  }

  lemma SimulateKeeps(s: State, p: nat, user: Id)
    requires Inv(s)
    ensures Inv(SimulateSuccess(s, p, user).0) && Moves(s, SimulateSuccess(s, p, user).0)
  {
    var (t, r) := SimulateSuccess(s, p, user);
    if r.Ok? {
      var b := s.payments[p].booking;
      assert s.tallies[b := s.tallies[b]] == s.tallies;
      ReportKeeps(s, t, p, PayPaid);
    }
  }

  lemma DeliverKeeps(s: State, d: Delivery)
    requires Inv(s)
    ensures Inv(DeliverLocked(s, d).0) && Moves(s, DeliverLocked(s, d).0)
  {
    var (t, r) := DeliverLocked(s, d);
    if r.Ok? && (d.gateway, d.txnRef) !in s.callbacks {
      DeliverChange(s, d);
      var p := FindByRef(s.payments, d.orderRef).value;
      ReleaseInRange(s, s.payments[p].booking, ByCallback);
      ReportKeeps(s, t, p, NormalizeStatus(d.status).value);
    } else {
      assert t == s;
    }
  }

  lemma ExpireOneKeeps(s: State, b: nat)
    requires Inv(s) && b < |s.bookings| && s.bookings[b].status == Pending
    ensures Inv(ExpireOne(s, b)) && Moves(s, ExpireOne(s, b))
    ensures forall c | 0 <= c < |s.bookings| && c != b :: ExpireOne(s, b).bookings[c] == s.bookings[c]
  {
    var t := ExpireOne(s, b);
    var latest := LatestPayment(s, b);
    ReleaseInRange(s, b, BySweep);
    if latest.Some? {
      SettleKeeps(s, t, t.bookings[b], latest.value, PayCancelled, t.tallies[b]);
    } else {
      CloseOnlyKeeps(s, t, b, t.bookings[b], t.tallies[b]);
    }
  }

  lemma MovesTransitive(s: State, t: State, u: State)
    requires Moves(s, t) && Moves(t, u)
    ensures BookingsMove(s.bookings, u.bookings) && s.items <= u.items && s.opening == u.opening
    ensures |s.payments| <= |u.payments| && |s.refunds| <= |u.refunds|
    ensures forall k | k in s.callbacks :: k in u.callbacks && u.callbacks[k] == s.callbacks[k]
  {
  }

  /** A step that refunds payment `p` and takes the voucher away from its booking. */
  lemma RefundingKeeps(s: State, t: State, row: Booking, p: nat, tally: Tally)
    requires Inv(s) && p < |s.payments| && s.payments[p].status in {PayPaid, PayRefunded}
    requires var b := s.payments[p].booking;
      && t.bookings == s.bookings[b := row]
      && t.payments == s.payments[p := s.payments[p].(status := PayRefunded)]
      && t.tallies == s.tallies[b := tally]
      && SameBooking(s.bookings[b], row)
    requires row.status != Pending && !HasVoucher(row)
    requires t.items == s.items && t.opening == s.opening && t.callbacks == s.callbacks
    requires t.coupons == s.coupons && t.usages == s.usages
    requires tally.byCallback + tally.bySweep <= 1 && StockInRange(t.stock, t.opening)
    requires RefundsMatch(t.payments, t.refunds) && RefundsMove(s.refunds, t.refunds)
    requires forall r | 0 <= r < |t.refunds| :: t.refunds[r].payment < |s.payments|
    ensures Inv(t) && Moves(s, t)
  {
    var b := s.payments[p].booking;
    CloseKeeps(s.bookings, s.payments, s.refunds, s.tallies, s.coupons, s.usages, b, row, tally);
    CloseKeepsVouchers(s.bookings, s.payments, b, row);
    PayKeeps(t.bookings, s.payments, s.refunds, t.tallies, p, PayRefunded);
    PayKeepsVouchers(t.bookings, s.payments, p, PayRefunded);
  }

  /** What an accepted cancellation does, by the status of the latest payment. */
  lemma CancelChange(s: State, b: nat, user: Id, now: int)
    requires Aligned(s) && CancelBooking(s, b, user, now).1.Ok?
    ensures Owns(s, b, user) && s.bookings[b].status != Cancelled
    ensures var t := CancelBooking(s, b, user, now).0;
      var latest := LatestPayment(s, b);
      var row := t.bookings[b];
      && t == s.(bookings := s.bookings[b := row], payments := t.payments, refunds := t.refunds,
                 tallies := s.tallies[b := Bump(s.tallies[b], ByCancel)], stock := RestoreAll(s.stock, s.items[b]))
      && SameBooking(s.bookings[b], row) && row.status == Cancelled
      && (latest.Some? && s.payments[latest.value].status == PayPaid ==>
            && t.payments == s.payments[latest.value := s.payments[latest.value].(status := PayRefunded)]
            && t.refunds == s.refunds + [Refund(latest.value, s.bookings[b].final, RefundProcessed, now)])
      && (latest.Some? && s.payments[latest.value].status == PayPending ==>
            && t.payments == s.payments[latest.value := s.payments[latest.value].(status := PayCancelled)]
            && t.refunds == s.refunds)
      && (latest.None? || s.payments[latest.value].status in {PayFailed, PayCancelled, PayRefunded} ==>
            t.payments == s.payments && t.refunds == s.refunds)
  {
  }

  lemma CancelKeeps(s: State, b: nat, user: Id, now: int)
    requires Inv(s)
    ensures Inv(CancelBooking(s, b, user, now).0) && Moves(s, CancelBooking(s, b, user, now).0)
  {
    var (t, r) := CancelBooking(s, b, user, now);
    if r.Ok? {
      CancelChange(s, b, user, now);
      CancelledKeeps(s, t, b, LatestPayment(s, b), now);
    }
  }

  lemma CancelledKeeps(s: State, t: State, b: nat, latest: Option<nat>, now: int)
    requires Inv(s) && b < |s.bookings| && b < |t.bookings|
    requires latest.Some? ==> latest.value < |s.payments| && s.payments[latest.value].booking == b
    requires t == s.(bookings := s.bookings[b := t.bookings[b]], payments := t.payments, refunds := t.refunds,
                     tallies := s.tallies[b := Bump(s.tallies[b], ByCancel)], stock := RestoreAll(s.stock, s.items[b]))
    requires SameBooking(s.bookings[b], t.bookings[b]) && t.bookings[b].status == Cancelled
    requires latest.Some? && s.payments[latest.value].status == PayPaid ==>
      && t.payments == s.payments[latest.value := s.payments[latest.value].(status := PayRefunded)]
      && t.refunds == s.refunds + [Refund(latest.value, s.bookings[b].final, RefundProcessed, now)]
    requires latest.Some? && s.payments[latest.value].status == PayPending ==>
      && t.payments == s.payments[latest.value := s.payments[latest.value].(status := PayCancelled)]
      && t.refunds == s.refunds
    requires latest.None? || s.payments[latest.value].status in {PayFailed, PayCancelled, PayRefunded} ==>
      t.payments == s.payments && t.refunds == s.refunds
    ensures Inv(t) && Moves(s, t)
  {
    ReleaseInRange(s, b, ByCancel);
    NeverAuthorized(s, latest);
    if latest.Some? && s.payments[latest.value].status == PayPaid {
      CoversRefund(s, latest.value);
      RefundPaymentMatches(s.payments, s.refunds, Refund(latest.value, s.bookings[b].final, RefundProcessed, now));
      RefundingKeeps(s, t, t.bookings[b], latest.value, t.tallies[b]);
    } else if latest.Some? && s.payments[latest.value].status == PayPending {
      SettleKeeps(s, t, t.bookings[b], latest.value, PayCancelled, t.tallies[b]);
    } else {
      CloseOnlyKeeps(s, t, b, t.bookings[b], t.tallies[b]);
    }
  }

  lemma CoversRefund(s: State, p: nat)
    requires Inv(s) && p < |s.payments|
    ensures s.bookings[s.payments[p].booking].final <= s.payments[p].amount
  {
  }

  lemma NeverAuthorized(s: State, p: Option<nat>)
    requires Inv(s) && (p.Some? ==> p.value < |s.payments|)
    ensures p.Some? ==> s.payments[p.value].status != PayAuthorized
  {
  }

  /** Refunding a charge with a processed refund keeps the refund table's story. */
  lemma RefundPaymentMatches(payments: seq<Payment>, refunds: seq<Refund>, refund: Refund)
    requires RefundsMatch(payments, refunds) && refund.payment < |payments|
    requires forall r | 0 <= r < |refunds| :: refunds[r].payment < |payments|
    requires refund.status == RefundProcessed && refund.amount <= payments[refund.payment].amount
    ensures RefundsMatch(payments[refund.payment := payments[refund.payment].(status := PayRefunded)],
                         refunds + [refund])
  {
    var refunds' := refunds + [refund];
    forall p | 0 <= p < |payments|
      ensures HasProcessedRefund(refunds', p) <==> p == refund.payment || HasProcessedRefund(refunds, p)
    {
      if p == refund.payment {
        assert refunds'[|refunds|] == refund;
      }
      if HasProcessedRefund(refunds, p) {
        var r :| 0 <= r < |refunds| && refunds[r].payment == p && refunds[r].status == RefundProcessed;
        assert refunds'[r] == refunds[r];
      }
    }
  }

  lemma PendingRefundMatches(payments: seq<Payment>, refunds: seq<Refund>, refund: Refund)
    requires RefundsMatch(payments, refunds) && refund.payment < |payments| && refund.status == RefundPending
    requires payments[refund.payment].status == PayPaid && refund.amount <= payments[refund.payment].amount
    ensures RefundsMatch(payments, refunds + [refund]) && RefundsMove(refunds, refunds + [refund])
  {
    var after := refunds + [refund];
    forall p | 0 <= p < |payments| ensures HasProcessedRefund(after, p) <==> HasProcessedRefund(refunds, p) {
      if HasProcessedRefund(refunds, p) {
        var q :| 0 <= q < |refunds| && refunds[q].payment == p && refunds[q].status == RefundProcessed;
        assert after[q] == refunds[q];
      }
    }
  }

  lemma RefundsOnlyKeep(s: State, refunds: seq<Refund>)
    requires Inv(s) && RefundsMatch(s.payments, refunds) && RefundsMove(s.refunds, refunds)
    requires forall r | 0 <= r < |refunds| :: refunds[r].payment < |s.payments|
    ensures Inv(s.(refunds := refunds)) && Moves(s, s.(refunds := refunds))
  {
  }

  /** An accepted request adds one pending refund of the full amount of a paid payment. */
  lemma RequestRefundChange(s: State, b: nat, user: Id, reason: string, now: int)
    requires RequestRefund(s, b, user, reason, now).1.Ok?
    ensures var t := RequestRefund(s, b, user, reason, now).0;
      exists p: nat ::
        && p < |s.payments| && s.payments[p].status == PayPaid
        && t == s.(refunds := s.refunds + [Refund(p, s.payments[p].amount, RefundPending, now)])
  {
  }

  lemma RequestRefundKeeps(s: State, b: nat, user: Id, reason: string, now: int)
    requires Inv(s)
    ensures Inv(RequestRefund(s, b, user, reason, now).0) && Moves(s, RequestRefund(s, b, user, reason, now).0)
  {
    var (t, r) := RequestRefund(s, b, user, reason, now);
    if r.Ok? {
      RequestRefundChange(s, b, user, reason, now);
      PendingRefundMatches(s.payments, s.refunds, t.refunds[|s.refunds|]);
      RefundsOnlyKeep(s, t.refunds);
    }
  }

  /** Moving one refund along its table, and with it the payment when it is processed. */
  lemma RefundMoveMatches(payments: seq<Payment>, refunds: seq<Refund>, r: nat, next: RefundStatus)
    requires RefundsMatch(payments, refunds) && r < |refunds| && refunds[r].payment < |payments|
    requires forall i | 0 <= i < |refunds| :: refunds[i].payment < |payments|
    requires RefundMayMove(refunds[r].status, next)
    ensures var refunds' := refunds[r := refunds[r].(status := next)];
      && RefundsMove(refunds, refunds')
      && (next != RefundProcessed ==> RefundsMatch(payments, refunds'))
      && (next == RefundProcessed ==>
            RefundsMatch(payments[refunds[r].payment := payments[refunds[r].payment].(status := PayRefunded)],
                         refunds'))
  {
    var refunds' := refunds[r := refunds[r].(status := next)];
    var p := refunds[r].payment;
    forall q | 0 <= q < |payments|
      ensures HasProcessedRefund(refunds', q) <==> HasProcessedRefund(refunds, q) || (next == RefundProcessed && q == p)
    {
      if q == p && next == RefundProcessed {
        assert refunds'[r].payment == p;
      }
      if HasProcessedRefund(refunds, q) {
        var i :| 0 <= i < |refunds| && refunds[i].payment == q && refunds[i].status == RefundProcessed;
        assert refunds'[i] == refunds[i];
      }
    }
  }

  lemma UpdateRefundKeeps(s: State, r: nat, next: RefundStatus)
    requires Inv(s)
    ensures Inv(UpdateRefund(s, r, next).0) && Moves(s, UpdateRefund(s, r, next).0)
  {
    var (t, result) := UpdateRefund(s, r, next);
    if result.Ok? {
      RefundMoveMatches(s.payments, s.refunds, r, next);
      if next == RefundProcessed {
        var p := s.refunds[r].payment;
        var b := s.payments[p].booking;
        assert s.tallies[b := s.tallies[b]] == s.tallies;
        RefundedNotPending(s, r);
        RefundingKeeps(s, t, t.bookings[b], p, s.tallies[b]);
      }
    }
  }

  lemma RefundedNotPending(s: State, r: nat)
    requires Inv(s) && r < |s.refunds|
    ensures var p := s.refunds[r].payment;
      s.payments[p].status in {PayPaid, PayRefunded} && s.bookings[s.payments[p].booking].status != Pending
  {
  }

  /** A coupon lowers the final amount, so every payment still covers its booking. */
  lemma DiscountKeeps(bookings: seq<Booking>, payments: seq<Payment>, refunds: seq<Refund>, tallies: seq<Tally>,
                      b: nat, row: Booking)
    requires Refs(bookings, payments, refunds) && PendingClean(bookings, payments, tallies)
    requires Money(bookings, payments) && Unique(bookings, payments) && VouchersBacked(bookings, payments)
    requires b < |bookings| && bookings[b].coupon.None? && Priced(row)
    requires row == bookings[b].(coupon := row.coupon, discount := row.discount, final := row.final)
    ensures Refs(bookings[b := row], payments, refunds) && PendingClean(bookings[b := row], payments, tallies)
    ensures Money(bookings[b := row], payments) && Unique(bookings[b := row], payments)
    ensures VouchersBacked(bookings[b := row], payments)
    ensures BookingsMove(bookings, bookings[b := row])
  {
  }

  /** What an accepted coupon does. */
  lemma CouponChange(s: State, b: nat, user: Id, code: string, now: int)
    requires Aligned(s) && ApplyCoupon(s, b, user, code, now).1.Ok?
    ensures Owns(s, b, user) && code in s.coupons && s.bookings[b].coupon.None?
    ensures var t := ApplyCoupon(s, b, user, code, now).0;
      var c := s.coupons[code];
      var row := s.bookings[b];
      var discount := Discount(c.kind, c.value, c.ceiling, row.base);
      && (c.limitTotal.Some? ==> c.used < c.limitTotal.value)
      && (c.limitPerUser.Some? ==> UsesBy(s.usages, code, row.user) < c.limitPerUser.value)
      && t == s.(bookings := s.bookings[b := row.(coupon := Some(code), discount := discount,
                                                  final := row.base - discount)],
                 usages := s.usages + [Usage(code, row.user, b)],
                 coupons := s.coupons[code := c.(used := c.used + 1)])
  {
  }

  lemma CouponKeeps(s: State, b: nat, user: Id, code: string, now: int)
    requires Inv(s)
    ensures Inv(ApplyCoupon(s, b, user, code, now).0) && Moves(s, ApplyCoupon(s, b, user, code, now).0)
  {
    var (t, r) := ApplyCoupon(s, b, user, code, now);
    if r.Ok? {
      CouponChange(s, b, user, code, now);
      var c := s.coupons[code];
      CouponedKeeps(s, t, b, code, Discount(c.kind, c.value, c.ceiling, s.bookings[b].base));
    }
  }

  lemma CouponedKeeps(s: State, t: State, b: nat, code: string, discount: int)
    requires Inv(s) && b < |s.bookings| && code in s.coupons && s.bookings[b].coupon.None?
    requires var c := s.coupons[code];
      var row := s.bookings[b];
      && discount == Discount(c.kind, c.value, c.ceiling, row.base)
      && (c.limitTotal.Some? ==> c.used < c.limitTotal.value)
      && (c.limitPerUser.Some? ==> UsesBy(s.usages, code, row.user) < c.limitPerUser.value)
      && t == s.(bookings := s.bookings[b := row.(coupon := Some(code), discount := discount,
                                                  final := row.base - discount)],
                 usages := s.usages + [Usage(code, row.user, b)],
                 coupons := s.coupons[code := c.(used := c.used + 1)])
    ensures Inv(t) && Moves(s, t)
  {
    var c := s.coupons[code];
    PricedRow(s.bookings, s.payments, b);
    DiscountWithinBase(c.kind, c.value, c.ceiling, s.bookings[b].base);
    var row := s.bookings[b].(coupon := Some(code), discount := discount, final := s.bookings[b].base - discount);
    DiscountKeeps(s.bookings, s.payments, s.refunds, s.tallies, b, row);
    CouponBooksGrow(s.bookings, s.coupons, s.usages, b, code, row);
  }

  lemma PricedRow(bookings: seq<Booking>, payments: seq<Payment>, b: nat)
    requires Money(bookings, payments) && b < |bookings|
    ensures Priced(bookings[b])
  {
  }

  lemma OneMoreUse(usages: seq<Usage>, use: Usage, coupon: string, user: Id)
    ensures UsesOf(usages + [use], coupon) == UsesOf(usages, coupon) + (if use.coupon == coupon then 1 else 0)
    ensures UsesBy(usages + [use], coupon, user) ==
            UsesBy(usages, coupon, user) + (if use.coupon == coupon && use.user == user then 1 else 0)
  {
    assert (usages + [use])[..|usages|] == usages;
  }

  lemma UsedForGrows(usages: seq<Usage>, use: Usage, coupon: string, b: nat)
    requires UsedFor(usages, coupon, b) || (use.coupon == coupon && use.booking == b)
    ensures UsedFor(usages + [use], coupon, b)
  {
    var after := usages + [use];
    if UsedFor(usages, coupon, b) {
      var i :| 0 <= i < |usages| && usages[i].coupon == coupon && usages[i].booking == b;
      assert after[i] == usages[i];
    } else {
      assert after[|usages|] == use;
    }
  }

  lemma CouponBooksGrow(bookings: seq<Booking>, coupons: map<string, Coupon>, usages: seq<Usage>, b: nat, code: string,
                        row: Booking)
    requires CouponBooks(bookings, coupons, usages) && b < |bookings| && code in coupons
    requires bookings[b].coupon.None? && row.coupon == Some(code) && row.user == bookings[b].user
    requires coupons[code].limitTotal.Some? ==> coupons[code].used < coupons[code].limitTotal.value
    requires coupons[code].limitPerUser.Some? ==> UsesBy(usages, code, row.user) < coupons[code].limitPerUser.value
    ensures CouponBooks(bookings[b := row], coupons[code := coupons[code].(used := coupons[code].used + 1)],
                        usages + [Usage(code, row.user, b)])
  {
    var use := Usage(code, row.user, b);
    var usages' := usages + [use];
    var bookings' := bookings[b := row];
    forall c, u: Id
      ensures UsesOf(usages', c) == UsesOf(usages, c) + (if c == code then 1 else 0)
      ensures UsesBy(usages', c, u) == UsesBy(usages, c, u) + (if c == code && u == row.user then 1 else 0)
    {
      OneMoreUse(usages, use, c, u);
    }
    forall q | 0 <= q < |bookings'| && bookings'[q].coupon.Some?
      ensures UsedFor(usages', bookings'[q].coupon.value, q)
    {
      UsedForGrows(usages, use, bookings'[q].coupon.value, q);
    }
  }
}
