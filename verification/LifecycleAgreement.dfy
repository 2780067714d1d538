/** Booking and payment statuses agree for every booking that gets one payment, inserted while it is
    pending, and is cancelled only while pending or confirmed. This concerns the requests for that
    booking alone; other bookings may do as they like. */
module LifecycleAgreement {
  import opened Basics
  import opened Inventory
  import opened Lifecycle
  import opened LifecycleInvariant
  import opened LifecycleRuns
  import opened LifecycleTheorems
  import opened LifecycleHolds
  import opened LifecycleConservation

  /** What a booking looks like beside its payment. */
  predicate Beside(payment: PaymentStatus, row: Booking) {
    match payment
    case PayPending => row.status == Pending && row.payStatus == PayPending
    case PayPaid => row.status == Confirmed && row.payStatus == PayPaid
    case PayFailed => row.status == Failed && row.payStatus == PayFailed
    case PayCancelled => row.status in {Cancelled, Expired} && row.payStatus == PayCancelled
    case PayRefunded => row.status in {Confirmed, Cancelled} && row.payStatus == PayRefunded
    case PayAuthorized => false
  }

  /** What a booking looks like that nobody has started to pay. */
  predicate Bare(row: Booking) {
    || (row.status == Pending && row.payStatus == PayPending)
    || (row.status == Expired && row.payStatus == PayCancelled)
    || (row.status == Cancelled && row.payStatus == PayPending)
  }

  ghost predicate HasPayment(payments: seq<Payment>, b: nat) {
    exists p | 0 <= p < |payments| :: payments[p].booking == b
  }

  /** Booking `b`, if there is one, has at most one payment and agrees with it. */
  ghost predicate AgreedAt(bookings: seq<Booking>, payments: seq<Payment>, b: nat) {
    && (forall p, q | 0 <= p < |payments| && 0 <= q < |payments| && payments[p].booking == b == payments[q].booking ::
          p == q)
    && (b < |bookings| ==>
          && (forall p | 0 <= p < |payments| && payments[p].booking == b :: Beside(payments[p].status, bookings[b]))
          && (HasPayment(payments, b) || Bare(bookings[b])))
  }

  // ---- the discipline ----

  predicate DisciplinedAt(s: State, step: Step, b: nat) {
    match step
    case DoCancel(c, _, _) =>
      c == b < |s.bookings| ==> Active(s.bookings[b]) || s.bookings[b].status == Cancelled
    case DoInsert(i, _) =>
      i < |s.looks| && s.looks[i].booking == b < |s.bookings| && FindByKey(s.payments, b, s.looks[i].key).None? ==>
        s.bookings[b].status == Pending && LatestPayment(s, b).None?
    case _ => true
  }

  predicate DisciplinedAlong(s: State, steps: seq<Step>, b: nat)
    requires Aligned(s)
  {
    steps != [] ==>
      var n := |steps| - 1;
      DisciplinedAlong(s, steps[..n], b) && DisciplinedAt(Run(s, steps[..n]), steps[n], b)
  }

  /** Some run that is disciplined at `b` leads from the fresh state `s` to `t`. */
  ghost predicate DisciplinedReach(s: State, t: State, b: nat) {
    Fresh(s) && exists steps :: DisciplinedAlong(s, steps, b) && Run(s, steps) == t
  }

  // ---- row changes ----

  /** Nothing that concerns the agreement of `b` changes. */
  ghost predicate Untouched(bookings: seq<Booking>, payments: seq<Payment>, bookings': seq<Booking>,
                            payments': seq<Payment>, b: nat)
  {
    && b < |bookings| <= |bookings'|
    && bookings'[b].status == bookings[b].status && bookings'[b].payStatus == bookings[b].payStatus
    && |payments| <= |payments'|
    && (forall p | 0 <= p < |payments| ::
          payments'[p].booking == payments[p].booking
          && (payments[p].booking == b ==> payments'[p].status == payments[p].status))
    && (forall p | |payments| <= p < |payments'| :: payments'[p].booking != b)
  }

  lemma UntouchedAgrees(bookings: seq<Booking>, payments: seq<Payment>, bookings': seq<Booking>,
                        payments': seq<Payment>, b: nat)
    requires AgreedAt(bookings, payments, b) && Untouched(bookings, payments, bookings', payments', b)
    ensures AgreedAt(bookings', payments', b)
  {
    if HasPayment(payments, b) {
      var p :| 0 <= p < |payments| && payments[p].booking == b;
      assert payments'[p].booking == b;
    }
  }

  /** A payment changes its status together with its booking. */
  lemma SettleAgrees(bookings: seq<Booking>, payments: seq<Payment>, p: nat, status: PaymentStatus, row: Booking,
                     b: nat)
    requires AgreedAt(bookings, payments, b) && p < |payments| && payments[p].booking < |bookings|
    requires payments[p].booking == b ==> Beside(status, row)
    ensures AgreedAt(bookings[payments[p].booking := row], payments[p := payments[p].(status := status)], b)
  {
    var after := payments[p := payments[p].(status := status)];
    assert after[p].booking == payments[p].booking;
    if HasPayment(payments, b) {
      var q :| 0 <= q < |payments| && payments[q].booking == b;
      assert after[q].booking == b;
    }
  }

  lemma BareAgrees(bookings: seq<Booking>, payments: seq<Payment>, c: nat, row: Booking, b: nat)
    requires AgreedAt(bookings, payments, b) && c < |bookings|
    requires c == b ==> Bare(row) && forall p | 0 <= p < |payments| :: payments[p].booking != b
    ensures AgreedAt(bookings[c := row], payments, b)
  {
  }

  /** A payment that is inserted as the first of a booking keeps the agreement exactly while the booking
      is pending. */
  lemma AppendAgreesIff(bookings: seq<Booking>, payments: seq<Payment>, row: Payment)
    requires row.booking < |bookings| && row.status == PayPending && AgreedAt(bookings, payments, row.booking)
    requires !HasPayment(payments, row.booking)
    ensures AgreedAt(bookings, payments + [row], row.booking) <==> bookings[row.booking].status == Pending
  {
    var after := payments + [row];
    assert after[|payments|] == row;
    forall p | 0 <= p < |payments| ensures after[p].booking != row.booking {
      assert after[p] == payments[p];
    }
  }

  lemma AppendOther(bookings: seq<Booking>, payments: seq<Payment>, row: Payment, b: nat)
    requires AgreedAt(bookings, payments, b) && row.booking != b
    ensures AgreedAt(bookings, payments + [row], b)
  {
    var after := payments + [row];
    if HasPayment(payments, b) {
      var p :| 0 <= p < |payments| && payments[p].booking == b;
      assert after[p].booking == b;
    }
  }

  /** A second payment breaks the agreement. */
  lemma SecondBreaks(bookings: seq<Booking>, payments: seq<Payment>, row: Payment)
    requires HasPayment(payments, row.booking)
    ensures !AgreedAt(bookings, payments + [row], row.booking)
  {
    var after := payments + [row];
    var p :| 0 <= p < |payments| && payments[p].booking == row.booking;
    assert after[p].booking == row.booking && after[|payments|].booking == row.booking;
  }

  // ---- steps ----

  ghost predicate AgreesAt(s: State, b: nat) {
    AgreedAt(s.bookings, s.payments, b)
  }

  /** The insertion of a request's payment keeps the agreement of its booking if and only if it is the
      first payment and the booking is still pending, which the code does not check again. */
  lemma InsertAgreesIff(s: State, i: nat, now: int)
    requires i < |s.looks| && s.looks[i].booking < |s.bookings| && AgreesAt(s, s.looks[i].booking)
    requires InsertLook(s, i, now).0.payments != s.payments
    ensures AgreesAt(InsertLook(s, i, now).0, s.looks[i].booking) <==>
            s.bookings[s.looks[i].booking].status == Pending && LatestPayment(s, s.looks[i].booking).None?
  {
    var b := s.looks[i].booking;
    var row := NewPayment(s.looks[i], s.bookings[b].code, now);
    if HasPayment(s.payments, b) {
      SecondBreaks(s.bookings, s.payments, row);
      var p :| 0 <= p < |s.payments| && s.payments[p].booking == b;
    } else {
      AppendAgreesIff(s.bookings, s.payments, row);
    }
  }

  lemma InsertAgrees(s: State, i: nat, now: int, b: nat)
    requires AgreesAt(s, b) && DisciplinedAt(s, DoInsert(i, now), b)
    ensures AgreesAt(InsertLook(s, i, now).0, b)
  {
    var t := InsertLook(s, i, now).0;
    if t.payments != s.payments {
      if s.looks[i].booking == b {
        InsertAgreesIff(s, i, now);
      } else {
        AppendOther(s.bookings, s.payments, NewPayment(s.looks[i], s.bookings[s.looks[i].booking].code, now), b);
      }
    }
  }

  /** A new pending booking, without payment or with its first one. */
  lemma NewBookingAgrees(bookings: seq<Booking>, payments: seq<Payment>, row: Booking, b: nat)
    requires AgreedAt(bookings, payments, b) && row.status == Pending && row.payStatus == PayPending
    requires forall p | 0 <= p < |payments| :: payments[p].booking < |bookings|
    ensures AgreedAt(bookings + [row], payments, b)
  {
  }

  lemma InsertBookingAgrees(s: State, code: string, user: Id, item: Item, total: int, now: int, hold: nat, b: nat)
    requires AgreesAt(s, b) && Listed(s.stock, item)
    requires forall p | 0 <= p < |s.payments| :: s.payments[p].booking < |s.bookings|
    ensures AgreesAt(Insert(s, code, user, item, total, now, hold).0, b)
  {
    var (t, r) := Insert(s, code, user, item, total, now, hold);
    if r.Ok? {
      NewBookingAgrees(s.bookings, s.payments, t.bookings[|s.bookings|], b);
    }
  }

  lemma TourAgrees(s: State, user: Id, code: string, schedule: Id, party: Party, now: int, hold: nat, b: nat)
    requires AgreesAt(s, b)
    requires forall p | 0 <= p < |s.payments| :: s.payments[p].booking < |s.bookings|
    ensures AgreesAt(InsertTour(s, user, code, schedule, party, now, hold).0, b)
  {
    if InsertTour(s, user, code, schedule, party, now, hold).0 != s {
      InsertBookingAgrees(s, code, user, TourOf(schedule, party),
                          TourPrice(s.stock.schedules[schedule].prices, party), now, hold, b);
    }
  }

  lemma BookingAgrees(s: State, step: Step, b: nat)
    requires Aligned(s) && AgreesAt(s, b) && (step.DoFlight? || step.DoHotel? || step.DoTour?)
    requires forall p | 0 <= p < |s.payments| :: s.payments[p].booking < |s.bookings|
    ensures AgreesAt(Apply(s, step), b)
  {
    if Apply(s, step) == s {
    } else if step.DoFlight? {
      InsertBookingAgrees(s, step.code, step.user, FlightItem(step.flight, Positive(step.quantity)),
                          s.stock.flights[step.flight].price * step.quantity, step.now, step.hold, b);
    } else if step.DoHotel? {
      InsertBookingAgrees(s, step.code, step.user,
                          StayItem(step.room, step.checkIn, step.checkOut, Positive(step.quantity)),
                          s.stock.rooms[step.room].nightPrice * step.quantity * (step.checkOut - step.checkIn),
                          step.now, step.hold, b);
    } else {
      TourAgrees(s, step.user, step.code, step.schedule, step.party, step.now, step.hold, b);
    }
  }

  lemma NewCheckoutAgrees(s: State, user: Id, code: string, schedule: Id, party: Party, via: PaymentMethod,
                          key: string, now: int, hold: nat, available: set<PaymentMethod>, b: nat)
    requires Aligned(s) && AgreesAt(s, b)
    requires forall p | 0 <= p < |s.payments| :: s.payments[p].booking < |s.bookings|
    requires NewCheckout(s, user, code, schedule, party, via, key, now, hold, available).1.Ok?
    ensures AgreesAt(NewCheckout(s, user, code, schedule, party, via, key, now, hold, available).0, b)
  {
    NewCheckoutAdds(s, user, code, schedule, party, via, key, now, hold, available);
    TourAgrees(s, user, code, schedule, party, now, hold, b);
    var s1 := InsertTour(s, user, code, schedule, party, now, hold).0;
    var c := |s.bookings|;
    var row := NewPayment(Look(c, via, key, s1.bookings[c].final, s1.bookings[c].currency, false),
                          s1.bookings[c].code, now);
    if b == c {
      AppendAgreesIff(s1.bookings, s1.payments, row);
    } else {
      AppendOther(s1.bookings, s1.payments, row, b);
    }
  }

  lemma CheckoutAgrees(s: State, user: Id, code: string, schedule: Id, party: Party, via: PaymentMethod,
                       key: string, now: int, hold: nat, available: set<PaymentMethod>, b: nat)
    requires Aligned(s) && AgreesAt(s, b)
    requires forall p | 0 <= p < |s.payments| :: s.payments[p].booking < |s.bookings|
    ensures AgreesAt(BeginCheckout(s, user, code, schedule, party, via, key, now, hold, available).0, b)
  {
    var t := BeginCheckout(s, user, code, schedule, party, via, key, now, hold, available).0;
    CheckoutShape(s, user, code, schedule, party, via, key, now, hold, available);
    if t != s.(looks := t.looks) {
      NewCheckoutAgrees(s, user, code, schedule, party, via, key, now, hold, available, b);
    }
  }

  lemma DeliverAgrees(s: State, d: Delivery, b: nat)
    requires Aligned(s) && AgreesAt(s, b)
    ensures AgreesAt(DeliverLocked(s, d).0, b)
  {
    DeliverSettles(s, d);
    if Settles(s, d).Some? {
      var (p, report) := Settles(s, d).value;
      SettleAgrees(s.bookings, s.payments, p, report, Reported(s.bookings[s.payments[p].booking], report), b);
    }
  }

  lemma SimulateAgrees(s: State, p: nat, user: Id, b: nat)
    requires Aligned(s) && AgreesAt(s, b)
    ensures AgreesAt(SimulateSuccess(s, p, user).0, b)
  {
    var (t, r) := SimulateSuccess(s, p, user);
    if r.Ok? {
      SettleAgrees(s.bookings, s.payments, p, PayPaid, t.bookings[s.payments[p].booking], b);
    }
  }

  /** The rows after one turn of the sweep, by the latest payment. */
  lemma ExpireOneRows(s: State, c: nat)
    requires Aligned(s) && c < |s.bookings|
    ensures var t := ExpireOne(s, c);
      var latest := LatestPayment(s, c);
      && t.bookings == s.bookings[c := t.bookings[c]]
      && t.bookings[c].status == Expired && t.bookings[c].payStatus == PayCancelled
      && (if latest.Some? && s.payments[latest.value].status == PayPending
          then t.payments == s.payments[latest.value := s.payments[latest.value].(status := PayCancelled)]
          else t.payments == s.payments)
  {
  }

  lemma ExpireOneAgrees(s: State, c: nat, b: nat)
    requires Aligned(s) && AgreesAt(s, b) && c < |s.bookings| && s.bookings[c].status == Pending
    ensures AgreesAt(ExpireOne(s, c), b)
  {
    var t := ExpireOne(s, c);
    var latest := LatestPayment(s, c);
    ExpireOneRows(s, c);
    if latest.Some? && s.payments[latest.value].status == PayPending {
      SettleAgrees(s.bookings, s.payments, latest.value, PayCancelled, t.bookings[c], b);
    } else if latest.Some? {
      assert c == b ==> Beside(s.payments[latest.value].status, s.bookings[c]);
      BareAgrees(s.bookings, s.payments, c, t.bookings[c], b);
    } else {
      BareAgrees(s.bookings, s.payments, c, t.bookings[c], b);
    }
  }

  lemma {:induction false} ExpireAllAgrees(s: State, ids: seq<nat>, b: nat)
    requires Aligned(s) && AgreesAt(s, b)
    requires forall i | 0 <= i < |ids| :: ids[i] < |s.bookings| && s.bookings[ids[i]].status == Pending
    requires forall i, j | 0 <= i < j < |ids| :: ids[i] != ids[j]
    ensures AgreesAt(ExpireAll(s, ids), b)
    decreases |ids|
  {
    if ids != [] {
      ExpireOneAgrees(s, ids[0], b);
      ExpireOneChange(s, ids[0]);
      ExpireAllAgrees(ExpireOne(s, ids[0]), ids[1..], b);
    }
  }

  lemma SweepAgrees(s: State, now: int, b: nat)
    requires Aligned(s) && AgreesAt(s, b)
    ensures AgreesAt(Sweep(s, now), b)
  {
    ExpiredAreDue(s.bookings, now, SWEEP_LIMIT);
    ExpireAllAgrees(s, ExpiredPending(s.bookings, now, SWEEP_LIMIT), b);
  }

  /** The payment status a cancellation leaves on the booking. */
  lemma CancelledRow(s: State, b: nat, user: Id, now: int)
    requires Aligned(s) && CancelBooking(s, b, user, now).1.Ok?
    ensures var row := CancelBooking(s, b, user, now).0.bookings[b];
      var latest := LatestPayment(s, b);
      row.payStatus ==
        if latest.Some? && s.payments[latest.value].status == PayPaid then PayRefunded
        else if latest.Some? && s.payments[latest.value].status in {PayPending, PayAuthorized} then PayCancelled
        else s.bookings[b].payStatus
  {
  }

  lemma CancelRows(bookings: seq<Booking>, payments: seq<Payment>, c: nat, row: Booking, after: seq<Payment>,
                   latest: Option<nat>, b: nat)
    requires AgreedAt(bookings, payments, b) && c < |bookings| && (c == b ==> Active(bookings[b]))
    requires row.status == Cancelled
    requires latest.None? ==>
      (forall p | 0 <= p < |payments| :: payments[p].booking != c) && row.payStatus == bookings[c].payStatus
      && after == payments
    requires latest.Some? ==>
      var p := latest.value;
      && p < |payments| && payments[p].booking == c
      && match payments[p].status
         case PayPaid => row.payStatus == PayRefunded && after == payments[p := payments[p].(status := PayRefunded)]
         case PayPending =>
           row.payStatus == PayCancelled && after == payments[p := payments[p].(status := PayCancelled)]
         case _ => row.payStatus == bookings[c].payStatus && after == payments
    ensures AgreedAt(bookings[c := row], after, b)
  {
    if latest.None? {
      BareAgrees(bookings, payments, c, row, b);
    } else {
      var p := latest.value;
      assert payments[p := payments[p].(status := payments[p].status)] == payments;
      assert c == b ==> Beside(payments[p].status, bookings[c]);
      SettleAgrees(bookings, payments, p, after[p].status, row, b);
    }
  }

  lemma CancelAgrees(s: State, c: nat, user: Id, now: int, b: nat)
    requires Aligned(s) && AgreesAt(s, b) && DisciplinedAt(s, DoCancel(c, user, now), b)
    requires forall p | 0 <= p < |s.payments| :: s.payments[p].status != PayAuthorized
    ensures AgreesAt(CancelBooking(s, c, user, now).0, b)
  {
    var (t, r) := CancelBooking(s, c, user, now);
    if r.Ok? {
      CancelChange(s, c, user, now);
      CancelledRow(s, c, user, now);
      CancelRows(s.bookings, s.payments, c, t.bookings[c], t.payments, LatestPayment(s, c), b);
    }
  }

  lemma RefundAgrees(s: State, r: nat, next: RefundStatus, b: nat)
    requires Aligned(s) && AgreesAt(s, b)
    requires Refs(s.bookings, s.payments, s.refunds) && RefundsMatch(s.payments, s.refunds)
    ensures AgreesAt(UpdateRefund(s, r, next).0, b)
  {
    var (t, result) := UpdateRefund(s, r, next);
    if result.Ok? && next == RefundProcessed {
      var p := s.refunds[r].payment;
      var c := s.payments[p].booking;
      assert c == b ==> Beside(s.payments[p].status, s.bookings[c]);
      SettleAgrees(s.bookings, s.payments, p, PayRefunded, s.bookings[c].(payStatus := PayRefunded), b);
    }
  }

  lemma CouponAgrees(s: State, step: Step, b: nat)
    requires Aligned(s) && AgreesAt(s, b) && step.DoCoupon?
    ensures AgreesAt(Apply(s, step), b)
  {
    var t := Apply(s, step);
    if ApplyCoupon(s, step.booking, step.user, step.code, step.now).1.Ok? && b < |s.bookings| {
      CouponChange(s, step.booking, step.user, step.code, step.now);
      UntouchedAgrees(s.bookings, s.payments, t.bookings, t.payments, b);
    }
  }

  lemma SilentAgrees(s: State, step: Step, b: nat)
    requires Aligned(s) && AgreesAt(s, b) && (step.DoLook? || step.DoRequestRefund?)
    ensures AgreesAt(Apply(s, step), b)
  {
  }

  /** Every step that is disciplined at `b` keeps the agreement of `b`. */
  lemma StepAgrees(s: State, step: Step, b: nat)
    requires Inv(s) && AgreesAt(s, b) && DisciplinedAt(s, step, b)
    ensures AgreesAt(Apply(s, step), b)
  {
    if step.DoFlight? || step.DoHotel? || step.DoTour? {
      BookingAgrees(s, step, b);
    } else if step.DoCheckout? {
      CheckoutAgrees(s, step.user, step.code, step.schedule, step.party, step.via, step.key, step.now, step.hold,
                     step.available, b);
    } else if step.DoInsert? {
      InsertAgrees(s, step.look, step.now, b);
    } else if step.DoSimulate? {
      SimulateAgrees(s, step.payment, step.user, b);
    } else if step.DoDeliver? {
      DeliverAgrees(s, step.delivery, b);
    } else if step.DoSweep? {
      SweepAgrees(s, step.now, b);
    } else if step.DoCancel? {
      CancelAgrees(s, step.booking, step.user, step.now, b);
    } else if step.DoUpdateRefund? {
      RefundAgrees(s, step.refund, step.next, b);
    } else if step.DoCoupon? {
      CouponAgrees(s, step, b);
    } else {
      SilentAgrees(s, step, b);
    }
  }

  /** The discipline implies the exact guard: with one payment no report finds its booking released. */
  lemma DisciplinedIsGuarded(s: State, step: Step, b: nat)
    requires Inv(s) && AgreesAt(s, b) && DisciplinedAt(s, step, b)
    ensures GuardAt(s, step, b)
  {
    if step.DoDeliver? {
      DeliverSettles(s, step.delivery);
      if Subject(s, step) == Some(b) {
        var p := Settles(s, step.delivery).value.0;
        assert Beside(s.payments[p].status, s.bookings[b]);
      }
    } else if step.DoSimulate? && Subject(s, step) == Some(b) {
      assert b < |s.bookings| ==> Beside(s.payments[step.payment].status, s.bookings[b]);
    }
  }

  // ---- whole runs ----

  lemma {:induction false} RunAgrees(s: State, steps: seq<Step>, b: nat)
    requires Fresh(s) && DisciplinedAlong(s, steps, b)
    ensures AgreesAt(Run(s, steps), b) && GuardedAt(s, steps, b)
  {
    if steps != [] {
      var n := |steps| - 1;
      RunAgrees(s, steps[..n], b);
      FreshKeeps(s);
      RunKeeps(s, steps[..n]);
      DisciplinedIsGuarded(Run(s, steps[..n]), steps[n], b);
      StepAgrees(Run(s, steps[..n]), steps[n], b);
    }
  }

  /** A booking with at most one payment, inserted while it was pending, and cancelled only while pending
      or confirmed, holds its stock exactly while it is pending or confirmed and is released at most
      once, whatever other bookings do. */
  lemma OnePaymentHolds(s: State, t: State, b: nat)
    requires DisciplinedReach(s, t, b) && b < |t.bookings|
    ensures b < |t.tallies| && t.tallies[b].Total() == if Active(t.bookings[b]) then 0 else 1
  {
    var steps :| DisciplinedAlong(s, steps, b) && Run(s, steps) == t;
    RunAgrees(s, steps, b);
    HeldAlongIff(s, steps, b);
    HeldAtEnd(s, steps, b);
  }

  /** Cancelling such a booking keeps the books of a unit exact if and only if it is pending or confirmed,
      does not use the unit, or finds it full. */
  lemma OnePaymentCancellation(s: State, steps: seq<Step>, b: nat, user: Id, now: int, u: Unit)
    requires Fresh(s) && DisciplinedAlong(s, steps, b)
    requires ExactAt(Run(s, steps), u) && CancelBooking(Run(s, steps), b, user, now).1.Ok?
    ensures var t := Run(s, steps);
      && b < |t.bookings|
      && (ExactAt(CancelBooking(t, b, user, now).0, u) <==>
            Active(t.bookings[b]) || DemandAll(t.items[b], u) == 0 || Cap(t.stock, u) == Some(Level(t.stock, u)))
  {
    RunAgrees(s, steps, b);
    CancellationByStatus(s, steps, b, user, now, u);
  }

  /** The status of such a booking's payment determines both of the booking's statuses. Hence its voucher
      is issued exactly while the payment is paid, and it holds its stock exactly while the payment is
      pending or paid, or was refunded without a cancellation. */
  lemma StatusesAgree(s: State, t: State, p: nat, b: nat)
    requires DisciplinedReach(s, t, b) && b < |t.bookings| && p < |t.payments| && t.payments[p].booking == b
    ensures b < |t.tallies| && Beside(t.payments[p].status, t.bookings[b])
    ensures HasVoucher(t.bookings[b]) <==> t.payments[p].status == PayPaid
    ensures t.tallies[b].Total() == 0 <==>
            t.payments[p].status in {PayPending, PayPaid}
            || (t.payments[p].status == PayRefunded && t.bookings[b].status == Confirmed)
  {
    var steps :| DisciplinedAlong(s, steps, b) && Run(s, steps) == t;
    RunAgrees(s, steps, b);
    OnePaymentHolds(s, t, b);
  }

  /** Without a payment it is never confirmed or failed. */
  lemma UnpaidStaysUnconfirmed(s: State, t: State, b: nat)
    requires DisciplinedReach(s, t, b) && b < |t.bookings| && LatestPayment(t, b).None?
    ensures Bare(t.bookings[b])
  {
    var steps :| DisciplinedAlong(s, steps, b) && Run(s, steps) == t;
    RunAgrees(s, steps, b);
    assert !HasPayment(t.payments, b);
  }

  /** If every booking is disciplined, the run is guarded, so stock is conserved exactly. */
  lemma OnePaymentEachConserves(s: State, steps: seq<Step>)
    requires Fresh(s) && forall b: nat :: DisciplinedAlong(s, steps, b)
    ensures GuardedReach(s, Run(s, steps))
  {
    forall b: nat ensures GuardedAt(s, steps, b) {
      RunAgrees(s, steps, b);
    }
    GuardedEverywhere(s, steps);
  }
}
