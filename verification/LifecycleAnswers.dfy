/** What the services answer and change, request by request, stated from the rows alone: exactly when a
    callback, a payment request, a cancellation, a refund or a coupon is accepted, and what it then
    leaves behind. */
module LifecycleAnswers {
  import opened Basics
  import opened Inventory
  import opened CouponAmounts
  import opened Lifecycle

  // ---- newest rows ----

  /** The newest of the booking's payments; among equals the one inserted last. */
  ghost predicate NewestPayment(payments: seq<Payment>, p: nat, b: nat) {
    && p < |payments| && payments[p].booking == b
    && forall q | 0 <= q < |payments| && payments[q].booking == b ::
         payments[q].createdAt < payments[p].createdAt || (payments[q].createdAt == payments[p].createdAt && q <= p)
  }

  ghost predicate NewestRefund(refunds: seq<Refund>, r: nat, p: nat) {
    && r < |refunds| && refunds[r].payment == p
    && forall q | 0 <= q < |refunds| && refunds[q].payment == p ::
         refunds[q].createdAt < refunds[r].createdAt || (refunds[q].createdAt == refunds[r].createdAt && q <= r)
  }

  lemma {:induction false} LatestIsLast<T>(rows: seq<T>, ownerOf: T -> nat, createdAt: T -> int, owner: nat)
    ensures var r := Latest(rows, ownerOf, createdAt, owner);
      r.Some? ==> forall j | 0 <= j < |rows| && ownerOf(rows[j]) == owner ::
        || createdAt(rows[j]) < createdAt(rows[r.value])
        || (createdAt(rows[j]) == createdAt(rows[r.value]) && j <= r.value)
  {
    if rows != [] {
      var n := |rows| - 1;
      LatestIsLast(rows[..n], ownerOf, createdAt, owner);
      assert forall j | 0 <= j < n :: rows[..n][j] == rows[j];
    }
  }

  lemma LatestPaymentIff(s: State, b: nat, p: nat)
    ensures LatestPayment(s, b) == Some(p) <==> NewestPayment(s.payments, p, b)
    ensures LatestPayment(s, b).None? <==> forall q | 0 <= q < |s.payments| :: s.payments[q].booking != b
  {
    LatestIsLast(s.payments, (x: Payment) => x.booking, (x: Payment) => x.createdAt, b);
  }

  lemma LatestRefundIff(s: State, p: nat, r: nat)
    ensures LatestRefund(s, p) == Some(r) <==> NewestRefund(s.refunds, r, p)
    ensures LatestRefund(s, p).None? <==> forall q | 0 <= q < |s.refunds| :: s.refunds[q].payment != p
  {
    LatestIsLast(s.refunds, (x: Refund) => x.payment, (x: Refund) => x.createdAt, p);
  }

  // ---- gateway callbacks ----

  /** The words a gateway may send, in either case, and what they report. */
  predicate Says(word: string, report: PaymentStatus) {
    || (report == PayPaid && SameText(word, "paid"))
    || (report == PayFailed && SameText(word, "failed"))
    || (report == PayCancelled && SameText(word, "cancelled"))
  }

  lemma WordsAreLower()
    ensures Lower("paid") == "paid" && Lower("failed") == "failed" && Lower("cancelled") == "cancelled"
  {
  }

  lemma WordIff(word: string, report: PaymentStatus)
    ensures NormalizeStatus(word) == Ok(report) <==> Says(word, report)
    ensures NormalizeStatus(word).Err? ==> NormalizeStatus(word) == Err(Validation)
  {
    WordsAreLower();
    CaseApart(word, "paid");
    CaseApart(word, "failed");
    CaseApart(word, "cancelled");
    assert |"paid"| != |"failed"| && |"paid"| != |"cancelled"| && |"failed"| != |"cancelled"|;
  }

  /** The delivery names payment `p` of an existing booking, in the right amount and currency. */
  predicate Concerns(s: State, d: Delivery, p: nat) {
    && p < |s.payments| && s.payments[p].orderRef == d.orderRef && s.payments[p].booking < |s.bookings|
    && d.amount.Some? && d.amount.value * 100.0 == s.payments[p].amount as real
    && SameText(d.currency, s.payments[p].currency)
  }

  /** A payment takes a report while nothing is decided; a failed or cancelled one only repeats its own. */
  predicate TakesReport(status: PaymentStatus, report: PaymentStatus) {
    status in {PayPending, PayAuthorized} || (status == report && report in {PayFailed, PayCancelled})
  }

  predicate Acceptable(s: State, d: Delivery, p: nat, report: PaymentStatus) {
    Concerns(s, d, p) && Says(d.status, report) && TakesReport(s.payments[p].status, report)
  }

  ghost predicate UniqueRefs(payments: seq<Payment>) {
    forall p, q | 0 <= p < q < |payments| :: payments[p].orderRef != payments[q].orderRef
  }

  lemma TransitionIff(status: PaymentStatus, report: PaymentStatus)
    requires report in {PayPaid, PayFailed, PayCancelled}
    ensures CheckTransition(status, report) == if TakesReport(status, report) then Ok(report) else Err(Conflict)
  {
  }

  /** The validation of a delivery for payment `p`. */
  lemma ValidateIff(s: State, d: Delivery, p: nat, report: PaymentStatus)
    requires p < |s.payments| && s.payments[p].orderRef == d.orderRef && s.payments[p].booking < |s.bookings|
    ensures ValidateCallback(s.payments[p], d) == Ok(report) <==> Acceptable(s, d, p, report)
  {
    WordIff(d.status, report);
    CaseApart(d.currency, s.payments[p].currency);
    if Says(d.status, report) {
      TransitionIff(s.payments[p].status, report);
    }
  }

  lemma RefFound(payments: seq<Payment>, p: nat)
    requires UniqueRefs(payments) && p < |payments|
    ensures FindByRef(payments, payments[p].orderRef) == Some(p)
  {
  }

  /** What `report` about payment `p` leaves behind: payment and booking follow it, the delivery is stored,
      and the stock goes back if the report ends a pending payment of a pending booking unpaid. */
  ghost predicate Settles(s: State, d: Delivery, p: nat, report: PaymentStatus, t: State)
    requires Aligned(s) && p < |s.payments| && s.payments[p].booking < |s.bookings|
  {
    var b := s.payments[p].booking;
    var closed := if report == PayPaid then Confirmed else if report == PayFailed then Failed else Cancelled;
    var freed := report != PayPaid && s.payments[p].status == PayPending && s.bookings[b].status == Pending;
    && t.payments == s.payments[p := s.payments[p].(status := report)]
    && t.bookings == s.bookings[b := s.bookings[b].(status := closed, payStatus := report, expiresAt := None)]
    && t.callbacks == s.callbacks[(d.gateway, d.txnRef) := Callback(p, d)]
    && t.stock == (if freed then RestoreAll(s.stock, s.items[b]) else s.stock)
    && t.tallies == (if freed
                     then s.tallies[b := s.tallies[b].(byCallback := s.tallies[b].byCallback + 1)] else s.tallies)
    && t == s.(payments := t.payments, bookings := t.bookings, callbacks := t.callbacks, stock := t.stock,
               tallies := t.tallies)
  }

  /** A first delivery that concerns payment `p` in amount and currency, says `report` in one of the three
      words, and finds the payment taking that report, settles it. */
  lemma FirstDeliverySettles(s: State, d: Delivery, p: nat, report: PaymentStatus)
    requires Aligned(s) && UniqueRefs(s.payments) && (d.gateway, d.txnRef) !in s.callbacks
    requires Acceptable(s, d, p, report)
    ensures DeliverLocked(s, d).1 == Ok(p) && Settles(s, d, p, report, DeliverLocked(s, d).0)
  {
    RefFound(s.payments, p);
    ValidateIff(s, d, p, report);
  }

  lemma AcceptedIsAcceptable(s: State, d: Delivery)
    requires Aligned(s) && (d.gateway, d.txnRef) !in s.callbacks && DeliverLocked(s, d).1.Ok?
    ensures exists p: nat, report :: Acceptable(s, d, p, report)
  {
    var p := FindByRef(s.payments, d.orderRef).value;
    var report := ValidateCallback(s.payments[p], d).value;
    ValidateIff(s, d, p, report);
    assert Acceptable(s, d, p, report);
  }

  /** A first delivery is accepted if and only if it concerns a payment, in its exact amount and currency,
      says one of the three words, and the payment still takes that report. Refused, it changes nothing. */
  lemma FirstDeliveryAcceptedIff(s: State, d: Delivery)
    requires Aligned(s) && UniqueRefs(s.payments) && (d.gateway, d.txnRef) !in s.callbacks
    ensures DeliverLocked(s, d).1.Ok? <==> exists p: nat, report :: Acceptable(s, d, p, report)
    ensures DeliverLocked(s, d).1.Err? ==> DeliverLocked(s, d).0 == s
    ensures ProcessCallback(s, d) == DeliverLocked(s, d)
  {
    if DeliverLocked(s, d).1.Ok? {
      AcceptedIsAcceptable(s, d);
    }
    if p: nat, report :| Acceptable(s, d, p, report) {
      FirstDeliverySettles(s, d, p, report);
    }
  }

  /** Why a first delivery is refused: no such payment, a word or amount that cannot be read, a mismatch,
      or a payment that is already decided. */
  lemma FirstDeliveryRefused(s: State, d: Delivery, p: nat, report: PaymentStatus)
    requires Aligned(s) && UniqueRefs(s.payments) && (d.gateway, d.txnRef) !in s.callbacks
    ensures (forall q | 0 <= q < |s.payments| :: s.payments[q].orderRef != d.orderRef) ==>
              DeliverLocked(s, d) == (s, Err(NotFound))
    ensures p < |s.payments| && s.payments[p].orderRef == d.orderRef && s.payments[p].booking < |s.bookings|
            && Says(d.status, report) ==>
              && (d.amount.None? ==> DeliverLocked(s, d) == (s, Err(Malformed)))
              && (d.amount.Some? && !Concerns(s, d, p) ==> DeliverLocked(s, d) == (s, Err(Validation)))
              && (Concerns(s, d, p) && !TakesReport(s.payments[p].status, report) ==>
                    DeliverLocked(s, d) == (s, Err(Conflict)))
    ensures p < |s.payments| && s.payments[p].orderRef == d.orderRef && s.payments[p].booking < |s.bookings|
            && !SameText(d.status, "paid") && !SameText(d.status, "failed") && !SameText(d.status, "cancelled") ==>
              DeliverLocked(s, d) == (s, Err(Validation))
  {
    if p < |s.payments| && s.payments[p].orderRef == d.orderRef && s.payments[p].booking < |s.bookings| {
      RefFound(s.payments, p);
      CaseApart(d.currency, s.payments[p].currency);
      WordIff(d.status, report);
      if Says(d.status, report) {
        TransitionIff(s.payments[p].status, report);
      } else {
        WordIff(d.status, PayPaid);
        WordIff(d.status, PayFailed);
        WordIff(d.status, PayCancelled);
      }
    }
  }

  // ---- payment requests ----

  /** The booking can be paid by this user now: it is theirs, pending, not paid, has a price, and its hold
      has not run out; the method is on offer and the reference fits its column. */
  predicate CanBePaid(s: State, b: nat, user: Id, via: PaymentMethod, key: string, now: int,
                      available: set<PaymentMethod>)
  {
    && b < |s.bookings| && s.bookings[b].user == user && key != ""
    && (s.bookings[b].expiresAt.Some? ==> now < s.bookings[b].expiresAt.value)
    && s.bookings[b].status == Pending && s.bookings[b].payStatus != PayPaid && s.bookings[b].final > 0
    && via in available && |"PAY-" + s.bookings[b].code + "-" + key| <= 255
  }

  ghost predicate KeyUnused(payments: seq<Payment>, b: nat, key: string) {
    forall p | 0 <= p < |payments| :: payments[p].booking != b || payments[p].key != key
  }

  ghost predicate RefUnused(payments: seq<Payment>, orderRef: string) {
    forall p | 0 <= p < |payments| :: payments[p].orderRef != orderRef
  }

  /** A first request for a payment goes ahead if and only if the booking can be paid; it has then read this
      price and currency of this booking and nothing else has changed. Refused, it changes nothing. */
  lemma FirstLookIff(s: State, b: nat, user: Id, via: PaymentMethod, key: string, now: int,
                     available: set<PaymentMethod>)
    requires KeyUnused(s.payments, b, key)
    ensures var (t, r) := LookAt(s, b, user, via, key, now, available);
      && (r.Ok? <==> CanBePaid(s, b, user, via, key, now, available))
      && (r.Ok? ==>
            && r == Ok(Waiting(|s.looks|))
            && t == s.(looks := s.looks + [Look(b, via, key, s.bookings[b].final, s.bookings[b].currency, true)]))
      && (r.Err? ==> t == s)
  {
  }

  /** A request for a booking of one's own that is not pending, or whose hold has run out, is told that it
      conflicts, first request or not. */
  lemma LateRequestConflicts(s: State, b: nat, user: Id, via: PaymentMethod, key: string, now: int,
                             available: set<PaymentMethod>)
    requires b < |s.bookings| && s.bookings[b].user == user && key != ""
    requires s.bookings[b].status != Pending
             || (s.bookings[b].expiresAt.Some? && s.bookings[b].expiresAt.value <= now)
    ensures LookAt(s, b, user, via, key, now, available) == (s, Err(Conflict))
  {
  }

  /** The insertion after a look adds exactly one payment, pending, of what was looked up, unless its key or
      its reference is in use; then the table stays. */
  lemma InsertionIff(s: State, i: nat, now: int)
    requires i < |s.looks| && s.looks[i].booking < |s.bookings|
    ensures var look := s.looks[i];
      var orderRef := "PAY-" + s.bookings[look.booking].code + "-" + look.key;
      if KeyUnused(s.payments, look.booking, look.key) && RefUnused(s.payments, orderRef) then
        InsertLook(s, i, now) ==
          (s.(payments := s.payments + [Payment(look.booking, look.via, PayPending, look.amount, look.currency,
                                                orderRef, look.key, now)]),
           Ok(|s.payments|))
      else
        InsertLook(s, i, now).0 == s
  {
  }

  /** When its key was used meanwhile, a request of the payment service is answered with that payment exactly
      if method, amount and currency are what was looked up; a checkout fails. Nothing changes. */
  lemma LostRaceIff(s: State, i: nat, now: int, p: nat)
    requires i < |s.looks| && s.looks[i].booking < |s.bookings| && p < |s.payments|
    requires s.payments[p].booking == s.looks[i].booking && s.payments[p].key == s.looks[i].key
    requires forall q | 0 <= q < |s.payments| && q != p ::
               s.payments[q].booking != s.payments[p].booking || s.payments[q].key != s.payments[p].key
    ensures var look, row := s.looks[i], s.payments[p];
      InsertLook(s, i, now) ==
        (s, if !look.reuse then Err(Integrity)
            else if row.via == look.via && row.amount == look.amount && row.currency == look.currency then Ok(p)
            else Err(Conflict))
  {
    assert FindByKey(s.payments, s.looks[i].booking, s.looks[i].key) == Some(p);
  }

  /** A whole first request with nothing in between: it adds one pending payment of the booking's price and
      currency if and only if the booking can be paid and the reference is free. */
  lemma FirstPaymentIff(s: State, b: nat, user: Id, via: PaymentMethod, key: string, now: int,
                        available: set<PaymentMethod>)
    requires KeyUnused(s.payments, b, key)
    ensures var (t, r) := InitiatePayment(s, b, user, via, key, now, available);
      && (r.Ok? <==> CanBePaid(s, b, user, via, key, now, available)
                     && RefUnused(s.payments, "PAY-" + s.bookings[b].code + "-" + key))
      && (r.Ok? ==>
            && r == Ok(|s.payments|)
            && t.payments == s.payments + [Payment(b, via, PayPending, s.bookings[b].final, s.bookings[b].currency,
                                                   "PAY-" + s.bookings[b].code + "-" + key, key, now)])
      && (r.Err? ==> t.payments == s.payments)
      && t == s.(payments := t.payments, looks := t.looks)
  {
    FirstLookIff(s, b, user, via, key, now, available);
    var (s1, begun) := LookAt(s, b, user, via, key, now, available);
    if begun.Ok? {
      InsertionIff(s1, |s.looks|, now);
    }
  }

  /** A repeated checkout that has no payment yet goes ahead exactly for the same schedule and travellers while
      the booking is open and payable; it has then read the booking's present price. */
  lemma RepeatedCheckoutIff(s: State, b: nat, schedule: Id, party: Party, via: PaymentMethod, key: string,
                            available: set<PaymentMethod>)
    requires Aligned(s) && b < |s.bookings| && KeyUnused(s.payments, b, key)
    ensures var (t, r) := ReplayCheckout(s, b, schedule, party, via, key, available);
      var row := s.bookings[b];
      && (r.Ok? <==>
            && s.items[b] != [] && s.items[b][0].TourItem? && s.items[b][0].schedule == schedule
            && s.items[b][0].adults == party.adults && s.items[b][0].children == party.children
            && s.items[b][0].infants == party.infants && row.status == Pending && row.payStatus == PayPending
            && row.final > 0 && via in available && |"PAY-" + row.code + "-" + key| <= 255)
      && (r.Err? ==> t == s)
      && (r.Ok? ==>
            && r == Ok(Waiting(|s.looks|))
            && t == s.(looks := s.looks + [Look(b, via, key, row.final, row.currency, false)]))
  {
  }

  /** The simulated success goes through exactly for a pending payment of the user's own booking, and then
      does what a paid report does. */
  lemma SimulatedIff(s: State, p: nat, user: Id)
    ensures var (t, r) := SimulateSuccess(s, p, user);
      && (r.Ok? <==> p < |s.payments| && s.payments[p].booking < |s.bookings|
                     && s.bookings[s.payments[p].booking].user == user && s.payments[p].status == PayPending)
      && (r.Err? ==> t == s)
      && (r.Ok? ==>
            var b := s.payments[p].booking;
            && r == Ok(p)
            && t == s.(payments := s.payments[p := s.payments[p].(status := PayPaid)],
                       bookings := s.bookings[b := s.bookings[b].(status := Confirmed, payStatus := PayPaid,
                                                                  expiresAt := None)]))
  {
  }

  // ---- cancellation ----

  /** What a cancellation does to the booking's newest payment, if it has one: a charge is refunded in full
      price at once, an open payment is cancelled, and a decided one stays. */
  ghost predicate NewestFollows(s: State, b: nat, now: int, t: State)
    requires b < |s.bookings|
  {
    && ((forall q | 0 <= q < |s.payments| :: s.payments[q].booking != b) ==>
          t.payments == s.payments && t.refunds == s.refunds
          && t.bookings == s.bookings[b := s.bookings[b].(status := Cancelled, expiresAt := None)])
    && forall p: nat | NewestPayment(s.payments, p, b) ::
         match s.payments[p].status
         case PayPaid =>
           && t.payments == s.payments[p := s.payments[p].(status := PayRefunded)]
           && t.refunds == s.refunds + [Refund(p, s.bookings[b].final, RefundProcessed, now)]
           && t.bookings ==
                s.bookings[b := s.bookings[b].(status := Cancelled, expiresAt := None, payStatus := PayRefunded)]
         case PayPending =>
           && t.payments == s.payments[p := s.payments[p].(status := PayCancelled)] && t.refunds == s.refunds
           && t.bookings ==
                s.bookings[b := s.bookings[b].(status := Cancelled, expiresAt := None, payStatus := PayCancelled)]
         case PayAuthorized =>
           && t.payments == s.payments[p := s.payments[p].(status := PayCancelled)] && t.refunds == s.refunds
           && t.bookings ==
                s.bookings[b := s.bookings[b].(status := Cancelled, expiresAt := None, payStatus := PayCancelled)]
         case _ =>
           && t.payments == s.payments && t.refunds == s.refunds
           && t.bookings == s.bookings[b := s.bookings[b].(status := Cancelled, expiresAt := None)]
  }

  /** A cancellation is accepted exactly for a booking of the user's own that is not cancelled, gives back
      all its items, and closes it together with its newest payment. */
  lemma CancellationIff(s: State, b: nat, user: Id, now: int)
    requires Aligned(s)
    ensures var (t, r) := CancelBooking(s, b, user, now);
      && (r.Ok? <==> b < |s.bookings| && s.bookings[b].user == user && s.bookings[b].status != Cancelled)
      && (r.Err? ==> t == s)
      && (r.Ok? ==>
            && r == Ok(b) && NewestFollows(s, b, now, t) && t.stock == RestoreAll(s.stock, s.items[b])
            && t.tallies == s.tallies[b := s.tallies[b].(byCancel := s.tallies[b].byCancel + 1)]
            && t == s.(bookings := t.bookings, payments := t.payments, refunds := t.refunds, stock := t.stock,
                       tallies := t.tallies))
  {
    if b < |s.bookings| {
      forall p: nat ensures LatestPayment(s, b) == Some(p) <==> NewestPayment(s.payments, p, b) {
        LatestPaymentIff(s, b, p);
      }
      LatestPaymentIff(s, b, 0);
    }
  }

  // ---- refunds ----

  /** The booking's newest payment is a charge that may be claimed back: none of its refunds, or none as new
      as its newest one, is open or processed. */
  ghost predicate Claimable(s: State, b: nat, p: nat) {
    && NewestPayment(s.payments, p, b) && s.payments[p].status == PayPaid && s.payments[p].amount > 0
    && forall r: nat | NewestRefund(s.refunds, r, p) ::
         s.refunds[r].status.RefundFailed? || s.refunds[r].status.RefundCancelled?
  }

  lemma OneNewest(s: State, b: nat, p: nat)
    requires LatestPayment(s, b) == Some(p)
    ensures forall q: nat :: NewestPayment(s.payments, q, b) <==> q == p
  {
    forall q: nat ensures NewestPayment(s.payments, q, b) <==> q == p {
      LatestPaymentIff(s, b, q);
    }
  }

  lemma ClaimableIff(s: State, b: nat, p: nat)
    requires LatestPayment(s, b) == Some(p)
    ensures Claimable(s, b, p) <==>
      && s.payments[p].status == PayPaid && s.payments[p].amount > 0
      && (LatestRefund(s, p).Some? ==>
            var status := s.refunds[LatestRefund(s, p).value].status;
            status.RefundFailed? || status.RefundCancelled?)
  {
    OneNewest(s, b, p);
    if LatestRefund(s, p).Some? {
      LatestRefundIff(s, p, LatestRefund(s, p).value);
    }
    forall r: nat | NewestRefund(s.refunds, r, p) ensures LatestRefund(s, p) == Some(r) {
      LatestRefundIff(s, p, r);
    }
  }

  lemma BlankIff(reason: string)
    ensures Blank(reason) <==> !exists i | 0 <= i < |reason| :: reason[i] !in {' ', '\t', '\n', '\r'}
  {
    forall i | 0 <= i < |reason| ensures reason[i] in reason {
    }
  }

  /** A refund request is accepted exactly from the owner, with a reason, for a claimable newest payment; it
      adds one pending refund of that payment's full amount. Refused, it changes nothing. */
  lemma RefundRequestIff(s: State, b: nat, user: Id, reason: string, now: int)
    ensures var (t, r) := RequestRefund(s, b, user, reason, now);
      && (r.Ok? <==> b < |s.bookings| && s.bookings[b].user == user
                     && (exists i | 0 <= i < |reason| :: reason[i] !in {' ', '\t', '\n', '\r'})
                     && exists p: nat :: Claimable(s, b, p))
      && (r.Err? ==> t == s)
      && (forall p: nat | r.Ok? && NewestPayment(s.payments, p, b) ::
            r == Ok(|s.refunds|)
            && t == s.(refunds := s.refunds + [Refund(p, s.payments[p].amount, RefundPending, now)]))
  {
    BlankIff(reason);
    if LatestPayment(s, b).Some? {
      var p := LatestPayment(s, b).value;
      OneNewest(s, b, p);
      ClaimableIff(s, b, p);
    } else {
      LatestPaymentIff(s, b, 0);
    }
  }

  /** While a refund is open or processed, and no newer one has come, no second one is filed: the request
      after an accepted one conflicts, unless the clock has gone back between them. */
  lemma SecondRefundConflicts(s: State, b: nat, user: Id, reason: string, now: int, again: string, later: int)
    requires RequestRefund(s, b, user, reason, now).1.Ok?
    requires forall r | 0 <= r < |s.refunds| :: s.refunds[r].createdAt <= now
    requires !Blank(again)
    ensures var t := RequestRefund(s, b, user, reason, now).0;
      RequestRefund(t, b, user, again, later) == (t, Err(Conflict))
  {
    var t := RequestRefund(s, b, user, reason, now).0;
    var p := LatestPayment(s, b).value;
    LatestRefundIff(t, p, |s.refunds|);
    assert NewestRefund(t.refunds, |s.refunds|, p);
  }

  /** The moves of a refund, by name. */
  predicate RefundMove(current: RefundStatus, next: RefundStatus) {
    (current, next) in {(RefundPending, RefundProcessed), (RefundPending, RefundFailed),
                        (RefundPending, RefundCancelled), (RefundFailed, RefundProcessed),
                        (RefundFailed, RefundCancelled)}
  }

  /** An administrator's update is accepted exactly for these moves; processing marks payment and booking
      refunded, whatever they were, and any other move changes the refund alone. */
  lemma RefundUpdateIff(s: State, x: nat, next: RefundStatus)
    ensures var (t, r) := UpdateRefund(s, x, next);
      && (r.Ok? <==> x < |s.refunds| && RefundMove(s.refunds[x].status, next))
      && (r.Err? ==> t == s)
      && (r.Ok? ==>
            var p := s.refunds[x].payment;
            && r == Ok(x) && t.refunds == s.refunds[x := s.refunds[x].(status := next)]
            && t.payments == (if next == RefundProcessed && p < |s.payments|
                              then s.payments[p := s.payments[p].(status := PayRefunded)] else s.payments)
            && t.bookings == (if next == RefundProcessed && p < |s.payments|
                                 && s.payments[p].booking < |s.bookings|
                              then s.bookings[s.payments[p].booking :=
                                     s.bookings[s.payments[p].booking].(payStatus := PayRefunded)]
                              else s.bookings)
            && t == s.(refunds := t.refunds, payments := t.payments, bookings := t.bookings))
  {
  }

  // ---- coupons ----

  /** Every item of a booking is of the coupon's product; no booking is of all products. */
  predicate Suits(product: Product, items: seq<Item>) {
    && items != []
    && forall i | 0 <= i < |items| ::
         match items[i]
         case FlightItem(_, _) => product == FlightProduct
         case StayItem(_, _, _, _) => product == HotelProduct
         case TourItem(_, _, _, _, _) => product == TourProduct
  }

  /** How often the coupon was used, and by whom, as sets of usage rows. */
  function UsageRows(usages: seq<Usage>, coupon: string): set<nat> {
    set i: nat | i < |usages| && usages[i].coupon == coupon
  }

  function UserRows(usages: seq<Usage>, coupon: string, user: Id): set<nat> {
    set i: nat | i < |usages| && usages[i].coupon == coupon && usages[i].user == user
  }

  lemma {:induction false} UsesAreRows(usages: seq<Usage>, coupon: string)
    ensures UsesOf(usages, coupon) == |UsageRows(usages, coupon)|
  {
    if usages != [] {
      var n := |usages| - 1;
      UsesAreRows(usages[..n], coupon);
      assert UsageRows(usages, coupon) ==
             UsageRows(usages[..n], coupon) + (if usages[n].coupon == coupon then {n} else {});
    }
  }

  lemma {:induction false} UsesByAreRows(usages: seq<Usage>, coupon: string, user: Id)
    ensures UsesBy(usages, coupon, user) == |UserRows(usages, coupon, user)|
  {
    if usages != [] {
      var n := |usages| - 1;
      UsesByAreRows(usages[..n], coupon, user);
      assert UserRows(usages, coupon, user) == UserRows(usages[..n], coupon, user)
             + (if usages[n].coupon == coupon && usages[n].user == user then {n} else {});
    }
  }

  /** The coupon may be used for the booking now: active, begun, not over, made for its product, within its
      limits, and the booking is dear enough and has none. */
  ghost predicate CanBeUsed(s: State, b: nat, user: Id, code: string, now: int)
    requires Aligned(s)
  {
    && b < |s.bookings| && s.bookings[b].user == user && code in s.coupons
    && var c := s.coupons[code];
    && c.active && (c.startsAt.Some? ==> c.startsAt.value <= now) && (c.expiresAt.Some? ==> now <= c.expiresAt.value)
    && Suits(c.product, s.items[b]) && s.bookings[b].coupon.None? && c.minimum <= s.bookings[b].base
    && (c.limitTotal.Some? ==> c.used < c.limitTotal.value)
    && (c.limitPerUser.Some? ==> |UserRows(s.usages, code, user)| < c.limitPerUser.value)
    && forall i | 0 <= i < |s.usages| :: s.usages[i].coupon != code || s.usages[i].booking != b
  }

  lemma ProductIff(items: seq<Item>, product: Product)
    ensures BookingProduct(items) == Ok(product) <==> Suits(product, items)
  {
    if BookingProduct(items).Ok? {
      forall i | 0 <= i < |items| ensures ProductOf(items[i]) == BookingProduct(items).value {
        assert ProductOf(items[i]) == ProductOf(items[0]);
      }
    }
  }

  lemma ValidCouponIff(s: State, b: nat, user: Id, code: string, now: int)
    requires Aligned(s) && b < |s.bookings| && s.bookings[b].user == user
    ensures ValidateCoupon(s, code, b, user, now).Ok? <==> CanBeUsed(s, b, user, code, now)
    ensures ValidateCoupon(s, code, b, user, now).Ok? ==>
              code in s.coupons && ValidateCoupon(s, code, b, user, now).value == s.coupons[code]
  {
    UsesByAreRows(s.usages, code, user);
    if code in s.coupons {
      ProductIff(s.items[b], s.coupons[code].product);
    }
  }

  /** A coupon is accepted exactly when it may be used; the booking then carries it at the base price less
      its discount, one usage row and one count are added, and nothing else changes. */
  lemma CouponIff(s: State, b: nat, user: Id, code: string, now: int)
    requires Aligned(s)
    ensures var (t, r) := ApplyCoupon(s, b, user, code, now);
      && (r.Ok? <==> CanBeUsed(s, b, user, code, now))
      && (r.Err? ==> t == s)
      && (r.Ok? ==>
            var row, c := s.bookings[b], s.coupons[code];
            && b < |t.bookings| && r == Ok(b)
            && var d := t.bookings[b].discount;
            && (row.base >= 0 ==>
                  IsDiscount(if c.kind == Percentage then row.base * c.value else c.value * 10_000, c.ceiling,
                             row.base, d))
            && t == s.(bookings := s.bookings[b := row.(coupon := Some(code), discount := d, final := row.base - d)],
                       usages := s.usages + [Usage(code, user, b)],
                       coupons := s.coupons[code := c.(used := c.used + 1)]))
  {
    if b < |s.bookings| && s.bookings[b].user == user {
      ValidCouponIff(s, b, user, code, now);
      if CanBeUsed(s, b, user, code, now) && s.bookings[b].base >= 0 {
        var row, c := s.bookings[b], s.coupons[code];
        DiscountIff(c.kind, c.value, c.ceiling, row.base, Discount(c.kind, c.value, c.ceiling, row.base));
      }
    }
  }
}
