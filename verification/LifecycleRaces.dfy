/** Decisions on rows that may have changed since they were read: the simulated payment success and the
    administrator's refund update read without a lock, and a gateway callback loads its payment before it
    locks it. Their steps in `Lifecycle` read and write at once. Here the write stands alone, with the
    exact condition under which it still does no harm. */
module LifecycleRaces {
  import opened Basics
  import opened Lifecycle
  import opened LifecycleInvariant
  import opened LifecycleLimits

  // ---- simulated success ----

  /** `_mark_payment_simulated_success`: the assignments, whatever the payment has become. */
  function CommitSimulated(s: State, p: nat): State
    requires p < |s.payments| && s.payments[p].booking < |s.bookings|
  {
    ApplyReport(s, p, PayPaid)
  }

  lemma CommitSimulatedKeeps(s: State, p: nat)
    requires Inv(s) && p < |s.payments| && s.payments[p].status in {PayPending, PayPaid}
    ensures s.payments[p].booking < |s.bookings|
    ensures Inv(CommitSimulated(s, p)) && Moves(s, CommitSimulated(s, p))
  {
    var b := s.payments[p].booking;
    assert s.tallies[b := s.tallies[b]] == s.tallies;
    var t := CommitSimulated(s, p);
    SettleKeeps(s, t, Reported(s.bookings[b], PayPaid), p, PayPaid, s.tallies[b]);
  }

  /** A late commit keeps the invariant and every lifecycle if and only if the payment is still pending,
      or was paid meanwhile. */
  lemma StaleSimulateIff(s: State, p: nat)
    requires Inv(s) && p < |s.payments|
    ensures s.payments[p].booking < |s.bookings|
    ensures Inv(CommitSimulated(s, p)) && Moves(s, CommitSimulated(s, p)) <==>
            s.payments[p].status in {PayPending, PayPaid}
  {
    if s.payments[p].status in {PayPending, PayPaid} {
      CommitSimulatedKeeps(s, p);
    } else if PaymentsMove(s.payments, CommitSimulated(s, p).payments) {
      PaidMovesFromPending(s.payments, CommitSimulated(s, p).payments, p);
    }
  }

  lemma PaidMovesFromPending(old': seq<Payment>, new': seq<Payment>, p: nat)
    requires PaymentsMove(old', new') && p < |old'| && new'[p].status == PayPaid
    ensures old'[p].status in {PayPending, PayPaid}
  {
  }

  // ---- gateway callbacks ----

  /** The writes of a callback that was validated against an older reading of its payment. The booking is
      read under its lock. */
  function CommitReport(s: State, p: nat, report: PaymentStatus, key: (string, string), entry: Callback): State
    requires Aligned(s) && p < |s.payments| && s.payments[p].booking < |s.bookings|
  {
    var b := s.payments[p].booking;
    var t := ApplyReport(s.(callbacks := s.callbacks[key := entry]), p, report);
    if report in {PayFailed, PayCancelled} && s.bookings[b].status == Pending then Release(t, b, ByCallback) else t
  }

  lemma CommitReportKeeps(s: State, p: nat, report: PaymentStatus, key: (string, string), entry: Callback)
    requires Inv(s) && p < |s.payments| && report in {PayPaid, PayFailed, PayCancelled} && key !in s.callbacks
    requires s.payments[p].status in {PayPending, report}
    ensures s.payments[p].booking < |s.bookings|
    ensures var t := CommitReport(s, p, report, key, entry); Inv(t) && Moves(s, t)
  {
    var b := s.payments[p].booking;
    var t := CommitReport(s, p, report, key, entry);
    assert s.tallies[b := s.tallies[b]] == s.tallies;
    ReleaseInRange(s, b, ByCallback);
    SettleKeeps(s, t, Reported(s.bookings[b], report), p, report, t.tallies[b]);
  }

  /** A callback whose payment was read too early keeps the invariant and every lifecycle if and only if the
      payment is still pending, or already is what the callback reports. */
  lemma StaleReportIff(s: State, p: nat, report: PaymentStatus, key: (string, string), entry: Callback)
    requires Inv(s) && p < |s.payments| && report in {PayPaid, PayFailed, PayCancelled} && key !in s.callbacks
    ensures s.payments[p].booking < |s.bookings|
    ensures var t := CommitReport(s, p, report, key, entry);
      Inv(t) && Moves(s, t) <==> s.payments[p].status in {PayPending, report}
  {
    if s.payments[p].status in {PayPending, report} {
      CommitReportKeeps(s, p, report, key, entry);
    } else {
      assert CommitReport(s, p, report, key, entry).payments[p].status == report;
    }
  }

  // ---- refund updates ----

  /** `update_refund_status` after its check. */
  function CommitRefund(s: State, r: nat, next: RefundStatus): State
    requires r < |s.refunds| && s.refunds[r].payment < |s.payments|
    requires s.payments[s.refunds[r].payment].booking < |s.bookings|
  {
    var s1 := s.(refunds := s.refunds[r := s.refunds[r].(status := next)]);
    if next != RefundProcessed then s1
    else
      var p := s.refunds[r].payment;
      var b := s.payments[p].booking;
      s1.(payments := s.payments[p := s.payments[p].(status := PayRefunded)],
          bookings := s.bookings[b := s.bookings[b].(payStatus := PayRefunded)])
  }

  lemma CheckedCommit(s: State, r: nat, next: RefundStatus)
    requires Inv(s) && r < |s.refunds| && RefundMayMove(s.refunds[r].status, next)
    ensures s.refunds[r].payment < |s.payments| && s.payments[s.refunds[r].payment].booking < |s.bookings|
    ensures CommitRefund(s, r, next) == UpdateRefund(s, r, next).0
  {
  }

  lemma ProcessedAgain(s: State, r: nat, t: State)
    requires Inv(s) && r < |s.refunds| && s.refunds[r].status == RefundProcessed
    requires var p := s.refunds[r].payment;
      && p < |s.payments| && s.payments[p].booking < |s.bookings|
      && var b := s.payments[p].booking;
         t == s.(payments := s.payments[p := s.payments[p].(status := PayRefunded)],
                 bookings := s.bookings[b := s.bookings[b].(payStatus := PayRefunded)])
    ensures Inv(t) && Moves(s, t)
  {
    var p := s.refunds[r].payment;
    var b := s.payments[p].booking;
    ProcessedIsRefunded(s, r);
    assert s.payments[p := s.payments[p].(status := PayRefunded)] == s.payments;
    assert s.tallies[b := s.tallies[b]] == s.tallies;
    RefundedNotPending(s, r);
    RefundingKeeps(s, t, t.bookings[b], p, s.tallies[b]);
  }

  lemma ProcessedIsRefunded(s: State, r: nat)
    requires RefundsMatch(s.payments, s.refunds) && r < |s.refunds| && s.refunds[r].status == RefundProcessed
    requires s.refunds[r].payment < |s.payments|
    ensures s.payments[s.refunds[r].payment].status == PayRefunded
  {
    assert HasProcessedRefund(s.refunds, s.refunds[r].payment);
  }

  /** Committing the status that the refund already has. */
  lemma RepeatedCommit(s: State, r: nat)
    requires Inv(s) && r < |s.refunds|
    ensures s.refunds[r].payment < |s.payments| && s.payments[s.refunds[r].payment].booking < |s.bookings|
    ensures var t := CommitRefund(s, r, s.refunds[r].status); Inv(t) && Moves(s, t)
  {
    var t := CommitRefund(s, r, s.refunds[r].status);
    assert s.refunds[r := s.refunds[r].(status := s.refunds[r].status)] == s.refunds;
    if s.refunds[r].status == RefundProcessed {
      ProcessedAgain(s, r, t);
    } else {
      assert t == s;
    }
  }

  /** A late commit keeps the invariant and every lifecycle if and only if the refund may still move there,
      or is there already. */
  lemma StaleRefundIff(s: State, r: nat, next: RefundStatus)
    requires Inv(s) && r < |s.refunds|
    ensures s.refunds[r].payment < |s.payments| && s.payments[s.refunds[r].payment].booking < |s.bookings|
    ensures Inv(CommitRefund(s, r, next)) && Moves(s, CommitRefund(s, r, next)) <==>
            s.refunds[r].status == next || RefundMayMove(s.refunds[r].status, next)
  {
    if s.refunds[r].status == next {
      RepeatedCommit(s, r);
    } else if RefundMayMove(s.refunds[r].status, next) {
      CheckedCommit(s, r, next);
      UpdateRefundKeeps(s, r, next);
    } else {
      assert CommitRefund(s, r, next).refunds[r].status == next;
    }
  }

  // ---- a run ----

  /** The booking after its only payment was reported failed, which freed the seat. */
  function FailedFirst(): State {
    Seat(Row(Failed, PayFailed), [Paying("k", PayFailed)], Tally(1, 0, 0), 1, [LookFor("k")]).(
      callbacks := map[("vnpay", "t-1") := Callback(0, FailureOfFirst())])
  }

  lemma FailureFrees()
    ensures Apply(Booked([Paying("k", PayPending)], [LookFor("k")]), DoDeliver(FailureOfFirst())) == FailedFirst()
  {
    var s := Booked([Paying("k", PayPending)], [LookFor("k")]);
    FailureReads();
    RestoreTheSeat(s);
    assert FindByRef(s.payments, OrderRef("BK-1", "k")) == Some(0);
  }

  /** Book, start a payment, look at it for a simulated success, have it fail, commit the success: the
      failed payment becomes paid, and the booking has a voucher while its seat is free. */
  lemma SimulatedAfterFailure() returns (t: State)
    ensures Reachable(OneSeat(), FailedFirst()) && t == CommitSimulated(FailedFirst(), 0)
    ensures FailedFirst().payments[0].status == PayFailed && t.payments[0].status == PayPaid
    ensures HasVoucher(t.bookings[0]) && t.stock.flights[0].seats == 1
  {
    FirstPayment();
    FailureFrees();
    ReachableNext(OneSeat(), Booked([Paying("k", PayPending)], [LookFor("k")]), DoDeliver(FailureOfFirst()),
                  FailedFirst());
    t := CommitSimulated(FailedFirst(), 0);
  }
}
