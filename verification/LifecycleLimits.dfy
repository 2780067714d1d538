/** Where the code stops short of its intent: runs that show each failure, and double refunds with the
    exact guard against them. The guards for stock are in `LifecycleHolds` and `LifecycleConservation`. */
module LifecycleLimits {
  import opened Basics
  import opened Inventory
  import opened Lifecycle
  import opened LifecycleInvariant
  import opened LifecycleRuns
  import opened LifecycleTheorems
  import opened LifecycleHolds

  // ---- double refunds ----

  /** No payment has two processed refunds. */
  ghost predicate RefundedOnce(refunds: seq<Refund>) {
    forall q, r | 0 <= q < r < |refunds| && refunds[q].payment == refunds[r].payment ::
      refunds[q].status != RefundProcessed || refunds[r].status != RefundProcessed
  }

  /** Processing a refund pays a charge back for the first time if and only if the payment is not
      already refunded. */
  lemma ProcessingOnceIff(s: State, r: nat)
    requires Inv(s) && RefundedOnce(s.refunds) && UpdateRefund(s, r, RefundProcessed).1.Ok?
    ensures RefundedOnce(UpdateRefund(s, r, RefundProcessed).0.refunds) <==>
            s.payments[s.refunds[r].payment].status != PayRefunded
  {
    ProcessingOnce(s.payments, s.refunds, r);
  }

  lemma ProcessingOnce(payments: seq<Payment>, refunds: seq<Refund>, r: nat)
    requires RefundsMatch(payments, refunds) && RefundedOnce(refunds)
    requires r < |refunds| && refunds[r].payment < |payments| && RefundMayMove(refunds[r].status, RefundProcessed)
    ensures RefundedOnce(refunds[r := refunds[r].(status := RefundProcessed)]) <==>
            payments[refunds[r].payment].status != PayRefunded
  {
    var p := refunds[r].payment;
    var after := refunds[r := refunds[r].(status := RefundProcessed)];
    if payments[p].status == PayRefunded {
      var q :| 0 <= q < |refunds| && refunds[q].payment == p && refunds[q].status == RefundProcessed;
      assert after[q].status == RefundProcessed && after[r].status == RefundProcessed && q != r;
    } else if !RefundedOnce(after) {
      var q, w :| 0 <= q < w < |after| && after[q].payment == after[w].payment
        && after[q].status == RefundProcessed && after[w].status == RefundProcessed;
      assert HasProcessedRefund(refunds, p);
    }
  }

  /** The guard of `ProcessingOnceIff`, as a condition on a step. */
  predicate RefundGuarded(s: State, step: Step) {
    step.DoUpdateRefund? && step.next == RefundProcessed && step.refund < |s.refunds|
    && s.refunds[step.refund].payment < |s.payments|
    ==> s.payments[s.refunds[step.refund].payment].status != PayRefunded
  }

  predicate RefundGuardedRun(s: State, steps: seq<Step>)
    requires Aligned(s)
  {
    steps != [] ==>
      var n := |steps| - 1;
      RefundGuardedRun(s, steps[..n]) && RefundGuarded(Run(s, steps[..n]), steps[n])
  }

  lemma AddedRefundOnce(payments: seq<Payment>, refunds: seq<Refund>, refund: Refund)
    requires RefundsMatch(payments, refunds) && RefundedOnce(refunds) && refund.payment < |payments|
    requires refund.status == RefundProcessed ==> payments[refund.payment].status != PayRefunded
    ensures RefundedOnce(refunds + [refund])
  {
    if refund.status == RefundProcessed {
      assert !HasProcessedRefund(refunds, refund.payment);
    }
  }

  lemma CancelRefundsOnce(s: State, b: nat, user: Id, now: int)
    requires Inv(s) && RefundedOnce(s.refunds)
    ensures RefundedOnce(CancelBooking(s, b, user, now).0.refunds)
  {
    if CancelBooking(s, b, user, now).1.Ok? {
      CancelChange(s, b, user, now);
      var latest := LatestPayment(s, b);
      NeverAuthorized(s, latest);
      if latest.Some? && s.payments[latest.value].status == PayPaid {
        AddedRefundOnce(s.payments, s.refunds, Refund(latest.value, s.bookings[b].final, RefundProcessed, now));
      }
    }
  }

  lemma UpdateRefundsOnce(s: State, r: nat, next: RefundStatus)
    requires Inv(s) && RefundedOnce(s.refunds) && RefundGuarded(s, DoUpdateRefund(r, next))
    ensures RefundedOnce(UpdateRefund(s, r, next).0.refunds)
  {
    if UpdateRefund(s, r, next).1.Ok? && next == RefundProcessed {
      ProcessingOnce(s.payments, s.refunds, r);
    }
  }

  lemma RequestRefundsOnce(s: State, b: nat, user: Id, reason: string, now: int)
    requires Inv(s) && RefundedOnce(s.refunds)
    ensures RefundedOnce(RequestRefund(s, b, user, reason, now).0.refunds)
  {
    var (t, r) := RequestRefund(s, b, user, reason, now);
    if r.Ok? {
      AddedRefundOnce(s.payments, s.refunds, t.refunds[|s.refunds|]);
    }
  }

  lemma CreationKeepsRefunds(s: State, step: Step)
    requires Aligned(s) && (step.DoFlight? || step.DoHotel? || step.DoTour? || step.DoCheckout?)
    ensures Apply(s, step).refunds == s.refunds
  {
  }

  lemma PaymentKeepsRefunds(s: State, step: Step)
    requires Aligned(s)
    requires step.DoLook? || step.DoInsert? || step.DoSimulate? || step.DoDeliver? || step.DoCoupon?
    ensures Apply(s, step).refunds == s.refunds
  {
  }

  lemma SweepKeepsRefunds(s: State, now: int)
    requires Inv(s)
    ensures Sweep(s, now).refunds == s.refunds
  {
    ExpiredAreDue(s.bookings, now, SWEEP_LIMIT);
    ExpireAllKeeps(s, ExpiredPending(s.bookings, now, SWEEP_LIMIT));
  }

  lemma StepRefundsOnce(s: State, step: Step)
    requires Inv(s) && RefundedOnce(s.refunds) && RefundGuarded(s, step)
    ensures RefundedOnce(Apply(s, step).refunds)
  {
    if step.DoUpdateRefund? {
      UpdateRefundsOnce(s, step.refund, step.next);
    } else if step.DoCancel? {
      CancelRefundsOnce(s, step.booking, step.user, step.now);
    } else if step.DoRequestRefund? {
      RequestRefundsOnce(s, step.booking, step.user, step.reason, step.now);
    } else if step.DoSweep? {
      SweepKeepsRefunds(s, step.now);
    } else if step.DoFlight? || step.DoHotel? || step.DoTour? || step.DoCheckout? {
      CreationKeepsRefunds(s, step);
    } else {
      PaymentKeepsRefunds(s, step);
    }
  }

  /** While administrators process no refund of an already refunded payment, every payment is paid
      back at most once in every run. */
  lemma {:induction false} RefundedAtMostOnce(s: State, steps: seq<Step>)
    requires Fresh(s) && RefundGuardedRun(s, steps)
    ensures RefundedOnce(Run(s, steps).refunds)
  {
    if steps != [] {
      var n := |steps| - 1;
      RefundedAtMostOnce(s, steps[..n]);
      FreshKeeps(s);
      RunKeeps(s, steps[..n]);
      StepRefundsOnce(Run(s, steps[..n]), steps[n]);
    }
  }

  // ---- runs that show the failures ----

  lemma RunThen(s: State, steps: seq<Step>, step: Step)
    requires Aligned(s)
    ensures Run(s, steps + [step]) == Apply(Run(s, steps), step)
  {
    assert (steps + [step])[..|steps|] == steps;
  }

  lemma ReachableThen(s: State, t: State, step: Step)
    requires Reachable(s, t) && Aligned(t)
    ensures Reachable(s, Apply(t, step))
  {
    var steps :| Run(s, steps) == t;
    RunThen(s, steps, step);
  }

  lemma ReachableNext(s: State, t: State, step: Step, u: State)
    requires Reachable(s, t) && Aligned(t) && Apply(t, step) == u
    ensures Reachable(s, u)
  {
    ReachableThen(s, t, step);
  }

  lemma ReachableStart(s: State)
    requires Fresh(s)
    ensures Reachable(s, s)
  {
    assert Run(s, []) == s;
  }

  /** One flight with one seat, nothing booked. */
  function OneSeat(): State {
    var stock := Stock(map[0 := Flight(1, true, 500)], map[], map[]);
    State([], [], [], [], map[], map[], [], stock, stock, [], [])
  }

  const BOOK := DoFlight(7, "BK-1", 0, 1, 0, 1800)
  const SWEEP := DoSweep(1800)
  const CANCEL := DoCancel(0, 7, 1900)

  function Row(status: BookingStatus, payStatus: PaymentStatus): Booking {
    Booking("BK-1", 7, status, payStatus, 500, 0, 500, CURRENCY, None, None)
  }

  /** That flight with its one booking, in some state. */
  function Seat(row: Booking, payments: seq<Payment>, tally: Tally, seats: int, looks: seq<Look>): State {
    OneSeat().(
      bookings := [row], items := [[FlightItem(0, 1)]], payments := payments, tallies := [tally],
      stock := Stock(map[0 := Flight(seats, true, 500)], map[], map[]), looks := looks)
  }

  /** The booking when it is new, with some payments. */
  function Booked(payments: seq<Payment>, looks: seq<Look>): State {
    Seat(Row(Pending, PayPending).(expiresAt := Some(1800)), payments, Tally(0, 0, 0), 0, looks)
  }

  lemma BookedRun()
    ensures Reachable(OneSeat(), Booked([], []))
  {
    ReachableStart(OneSeat());
    ReachableThen(OneSeat(), OneSeat(), BOOK);
    assert Apply(OneSeat(), BOOK) == Booked([], []);
  }

  lemma RestoreTheSeat(s: State)
    requires Aligned(s) && |s.items| == 1 && s.items[0] == [FlightItem(0, 1)] && 0 in s.stock.flights
    ensures RestoreAll(s.stock, s.items[0]) ==
            s.stock.(flights := s.stock.flights[0 := s.stock.flights[0].(seats := s.stock.flights[0].seats + 1)])
  {
    assert s.items[0][1..] == [];
  }

  lemma OnlyIsDue(s: State)
    requires |s.bookings| == 1 && IsDue(s.bookings[0], 1800)
    ensures ExpiredPending(s.bookings, 1800, SWEEP_LIMIT) == [0]
  {
    assert DueBookings(s.bookings, 1800) == [0] by {
      assert s.bookings[..0] == [];
    }
    BatchWithinDue(s.bookings, 1800, SWEEP_LIMIT);
    var ids := ExpiredPending(s.bookings, 1800, SWEEP_LIMIT);
    assert |ids| == 1 && ids[0] in ids;
  }

  lemma SweepTheOnly(s: State)
    requires Aligned(s) && |s.bookings| == 1 && IsDue(s.bookings[0], 1800)
    ensures Sweep(s, 1800) == ExpireOne(s, 0)
  {
    OnlyIsDue(s);
    assert [0][1..] == [];
    assert ExpireAll(s, [0]) == ExpireAll(ExpireOne(s, 0), []);
  }

  /** The state after that sweep, given the stock it leaves and the booking's newest payment. */
  function SweptOnly(s: State, stock: Stock, latest: Option<nat>): State
    requires |s.bookings| == |s.tallies| == 1 && (latest.Some? ==> latest.value < |s.payments|)
  {
    s.(bookings := [s.bookings[0].(status := Expired, payStatus := PayCancelled, expiresAt := None)],
       tallies := [Bump(s.tallies[0], BySweep)], stock := stock,
       payments := if latest.Some? && s.payments[latest.value].status == PayPending
                   then s.payments[latest.value := s.payments[latest.value].(status := PayCancelled)]
                   else s.payments)
  }

  lemma SweptTheOnly(s: State, stock: Stock, latest: Option<nat>, t: State)
    requires Aligned(s) && |s.bookings| == 1 && IsDue(s.bookings[0], 1800)
    requires stock == RestoreAll(s.stock, s.items[0]) && latest == LatestPayment(s, 0)
    requires t == SweptOnly(s, stock, latest)
    ensures Apply(s, SWEEP) == t
  {
    SweepTheOnly(s);
    assert ExpireOne(s, 0).bookings == t.bookings && ExpireOne(s, 0).tallies == t.tallies;
  }

  lemma CancelTheOnly(row: Booking, payments: seq<Payment>, tally: Tally, seats: int, looks: seq<Look>)
    requires row.user == 7 && row.status != Cancelled
    ensures var t := Apply(Seat(row, payments, tally, seats, looks), CANCEL);
      && t.tallies == [Bump(tally, ByCancel)]
      && 0 in t.stock.flights && t.stock.flights[0].seats == seats + 1
  {
    var s := Seat(row, payments, tally, seats, looks);
    RestoreTheSeat(s);
    CancelChange(s, 0, 7, 1900);
  }

  function Lapsed(payments: seq<Payment>, looks: seq<Look>): State {
    Seat(Row(Expired, PayCancelled), payments, Tally(0, 1, 0), 1, looks)
  }

  lemma SweepUnpaid(s: State, looks: seq<Look>)
    requires s == Booked([], looks)
    ensures Apply(s, SWEEP) == Lapsed([], looks)
  {
    RestoreTheSeat(s);
    SweptTheOnly(s, OneSeat().stock, None, Lapsed([], looks));
  }

  /** Book, expire, cancel: cancelling an expired booking frees its seat a second time, and the one-seat
      flight has two. */
  lemma CancelAfterExpiryOverfills() returns (t: State)
    ensures Reachable(OneSeat(), t) && t.tallies == [Tally(0, 1, 1)]
    ensures 0 in t.stock.flights && t.stock.flights[0].seats == 2
  {
    BookedRun();
    SweepUnpaid(Booked([], []), []);
    ReachableNext(OneSeat(), Booked([], []), SWEEP, Lapsed([], []));
    t := Apply(Lapsed([], []), CANCEL);
    ReachableNext(OneSeat(), Lapsed([], []), CANCEL, t);
    CancelTheOnly(Row(Expired, PayCancelled), [], Tally(0, 1, 0), 1, []);
  }

  // The same booking with payments.

  function Paying(key: string, status: PaymentStatus): Payment {
    Payment(0, Vnpay, status, 500, CURRENCY, OrderRef("BK-1", key), key, 10)
  }

  function LookFor(key: string): Look {
    Look(0, Vnpay, key, 500, CURRENCY, true)
  }

  function Begin(key: string): Step {
    DoLook(0, 7, Vnpay, key, 10, {Vnpay})
  }

  lemma FirstLook()
    ensures Reachable(OneSeat(), Booked([], [LookFor("k")]))
  {
    BookedRun();
    ReachableThen(OneSeat(), Booked([], []), Begin("k"));
    assert Apply(Booked([], []), Begin("k")) == Booked([], [LookFor("k")]);
  }

  lemma FirstPayment()
    ensures Reachable(OneSeat(), Booked([Paying("k", PayPending)], [LookFor("k")]))
  {
    FirstLook();
    ReachableThen(OneSeat(), Booked([], [LookFor("k")]), DoInsert(0, 10));
    assert Apply(Booked([], [LookFor("k")]), DoInsert(0, 10)) == Booked([Paying("k", PayPending)], [LookFor("k")]);
  }

  function TwoPending(): State {
    Booked([Paying("k", PayPending), Paying("m", PayPending)], [LookFor("k"), LookFor("m")])
  }

  lemma SecondPayment()
    ensures var s := Booked([Paying("k", PayPending)], [LookFor("k")]);
      Apply(Apply(s, Begin("m")), DoInsert(1, 10)) == TwoPending()
  {
    var s := Booked([Paying("k", PayPending)], [LookFor("k")]);
    assert s.payments[..0] == [];
    assert OrderRef("BK-1", "k")[9] == 'k' && OrderRef("BK-1", "m")[9] == 'm';
  }

  lemma TwoPaymentsRun()
    ensures Reachable(OneSeat(), TwoPending())
  {
    FirstPayment();
    var s := Booked([Paying("k", PayPending)], [LookFor("k")]);
    ReachableThen(OneSeat(), s, Begin("m"));
    ReachableThen(OneSeat(), Apply(s, Begin("m")), DoInsert(1, 10));
    SecondPayment();
  }

  function LapsedOnce(): State {
    Lapsed([Paying("k", PayPending), Paying("m", PayCancelled)], [LookFor("k"), LookFor("m")])
  }

  /** The sweep frees the seat and closes the later payment only. */
  lemma SweepAfterTwoPayments(s: State)
    requires s == TwoPending()
    ensures Apply(s, SWEEP) == LapsedOnce()
  {
    RestoreTheSeat(s);
    assert LatestPayment(s, 0) == Some(1) by {
      assert s.payments[..1] == [Paying("k", PayPending)] && s.payments[..1][..0] == [];
    }
    SweptTheOnly(s, OneSeat().stock, Some(1), LapsedOnce());
  }

  /** The booking that an older payment has confirmed after its seat was freed. */
  function Reconfirmed(): State {
    Seat(Row(Confirmed, PayPaid), [Paying("k", PayPaid), Paying("m", PayCancelled)], Tally(0, 1, 0), 1,
         [LookFor("k"), LookFor("m")])
  }

  lemma OlderIsPaid()
    ensures Apply(LapsedOnce(), DoSimulate(0, 7)) == Reconfirmed()
  {
  }

  /** Book, start two payments, expire, pay the older one: expiry closed only the latest payment, and the
      booking has its voucher while its seat is free for others. */
  lemma OlderPaymentReconfirms()
    ensures Reachable(OneSeat(), Reconfirmed()) && HasVoucher(Reconfirmed().bookings[0])
    ensures Reconfirmed().tallies == [Tally(0, 1, 0)] && Reconfirmed().stock.flights[0].seats == 1
  {
    TwoPaymentsRun();
    SweepAfterTwoPayments(TwoPending());
    ReachableNext(OneSeat(), TwoPending(), SWEEP, LapsedOnce());
    OlderIsPaid();
    ReachableNext(OneSeat(), LapsedOnce(), DoSimulate(0, 7), Reconfirmed());
  }

  /** Cancelling that confirmed booking frees the seat a second time: with several payments the status
      alone does not say whether a cancellation is exact. */
  lemma CancelConfirmedOverfills() returns (t: State)
    ensures Reachable(OneSeat(), t) && t == Apply(Reconfirmed(), CANCEL) && Active(Reconfirmed().bookings[0])
    ensures t.tallies == [Tally(0, 1, 1)] && 0 in t.stock.flights && t.stock.flights[0].seats == 2
  {
    OlderPaymentReconfirms();
    ReachableThen(OneSeat(), Reconfirmed(), CANCEL);
    CancelTheOnly(Row(Confirmed, PayPaid), Reconfirmed().payments, Tally(0, 1, 0), 1, Reconfirmed().looks);
    t := Apply(Reconfirmed(), CANCEL);
  }

  function FailureOfFirst(): Delivery {
    Delivery("vnpay", OrderRef("BK-1", "k"), "t-1", "5.00", Some(5.0), CURRENCY, "failed")
  }

  lemma FailureReads()
    ensures NormalizeStatus("failed") == Ok(PayFailed) && Upper(CURRENCY) == Upper(CURRENCY)
  {
    assert Lower("failed") == "failed";
  }

  function ConfirmedByLater(): State {
    Seat(Row(Confirmed, PayPaid), [Paying("k", PayPending), Paying("m", PayPaid)], Tally(0, 0, 0), 0,
         [LookFor("k"), LookFor("m")])
  }

  /** The paid booking after its older payment was reported failed. */
  function Leaked(): State {
    Seat(Row(Failed, PayFailed), [Paying("k", PayFailed), Paying("m", PayPaid)], Tally(0, 0, 0), 0,
         [LookFor("k"), LookFor("m")]).(
      callbacks := map[("vnpay", "t-1") := Callback(0, FailureOfFirst())])
  }

  lemma FirstFails()
    ensures Apply(ConfirmedByLater(), DoDeliver(FailureOfFirst())) == Leaked()
  {
    var s := ConfirmedByLater();
    FailureReads();
    assert OrderRef("BK-1", "k")[9] == 'k' && OrderRef("BK-1", "m")[9] == 'm';
    assert s.payments[..1] == [Paying("k", PayPending)];
    assert FindByRef(s.payments, OrderRef("BK-1", "k")) == Some(0);
  }

  /** Book, start two payments, pay the later one, have the older one fail: the paid booking loses its
      voucher, and nobody gives its seat back. */
  lemma LateFailureLeaks()
    ensures Reachable(OneSeat(), Leaked()) && !HasVoucher(Leaked().bookings[0])
    ensures Leaked().payments[1].status == PayPaid && !Active(Leaked().bookings[0])
    ensures Leaked().tallies == [Tally(0, 0, 0)] && Leaked().stock.flights[0].seats == 0
  {
    TwoPaymentsRun();
    ReachableThen(OneSeat(), TwoPending(), DoSimulate(1, 7));
    assert Apply(TwoPending(), DoSimulate(1, 7)) == ConfirmedByLater();
    ReachableThen(OneSeat(), ConfirmedByLater(), DoDeliver(FailureOfFirst()));
    FirstFails();
  }

  /** Cancelling that failed booking is the first release of its seat and restores it correctly. */
  lemma CancelFailedRestores() returns (t: State)
    ensures Reachable(OneSeat(), t) && t == Apply(Leaked(), CANCEL)
    ensures t.tallies == [Tally(0, 0, 1)] && 0 in t.stock.flights && t.stock.flights[0].seats == 1
  {
    LateFailureLeaks();
    ReachableThen(OneSeat(), Leaked(), CANCEL);
    RestoreTheSeat(Leaked());
    CancelChange(Leaked(), 0, 7, 1900);
    t := Apply(Leaked(), CANCEL);
  }

  /** The booking whose only payment was inserted after it expired, and then paid. */
  function LatelyPaid(): State {
    Seat(Row(Confirmed, PayPaid), [Paying("k", PayPaid)], Tally(0, 1, 0), 1, [LookFor("k")])
  }

  /** Book, look up the booking for a payment, expire, insert the payment, pay it: the request does not
      look again, and one payment without any cancellation confirms a booking whose seat is free. */
  lemma LateInsertReconfirms()
    ensures Reachable(OneSeat(), LatelyPaid()) && HasVoucher(LatelyPaid().bookings[0])
    ensures LatelyPaid().tallies == [Tally(0, 1, 0)] && LatelyPaid().stock.flights[0].seats == 1
    ensures |LatelyPaid().payments| == 1
  {
    FirstLook();
    SweepUnpaid(Booked([], [LookFor("k")]), [LookFor("k")]);
    ReachableNext(OneSeat(), Booked([], [LookFor("k")]), SWEEP, Lapsed([], [LookFor("k")]));
    InsertAfterLapse();
    ReachableNext(OneSeat(), Lapsed([], [LookFor("k")]), DoInsert(0, 10),
                  Lapsed([Paying("k", PayPending)], [LookFor("k")]));
    PayAfterLapse();
    ReachableNext(OneSeat(), Lapsed([Paying("k", PayPending)], [LookFor("k")]), DoSimulate(0, 7), LatelyPaid());
  }

  lemma InsertAfterLapse()
    ensures Apply(Lapsed([], [LookFor("k")]), DoInsert(0, 10)) == Lapsed([Paying("k", PayPending)], [LookFor("k")])
  {
  }

  lemma PayAfterLapse()
    ensures Apply(Lapsed([Paying("k", PayPending)], [LookFor("k")]), DoSimulate(0, 7)) == LatelyPaid()
  {
  }

  // Refunds of that booking.

  function Paid(refunds: seq<Refund>): State {
    Seat(Row(Confirmed, PayPaid), [Paying("k", PayPaid)], Tally(0, 0, 0), 0, [LookFor("k")]).(refunds := refunds)
  }

  const ASK := DoRequestRefund(0, 7, "x", 20)

  lemma RefundAskedRun()
    ensures Reachable(OneSeat(), Paid([Refund(0, 500, RefundPending, 20)]))
  {
    FirstPayment();
    var s := Booked([Paying("k", PayPending)], [LookFor("k")]);
    ReachableThen(OneSeat(), s, DoSimulate(0, 7));
    assert Apply(s, DoSimulate(0, 7)) == Paid([]);
    ReachableThen(OneSeat(), Paid([]), ASK);
    Asking();
  }

  lemma Asking()
    ensures Apply(Paid([]), ASK) == Paid([Refund(0, 500, RefundPending, 20)])
  {
    assert Paid([]).payments[..0] == [];
    assert 'x' in "x";
  }

  function Refunded(refunds: seq<Refund>): State {
    Seat(Row(Cancelled, PayRefunded), [Paying("k", PayRefunded)], Tally(0, 0, 1), 1, [LookFor("k")]).(
      refunds := refunds)
  }

  /** Cancelling refunds at once, beside the pending request. */
  lemma Cancelling()
    ensures Apply(Paid([Refund(0, 500, RefundPending, 20)]), DoCancel(0, 7, 30)) ==
            Refunded([Refund(0, 500, RefundPending, 20), Refund(0, 500, RefundProcessed, 30)])
  {
    var asked := Paid([Refund(0, 500, RefundPending, 20)]);
    assert asked.payments[..0] == [];
    assert LatestPayment(asked, 0) == Some(0);
    RestoreTheSeat(asked);
  }

  lemma Processing()
    ensures Apply(Refunded([Refund(0, 500, RefundPending, 20), Refund(0, 500, RefundProcessed, 30)]),
                  DoUpdateRefund(0, RefundProcessed)) ==
            Refunded([Refund(0, 500, RefundProcessed, 20), Refund(0, 500, RefundProcessed, 30)])
  {
  }

  /** A refund request, then a cancellation, then the administrator: one charge, paid back twice. */
  lemma TwoProcessedRefunds() returns (t: State)
    ensures Reachable(OneSeat(), t) && |t.payments| == 1
    ensures t.refunds == [Refund(0, 500, RefundProcessed, 20), Refund(0, 500, RefundProcessed, 30)]
  {
    RefundAskedRun();
    var both := [Refund(0, 500, RefundPending, 20), Refund(0, 500, RefundProcessed, 30)];
    Cancelling();
    ReachableNext(OneSeat(), Paid([Refund(0, 500, RefundPending, 20)]), DoCancel(0, 7, 30), Refunded(both));
    Processing();
    t := Refunded([Refund(0, 500, RefundProcessed, 20), Refund(0, 500, RefundProcessed, 30)]);
    ReachableNext(OneSeat(), Refunded(both), DoUpdateRefund(0, RefundProcessed), t);
  }

  // ---- a room night ----

  /** One room, free. */
  function OneRoom(): State {
    var stock := Stock(map[], map[0 := Room(1, 500, map[])], map[]);
    State([], [], [], [], map[], map[], [], stock, stock, [], [])
  }

  function StayBy(user: Id, code: string, now: int): Step {
    DoHotel(user, "k", code, 0, 5, 6, 1, now, 1800)
  }

  function Guest(user: Id, code: string, now: int): Booking {
    Booking(code, user, Pending, PayPending, 500, 0, 500, CURRENCY, None, Some(now + 1800))
  }

  /** That room with some bookings of the same night. */
  function Night(rows: seq<Booking>, tallies: seq<Tally>, level: int): State {
    OneRoom().(
      bookings := rows, items := seq(|rows|, i => [StayItem(0, 5, 6, 1)]), tallies := tallies,
      stock := Stock(map[], map[0 := Room(1, 500, map[5 := level])], map[]))
  }

  lemma TakeTheNight(nights: map<Day, int>)
    ensures TakeNights(Room(1, 500, nights), 5, 6, 1).nights ==
            nights[5 := RoomLevel(Room(1, 500, nights), 5) - 1]
  {
  }

  lemma TakenStock()
    ensures TakeItem(Stock(map[], map[0 := Room(1, 500, map[5 := 1])], map[]), StayItem(0, 5, 6, 1)) ==
            Stock(map[], map[0 := Room(1, 500, map[5 := 0])], map[])
  {
    TakeTheNight(map[5 := 1]);
    assert map[5 := 1][5 := 0] == map[5 := 0];
    assert map[0 := Room(1, 500, map[5 := 1])][0 := Room(1, 500, map[5 := 0])] ==
           map[0 := Room(1, 500, map[5 := 0])];
  }

  lemma RestoreTheNight(s: State, level: int)
    requires s.stock == Stock(map[], map[0 := Room(1, 500, map[5 := level])], map[])
    ensures RestoreAll(s.stock, [StayItem(0, 5, 6, 1)]) ==
            Stock(map[], map[0 := Room(1, 500, map[5 := Min(level + 1, 1)])], map[])
  {
    assert [StayItem(0, 5, 6, 1)][1..] == [];
    assert RestoreNights(Room(1, 500, map[5 := level]), 5, 6, 1).nights == map[5 := Min(level + 1, 1)];
  }

  const ANN := Guest(7, "HT-1", 0)
  const BOB := Guest(8, "HT-2", 1900)
  const CAT := Guest(9, "HT-3", 1960)
  const ANN_LATE := ANN.(status := Expired, payStatus := PayCancelled, expiresAt := None)
  const ANN_OUT := ANN_LATE.(status := Cancelled)

  lemma AnnBooks()
    ensures Apply(OneRoom(), StayBy(7, "HT-1", 0)) == Night([ANN], [Tally(0, 0, 0)], 0)
  {
    TakeTheNight(map[]);
  }

  lemma AnnLapses(s: State)
    requires s == Night([ANN], [Tally(0, 0, 0)], 0)
    ensures Apply(s, SWEEP) == Night([ANN_LATE], [Tally(0, 1, 0)], 1)
  {
    RestoreTheNight(s, 0);
    var t := Night([ANN_LATE], [Tally(0, 1, 0)], 1);
    SweptTheOnly(s, t.stock, None, t);
  }

  /** A booking under a new code by a new guest takes the free night. */
  lemma GuestBooks(rows: seq<Booking>, tallies: seq<Tally>, user: Id, code: string, now: int)
    requires |rows| == |tallies| && forall b | 0 <= b < |rows| :: rows[b].code != code
    ensures Apply(Night(rows, tallies, 1), StayBy(user, code, now)) ==
            Night(rows + [Guest(user, code, now)], tallies + [Tally(0, 0, 0)], 0)
  {
    var s := Night(rows, tallies, 1);
    assert FindBooking(s.bookings, code, user).None?;
    assert !CodeTaken(s.bookings, code);
    assert StayFits(s.stock, 0, 5, 6, 1);
    var item := StayItem(0, 5, 6, 1);
    assert Apply(s, StayBy(user, code, now)) == Insert(s, code, user, item, 500, now, 1800).0;
    TakenStock();
    var t := Night(rows + [Guest(user, code, now)], tallies + [Tally(0, 0, 0)], 0);
    assert s.items + [[item]] == t.items;
    assert Insert(s, code, user, item, 500, now, 1800).0 == t;
  }

  lemma BobBooks()
    ensures Apply(Night([ANN_LATE], [Tally(0, 1, 0)], 1), StayBy(8, "HT-2", 1900)) ==
            Night([ANN_LATE, BOB], [Tally(0, 1, 0), Tally(0, 0, 0)], 0)
  {
    assert "HT-1"[3] != "HT-2"[3];
    GuestBooks([ANN_LATE], [Tally(0, 1, 0)], 8, "HT-2", 1900);
    assert [ANN_LATE] + [BOB] == [ANN_LATE, BOB];
    assert [Tally(0, 1, 0)] + [Tally(0, 0, 0)] == [Tally(0, 1, 0), Tally(0, 0, 0)];
  }

  lemma AnnCancels()
    ensures Apply(Night([ANN_LATE, BOB], [Tally(0, 1, 0), Tally(0, 0, 0)], 0), CANCEL) ==
            Night([ANN_OUT, BOB], [Tally(0, 1, 1), Tally(0, 0, 0)], 1)
  {
    var s := Night([ANN_LATE, BOB], [Tally(0, 1, 0), Tally(0, 0, 0)], 0);
    RestoreTheNight(s, 0);
    CancelChange(s, 0, 7, 1900);
  }

  lemma CatBooks()
    ensures Apply(Night([ANN_OUT, BOB], [Tally(0, 1, 1), Tally(0, 0, 0)], 1), StayBy(9, "HT-3", 1960)) ==
            Night([ANN_OUT, BOB, CAT], [Tally(0, 1, 1), Tally(0, 0, 0), Tally(0, 0, 0)], 0)
  {
    assert "HT-1"[3] != "HT-3"[3] && "HT-2"[3] != "HT-3"[3];
    GuestBooks([ANN_OUT, BOB], [Tally(0, 1, 1), Tally(0, 0, 0)], 9, "HT-3", 1960);
    assert [ANN_OUT, BOB] + [CAT] == [ANN_OUT, BOB, CAT];
    assert [Tally(0, 1, 1), Tally(0, 0, 0)] + [Tally(0, 0, 0)] == [Tally(0, 1, 1), Tally(0, 0, 0), Tally(0, 0, 0)];
  }

  /** Ann books the only room and lets her hold lapse, Bob books it, Ann cancels her expired booking, Cat
      books: the ceiling does not absorb the second release because Bob holds the night, and one room
      is sold twice. */
  lemma CancelAfterExpiryOverbooks() returns (t: State)
    ensures Reachable(OneRoom(), t) && |t.bookings| == 3 && t.stock.rooms.Keys == {0} && t.stock.rooms[0].total == 1
    ensures t.bookings[1].status == Pending && t.items[1] == [StayItem(0, 5, 6, 1)]
    ensures t.bookings[2].status == Pending && t.items[2] == [StayItem(0, 5, 6, 1)]
  {
    ReachableStart(OneRoom());
    AnnBooks();
    ReachableNext(OneRoom(), OneRoom(), StayBy(7, "HT-1", 0), Night([ANN], [Tally(0, 0, 0)], 0));
    AnnLapses(Night([ANN], [Tally(0, 0, 0)], 0));
    ReachableNext(OneRoom(), Night([ANN], [Tally(0, 0, 0)], 0), SWEEP, Night([ANN_LATE], [Tally(0, 1, 0)], 1));
    BobBooks();
    var held := Night([ANN_LATE, BOB], [Tally(0, 1, 0), Tally(0, 0, 0)], 0);
    ReachableNext(OneRoom(), Night([ANN_LATE], [Tally(0, 1, 0)], 1), StayBy(8, "HT-2", 1900), held);
    AnnCancels();
    var surplus := Night([ANN_OUT, BOB], [Tally(0, 1, 1), Tally(0, 0, 0)], 1);
    ReachableNext(OneRoom(), held, CANCEL, surplus);
    CatBooks();
    t := Night([ANN_OUT, BOB, CAT], [Tally(0, 1, 1), Tally(0, 0, 0), Tally(0, 0, 0)], 0);
    ReachableNext(OneRoom(), surplus, StayBy(9, "HT-3", 1960), t);
  }
}
