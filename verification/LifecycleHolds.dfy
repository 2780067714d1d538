/** Which bookings hold their stock. A booking should have been released exactly when it is closed, and
    never twice. The code does not ensure that; this module gives the exact guard on each step that
    does, booking by booking, and lifts it to whole runs. */
module LifecycleHolds {
  import opened Basics
  import opened Lifecycle
  import opened LifecycleInvariant
  import opened LifecycleRuns
  import opened LifecycleTheorems

  predicate Active(b: Booking) {
    b.status == Pending || b.status == Confirmed
  }

  predicate RightlyHeld(row: Booking, tally: Tally) {
    tally.Total() <= 1 && (tally.Total() == 0 <==> Active(row))
  }

  /** Booking `b`, if there is one, was released exactly when it is closed, and never twice. */
  predicate HeldAt(s: State, b: nat) {
    b < |s.bookings| && b < |s.tallies| ==> RightlyHeld(s.bookings[b], s.tallies[b])
  }

  ghost predicate AllHeld(s: State) {
    forall b: nat :: HeldAt(s, b)
  }

  // ---- the guard ----

  /** The payment that a delivery settles and how, if it is accepted and not a duplicate. */
  function Settles(s: State, d: Delivery): (r: Option<(nat, PaymentStatus)>)
    ensures r.Some? ==> r.value.0 < |s.payments| && s.payments[r.value.0].booking < |s.bookings|
  {
    var hint := FindByRef(s.payments, d.orderRef);
    if hint.None? || s.payments[hint.value].booking >= |s.bookings| || (d.gateway, d.txnRef) in s.callbacks
    then None
    else
      var report := ValidateCallback(s.payments[hint.value], d);
      if report.Err? then None else Some((hint.value, report.value))
  }

  /** The booking to which a step gives a status, if it gives one by request. */
  function Subject(s: State, step: Step): Option<nat> {
    match step
    case DoCancel(b, _, _) => Some(b)
    case DoSimulate(p, _) => if p < |s.payments| then Some(s.payments[p].booking) else None
    case DoDeliver(d) => if Settles(s, d).Some? then Some(s.payments[Settles(s, d).value.0].booking) else None
    case _ => None
  }

  /** What a caller would have to check first: cancel only a pending or confirmed booking, report a
      payment as paid only for such a booking, and as failed or cancelled only if the booking is not
      confirmed. Requests that are refused anyway pass. */
  predicate HoldGuard(s: State, step: Step) {
    match step
    case DoCancel(b, user, _) =>
      Owns(s, b, user) ==> Active(s.bookings[b]) || s.bookings[b].status == Cancelled
    case DoSimulate(p, user) =>
      p < |s.payments| && s.payments[p].status == PayPending && Owns(s, s.payments[p].booking, user) ==>
        Active(s.bookings[s.payments[p].booking])
    case DoDeliver(d) =>
      var settled := Settles(s, d);
      settled.Some? ==>
        var row := s.bookings[s.payments[settled.value.0].booking];
        if settled.value.1 == PayPaid then Active(row) else row.status != Confirmed
    case _ => true
  }

  predicate GuardAt(s: State, step: Step, b: nat) {
    Subject(s, step) == Some(b) ==> HoldGuard(s, step)
  }

  // ---- each kind of step ----

  /** No existing booking changes its status or is released; new ones are pending and unreleased. */
  ghost predicate Quiet(s: State, t: State) {
    && |s.bookings| == |s.tallies| && |s.bookings| <= |t.bookings| == |t.tallies|
    && (forall b | 0 <= b < |s.bookings| ::
          t.bookings[b].status == s.bookings[b].status && t.tallies[b] == s.tallies[b])
    && (forall b | |s.bookings| <= b < |t.bookings| ::
          t.bookings[b].status == Pending && t.tallies[b] == Tally(0, 0, 0))
  }

  lemma QuietHolds(s: State, t: State, b: nat)
    requires Aligned(s) && Quiet(s, t) && HeldAt(s, b)
    ensures HeldAt(t, b)
  {
  }

  lemma BookingQuiet(s: State, step: Step)
    requires Aligned(s) && (step.DoFlight? || step.DoHotel? || step.DoTour?)
    ensures Quiet(s, Apply(s, step))
  {
  }

  lemma CheckoutQuiet(s: State, user: Id, code: string, schedule: Id, party: Party, via: PaymentMethod, key: string,
                      now: int, hold: nat, available: set<PaymentMethod>)
    requires Aligned(s)
    ensures Quiet(s, BeginCheckout(s, user, code, schedule, party, via, key, now, hold, available).0)
  {
    CheckoutShape(s, user, code, schedule, party, via, key, now, hold, available);
    if NewCheckout(s, user, code, schedule, party, via, key, now, hold, available).1.Ok? {
      NewCheckoutAdds(s, user, code, schedule, party, via, key, now, hold, available);
    }
  }

  lemma PaymentQuiet(s: State, step: Step)
    requires Aligned(s) && (step.DoLook? || step.DoInsert?)
    ensures Quiet(s, Apply(s, step))
  {
  }

  lemma RefundQuiet(s: State, step: Step)
    requires Aligned(s) && (step.DoRequestRefund? || step.DoUpdateRefund?)
    ensures Quiet(s, Apply(s, step))
  {
  }

  lemma CouponQuiet(s: State, step: Step)
    requires Aligned(s) && step.DoCoupon?
    ensures Quiet(s, Apply(s, step))
  {
    if ApplyCoupon(s, step.booking, step.user, step.code, step.now).1.Ok? {
      CouponChange(s, step.booking, step.user, step.code, step.now);
    }
  }

  lemma QuietSteps(s: State, step: Step)
    requires Aligned(s) && !step.DoSimulate? && !step.DoDeliver? && !step.DoSweep? && !step.DoCancel?
    ensures Quiet(s, Apply(s, step))
  {
    if step.DoFlight? || step.DoHotel? || step.DoTour? {
      BookingQuiet(s, step);
    } else if step.DoCheckout? {
      CheckoutQuiet(s, step.user, step.code, step.schedule, step.party, step.via, step.key, step.now, step.hold,
                    step.available);
    } else if step.DoLook? || step.DoInsert? {
      PaymentQuiet(s, step);
    } else if step.DoCoupon? {
      CouponQuiet(s, step);
    } else {
      RefundQuiet(s, step);
    }
  }

  lemma {:induction false} ExpireAllHolds(s: State, ids: seq<nat>, b: nat)
    requires Aligned(s) && HeldAt(s, b)
    requires forall i | 0 <= i < |ids| :: ids[i] < |s.bookings| && s.bookings[ids[i]].status == Pending
    requires forall i, j | 0 <= i < j < |ids| :: ids[i] != ids[j]
    ensures HeldAt(ExpireAll(s, ids), b)
    decreases |ids|
  {
    if ids != [] {
      ExpireOneChange(s, ids[0]);
      ExpireAllHolds(ExpireOne(s, ids[0]), ids[1..], b);
    }
  }

  lemma SweepHolds(s: State, now: int, b: nat)
    requires Aligned(s) && HeldAt(s, b)
    ensures HeldAt(Sweep(s, now), b)
  {
    ExpiredAreDue(s.bookings, now, SWEEP_LIMIT);
    ExpireAllHolds(s, ExpiredPending(s.bookings, now, SWEEP_LIMIT), b);
  }

  lemma CancelHoldsIff(s: State, c: nat, user: Id, now: int, b: nat)
    requires Aligned(s) && HeldAt(s, b)
    ensures HeldAt(CancelBooking(s, c, user, now).0, b) <==> GuardAt(s, DoCancel(c, user, now), b)
  {
    if CancelBooking(s, c, user, now).1.Ok? {
      CancelChange(s, c, user, now);
    }
  }

  lemma SimulateHoldsIff(s: State, p: nat, user: Id, b: nat)
    requires Aligned(s) && HeldAt(s, b)
    ensures HeldAt(SimulateSuccess(s, p, user).0, b) <==> GuardAt(s, DoSimulate(p, user), b)
  {
  }

  /** What a delivery does, in terms of what it settles. */
  lemma DeliverSettles(s: State, d: Delivery)
    requires Aligned(s)
    ensures Settles(s, d).None? ==> DeliverLocked(s, d).0 == s
    ensures Settles(s, d).Some? ==>
      var (p, report) := Settles(s, d).value;
      var t := DeliverLocked(s, d).0;
      && p < |s.payments| && s.payments[p].booking < |s.bookings| && report in {PayPaid, PayFailed, PayCancelled}
      && CheckTransition(s.payments[p].status, report).Ok?
      && t.bookings == s.bookings[s.payments[p].booking := Reported(s.bookings[s.payments[p].booking], report)]
      && t.payments == s.payments[p := s.payments[p].(status := report)]
      && t.tallies == (if ReleasesStock(s, p, report)
                       then s.tallies[s.payments[p].booking := Bump(s.tallies[s.payments[p].booking], ByCallback)]
                       else s.tallies)
  {
    if Settles(s, d).Some? {
      DeliverChange(s, d);
    }
  }

  lemma ReportHoldsIff(row: Booking, tally: Tally, payment: PaymentStatus, report: PaymentStatus)
    requires RightlyHeld(row, tally) && (row.status == Pending ==> payment == PayPending)
    requires report in {PayPaid, PayFailed, PayCancelled}
    ensures var releases := report in {PayFailed, PayCancelled} && payment == PayPending && row.status == Pending;
      RightlyHeld(Reported(row, report), if releases then Bump(tally, ByCallback) else tally) <==>
      if report == PayPaid then Active(row) else row.status != Confirmed
  {
  }

  /** A report of a pending booking finds its payment pending. */
  lemma SettlesPending(s: State, d: Delivery)
    requires PendingClean(s.bookings, s.payments, s.tallies)
    ensures Settles(s, d).Some? ==>
      var p := Settles(s, d).value.0;
      s.bookings[s.payments[p].booking].status == Pending ==> s.payments[p].status == PayPending
  {
  }

  lemma SubjectHoldsIff(s: State, d: Delivery)
    requires Aligned(s) && Settles(s, d).Some?
    requires var p := Settles(s, d).value.0;
      && HeldAt(s, s.payments[p].booking)
      && (s.bookings[s.payments[p].booking].status == Pending ==> s.payments[p].status == PayPending)
    ensures var b := s.payments[Settles(s, d).value.0].booking;
      HeldAt(DeliverLocked(s, d).0, b) <==> HoldGuard(s, DoDeliver(d))
  {
    DeliverSettles(s, d);
    var (p, report) := Settles(s, d).value;
    var b := s.payments[p].booking;
    ReportHoldsIff(s.bookings[b], s.tallies[b], s.payments[p].status, report);
  }

  lemma OtherThanSubjectHolds(s: State, d: Delivery, b: nat)
    requires Aligned(s) && HeldAt(s, b) && Subject(s, DoDeliver(d)) != Some(b)
    ensures HeldAt(DeliverLocked(s, d).0, b)
  {
    DeliverSettles(s, d);
  }

  lemma DeliverHoldsIff(s: State, d: Delivery, b: nat)
    requires Inv(s) && HeldAt(s, b)
    ensures HeldAt(DeliverLocked(s, d).0, b) <==> GuardAt(s, DoDeliver(d), b)
  {
    SettlesPending(s, d);
    if Subject(s, DoDeliver(d)) == Some(b) {
      SubjectHoldsIff(s, d);
    } else {
      OtherThanSubjectHolds(s, d, b);
    }
  }

  // ---- the exact guard ----

  /** From any state that satisfies the invariant, a step keeps a booking's hold right if and only if
      the guard holds for that booking, whatever the state of all other bookings. */
  lemma StepKeepsHoldIff(s: State, step: Step, b: nat)
    requires Inv(s) && HeldAt(s, b)
    ensures HeldAt(Apply(s, step), b) <==> GuardAt(s, step, b)
  {
    if step.DoCancel? {
      CancelHoldsIff(s, step.booking, step.user, step.now, b);
    } else if step.DoSimulate? {
      SimulateHoldsIff(s, step.payment, step.user, b);
    } else if step.DoDeliver? {
      DeliverHoldsIff(s, step.delivery, b);
    } else if step.DoSweep? {
      SweepHolds(s, step.now, b);
    } else {
      QuietSteps(s, step);
      QuietHolds(s, Apply(s, step), b);
    }
  }

  /** The same for all bookings at once. */
  lemma StepKeepsAllHeldIff(s: State, step: Step)
    requires Inv(s) && AllHeld(s)
    ensures AllHeld(Apply(s, step)) <==> HoldGuard(s, step)
  {
    forall b: nat ensures HeldAt(Apply(s, step), b) <==> GuardAt(s, step, b) {
      StepKeepsHoldIff(s, step, b);
    }
    if Subject(s, step).Some? {
      assert HeldAt(Apply(s, step), Subject(s, step).value) <==> HoldGuard(s, step);
    }
  }

  // ---- whole runs ----

  /** Every step of the run passes the guard at `b`. */
  predicate GuardedAt(s: State, steps: seq<Step>, b: nat)
    requires Aligned(s)
  {
    steps != [] ==>
      var n := |steps| - 1;
      GuardedAt(s, steps[..n], b) && GuardAt(Run(s, steps[..n]), steps[n], b)
  }

  /** The hold of `b` is right in every state along the run. */
  predicate HeldAlong(s: State, steps: seq<Step>, b: nat)
    requires Aligned(s)
  {
    HeldAt(Run(s, steps), b) && (steps != [] ==> HeldAlong(s, steps[..|steps| - 1], b))
  }

  /** In every run, whatever happens to other bookings: the hold of a booking is right all along if and
      only if every step passes the guard at that booking. */
  lemma {:induction false} HeldAlongIff(s: State, steps: seq<Step>, b: nat)
    requires Fresh(s)
    ensures HeldAlong(s, steps, b) <==> GuardedAt(s, steps, b)
  {
    if steps != [] {
      var n := |steps| - 1;
      HeldAlongIff(s, steps[..n], b);
      if HeldAlong(s, steps[..n], b) {
        HeldAtEnd(s, steps[..n], b);
        FreshKeeps(s);
        RunKeeps(s, steps[..n]);
        StepKeepsHoldIff(Run(s, steps[..n]), steps[n], b);
      }
    }
  }

  lemma HeldAtEnd(s: State, steps: seq<Step>, b: nat)
    requires Aligned(s) && HeldAlong(s, steps, b)
    ensures HeldAt(Run(s, steps), b)
  {
  }

  /** Every step of the run passes the guard. */
  predicate GuardedRun(s: State, steps: seq<Step>)
    requires Aligned(s)
  {
    steps != [] ==>
      var n := |steps| - 1;
      GuardedRun(s, steps[..n]) && HoldGuard(Run(s, steps[..n]), steps[n])
  }

  /** Some guarded run leads from the fresh state `s` to `t`. */
  ghost predicate GuardedReach(s: State, t: State) {
    Fresh(s) && exists steps :: GuardedRun(s, steps) && Run(s, steps) == t
  }

  /** A guarded run keeps every hold right. */
  lemma {:induction false} GuardedRunHolds(s: State, steps: seq<Step>)
    requires Fresh(s) && GuardedRun(s, steps)
    ensures AllHeld(Run(s, steps))
  {
    if steps != [] {
      var n := |steps| - 1;
      GuardedRunHolds(s, steps[..n]);
      FreshKeeps(s);
      RunKeeps(s, steps[..n]);
      StepKeepsAllHeldIff(Run(s, steps[..n]), steps[n]);
    }
  }

  /** A run that is guarded at every booking is guarded. */
  lemma {:induction false} GuardedEverywhere(s: State, steps: seq<Step>)
    requires Aligned(s) && forall b: nat :: GuardedAt(s, steps, b)
    ensures GuardedRun(s, steps)
  {
    if steps != [] {
      var n := |steps| - 1;
      forall b: nat ensures GuardedAt(s, steps[..n], b) && GuardAt(Run(s, steps[..n]), steps[n], b) {
        assert GuardedAt(s, steps, b);
      }
      GuardedEverywhere(s, steps[..n]);
      var subject := Subject(Run(s, steps[..n]), steps[n]);
      if subject.Some? {
        assert GuardAt(Run(s, steps[..n]), steps[n], subject.value);
      }
    }
  }
}
