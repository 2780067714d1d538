/** Exact conservation of stock: which step breaks it, and in which runs it holds. */
module LifecycleConservation {
  import opened Basics
  import opened Inventory
  import opened Lifecycle
  import opened LifecycleInvariant
  import opened LifecycleRuns
  import opened LifecycleLedger
  import opened LifecycleTheorems
  import opened LifecycleHolds

  /** A unit's level and what unreleased bookings hold of it make up its opening level. */
  ghost predicate Exact(s: State, u: Unit)
    requires Aligned(s) && Has(s.stock, u) && Has(s.opening, u)
  {
    Level(s.stock, u) == Level(s.opening, u) - Held(s, u)
  }

  ghost predicate ExactAt(s: State, u: Unit) {
    Aligned(s) && Has(s.stock, u) && Has(s.opening, u) && Exact(s, u)
  }

  // ---- releases ----

  /** Giving back the stock of a booking for the first time is exact, and the ceiling does not bite.
      Giving it back again raises the level without anybody having held it: what is left over is
      exactly the rise that the ceiling lets through. */
  lemma ReleaseSurplus(s: State, t: State, b: nat, cause: Cause, u: Unit)
    requires ExactAt(s, u) && Aligned(t) && b < |s.items| && StockInRange(s.stock, s.opening)
    requires t.stock == RestoreAll(s.stock, s.items[b]) && t.items == s.items && t.opening == s.opening
    requires t.tallies == s.tallies[b := Bump(s.tallies[b], cause)]
    ensures Has(t.stock, u) && Level(t.stock, u) >= Level(s.stock, u)
    ensures Level(t.stock, u) + Held(t, u) ==
            Level(t.opening, u) + (if s.tallies[b].Total() == 0 then 0 else Level(t.stock, u) - Level(s.stock, u))
    ensures ExactAt(t, u) <==>
            s.tallies[b].Total() == 0 || DemandAll(s.items[b], u) == 0 || Cap(s.stock, u) == Some(Level(s.stock, u))
  {
    ReleaseBalance(s, t, b, cause, u);
    assert Level(s.opening, u) == Capped(Cap(s.opening, u), Level(s.opening, u));
    assert Level(s.stock, u) == Capped(Cap(s.stock, u), Level(s.stock, u));
  }

  /** An accepted cancellation keeps the books of a unit exact if and only if the booking was never
      released before, does not use the unit, or finds the unit full. Otherwise the level and what
      bookings hold exceed the opening level by all that the cancellation gave back. */
  lemma CancellationExactIff(s: State, b: nat, user: Id, now: int, u: Unit)
    requires Inv(s) && ExactAt(s, u) && CancelBooking(s, b, user, now).1.Ok?
    ensures var t := CancelBooking(s, b, user, now).0;
      && b < |s.tallies| && Aligned(t) && Has(t.stock, u) && Has(t.opening, u)
      && (ExactAt(t, u) <==>
            s.tallies[b].Total() == 0 || DemandAll(s.items[b], u) == 0 || Cap(s.stock, u) == Some(Level(s.stock, u)))
      && (s.tallies[b].Total() > 0 ==>
            Level(t.stock, u) + Held(t, u) - Level(t.opening, u) == Level(t.stock, u) - Level(s.stock, u) >= 0)
  {
    CancelChange(s, b, user, now);
    ReleaseSurplus(s, CancelBooking(s, b, user, now).0, b, ByCancel, u);
  }

  /** For a booking whose own requests were guarded so far, whatever happened to others, that is a
      question of its status: cancelling is exact if and only if it is pending or confirmed. */
  lemma CancellationByStatus(s: State, steps: seq<Step>, b: nat, user: Id, now: int, u: Unit)
    requires Fresh(s) && GuardedAt(s, steps, b)
    requires ExactAt(Run(s, steps), u) && CancelBooking(Run(s, steps), b, user, now).1.Ok?
    ensures var t := Run(s, steps);
      && b < |t.bookings|
      && (ExactAt(CancelBooking(t, b, user, now).0, u) <==>
            Active(t.bookings[b]) || DemandAll(t.items[b], u) == 0 || Cap(t.stock, u) == Some(Level(t.stock, u)))
  {
    HeldAlongIff(s, steps, b);
    HeldAtEnd(s, steps, b);
    FreshKeeps(s);
    RunKeeps(s, steps);
    CancelChange(Run(s, steps), b, user, now);
    CancellationExactIff(Run(s, steps), b, user, now, u);
  }

  // ---- every step ----

  /** The step is an accepted cancellation that gives back what nobody holds. */
  predicate Surplus(s: State, step: Step, u: Unit)
    requires Aligned(s) && Has(s.stock, u)
  {
    step.DoCancel? && CancelBooking(s, step.booking, step.user, step.now).1.Ok?
    && s.tallies[step.booking].Total() > 0 && DemandAll(s.items[step.booking], u) > 0
    && Cap(s.stock, u) != Some(Level(s.stock, u))
  }

  lemma SameBooksExact(s: State, t: State, u: Unit)
    requires ExactAt(s, u) && Aligned(t) && SameBooks(s, t)
    ensures ExactAt(t, u)
  {
  }

  lemma CreationExact(s: State, step: Step, u: Unit)
    requires ExactAt(s, u) && (step.DoFlight? || step.DoHotel? || step.DoTour? || step.DoCheckout?)
    ensures ExactAt(Apply(s, step), u)
  {
    CreationInserts(s, step);
    InsertedExact(s, Apply(s, step), u);
  }

  /** What a unit loses is held. */
  lemma TakenExact(s: State, t: State, taken: int, u: Unit)
    requires ExactAt(s, u) && Aligned(t) && t.opening == s.opening && Has(t.stock, u)
    requires Level(t.stock, u) == Level(s.stock, u) - taken && Held(t, u) == Held(s, u) + taken
    ensures ExactAt(t, u)
  {
  }

  lemma InsertedExact(s: State, t: State, u: Unit)
    requires ExactAt(s, u) && Aligned(t) && (SameBooks(s, t) || OneInserted(s, t))
    ensures ExactAt(t, u)
  {
    if SameBooks(s, t) {
      SameBooksExact(s, t, u);
    } else {
      var code, user, item, total, now, hold :| Listed(s.stock, item)
        && Insert(s, code, user, item, total, now, hold).1.Ok?
        && SameBooks(Insert(s, code, user, item, total, now, hold).0, t);
      var s1 := Insert(s, code, user, item, total, now, hold).0;
      InsertBalance(s, code, user, item, total, now, hold, u);
      TakenExact(s, s1, Demand(item, u), u);
      SameBooksExact(s1, t, u);
    }
  }

  lemma DeliverExact(s: State, d: Delivery, u: Unit)
    requires Inv(s) && ExactAt(s, u)
    ensures ExactAt(DeliverLocked(s, d).0, u)
  {
    var (t, r) := DeliverLocked(s, d);
    if r.Ok? && (d.gateway, d.txnRef) !in s.callbacks {
      DeliverChange(s, d);
      var p := FindByRef(s.payments, d.orderRef).value;
      var b := s.payments[p].booking;
      if ReleasesStock(s, p, NormalizeStatus(d.status).value) {
        ReleaseSurplus(s, t, b, ByCallback, u);
      } else {
        assert s.tallies[b := s.tallies[b]] == s.tallies;
        SameBooksExact(s, t, u);
      }
    } else {
      assert t == s;
    }
  }

  lemma ExpireOneExact(s: State, b: nat, u: Unit)
    requires Inv(s) && ExactAt(s, u) && b < |s.bookings| && s.bookings[b].status == Pending
    ensures ExactAt(ExpireOne(s, b), u)
  {
    ExpireOneChange(s, b);
    ReleaseSurplus(s, ExpireOne(s, b), b, BySweep, u);
  }

  lemma ExpireOneKeepsExact(s: State, b: nat, u: Unit)
    requires Inv(s) && ExactAt(s, u) && b < |s.bookings| && s.bookings[b].status == Pending
    ensures Inv(ExpireOne(s, b)) && ExactAt(ExpireOne(s, b), u)
    ensures |ExpireOne(s, b).bookings| == |s.bookings|
    ensures forall c | 0 <= c < |s.bookings| && c != b :: ExpireOne(s, b).bookings[c] == s.bookings[c]
  {
    ExpireOneKeeps(s, b);
    ExpireOneExact(s, b, u);
    ExpireOneChange(s, b);
  }

  lemma {:induction false} ExpireAllExact(s: State, ids: seq<nat>, u: Unit)
    requires Inv(s) && ExactAt(s, u)
    requires forall i | 0 <= i < |ids| :: ids[i] < |s.bookings| && s.bookings[ids[i]].status == Pending
    requires forall i, j | 0 <= i < j < |ids| :: ids[i] != ids[j]
    ensures ExactAt(ExpireAll(s, ids), u)
    decreases |ids|
  {
    if ids != [] {
      ExpireOneKeepsExact(s, ids[0], u);
      ExpireAllExact(ExpireOne(s, ids[0]), ids[1..], u);
    }
  }

  lemma SweepExact(s: State, now: int, u: Unit)
    requires Inv(s) && ExactAt(s, u)
    ensures ExactAt(Sweep(s, now), u)
  {
    ExpiredAreDue(s.bookings, now, SWEEP_LIMIT);
    ExpireAllExact(s, ExpiredPending(s.bookings, now, SWEEP_LIMIT), u);
  }

  lemma CancelExactIff(s: State, step: Step, u: Unit)
    requires Inv(s) && ExactAt(s, u) && step.DoCancel?
    ensures ExactAt(Apply(s, step), u) <==> !Surplus(s, step, u)
  {
    if CancelBooking(s, step.booking, step.user, step.now).1.Ok? {
      CancellationExactIff(s, step.booking, step.user, step.now, u);
    }
  }

  lemma OtherExact(s: State, step: Step, u: Unit)
    requires ExactAt(s, u)
    requires step.DoLook? || step.DoInsert? || step.DoSimulate?
          || step.DoRequestRefund? || step.DoUpdateRefund? || step.DoCoupon?
    ensures ExactAt(Apply(s, step), u)
  {
    if step.DoLook? || step.DoInsert? || step.DoSimulate? {
      PaymentSteps(s, step);
    } else {
      OtherSteps(s, step);
    }
    SameBooksExact(s, Apply(s, step), u);
  }

  /** No step breaks the exact books of a unit but a surplus cancellation, and that always does. */
  lemma StepKeepsExactIff(s: State, step: Step, u: Unit)
    requires Inv(s) && ExactAt(s, u)
    ensures ExactAt(Apply(s, step), u) <==> !Surplus(s, step, u)
  {
    if step.DoCancel? {
      CancelExactIff(s, step, u);
    } else if step.DoDeliver? {
      DeliverExact(s, step.delivery, u);
    } else if step.DoSweep? {
      SweepExact(s, step.now, u);
    } else if step.DoFlight? || step.DoHotel? || step.DoTour? || step.DoCheckout? {
      CreationExact(s, step, u);
    } else {
      OtherExact(s, step, u);
    }
  }

  // ---- whole runs ----

  /** A guarded cancellation is no surplus. */
  lemma GuardedIsExact(s: State, step: Step, u: Unit)
    requires Aligned(s) && Has(s.stock, u) && AllHeld(s) && HoldGuard(s, step)
    ensures !Surplus(s, step, u)
  {
    if step.DoCancel? {
      assert HeldAt(s, step.booking);
    }
  }

  lemma FreshExact(s: State, u: Unit)
    requires Fresh(s) && Has(s.stock, u)
    ensures ExactAt(s, u)
  {
    assert Held(s, u) == 0;
  }

  lemma {:induction false} GuardedRunExact(s: State, steps: seq<Step>, u: Unit)
    requires Fresh(s) && Has(s.stock, u) && GuardedRun(s, steps)
    ensures ExactAt(Run(s, steps), u)
  {
    if steps == [] {
      FreshExact(s, u);
    } else {
      var n := |steps| - 1;
      var t := Run(s, steps[..n]);
      GuardedRunExact(s, steps[..n], u);
      GuardedRunHolds(s, steps[..n]);
      FreshKeeps(s);
      RunKeeps(s, steps[..n]);
      GuardedIsExact(t, steps[n], u);
      StepKeepsExactIff(t, steps[n], u);
    }
  }

  /** One for every pending or confirmed booking. */
  function ActiveWeights(bookings: seq<Booking>): (w: seq<int>)
    ensures |w| == |bookings|
    ensures forall i | 0 <= i < |w| :: w[i] == if Active(bookings[i]) then 1 else 0
  {
    seq(|bookings|, i requires 0 <= i < |bookings| => if Active(bookings[i]) then 1 else 0)
  }

  lemma WeightsAgree(t: State)
    requires Aligned(t) && AllHeld(t)
    ensures ActiveWeights(t.bookings) == HeldWeights(t.tallies)
  {
    forall b | 0 <= b < |t.bookings| ensures ActiveWeights(t.bookings)[b] == HeldWeights(t.tallies)[b] {
      assert HeldAt(t, b);
      WeightsAt(t.tallies, b);
    }
  }

  /** Exact conservation: in a guarded run, with any number of payments per booking, every unit's level
      plus what pending and confirmed bookings hold is the opening level. Hence nothing is overbooked,
      and every booking is released at most once, exactly when it closes. */
  lemma Conservation(s: State, t: State, u: Unit)
    requires GuardedReach(s, t) && Has(s.stock, u)
    ensures Aligned(t) && Has(t.stock, u)
    ensures Level(t.stock, u) + Weighted(t.items, ActiveWeights(t.bookings), u) == Level(s.stock, u)
    ensures 0 <= Weighted(t.items, ActiveWeights(t.bookings), u) <= Level(s.stock, u)
    ensures forall b | 0 <= b < |t.bookings| ::
      t.tallies[b].Total() == if Active(t.bookings[b]) then 0 else 1
  {
    var steps :| GuardedRun(s, steps) && Run(s, steps) == t;
    GuardedRunExact(s, steps, u);
    GuardedRunHolds(s, steps);
    FreshKeeps(s);
    OpeningFixed(s, steps);
    RunKeeps(s, steps);
    ExactAndHeld(t, u);
  }

  lemma ExactAndHeld(t: State, u: Unit)
    requires ExactAt(t, u) && AllHeld(t) && StockInRange(t.stock, t.opening)
    ensures Level(t.stock, u) + Weighted(t.items, ActiveWeights(t.bookings), u) == Level(t.opening, u)
    ensures 0 <= Weighted(t.items, ActiveWeights(t.bookings), u) <= Level(t.opening, u)
    ensures forall b | 0 <= b < |t.bookings| :: t.tallies[b].Total() == if Active(t.bookings[b]) then 0 else 1
  {
    WeightsAgree(t);
    HeldNonNegative(t.items, t.tallies, u);
    forall b | 0 <= b < |t.bookings| ensures t.tallies[b].Total() == if Active(t.bookings[b]) then 0 else 1 {
      assert HeldAt(t, b);
    }
  }
}
