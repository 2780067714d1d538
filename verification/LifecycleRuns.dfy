/** What holds in every state that any run of transactions reaches. */
module LifecycleRuns {
  import opened Basics
  import opened Inventory
  import opened Lifecycle
  import opened LifecycleInvariant

  // ---- the sweep as a loop ----

  /** Payments that a sweep touches go from pending to cancelled. */
  ghost predicate Lapse(old': seq<Payment>, new': seq<Payment>) {
    && |old'| == |new'|
    && forall p | 0 <= p < |old'| ::
         new'[p] == old'[p] || (old'[p].status == PayPending && new'[p] == old'[p].(status := PayCancelled))
  }

  /** What one turn of the sweep does to its booking and everything else. */
  lemma ExpireOneChange(s: State, b: nat)
    requires Aligned(s) && b < |s.bookings|
    ensures var t := ExpireOne(s, b);
      && t.bookings == s.bookings[b := s.bookings[b].(status := Expired, payStatus := PayCancelled, expiresAt := None)]
      && Lapse(s.payments, t.payments)
      && t.tallies == s.tallies[b := Bump(s.tallies[b], BySweep)]
      && t.stock == RestoreAll(s.stock, s.items[b])
      && t == s.(bookings := t.bookings, payments := t.payments, tallies := t.tallies, stock := t.stock)
  {
  }

  lemma Chain(s: State, t: State, u: State)
    requires BookingsMove(s.bookings, t.bookings) && BookingsMove(t.bookings, u.bookings)
    requires Lapse(s.payments, t.payments) && Lapse(t.payments, u.payments)
    ensures BookingsMove(s.bookings, u.bookings) && Lapse(s.payments, u.payments)
  {
  }

  lemma {:induction false} ExpireAllKeeps(s: State, ids: seq<nat>)
    requires Inv(s)
    requires forall i | 0 <= i < |ids| :: ids[i] < |s.bookings| && s.bookings[ids[i]].status == Pending
    requires forall i, j | 0 <= i < j < |ids| :: ids[i] != ids[j]
    ensures Inv(ExpireAll(s, ids)) && BookingsMove(s.bookings, ExpireAll(s, ids).bookings)
    ensures Lapse(s.payments, ExpireAll(s, ids).payments)
    ensures var t := ExpireAll(s, ids);
      t.refunds == s.refunds && t.items == s.items && t.callbacks == s.callbacks && t.opening == s.opening
    decreases |ids|
  {
    if ids == [] {
      assert ExpireAll(s, ids) == s;
    } else {
      var t := ExpireOne(s, ids[0]);
      ExpireOneKeeps(s, ids[0]);
      ExpireOneChange(s, ids[0]);
      ExpireAllKeeps(t, ids[1..]);
      Chain(s, t, ExpireAll(s, ids));
    }
  }

  lemma SweepKeeps(s: State, now: int)
    requires Inv(s)
    ensures Inv(Sweep(s, now)) && Moves(s, Sweep(s, now))
  {
    ExpiredAreDue(s.bookings, now, SWEEP_LIMIT);
    ExpireAllKeeps(s, ExpiredPending(s.bookings, now, SWEEP_LIMIT));
  }

  // ---- one step ----

  lemma StayLevels(s: State, room: Id, checkIn: Day, checkOut: Day, quantity: nat)
    requires Valid(s.stock) && room in s.stock.rooms && StayFits(s.stock, room, checkIn, checkOut, quantity)
    ensures forall u: Unit | Has(s.stock, u) :: Demand(StayItem(room, checkIn, checkOut, quantity),
                                                       u) <= Level(s.stock, u)
  {
    forall u: Unit | Has(s.stock, u)
      ensures Demand(StayItem(room, checkIn, checkOut, quantity), u) <= Level(s.stock, u)
    {
      if u.NightOf? && u.room == room && checkIn <= u.day < checkOut {
        assert Level(s.stock, NightOf(room, u.day)) >= quantity;
      }
    }
  }

  lemma TourKeeps(s: State, user: Id, code: string, schedule: Id, party: Party, now: int, hold: nat)
    requires Inv(s)
    ensures var t := InsertTour(s, user, code, schedule, party, now, hold).0; Inv(t) && Moves(s, t)
  {
    var (t, r) := InsertTour(s, user, code, schedule, party, now, hold);
    if r.Ok? {
      InsertKeeps(s, code, user, TourOf(schedule, party), TourPrice(s.stock.schedules[schedule].prices, party),
                  now, hold);
    }
  }

  lemma PaymentAddsOnly(s: State, s1: State, look: Look, now: int)
    requires Moves(s, s1) && look.booking < |s1.bookings|
    ensures Moves(s, AddPayment(s1, look, now).0)
  {
  }

  /** What an accepted new checkout adds: its booking, then the payment of that booking. */
  lemma NewCheckoutAdds(s: State, user: Id, code: string, schedule: Id, party: Party, via: PaymentMethod, key: string,
                        now: int, hold: nat, available: set<PaymentMethod>)
    requires NewCheckout(s, user, code, schedule, party, via, key, now, hold, available).1.Ok?
    ensures var t := NewCheckout(s, user, code, schedule, party, via, key, now, hold, available).0;
      var s1 := InsertTour(s, user, code, schedule, party, now, hold).0;
      var b := |s.bookings|;
      && InsertTour(s, user, code, schedule, party, now, hold).1.Ok?
      && |s1.bookings| == b + 1 && s1.bookings[b].final > 0
      && var look := Look(b, via, key, s1.bookings[b].final, s1.bookings[b].currency, false);
         AddPayment(s1, look, now).1.Ok? && t == AddPayment(s1, look, now).0
  {
  }

  lemma NewCheckoutKeeps(s: State, user: Id, code: string, schedule: Id, party: Party, via: PaymentMethod, key: string,
                         now: int, hold: nat, available: set<PaymentMethod>)
    requires Inv(s)
    ensures var t := NewCheckout(s, user, code, schedule, party, via, key, now, hold, available).0;
      Inv(t) && Moves(s, t)
  {
    if NewCheckout(s, user, code, schedule, party, via, key, now, hold, available).1.Ok? {
      NewCheckoutAdds(s, user, code, schedule, party, via, key, now, hold, available);
      var s1 := InsertTour(s, user, code, schedule, party, now, hold).0;
      var b := |s.bookings|;
      var look := Look(b, via, key, s1.bookings[b].final, s1.bookings[b].currency, false);
      TourKeeps(s, user, code, schedule, party, now, hold);
      AddPaymentKeeps(s1, look, now);
      PaymentAddsOnly(s, s1, look, now);
    } else {
      assert NewCheckout(s, user, code, schedule, party, via, key, now, hold, available).0 == s;
    }
  }

  /** A checkout step leaves the tables alone, perhaps with one more request in flight, or is a new
      checkout. */
  lemma CheckoutShape(s: State, user: Id, code: string, schedule: Id, party: Party, via: PaymentMethod, key: string,
                      now: int, hold: nat, available: set<PaymentMethod>)
    requires Aligned(s)
    ensures var t := BeginCheckout(s, user, code, schedule, party, via, key, now, hold, available).0;
      || t == s.(looks := t.looks)
      || (FindBooking(s.bookings, code, user).None?
          && NewCheckout(s, user, code, schedule, party, via, key, now, hold, available).1.Ok?
          && t == NewCheckout(s, user, code, schedule, party, via, key, now, hold, available).0)
  {
    if NewCheckout(s, user, code, schedule, party, via, key, now, hold, available).1.Err? {
      assert NewCheckout(s, user, code, schedule, party, via, key, now, hold, available).0 == s;
    }
  }

  lemma LooksOnlyKeep(s: State, looks: seq<Look>)
    requires Inv(s)
    ensures Inv(s.(looks := looks)) && Moves(s, s.(looks := looks))
  {
  }

  lemma CheckoutKeeps(s: State, user: Id, code: string, schedule: Id, party: Party, via: PaymentMethod, key: string,
                      now: int, hold: nat, available: set<PaymentMethod>)
    requires Inv(s)
    ensures var t := BeginCheckout(s, user, code, schedule, party, via, key, now, hold, available).0;
      Inv(t) && Moves(s, t)
  {
    var t := BeginCheckout(s, user, code, schedule, party, via, key, now, hold, available).0;
    CheckoutShape(s, user, code, schedule, party, via, key, now, hold, available);
    if t == s.(looks := t.looks) {
      LooksOnlyKeep(s, t.looks);
    } else {
      NewCheckoutKeeps(s, user, code, schedule, party, via, key, now, hold, available);
    }
  }

  lemma FlightKeeps(s: State, user: Id, code: string, flight: Id, quantity: int, now: int, hold: nat)
    requires Inv(s)
    ensures var t := CreateFlight(s, user, code, flight, quantity, now, hold).0; Inv(t) && Moves(s, t)
  {
    if CreateFlight(s, user, code, flight, quantity, now, hold).0 != s {
      InsertKeeps(s, code, user, FlightItem(flight, Positive(quantity)),
                  s.stock.flights[flight].price * quantity, now, hold);
    }
  }

  lemma HotelKeeps(s: State, user: Id, key: string, code: string, room: Id, checkIn: Day, checkOut: Day, quantity: int,
                   now: int, hold: nat)
    requires Inv(s)
    ensures var t := CreateHotel(s, user, key, code, room, checkIn, checkOut, quantity, now,
                                 hold).0; Inv(t) && Moves(s, t)
  {
    if CreateHotel(s, user, key, code, room, checkIn, checkOut, quantity, now, hold).0 != s {
      StayLevels(s, room, checkIn, checkOut, Positive(quantity));
      InsertKeeps(s, code, user, StayItem(room, checkIn, checkOut, Positive(quantity)),
                  s.stock.rooms[room].nightPrice * quantity * (checkOut - checkIn), now, hold);
    }
  }

  lemma LookShape(s: State, b: nat, user: Id, via: PaymentMethod, key: string, now: int,
                  available: set<PaymentMethod>)
    ensures var t := LookAt(s, b, user, via, key, now, available).0;
      || t == s
      || (b < |s.bookings| && s.bookings[b].final > 0
          && t == s.(looks := s.looks + [Look(b, via, key, s.bookings[b].final, s.bookings[b].currency, true)]))
  {
  }

  lemma LookKeeps(s: State, b: nat, user: Id, via: PaymentMethod, key: string, now: int,
                  available: set<PaymentMethod>)
    requires Inv(s)
    ensures var t := LookAt(s, b, user, via, key, now, available).0; Inv(t) && Moves(s, t)
  {
    LookShape(s, b, user, via, key, now, available);
    LooksOnlyKeep(s, LookAt(s, b, user, via, key, now, available).0.looks);
  }

  lemma InsertLookKeeps(s: State, i: nat, now: int)
    requires Inv(s) && LooksSound(s.bookings, s.looks)
    ensures Inv(InsertLook(s, i, now).0) && Moves(s, InsertLook(s, i, now).0)
  {
    if InsertLook(s, i, now).0 != s {
      AddPaymentKeeps(s, s.looks[i], now);
    }
  }

  /** The invariant holds after the step, and existing rows move only along their graphs. */
  ghost predicate Kept(s: State, t: State) {
    Inv(t) && Moves(s, t)
  }

  lemma BookingKeeps(s: State, step: Step, t: State)
    requires Inv(s) && (step.DoFlight? || step.DoHotel?)
    requires step.DoFlight? ==>
      t == CreateFlight(s, step.user, step.code, step.flight, step.quantity, step.now, step.hold).0
    requires step.DoHotel? ==>
      t == CreateHotel(s, step.user, step.key, step.code, step.room, step.checkIn, step.checkOut, step.quantity,
                       step.now, step.hold).0
    ensures Kept(s, t)
  {
    if step.DoFlight? {
      FlightKeeps(s, step.user, step.code, step.flight, step.quantity, step.now, step.hold);
    } else {
      HotelKeeps(s, step.user, step.key, step.code, step.room, step.checkIn, step.checkOut, step.quantity, step.now,
                 step.hold);
    }
  }

  lemma CreateTourKeeps(s: State, user: Id, key: string, code: string, schedule: Id, party: Party, now: int, hold: nat)
    requires Inv(s)
    ensures var t := CreateTour(s, user, key, code, schedule, party, now, hold).0; Inv(t) && Moves(s, t)
  {
    var t := CreateTour(s, user, key, code, schedule, party, now, hold).0;
    if t != s {
      TourKeeps(s, user, code, schedule, party, now, hold);
    }
  }

  lemma TourStepKeeps(s: State, step: Step, t: State)
    requires Inv(s) && (step.DoTour? || step.DoCheckout?)
    requires step.DoTour? ==>
      t == CreateTour(s, step.user, step.key, step.code, step.schedule, step.party, step.now, step.hold).0
    requires step.DoCheckout? ==>
      t == BeginCheckout(s, step.user, step.code, step.schedule, step.party, step.via, step.key, step.now, step.hold,
                          step.available).0
    ensures Kept(s, t)
  {
    if step.DoTour? {
      CreateTourKeeps(s, step.user, step.key, step.code, step.schedule, step.party, step.now, step.hold);
    } else {
      CheckoutKeeps(s, step.user, step.code, step.schedule, step.party, step.via, step.key, step.now, step.hold,
                    step.available);
    }
  }

  lemma PaymentKeeps(s: State, step: Step, t: State)
    requires Inv(s) && LooksSound(s.bookings, s.looks)
    requires step.DoLook? || step.DoInsert? || step.DoSimulate? || step.DoDeliver? || step.DoSweep?
    requires step.DoLook? ==>
      t == LookAt(s, step.booking, step.user, step.via, step.key, step.now, step.available).0
    requires step.DoInsert? ==> t == InsertLook(s, step.look, step.now).0
    requires step.DoSimulate? ==> t == SimulateSuccess(s, step.payment, step.user).0
    requires step.DoDeliver? ==> t == DeliverLocked(s, step.delivery).0
    requires step.DoSweep? ==> t == Sweep(s, step.now)
    ensures Kept(s, t)
  {
    if step.DoLook? {
      LookKeeps(s, step.booking, step.user, step.via, step.key, step.now, step.available);
    } else if step.DoInsert? {
      InsertLookKeeps(s, step.look, step.now);
    } else if step.DoSimulate? {
      SimulateKeeps(s, step.payment, step.user);
    } else if step.DoDeliver? {
      DeliverKeeps(s, step.delivery);
    } else {
      SweepKeeps(s, step.now);
    }
  }

  lemma ClosingKeeps(s: State, step: Step, t: State)
    requires Inv(s) && (step.DoCancel? || step.DoRequestRefund? || step.DoUpdateRefund? || step.DoCoupon?)
    requires step.DoCancel? ==> t == CancelBooking(s, step.booking, step.user, step.now).0
    requires step.DoRequestRefund? ==> t == RequestRefund(s, step.booking, step.user, step.reason, step.now).0
    requires step.DoUpdateRefund? ==> t == UpdateRefund(s, step.refund, step.next).0
    requires step.DoCoupon? ==> t == ApplyCoupon(s, step.booking, step.user, step.code, step.now).0
    ensures Kept(s, t)
  {
    if step.DoCancel? {
      CancelKeeps(s, step.booking, step.user, step.now);
    } else if step.DoRequestRefund? {
      RequestRefundKeeps(s, step.booking, step.user, step.reason, step.now);
    } else if step.DoUpdateRefund? {
      UpdateRefundKeeps(s, step.refund, step.next);
    } else {
      CouponKeeps(s, step.booking, step.user, step.code, step.now);
    }
  }

  // ---- requests in flight ----

  lemma {:induction false} ExpireAllLooks(s: State, ids: seq<nat>)
    requires Aligned(s) && forall i | 0 <= i < |ids| :: ids[i] < |s.bookings|
    ensures ExpireAll(s, ids).looks == s.looks
    decreases |ids|
  {
    if ids != [] {
      ExpireOneChange(s, ids[0]);
      ExpireAllLooks(ExpireOne(s, ids[0]), ids[1..]);
    }
  }

  lemma CreationLooks(s: State, step: Step)
    requires Aligned(s) && (step.DoFlight? || step.DoHotel? || step.DoTour?)
    ensures Apply(s, step).looks == s.looks
  {
  }

  lemma RowLooks(s: State, step: Step)
    requires Aligned(s)
    requires step.DoInsert? || step.DoSimulate? || step.DoDeliver? || step.DoCancel?
    ensures Apply(s, step).looks == s.looks
  {
  }

  lemma SmallLooks(s: State, step: Step)
    requires Aligned(s)
    requires step.DoRequestRefund? || step.DoUpdateRefund? || step.DoCoupon? || step.DoSweep?
    ensures Apply(s, step).looks == s.looks
  {
    if step.DoSweep? {
      ExpiredAreDue(s.bookings, step.now, SWEEP_LIMIT);
      ExpireAllLooks(s, ExpiredPending(s.bookings, step.now, SWEEP_LIMIT));
    }
  }

  /** The request that a step starts, if any, reads the price of an existing booking. */
  ghost predicate OneLookMore(s: State, t: State) {
    || t.looks == s.looks
    || exists look ::
         t.looks == s.looks + [look] && LooksSound(s.bookings, [look])
  }

  lemma CheckoutLooks(s: State, user: Id, code: string, schedule: Id, party: Party, via: PaymentMethod, key: string,
                      now: int, hold: nat, available: set<PaymentMethod>)
    requires Aligned(s)
    ensures OneLookMore(s, BeginCheckout(s, user, code, schedule, party, via, key, now, hold, available).0)
  {
    var t := BeginCheckout(s, user, code, schedule, party, via, key, now, hold, available).0;
    var b := FindBooking(s.bookings, code, user);
    if t.looks != s.looks {
      var row := s.bookings[b.value];
      assert t.looks == s.looks + [Look(b.value, via, key, row.final, row.currency, false)];
    }
  }

  lemma LookLooks(s: State, b: nat, user: Id, via: PaymentMethod, key: string, now: int,
                  available: set<PaymentMethod>)
    ensures OneLookMore(s, LookAt(s, b, user, via, key, now, available).0)
  {
    LookShape(s, b, user, via, key, now, available);
  }

  lemma StepLooks(s: State, step: Step)
    requires Aligned(s)
    ensures OneLookMore(s, Apply(s, step))
  {
    if step.DoCheckout? {
      CheckoutLooks(s, step.user, step.code, step.schedule, step.party, step.via, step.key, step.now, step.hold,
                    step.available);
    } else if step.DoLook? {
      LookLooks(s, step.booking, step.user, step.via, step.key, step.now, step.available);
    } else if step.DoFlight? || step.DoHotel? || step.DoTour? {
      CreationLooks(s, step);
    } else if step.DoInsert? || step.DoSimulate? || step.DoDeliver? || step.DoCancel? {
      RowLooks(s, step);
    } else {
      SmallLooks(s, step);
    }
  }

  /** Prices only fall, so a look stays sound until its insertion. */
  lemma LooksCarry(s: State, t: State)
    requires LooksSound(s.bookings, s.looks) && BookingsMove(s.bookings, t.bookings) && OneLookMore(s, t)
    ensures LooksSound(t.bookings, t.looks) && s.looks <= t.looks
  {
    if t.looks != s.looks {
      var look :| t.looks == s.looks + [look] && LooksSound(s.bookings, [look]);
      assert [look][0] == look;
    }
  }

  // ---- every step ----

  /** Every transaction, from any state that satisfies the invariant, keeps it and moves existing
      rows only along their graphs. */
  lemma StepKeeps(s: State, step: Step)
    requires Inv(s) && LooksSound(s.bookings, s.looks)
    ensures Inv(Apply(s, step)) && Moves(s, Apply(s, step))
  {
    if step.DoFlight? || step.DoHotel? {
      BookingKeeps(s, step, Apply(s, step));
    } else if step.DoTour? || step.DoCheckout? {
      TourStepKeeps(s, step, Apply(s, step));
    } else if step.DoLook? || step.DoInsert? || step.DoSimulate? || step.DoDeliver? || step.DoSweep? {
      PaymentKeeps(s, step, Apply(s, step));
    } else {
      ClosingKeeps(s, step, Apply(s, step));
    }
  }

  /** And every request in flight stays payable. */
  lemma StepKeepsLooks(s: State, step: Step)
    requires Inv(s) && LooksSound(s.bookings, s.looks)
    ensures LooksSound(Apply(s, step).bookings, Apply(s, step).looks) && s.looks <= Apply(s, step).looks
  {
    StepKeeps(s, step);
    StepLooks(s, step);
    LooksCarry(s, Apply(s, step));
  }
}
