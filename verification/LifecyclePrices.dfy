/** Prices over whole runs: what a booking costs is always its base price less exactly the discount of
    the coupon it carries. */
module LifecyclePrices {
  import opened Basics
  import opened Inventory
  import opened CouponAmounts
  import opened Lifecycle
  import opened LifecycleInvariant
  import opened LifecycleRuns

  predicate PricedBy(row: Booking, coupons: map<string, Coupon>) {
    && row.final == row.base - row.discount
    && match row.coupon
       case None => row.discount == 0
       case Some(code) =>
         code in coupons
         && row.discount == Discount(coupons[code].kind, coupons[code].value, coupons[code].ceiling, row.base)
  }

  ghost predicate AllPriced(bookings: seq<Booking>, coupons: map<string, Coupon>) {
    forall b | 0 <= b < |bookings| :: PricedBy(bookings[b], coupons)
  }

  predicate SamePrice(row: Booking, row': Booking) {
    row'.base == row.base && row'.discount == row.discount && row'.final == row.final && row'.coupon == row.coupon
  }

  /** Existing prices stay, and new bookings start at their base price. */
  ghost predicate KeepsPrices(old': seq<Booking>, new': seq<Booking>) {
    && |old'| <= |new'|
    && (forall b | 0 <= b < |old'| :: SamePrice(old'[b], new'[b]))
    && (forall b | |old'| <= b < |new'| ::
          new'[b].coupon.None? && new'[b].discount == 0 && new'[b].final == new'[b].base)
  }

  /** Coupons only count: kind, value, ceiling and limits are fixed. */
  ghost predicate OnlyCounts(old': map<string, Coupon>, new': map<string, Coupon>) {
    old'.Keys == new'.Keys && forall c | c in old' :: new'[c] == old'[c].(used := new'[c].used)
  }

  lemma {:induction false} ExpireAllPrices(s: State, ids: seq<nat>)
    requires Aligned(s) && forall i | 0 <= i < |ids| :: ids[i] < |s.bookings|
    ensures KeepsPrices(s.bookings, ExpireAll(s, ids).bookings) && ExpireAll(s, ids).coupons == s.coupons
    decreases |ids|
  {
    if ids != [] {
      ExpireOneChange(s, ids[0]);
      ExpireAllPrices(ExpireOne(s, ids[0]), ids[1..]);
    }
  }

  lemma InsertPrices(s: State, code: string, user: Id, item: Item, total: int, now: int, hold: nat)
    requires Listed(s.stock, item)
    ensures var t := Insert(s, code, user, item, total, now, hold).0;
      KeepsPrices(s.bookings, t.bookings) && t.coupons == s.coupons
  {
  }

  lemma FlightPrices(s: State, user: Id, code: string, flight: Id, quantity: int, now: int, hold: nat)
    requires Aligned(s)
    ensures var t := CreateFlight(s, user, code, flight, quantity, now, hold).0;
      KeepsPrices(s.bookings, t.bookings) && t.coupons == s.coupons
  {
    if CreateFlight(s, user, code, flight, quantity, now, hold).0 != s {
      InsertPrices(s, code, user, FlightItem(flight, Positive(quantity)),
                   s.stock.flights[flight].price * quantity, now, hold);
    }
  }

  lemma HotelPrices(s: State, user: Id, key: string, code: string, room: Id, checkIn: Day, checkOut: Day,
                    quantity: int, now: int, hold: nat)
    requires Aligned(s)
    ensures var t := CreateHotel(s, user, key, code, room, checkIn, checkOut, quantity, now, hold).0;
      KeepsPrices(s.bookings, t.bookings) && t.coupons == s.coupons
  {
    if CreateHotel(s, user, key, code, room, checkIn, checkOut, quantity, now, hold).0 != s {
      InsertPrices(s, code, user, StayItem(room, checkIn, checkOut, Positive(quantity)),
                   s.stock.rooms[room].nightPrice * quantity * (checkOut - checkIn), now, hold);
    }
  }

  lemma TourPrices(s: State, user: Id, code: string, schedule: Id, party: Party, now: int, hold: nat)
    ensures var t := InsertTour(s, user, code, schedule, party, now, hold).0;
      KeepsPrices(s.bookings, t.bookings) && t.coupons == s.coupons
  {
    if InsertTour(s, user, code, schedule, party, now, hold).0 != s {
      InsertPrices(s, code, user, TourOf(schedule, party), TourPrice(s.stock.schedules[schedule].prices, party),
                   now, hold);
    }
  }

  lemma CheckoutPrices(s: State, user: Id, code: string, schedule: Id, party: Party, via: PaymentMethod, key: string,
                       now: int, hold: nat, available: set<PaymentMethod>)
    requires Aligned(s)
    ensures var t := BeginCheckout(s, user, code, schedule, party, via, key, now, hold, available).0;
      KeepsPrices(s.bookings, t.bookings) && t.coupons == s.coupons
  {
    CheckoutShape(s, user, code, schedule, party, via, key, now, hold, available);
    if NewCheckout(s, user, code, schedule, party, via, key, now, hold, available).1.Ok? {
      NewCheckoutAdds(s, user, code, schedule, party, via, key, now, hold, available);
      TourPrices(s, user, code, schedule, party, now, hold);
    }
  }

  lemma CreationPrices(s: State, step: Step)
    requires Aligned(s) && (step.DoFlight? || step.DoHotel? || step.DoTour? || step.DoCheckout?)
    ensures KeepsPrices(s.bookings, Apply(s, step).bookings) && Apply(s, step).coupons == s.coupons
  {
    if step.DoFlight? {
      FlightPrices(s, step.user, step.code, step.flight, step.quantity, step.now, step.hold);
    } else if step.DoHotel? {
      HotelPrices(s, step.user, step.key, step.code, step.room, step.checkIn, step.checkOut, step.quantity, step.now,
                  step.hold);
    } else if step.DoTour? {
      TourPrices(s, step.user, step.code, step.schedule, step.party, step.now, step.hold);
    } else {
      CheckoutPrices(s, step.user, step.code, step.schedule, step.party, step.via, step.key, step.now, step.hold,
                     step.available);
    }
  }

  lemma DeliverPrices(s: State, d: Delivery)
    requires Aligned(s)
    ensures var t := DeliverLocked(s, d).0; KeepsPrices(s.bookings, t.bookings) && t.coupons == s.coupons
  {
    var (t, r) := DeliverLocked(s, d);
    if r.Ok? && (d.gateway, d.txnRef) !in s.callbacks {
      DeliverChange(s, d);
    } else {
      assert t == s;
    }
  }

  lemma CancelPrices(s: State, b: nat, user: Id, now: int)
    requires Aligned(s)
    ensures var t := CancelBooking(s, b, user, now).0; KeepsPrices(s.bookings, t.bookings) && t.coupons == s.coupons
  {
    if CancelBooking(s, b, user, now).1.Ok? {
      CancelChange(s, b, user, now);
    }
  }

  lemma RequestPrices(s: State, step: Step)
    requires Aligned(s) && (step.DoLook? || step.DoInsert?)
    ensures KeepsPrices(s.bookings, Apply(s, step).bookings) && Apply(s, step).coupons == s.coupons
  {
  }

  lemma SimulatePrices(s: State, step: Step)
    requires Aligned(s) && step.DoSimulate?
    ensures KeepsPrices(s.bookings, Apply(s, step).bookings) && Apply(s, step).coupons == s.coupons
  {
  }

  lemma RefundPrices(s: State, step: Step)
    requires Aligned(s) && (step.DoRequestRefund? || step.DoUpdateRefund?)
    ensures KeepsPrices(s.bookings, Apply(s, step).bookings) && Apply(s, step).coupons == s.coupons
  {
  }

  lemma StepPrices(s: State, step: Step)
    requires Aligned(s) && !step.DoCoupon?
    ensures KeepsPrices(s.bookings, Apply(s, step).bookings) && Apply(s, step).coupons == s.coupons
  {
    if step.DoFlight? || step.DoHotel? || step.DoTour? || step.DoCheckout? {
      CreationPrices(s, step);
    } else if step.DoDeliver? {
      DeliverPrices(s, step.delivery);
    } else if step.DoSweep? {
      ExpiredAreDue(s.bookings, step.now, SWEEP_LIMIT);
      ExpireAllPrices(s, ExpiredPending(s.bookings, step.now, SWEEP_LIMIT));
    } else if step.DoCancel? {
      CancelPrices(s, step.booking, step.user, step.now);
    } else if step.DoLook? || step.DoInsert? {
      RequestPrices(s, step);
    } else if step.DoSimulate? {
      SimulatePrices(s, step);
    } else {
      RefundPrices(s, step);
    }
  }

  lemma StepPriced(s: State, step: Step)
    requires Aligned(s) && AllPriced(s.bookings, s.coupons)
    ensures AllPriced(Apply(s, step).bookings, Apply(s, step).coupons)
    ensures OnlyCounts(s.coupons, Apply(s, step).coupons)
  {
    if !step.DoCoupon? {
      StepPrices(s, step);
      var t := Apply(s, step);
      forall b | 0 <= b < |t.bookings| ensures PricedBy(t.bookings[b], t.coupons) {
        if b < |s.bookings| {
          assert PricedBy(s.bookings[b], s.coupons) && SamePrice(s.bookings[b], t.bookings[b]);
        }
      }
    } else if ApplyCoupon(s, step.booking, step.user, step.code, step.now).1.Ok? {
      CouponChange(s, step.booking, step.user, step.code, step.now);
    }
  }

  lemma {:induction false} RunPriced(s: State, steps: seq<Step>)
    requires Fresh(s)
    ensures var t := Run(s, steps);
      AllPriced(t.bookings, t.coupons) && OnlyCounts(s.coupons, t.coupons)
  {
    if steps != [] {
      var n := |steps| - 1;
      RunPriced(s, steps[..n]);
      StepPriced(Run(s, steps[..n]), steps[n]);
    }
  }

  /** In every run each booking costs its base price less exactly the discount its coupon gives on that
      base, the full base price without a coupon, and no coupon changes but for its counter. */
  lemma PricesExact(s: State, t: State)
    requires Reachable(s, t)
    ensures AllPriced(t.bookings, t.coupons) && OnlyCounts(s.coupons, t.coupons)
  {
    var steps :| Run(s, steps) == t;
    RunPriced(s, steps);
  }
}
