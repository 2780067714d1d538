/** Where the stock is: for every unit, its level against what the bookings took and gave back. */
module LifecycleLedger {
  import opened Basics
  import opened Inventory
  import opened Lifecycle
  import opened LifecycleInvariant
  import opened LifecycleRuns

  // ---- weighted demand of all bookings ----

  function Weighted(items: seq<seq<Item>>, weights: seq<int>, u: Unit): int
    requires |items| == |weights|
  {
    if items == [] then 0
    else
      var n := |items| - 1;
      Weighted(items[..n], weights[..n], u) + weights[n] * DemandAll(items[n], u)
  }

  lemma WeightedAppend(items: seq<seq<Item>>, weights: seq<int>, u: Unit, row: seq<Item>, weight: int)
    requires |items| == |weights|
    ensures Weighted(items + [row], weights + [weight], u) == Weighted(items, weights, u) + weight * DemandAll(row, u)
  {
    assert (items + [row])[..|items|] == items && (weights + [weight])[..|items|] == weights;
  }

  lemma {:induction false} WeightedShift(items: seq<seq<Item>>, weights: seq<int>, u: Unit, b: nat, delta: int)
    requires |items| == |weights| && b < |items|
    ensures Weighted(items, weights[b := weights[b] + delta], u) ==
            Weighted(items, weights, u) + delta * DemandAll(items[b], u)
  {
    var n := |items| - 1;
    var shifted := weights[b := weights[b] + delta];
    if b == n {
      assert shifted[..n] == weights[..n];
      assert (weights[n] + delta) * DemandAll(items[n], u) ==
             weights[n] * DemandAll(items[n], u) + delta * DemandAll(items[n], u);
    } else {
      assert shifted[..n] == weights[..n][b := weights[b] + delta];
      WeightedShift(items[..n], weights[..n], u, b, delta);
    }
  }

  lemma {:induction false} WeightedNonNegative(items: seq<seq<Item>>, weights: seq<int>, u: Unit)
    requires |items| == |weights|
    requires forall i | 0 <= i < |weights| :: weights[i] >= 0
    ensures Weighted(items, weights, u) >= 0
  {
    if items != [] {
      var n := |items| - 1;
      WeightedNonNegative(items[..n], weights[..n], u);
      assert weights[n] * DemandAll(items[n], u) >= 0;
    }
  }

  /** What the bookings still have of a unit when every release counts: a booking released twice
      counts negatively. */
  function NetWeights(tallies: seq<Tally>): (w: seq<int>)
    ensures |w| == |tallies|
  {
    if tallies == [] then []
    else
      var n := |tallies| - 1;
      NetWeights(tallies[..n]) + [1 - tallies[n].Total()]
  }

  /** One for every booking that was never released. */
  function HeldWeights(tallies: seq<Tally>): (w: seq<int>)
    ensures |w| == |tallies|
  {
    if tallies == [] then []
    else
      var n := |tallies| - 1;
      HeldWeights(tallies[..n]) + [if tallies[n].Total() == 0 then 1 else 0]
  }

  lemma {:induction false} WeightsAt(tallies: seq<Tally>, b: nat)
    requires b < |tallies|
    ensures NetWeights(tallies)[b] == 1 - tallies[b].Total()
    ensures HeldWeights(tallies)[b] == if tallies[b].Total() == 0 then 1 else 0
  {
    if b < |tallies| - 1 {
      WeightsAt(tallies[..|tallies| - 1], b);
    }
  }

  lemma {:induction false} WeightsUpdate(tallies: seq<Tally>, b: nat, tally: Tally)
    requires b < |tallies|
    ensures NetWeights(tallies[b := tally]) == NetWeights(tallies)[b := 1 - tally.Total()]
    ensures HeldWeights(tallies[b := tally]) == HeldWeights(tallies)[b := if tally.Total() == 0 then 1 else 0]
  {
    var n := |tallies| - 1;
    if b < n {
      WeightsUpdate(tallies[..n], b, tally);
      assert tallies[b := tally][..n] == tallies[..n][b := tally];
    } else {
      assert tallies[b := tally][..n] == tallies[..n];
    }
  }

  /** Units taken by bookings that were never released. */
  function Held(s: State, u: Unit): int
    requires Aligned(s)
  {
    Weighted(s.items, HeldWeights(s.tallies), u)
  }

  function Net(s: State, u: Unit): int
    requires Aligned(s)
  {
    Weighted(s.items, NetWeights(s.tallies), u)
  }

  /** The books of one unit. Seats are never capped, so their level accounts for every release; a
      capped unit may only have lost a surplus release, never a held one. */
  ghost predicate Balanced(s: State, u: Unit)
    requires Aligned(s) && Has(s.opening, u) && Has(s.stock, u)
  {
    if u.SeatOf? then Level(s.stock, u) == Level(s.opening, u) - Net(s, u)
    else Level(s.stock, u) >= Level(s.opening, u) - Held(s, u)
  }

  /** Only the parts that the books speak of. */
  ghost predicate SameBooks(s: State, t: State) {
    t.stock == s.stock && t.items == s.items && t.tallies == s.tallies && t.opening == s.opening
  }

  // ---- the three kinds of stock movement ----

  lemma OneItem(item: Item, u: Unit)
    ensures DemandAll([item], u) == Demand(item, u)
  {
    assert [item][1..] == [];
  }

  lemma WeightsAfterInsert(tallies: seq<Tally>)
    ensures HeldWeights(tallies + [Tally(0, 0, 0)]) == HeldWeights(tallies) + [1]
    ensures NetWeights(tallies + [Tally(0, 0, 0)]) == NetWeights(tallies) + [1]
  {
    assert (tallies + [Tally(0, 0, 0)])[..|tallies|] == tallies;
  }

  lemma BooksAfterInsert(items: seq<seq<Item>>, tallies: seq<Tally>, item: Item, u: Unit)
    requires |items| == |tallies|
    ensures Weighted(items + [[item]], HeldWeights(tallies + [Tally(0, 0, 0)]), u) ==
            Weighted(items, HeldWeights(tallies), u) + Demand(item, u)
    ensures Weighted(items + [[item]], NetWeights(tallies + [Tally(0, 0, 0)]), u) ==
            Weighted(items, NetWeights(tallies), u) + Demand(item, u)
  {
    OneItem(item, u);
    WeightsAfterInsert(tallies);
    WeightedAppend(items, HeldWeights(tallies), u, [item], 1);
    WeightedAppend(items, NetWeights(tallies), u, [item], 1);
  }

  lemma InsertBalance(s: State, code: string, user: Id, item: Item, total: int, now: int, hold: nat, u: Unit)
    requires Aligned(s) && Listed(s.stock, item) && Has(s.stock, u)
    ensures var (t, r) := Insert(s, code, user, item, total, now, hold);
      && Aligned(t) && t.opening == s.opening && Has(t.stock, u)
      && (r.Err? ==> t == s)
      && (r.Ok? ==>
            && Level(t.stock, u) == Level(s.stock, u) - Demand(item, u)
            && Held(t, u) == Held(s, u) + Demand(item, u)
            && Net(t, u) == Net(s, u) + Demand(item, u))
  {
    var (t, r) := Insert(s, code, user, item, total, now, hold);
    if r.Ok? {
      TakeLowers(s.stock, item, u);
      BooksAfterInsert(s.items, s.tallies, item, u);
    }
  }

  lemma BumpTotal(t: Tally, cause: Cause)
    ensures Bump(t, cause).Total() == t.Total() + 1
  {
  }

  lemma HeldNonNegative(items: seq<seq<Item>>, tallies: seq<Tally>, u: Unit)
    requires |items| == |tallies|
    ensures Weighted(items, HeldWeights(tallies), u) >= 0
  {
    forall i | 0 <= i < |tallies| ensures HeldWeights(tallies)[i] >= 0 {
      WeightsAt(tallies, i);
    }
    WeightedNonNegative(items, HeldWeights(tallies), u);
  }

  lemma NetAfterRelease(items: seq<seq<Item>>, tallies: seq<Tally>, b: nat, cause: Cause, u: Unit)
    requires b < |items| == |tallies|
    ensures Weighted(items, NetWeights(tallies[b := Bump(tallies[b], cause)]), u) ==
            Weighted(items, NetWeights(tallies), u) - DemandAll(items[b], u)
  {
    BumpTotal(tallies[b], cause);
    WeightsAt(tallies, b);
    WeightsUpdate(tallies, b, Bump(tallies[b], cause));
    WeightedShift(items, NetWeights(tallies), u, b, -1);
  }

  lemma HeldAfterRelease(items: seq<seq<Item>>, tallies: seq<Tally>, b: nat, cause: Cause, u: Unit)
    requires b < |items| == |tallies|
    ensures var after := Weighted(items, HeldWeights(tallies[b := Bump(tallies[b], cause)]), u);
      && after == Weighted(items, HeldWeights(tallies), u)
                  - (if tallies[b].Total() == 0 then DemandAll(items[b], u) else 0)
      && after >= 0
  {
    BumpTotal(tallies[b], cause);
    WeightsAt(tallies, b);
    WeightsUpdate(tallies, b, Bump(tallies[b], cause));
    WeightedShift(items, HeldWeights(tallies), u, b, if tallies[b].Total() == 0 then -1 else 0);
    HeldNonNegative(items, tallies[b := Bump(tallies[b], cause)], u);
  }

  /** One release: the level rises by the booking's demand, capped; the books follow. */
  lemma ReleaseBalance(s: State, t: State, b: nat, cause: Cause, u: Unit)
    requires Aligned(s) && Aligned(t) && b < |s.items| && Valid(s.stock) && Has(s.stock, u)
    requires t.stock == RestoreAll(s.stock, s.items[b]) && t.items == s.items && t.opening == s.opening
    requires t.tallies == s.tallies[b := Bump(s.tallies[b], cause)]
    ensures Has(t.stock, u) && Cap(t.stock, u) == Cap(s.stock, u)
    ensures Level(t.stock, u) == Capped(Cap(s.stock, u), Level(s.stock, u) + DemandAll(s.items[b], u))
    ensures Net(t, u) == Net(s, u) - DemandAll(s.items[b], u)
    ensures Held(t, u) == Held(s, u) - (if s.tallies[b].Total() == 0 then DemandAll(s.items[b], u) else 0)
    ensures Held(t, u) >= 0
  {
    RestoreAllRaises(s.stock, s.items[b], u);
    NetAfterRelease(s.items, s.tallies, b, cause, u);
    HeldAfterRelease(s.items, s.tallies, b, cause, u);
  }

  lemma ReleaseKeepsBalance(s: State, t: State, b: nat, cause: Cause, u: Unit)
    requires Aligned(s) && Aligned(t) && b < |s.items|
    requires Valid(s.stock) && Valid(s.opening) && SameUnits(s.opening, s.stock) && Has(s.opening, u)
    requires t.stock == RestoreAll(s.stock, s.items[b]) && t.items == s.items && t.opening == s.opening
    requires t.tallies == s.tallies[b := Bump(s.tallies[b], cause)]
    requires Balanced(s, u)
    ensures Has(t.stock, u) && Balanced(t, u)
  {
    ReleaseBalance(s, t, b, cause, u);
  }

  // ---- every transaction keeps the books ----

  ghost predicate Books(s: State) {
    && Aligned(s)
    && (forall u: Unit | Has(s.opening, u) :: Has(s.stock, u) && Balanced(s, u))
  }

  lemma ExpireOneBooks(s: State, b: nat)
    requires Inv(s) && Books(s) && b < |s.bookings|
    ensures Books(ExpireOne(s, b))
  {
    ExpireOneChange(s, b);
    ReleaseBooks(s, ExpireOne(s, b), b, BySweep);
  }

  lemma {:induction false} ExpireAllBooks(s: State, ids: seq<nat>)
    requires Inv(s) && Books(s)
    requires forall i | 0 <= i < |ids| :: ids[i] < |s.bookings| && s.bookings[ids[i]].status == Pending
    requires forall i, j | 0 <= i < j < |ids| :: ids[i] != ids[j]
    ensures Books(ExpireAll(s, ids))
    decreases |ids|
  {
    if ids != [] {
      ExpireOneKeeps(s, ids[0]);
      ExpireOneBooks(s, ids[0]);
      ExpireOneChange(s, ids[0]);
      ExpireAllBooks(ExpireOne(s, ids[0]), ids[1..]);
    }
  }

  /** `t` follows from `s` by the insertion of one booking, as far as the books are concerned. */
  ghost predicate OneInserted(s: State, t: State) {
    exists code, user, item, total, now, hold | Listed(s.stock, item) ::
      && Insert(s, code, user, item, total, now, hold).1.Ok?
      && SameBooks(Insert(s, code, user, item, total, now, hold).0, t)
  }

  lemma FlightInserts(s: State, user: Id, code: string, flight: Id, quantity: int, now: int, hold: nat)
    requires Aligned(s)
    ensures var t := CreateFlight(s, user, code, flight, quantity, now, hold).0;
      SameBooks(s, t) || OneInserted(s, t)
  {
    var t := CreateFlight(s, user, code, flight, quantity, now, hold).0;
    if !SameBooks(s, t) {
      var price := s.stock.flights[flight].price * quantity;
      assert SameBooks(Insert(s, code, user, FlightItem(flight, Positive(quantity)), price, now, hold).0, t);
    }
  }

  lemma HotelInserts(s: State, user: Id, key: string, code: string, room: Id, checkIn: Day, checkOut: Day,
                     quantity: int, now: int, hold: nat)
    requires Aligned(s)
    ensures var t := CreateHotel(s, user, key, code, room, checkIn, checkOut, quantity, now, hold).0;
      SameBooks(s, t) || OneInserted(s, t)
  {
    var t := CreateHotel(s, user, key, code, room, checkIn, checkOut, quantity, now, hold).0;
    if !SameBooks(s, t) {
      var price := s.stock.rooms[room].nightPrice * quantity * (checkOut - checkIn);
      var item := StayItem(room, checkIn, checkOut, Positive(quantity));
      assert SameBooks(Insert(s, code, user, item, price, now, hold).0, t);
    }
  }

  /** With or without a payment beside it. */
  lemma TourInserts(s: State, t: State, user: Id, code: string, schedule: Id, party: Party, now: int, hold: nat)
    requires SameBooks(InsertTour(s, user, code, schedule, party, now, hold).0, t)
    ensures SameBooks(s, t) || OneInserted(s, t)
  {
    if !SameBooks(s, t) {
      var price := TourPrice(s.stock.schedules[schedule].prices, party);
      assert SameBooks(Insert(s, code, user, TourOf(schedule, party), price, now, hold).0, t);
    }
  }

  lemma CheckoutBooks(s: State, user: Id, code: string, schedule: Id, party: Party, via: PaymentMethod, key: string,
                      now: int, hold: nat, available: set<PaymentMethod>)
    requires Aligned(s)
    ensures var t := BeginCheckout(s, user, code, schedule, party, via, key, now, hold, available).0;
      SameBooks(s, t) || SameBooks(InsertTour(s, user, code, schedule, party, now, hold).0, t)
  {
    CheckoutShape(s, user, code, schedule, party, via, key, now, hold, available);
    if NewCheckout(s, user, code, schedule, party, via, key, now, hold, available).1.Ok? {
      NewCheckoutAdds(s, user, code, schedule, party, via, key, now, hold, available);
    }
  }

  /** A creating step inserts one booking or leaves the books alone. */
  lemma CreationInserts(s: State, step: Step)
    requires Aligned(s) && (step.DoFlight? || step.DoHotel? || step.DoTour? || step.DoCheckout?)
    ensures SameBooks(s, Apply(s, step)) || OneInserted(s, Apply(s, step))
  {
    if step.DoFlight? {
      FlightInserts(s, step.user, step.code, step.flight, step.quantity, step.now, step.hold);
    } else if step.DoHotel? {
      HotelInserts(s, step.user, step.key, step.code, step.room, step.checkIn, step.checkOut, step.quantity,
                   step.now, step.hold);
    } else {
      if step.DoCheckout? {
        CheckoutBooks(s, step.user, step.code, step.schedule, step.party, step.via, step.key, step.now, step.hold,
                      step.available);
      }
      if !SameBooks(s, Apply(s, step)) {
        TourInserts(s, Apply(s, step), step.user, step.code, step.schedule, step.party, step.now, step.hold);
      }
    }
  }

  lemma SameBooksKeep(s: State, t: State)
    requires Books(s) && Aligned(t) && SameBooks(s, t)
    ensures Books(t)
  {
    forall u: Unit | Has(t.opening, u) ensures Has(t.stock, u) && Balanced(t, u) {
      assert Balanced(s, u);
    }
  }

  lemma CreationBooks(s: State, step: Step)
    requires Inv(s) && Books(s) && (step.DoFlight? || step.DoHotel? || step.DoTour? || step.DoCheckout?)
    ensures Books(Apply(s, step))
  {
    CreationInserts(s, step);
    var t := Apply(s, step);
    if SameBooks(s, t) {
      SameBooksKeep(s, t);
    } else {
      var code, user, item, total, now, hold :| Listed(s.stock, item)
        && Insert(s, code, user, item, total, now, hold).1.Ok?
        && SameBooks(Insert(s, code, user, item, total, now, hold).0, t);
      var t1 := Insert(s, code, user, item, total, now, hold).0;
      forall u: Unit | Has(t1.opening, u) ensures Has(t1.stock, u) && Balanced(t1, u) {
        assert Balanced(s, u);
        InsertBalance(s, code, user, item, total, now, hold, u);
      }
      SameBooksKeep(t1, t);
    }
  }

  lemma ReleaseBooks(s: State, t: State, b: nat, cause: Cause)
    requires Inv(s) && Books(s) && Aligned(t) && b < |s.items|
    requires t.stock == RestoreAll(s.stock, s.items[b]) && t.items == s.items && t.opening == s.opening
    requires t.tallies == s.tallies[b := Bump(s.tallies[b], cause)]
    ensures Books(t)
  {
    forall u: Unit | Has(s.opening, u) ensures Has(t.stock, u) && Balanced(t, u) {
      ReleaseKeepsBalance(s, t, b, cause, u);
    }
  }

  lemma DeliverBooks(s: State, d: Delivery)
    requires Inv(s) && Books(s)
    ensures Books(DeliverLocked(s, d).0)
  {
    var (t, r) := DeliverLocked(s, d);
    if r.Err? || (d.gateway, d.txnRef) in s.callbacks {
      assert t == s;
    } else {
      DeliverChange(s, d);
      var p := FindByRef(s.payments, d.orderRef).value;
      if ReleasesStock(s, p, NormalizeStatus(d.status).value) {
        ReleaseBooks(s, t, s.payments[p].booking, ByCallback);
      } else {
        var b := s.payments[p].booking;
        assert s.tallies[b := s.tallies[b]] == s.tallies;
        SameBooksKeep(s, t);
      }
    }
  }

  lemma CancelBooks(s: State, b: nat, user: Id, now: int)
    requires Inv(s) && Books(s)
    ensures Books(CancelBooking(s, b, user, now).0)
  {
    var (t, r) := CancelBooking(s, b, user, now);
    if r.Ok? {
      CancelChange(s, b, user, now);
      ReleaseBooks(s, t, b, ByCancel);
    }
  }

  lemma SweepBooks(s: State, now: int)
    requires Inv(s) && Books(s)
    ensures Books(Sweep(s, now))
  {
    ExpiredAreDue(s.bookings, now, SWEEP_LIMIT);
    ExpireAllBooks(s, ExpiredPending(s.bookings, now, SWEEP_LIMIT));
  }

  /** Steps that neither create nor close a booking leave the books alone. */
  lemma PaymentSteps(s: State, step: Step)
    requires Aligned(s) && (step.DoLook? || step.DoInsert? || step.DoSimulate?)
    ensures SameBooks(s, Apply(s, step))
  {
  }

  lemma OtherSteps(s: State, step: Step)
    requires Aligned(s) && (step.DoRequestRefund? || step.DoUpdateRefund? || step.DoCoupon?)
    ensures SameBooks(s, Apply(s, step))
  {
  }

  /** The books balance after every transaction. */
  lemma StepBooks(s: State, step: Step)
    requires Inv(s) && Books(s)
    ensures Books(Apply(s, step))
  {
    if step.DoDeliver? {
      DeliverBooks(s, step.delivery);
    } else if step.DoCancel? {
      CancelBooks(s, step.booking, step.user, step.now);
    } else if step.DoSweep? {
      SweepBooks(s, step.now);
    } else if step.DoFlight? || step.DoHotel? || step.DoTour? || step.DoCheckout? {
      CreationBooks(s, step);
    } else {
      if step.DoLook? || step.DoInsert? || step.DoSimulate? {
        PaymentSteps(s, step);
      } else {
        OtherSteps(s, step);
      }
      SameBooksKeep(s, Apply(s, step));
    }
  }
}
