/** When a booking is accepted, what it costs, and what it takes: for each product from the stock row
    alone, and over whole runs. */
module LifecycleCreation {
  import opened Basics
  import opened Inventory
  import opened CouponAmounts
  import opened Lifecycle
  import opened LifecycleInvariant
  import opened LifecycleRuns
  import opened LifecycleLedger
  import opened LifecycleTheorems
  import opened LifecyclePrices
  import opened LifecycleAnswers

  // ---- one new booking ----

  ghost predicate CodeFree(bookings: seq<Booking>, code: string) {
    forall b | 0 <= b < |bookings| :: bookings[b].code != code
  }

  /** The user has no booking under this code: the request is not a repetition. */
  ghost predicate IsFirst(bookings: seq<Booking>, code: string, user: Id) {
    forall b | 0 <= b < |bookings| :: bookings[b].code != code || bookings[b].user != user
  }

  lemma FirstIff(bookings: seq<Booking>, code: string, user: Id)
    ensures FindBooking(bookings, code, user).None? <==> IsFirst(bookings, code, user)
  {
    if bookings != [] {
      var n := |bookings| - 1;
      FirstIff(bookings[..n], code, user);
      if IsFirst(bookings, code, user) {
        forall b | 0 <= b < n ensures bookings[..n][b].code != code || bookings[..n][b].user != user {
          assert bookings[..n][b] == bookings[b];
        }
      }
    }
  }

  /** One pending booking of this price and item is new; it is held until `now + hold`. Apart from stock
      and payments nothing else has changed. */
  ghost predicate Adds(s: State, t: State, code: string, user: Id, price: int, item: Item, now: int, hold: nat) {
    && t.bookings == s.bookings +
         [Booking(code, user, Pending, PayPending, price, 0, price, "VND", None, Some(now + hold))]
    && t.items == s.items + [[item]] && t.tallies == s.tallies + [Tally(0, 0, 0)]
    && t == s.(bookings := t.bookings, items := t.items, tallies := t.tallies, stock := t.stock,
               payments := t.payments)
  }

  /** A first request for seats is accepted exactly if the code is free and the flight is known, bookable and
      has the seats; it costs the seat price once per seat and takes the seats. */
  lemma FlightBookedIff(s: State, user: Id, code: string, flight: Id, quantity: int, now: int, hold: nat)
    requires Aligned(s) && IsFirst(s.bookings, code, user)
    ensures var (t, r) := CreateFlight(s, user, code, flight, quantity, now, hold);
      && (r.Ok? <==>
            && CodeFree(s.bookings, code) && flight in s.stock.flights && s.stock.flights[flight].bookable
            && 0 < quantity <= s.stock.flights[flight].seats && 0 <= s.stock.flights[flight].price * quantity)
      && (r.Err? ==> t == s)
      && (r.Ok? ==>
            var row := s.stock.flights[flight];
            && r == Ok(|s.bookings|) && t.payments == s.payments
            && Adds(s, t, code, user, row.price * quantity, FlightItem(flight, quantity), now, hold)
            && t.stock == s.stock.(flights := s.stock.flights[flight := row.(seats := row.seats - quantity)]))
  {
    FirstIff(s.bookings, code, user);
  }

  /** A stay takes its rooms on each of its nights, and no other night of any room. */
  ghost predicate TakesNights(a: Stock, b: Stock, room: Id, checkIn: Day, checkOut: Day, quantity: int)
    requires room in a.rooms
  {
    && b == a.(rooms := b.rooms) && b.rooms.Keys == a.rooms.Keys
    && (forall r | r in a.rooms && r != room :: b.rooms[r] == a.rooms[r])
    && b.rooms[room].total == a.rooms[room].total && b.rooms[room].nightPrice == a.rooms[room].nightPrice
    && forall d :: RoomLevel(b.rooms[room], d) ==
         RoomLevel(a.rooms[room], d) - (if checkIn <= d < checkOut then quantity else 0)
  }

  lemma StayTakes(st: Stock, room: Id, checkIn: Day, checkOut: Day, quantity: nat)
    requires room in st.rooms
    ensures TakesNights(st, TakeItem(st, StayItem(room, checkIn, checkOut, quantity)), room, checkIn, checkOut,
                        quantity)
  {
  }

  lemma StayFitsIff(st: Stock, room: Id, checkIn: Day, checkOut: Day, quantity: int)
    requires room in st.rooms
    ensures StayFits(st, room, checkIn, checkOut, quantity) <==>
            forall d | checkIn <= d < checkOut :: quantity <= RoomLevel(st.rooms[room], d)
  {
    forall d ensures Level(st, NightOf(room, d)) == RoomLevel(st.rooms[room], d) {
    }
  }

  /** A first request for a stay is accepted exactly if it has a key, its code is free, it has a night, and
      every night has the rooms; it costs the night price once per room and night. */
  lemma StayBookedIff(s: State, user: Id, key: string, code: string, room: Id, checkIn: Day, checkOut: Day,
                      quantity: int, now: int, hold: nat)
    requires Aligned(s) && IsFirst(s.bookings, code, user)
    ensures var (t, r) := CreateHotel(s, user, key, code, room, checkIn, checkOut, quantity, now, hold);
      && (r.Ok? <==>
            && key != "" && CodeFree(s.bookings, code) && room in s.stock.rooms && checkIn < checkOut && 0 < quantity
            && (forall d | checkIn <= d < checkOut :: quantity <= RoomLevel(s.stock.rooms[room], d))
            && 0 <= s.stock.rooms[room].nightPrice * quantity * (checkOut - checkIn))
      && (r.Err? ==> t == s)
      && (r.Ok? ==>
            && r == Ok(|s.bookings|) && t.payments == s.payments
            && Adds(s, t, code, user, s.stock.rooms[room].nightPrice * quantity * (checkOut - checkIn),
                    StayItem(room, checkIn, checkOut, quantity), now, hold)
            && TakesNights(s.stock, t.stock, room, checkIn, checkOut, quantity))
  {
    FirstIff(s.bookings, code, user);
    if room in s.stock.rooms {
      StayFitsIff(s.stock, room, checkIn, checkOut, quantity);
      StayTakes(s.stock, room, checkIn, checkOut, Positive(quantity));
    }
  }

  /** The price of a party: each traveller pays the rule of their type; without a rule children and infants
      go free. */
  function PartyPrice(prices: map<TravelerType, int>, party: Party): int
    requires Adult in prices
  {
    prices[Adult] * party.adults + (if Child in prices then prices[Child] * party.children else 0)
    + (if Infant in prices then prices[Infant] * party.infants else 0)
  }

  /** The schedule takes the party: it is known, open, has the slots and a price for adults. */
  predicate TourFits(st: Stock, schedule: Id, party: Party) {
    && schedule in st.schedules && st.schedules[schedule].open
    && 0 < party.adults + party.children + party.infants <= st.schedules[schedule].slots
    && Adult in st.schedules[schedule].prices && 0 <= PartyPrice(st.schedules[schedule].prices, party)
  }

  /** The schedule has that many slots fewer, one per traveller, and all other stock is as it was. */
  predicate TakesSlots(a: Stock, b: Stock, schedule: Id, party: Party) {
    schedule in a.schedules
    && var row := a.schedules[schedule];
       b == a.(schedules := a.schedules[schedule :=
                 row.(slots := row.slots - party.adults - party.children - party.infants)])
  }

  function PartyItem(schedule: Id, party: Party): Item {
    TourItem(schedule, party.adults + party.children + party.infants, party.adults, party.children, party.infants)
  }

  lemma PartyPriceIs(prices: map<TravelerType, int>, party: Party)
    requires Adult in prices
    ensures TourPrice(prices, party) == PartyPrice(prices, party)
  {
  }

  lemma TourInsertedIff(s: State, user: Id, code: string, schedule: Id, party: Party, now: int, hold: nat)
    requires Aligned(s)
    ensures var (t, r) := InsertTour(s, user, code, schedule, party, now, hold);
      && (r.Ok? <==> CodeFree(s.bookings, code) && TourFits(s.stock, schedule, party))
      && (r.Err? ==> t == s)
      && (r.Ok? ==>
            && r == Ok(|s.bookings|) && t.payments == s.payments
            && Adds(s, t, code, user, PartyPrice(s.stock.schedules[schedule].prices, party),
                    PartyItem(schedule, party), now, hold)
            && TakesSlots(s.stock, t.stock, schedule, party))
  {
    if schedule in s.stock.schedules && Adult in s.stock.schedules[schedule].prices {
      PartyPriceIs(s.stock.schedules[schedule].prices, party);
    }
  }

  /** A first request for a tour is accepted exactly if it has a key, its code is free and the schedule takes
      the party. */
  lemma TourBookedIff(s: State, user: Id, key: string, code: string, schedule: Id, party: Party, now: int,
                      hold: nat)
    requires Aligned(s) && IsFirst(s.bookings, code, user)
    ensures var (t, r) := CreateTour(s, user, key, code, schedule, party, now, hold);
      && (r.Ok? <==> key != "" && CodeFree(s.bookings, code) && TourFits(s.stock, schedule, party))
      && (r.Err? ==> t == s)
      && (r.Ok? ==>
            && r == Ok(|s.bookings|) && t.payments == s.payments
            && Adds(s, t, code, user, PartyPrice(s.stock.schedules[schedule].prices, party),
                    PartyItem(schedule, party), now, hold)
            && TakesSlots(s.stock, t.stock, schedule, party))
  {
    FirstIff(s.bookings, code, user);
    TourInsertedIff(s, user, code, schedule, party, now, hold);
  }

  /** A first checkout is accepted exactly if its tour booking is, at a positive price, by a method on offer
      and under a free reference that fits its column; it adds that booking and one pending payment of
      its price. Refused, it adds neither. No payment can be of a booking that is not there yet. */
  lemma CheckoutIff(s: State, user: Id, code: string, schedule: Id, party: Party, via: PaymentMethod, key: string,
                    now: int, hold: nat, available: set<PaymentMethod>)
    requires Aligned(s) && IsFirst(s.bookings, code, user) && KeyUnused(s.payments, |s.bookings|, key)
    ensures var (t, r) := Checkout(s, user, code, schedule, party, via, key, now, hold, available);
      var orderRef := "PAY-" + code + "-" + key;
      && (r.Ok? <==>
            && key != "" && CodeFree(s.bookings, code) && TourFits(s.stock, schedule, party)
            && 0 < PartyPrice(s.stock.schedules[schedule].prices, party)
            && via in available && |orderRef| <= 255 && RefUnused(s.payments, orderRef))
      && (r.Err? ==> t == s)
      && (r.Ok? ==>
            var price := PartyPrice(s.stock.schedules[schedule].prices, party);
            && r == Ok((|s.bookings|, |s.payments|))
            && Adds(s, t, code, user, price, PartyItem(schedule, party), now, hold)
            && TakesSlots(s.stock, t.stock, schedule, party)
            && t.payments == s.payments +
                 [Payment(|s.bookings|, via, PayPending, price, "VND", orderRef, key, now)])
  {
    FirstIff(s.bookings, code, user);
    TourInsertedIff(s, user, code, schedule, party, now, hold);
    NewCheckoutIff(s, user, code, schedule, party, via, key, now, hold, available);
  }

  lemma NewCheckoutIff(s: State, user: Id, code: string, schedule: Id, party: Party, via: PaymentMethod,
                       key: string, now: int, hold: nat, available: set<PaymentMethod>)
    requires Aligned(s) && KeyUnused(s.payments, |s.bookings|, key)
    ensures var (t, r) := NewCheckout(s, user, code, schedule, party, via, key, now, hold, available);
      var (s1, inserted) := InsertTour(s, user, code, schedule, party, now, hold);
      var orderRef := "PAY-" + code + "-" + key;
      && (r.Ok? <==>
            && inserted.Ok? && 0 < PartyPrice(s.stock.schedules[schedule].prices, party)
            && via in available && |orderRef| <= 255 && RefUnused(s.payments, orderRef))
      && (r.Err? ==> t == s)
      && (r.Ok? ==>
            && r == Ok(|s.payments|)
            && t == s1.(payments := s.payments +
                 [Payment(|s.bookings|, via, PayPending, PartyPrice(s.stock.schedules[schedule].prices, party), "VND",
                          orderRef, key, now)]))
  {
    TourInsertedIff(s, user, code, schedule, party, now, hold);
  }

  // ---- prices over runs ----

  /** The list price of a booked item: each seat, each room on each night, each traveller by type. */
  function ListPrice(st: Stock, item: Item): Option<int> {
    match item
    case FlightItem(f, q) => if f in st.flights then Some(st.flights[f].price * q) else None
    case StayItem(r, i, o, q) => if r in st.rooms then Some(st.rooms[r].nightPrice * q * (o - i)) else None
    case TourItem(t, q, a, c, n) =>
      if t in st.schedules && Adult in st.schedules[t].prices && a >= 0 && c >= 0 && n >= 0
      then Some(PartyPrice(st.schedules[t].prices, Party(a, c, n)))
      else None
  }

  /** The same products at the same prices, whatever is left of them. */
  ghost predicate SamePrices(a: Stock, b: Stock) {
    && a.flights.Keys == b.flights.Keys && a.rooms.Keys == b.rooms.Keys && a.schedules.Keys == b.schedules.Keys
    && (forall f | f in a.flights :: b.flights[f].price == a.flights[f].price)
    && (forall r | r in a.rooms :: b.rooms[r].nightPrice == a.rooms[r].nightPrice)
    && (forall t | t in a.schedules :: b.schedules[t].prices == a.schedules[t].prices)
  }

  lemma SameListPrice(a: Stock, b: Stock, item: Item)
    requires SamePrices(a, b)
    ensures ListPrice(b, item) == ListPrice(a, item)
  {
  }

  lemma TakePrices(st: Stock, item: Item)
    requires Listed(st, item)
    ensures SamePrices(st, TakeItem(st, item))
  {
  }

  lemma RestorePrices(st: Stock, item: Item)
    ensures SamePrices(st, RestoreItem(st, item))
  {
  }

  lemma {:induction false} RestoreAllPrices(st: Stock, items: seq<Item>)
    ensures SamePrices(st, RestoreAll(st, items))
    decreases |items|
  {
    if items != [] {
      RestorePrices(st, items[0]);
      RestoreAllPrices(RestoreItem(st, items[0]), items[1..]);
    }
  }

  /** Every booking has one item, and its base price is the item's list price. */
  ghost predicate AllListPriced(bookings: seq<Booking>, items: seq<seq<Item>>, st: Stock) {
    && |bookings| == |items|
    && forall b | 0 <= b < |bookings| :: |items[b]| == 1 && Some(bookings[b].base) == ListPrice(st, items[b][0])
  }

  /** The items and prices of a step that books nothing: bookings keep their base price, items stay, and stock
      keeps its prices. */
  ghost predicate KeepsList(s: State, t: State) {
    && |t.bookings| == |s.bookings| && (forall b | 0 <= b < |s.bookings| :: t.bookings[b].base == s.bookings[b].base)
    && t.items == s.items && SamePrices(s.stock, t.stock)
  }

  /** Prices stay, and if all bookings were at list price, all are. */
  ghost predicate StaysListed(s: State, t: State) {
    && SamePrices(s.stock, t.stock)
    && (AllListPriced(s.bookings, s.items, s.stock) ==> AllListPriced(t.bookings, t.items, t.stock))
  }

  lemma KeepsListPriced(s: State, t: State)
    requires Aligned(s) && KeepsList(s, t)
    ensures StaysListed(s, t)
  {
    if AllListPriced(s.bookings, s.items, s.stock) {
      forall b | 0 <= b < |t.bookings|
        ensures |t.items[b]| == 1 && Some(t.bookings[b].base) == ListPrice(t.stock, t.items[b][0])
      {
        SameListPrice(s.stock, t.stock, s.items[b][0]);
      }
    }
  }

  lemma AddsListPriced(s: State, t: State, code: string, user: Id, price: int, item: Item, now: int, hold: nat)
    requires Aligned(s) && Adds(s, t, code, user, price, item, now, hold) && SamePrices(s.stock, t.stock)
    requires ListPrice(s.stock, item) == Some(price)
    ensures StaysListed(s, t)
  {
    if AllListPriced(s.bookings, s.items, s.stock) {
      forall b | 0 <= b < |t.bookings|
        ensures |t.items[b]| == 1 && Some(t.bookings[b].base) == ListPrice(t.stock, t.items[b][0])
      {
        SameListPrice(s.stock, t.stock, t.items[b][0]);
      }
    }
  }

  lemma SamePricesTransitive(a: Stock, b: Stock, c: Stock)
    requires SamePrices(a, b) && SamePrices(b, c)
    ensures SamePrices(a, c)
  {
  }

  lemma {:induction false} ExpireAllList(s: State, ids: seq<nat>)
    requires Aligned(s) && forall i | 0 <= i < |ids| :: ids[i] < |s.bookings|
    ensures ExpireAll(s, ids).items == s.items && SamePrices(s.stock, ExpireAll(s, ids).stock)
    decreases |ids|
  {
    if ids != [] {
      ExpireOneChange(s, ids[0]);
      RestoreAllPrices(s.stock, s.items[ids[0]]);
      ExpireAllList(ExpireOne(s, ids[0]), ids[1..]);
      SamePricesTransitive(s.stock, ExpireOne(s, ids[0]).stock, ExpireAll(s, ids).stock);
    }
  }

  lemma DeliverList(s: State, d: Delivery)
    requires Aligned(s)
    ensures DeliverLocked(s, d).0.items == s.items && SamePrices(s.stock, DeliverLocked(s, d).0.stock)
  {
    var (t, r) := DeliverLocked(s, d);
    if r.Ok? && (d.gateway, d.txnRef) !in s.callbacks {
      DeliverChange(s, d);
      RestoreAllPrices(s.stock, s.items[s.payments[FindByRef(s.payments, d.orderRef).value].booking]);
    } else {
      assert t == s;
    }
  }

  lemma CancelList(s: State, b: nat, user: Id, now: int)
    requires Aligned(s)
    ensures var t := CancelBooking(s, b, user, now).0; t.items == s.items && SamePrices(s.stock, t.stock)
  {
    CancellationIff(s, b, user, now);
    if CancelBooking(s, b, user, now).1.Ok? {
      RestoreAllPrices(s.stock, s.items[b]);
    }
  }

  lemma ClosingList(s: State, step: Step)
    requires Aligned(s) && !(step.DoFlight? || step.DoHotel? || step.DoTour? || step.DoCheckout?)
    ensures Apply(s, step).items == s.items && SamePrices(s.stock, Apply(s, step).stock)
  {
    if step.DoDeliver? {
      DeliverList(s, step.delivery);
    } else if step.DoCancel? {
      CancelList(s, step.booking, step.user, step.now);
    } else if step.DoSweep? {
      ExpiredAreDue(s.bookings, step.now, SWEEP_LIMIT);
      ExpireAllList(s, ExpiredPending(s.bookings, step.now, SWEEP_LIMIT));
    } else if step.DoLook? || step.DoInsert? || step.DoSimulate? {
      PaymentSteps(s, step);
    } else {
      OtherSteps(s, step);
    }
  }

  lemma BasesStay(s: State, step: Step)
    requires Aligned(s)
    ensures var t := Apply(s, step);
      |s.bookings| <= |t.bookings| && forall b | 0 <= b < |s.bookings| :: t.bookings[b].base == s.bookings[b].base
  {
    if step.DoCoupon? {
      CouponIff(s, step.booking, step.user, step.code, step.now);
    } else {
      StepPrices(s, step);
    }
  }

  lemma FlightListed(s: State, user: Id, code: string, flight: Id, quantity: int, now: int, hold: nat)
    requires Aligned(s)
    ensures var t := CreateFlight(s, user, code, flight, quantity, now, hold).0; StaysListed(s, t)
  {
    var (t, r) := CreateFlight(s, user, code, flight, quantity, now, hold);
    FirstIff(s.bookings, code, user);
    if IsFirst(s.bookings, code, user) {
      FlightBookedIff(s, user, code, flight, quantity, now, hold);
      if r.Ok? {
        TakePrices(s.stock, FlightItem(flight, quantity));
        AddsListPriced(s, t, code, user, s.stock.flights[flight].price * quantity, FlightItem(flight, quantity), now,
                       hold);
      }
    }
  }

  lemma HotelListed(s: State, user: Id, key: string, code: string, room: Id, checkIn: Day, checkOut: Day,
                    quantity: int, now: int, hold: nat)
    requires Aligned(s)
    ensures var t := CreateHotel(s, user, key, code, room, checkIn, checkOut, quantity, now, hold).0; StaysListed(s, t)
  {
    var (t, r) := CreateHotel(s, user, key, code, room, checkIn, checkOut, quantity, now, hold);
    FirstIff(s.bookings, code, user);
    if IsFirst(s.bookings, code, user) {
      StayBookedIff(s, user, key, code, room, checkIn, checkOut, quantity, now, hold);
      if r.Ok? {
        AddsListPriced(s, t, code, user, s.stock.rooms[room].nightPrice * quantity * (checkOut - checkIn),
                       StayItem(room, checkIn, checkOut, quantity), now, hold);
      }
    }
  }

  lemma PartyListPrice(st: Stock, schedule: Id, party: Party)
    requires TourFits(st, schedule, party)
    ensures ListPrice(st, PartyItem(schedule, party)) == Some(PartyPrice(st.schedules[schedule].prices, party))
  {
    assert Party(party.adults, party.children, party.infants) == party;
  }

  lemma TourListed(s: State, user: Id, code: string, schedule: Id, party: Party, now: int, hold: nat)
    requires Aligned(s)
    ensures var t := InsertTour(s, user, code, schedule, party, now, hold).0; StaysListed(s, t)
  {
    var (t, r) := InsertTour(s, user, code, schedule, party, now, hold);
    TourInsertedIff(s, user, code, schedule, party, now, hold);
    if r.Ok? {
      PartyListPrice(s.stock, schedule, party);
      AddsListPriced(s, t, code, user, PartyPrice(s.stock.schedules[schedule].prices, party),
                     PartyItem(schedule, party), now, hold);
    }
  }

  lemma CheckoutListed(s: State, user: Id, code: string, schedule: Id, party: Party, via: PaymentMethod, key: string,
                       now: int, hold: nat, available: set<PaymentMethod>)
    requires Aligned(s)
    ensures var t := BeginCheckout(s, user, code, schedule, party, via, key, now, hold, available).0; StaysListed(s, t)
  {
    CheckoutShape(s, user, code, schedule, party, via, key, now, hold, available);
    if NewCheckout(s, user, code, schedule, party, via, key, now, hold, available).1.Ok? {
      NewCheckoutAdds(s, user, code, schedule, party, via, key, now, hold, available);
      TourListed(s, user, code, schedule, party, now, hold);
    }
  }

  lemma CreationListed(s: State, step: Step)
    requires Aligned(s) && (step.DoFlight? || step.DoHotel? || step.DoTour? || step.DoCheckout?)
    ensures StaysListed(s, Apply(s, step))
  {
    if step.DoFlight? {
      FlightListed(s, step.user, step.code, step.flight, step.quantity, step.now, step.hold);
    } else if step.DoHotel? {
      HotelListed(s, step.user, step.key, step.code, step.room, step.checkIn, step.checkOut, step.quantity, step.now,
                  step.hold);
    } else if step.DoTour? {
      TourListed(s, step.user, step.code, step.schedule, step.party, step.now, step.hold);
    } else {
      CheckoutListed(s, step.user, step.code, step.schedule, step.party, step.via, step.key, step.now, step.hold,
                     step.available);
    }
  }

  lemma StepListed(s: State, step: Step)
    requires Aligned(s)
    ensures StaysListed(s, Apply(s, step))
  {
    if step.DoFlight? || step.DoHotel? || step.DoTour? || step.DoCheckout? {
      CreationListed(s, step);
    } else {
      ClosingList(s, step);
      BasesStay(s, step);
      KeepsListPriced(s, Apply(s, step));
    }
  }

  lemma {:induction false} RunListed(s: State, steps: seq<Step>)
    requires Fresh(s)
    ensures var t := Run(s, steps); AllListPriced(t.bookings, t.items, t.stock) && SamePrices(s.stock, t.stock)
  {
    if steps != [] {
      var n := |steps| - 1;
      RunListed(s, steps[..n]);
      StepListed(Run(s, steps[..n]), steps[n]);
      SamePricesTransitive(s.stock, Run(s, steps[..n]).stock, Run(s, steps).stock);
    }
  }

  /** The price law of every run: a booking has one item, its base price is that item's list price in the
      opening stock, and what it costs is that price less exactly what its coupon gives. */
  lemma PriceLaw(s: State, t: State, b: nat)
    requires Reachable(s, t) && b < |t.bookings|
    ensures |t.items| == |t.bookings| && |t.items[b]| == 1
    ensures ListPrice(s.stock, t.items[b][0]) == Some(t.bookings[b].base)
    ensures 0 <= t.bookings[b].final == t.bookings[b].base - t.bookings[b].discount
    ensures match t.bookings[b].coupon
            case None => t.bookings[b].discount == 0
            case Some(code) =>
              code in s.coupons &&
              var c := s.coupons[code];
              IsDiscount(if c.kind == Percentage then t.bookings[b].base * c.value else c.value * 10_000, c.ceiling,
                         t.bookings[b].base, t.bookings[b].discount)
  {
    var steps :| Run(s, steps) == t;
    RunListed(s, steps);
    SameListPrice(s.stock, t.stock, t.items[b][0]);
    PricesExact(s, t);
    ReachableKeeps(s, t);
    assert PricedBy(t.bookings[b], t.coupons) && Priced(t.bookings[b]);
    if t.bookings[b].coupon.Some? {
      var c := s.coupons[t.bookings[b].coupon.value];
      DiscountIff(c.kind, c.value, c.ceiling, t.bookings[b].base, t.bookings[b].discount);
    }
  }
}
