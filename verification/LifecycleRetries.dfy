/** Idempotency keys over whole runs: once a request has succeeded, the same key never creates anything
    again, whatever happened in between, and the answer depends only on the booking being open and the
    request being the same. */
module LifecycleRetries {
  import opened Basics
  import opened Inventory
  import opened Lifecycle
  import opened LifecycleInvariant
  import opened LifecycleRuns
  import opened LifecycleTheorems

  /** In every run at most one booking has a given code. */
  lemma OneBookingPerKey(s: State, t: State, a: nat, b: nat)
    requires Reachable(s, t) && a < |t.bookings| && b < |t.bookings| && t.bookings[a].code == t.bookings[b].code
    ensures a == b
  {
    ReachableKeeps(s, t);
    assert Unique(t.bookings, t.payments);
  }

  // ---- bookings ----

  /** Booking `b` was made under this code with this first item. */
  ghost predicate Made(t: State, b: nat, code: string, user: Id, item: Item) {
    && b < |t.bookings| == |t.items|
    && t.bookings[b].code == code && t.bookings[b].user == user
    && t.items[b] != [] && t.items[b][0] == item
  }

  lemma UniqueCodeFound(bookings: seq<Booking>, b: nat)
    requires b < |bookings| && forall a, c | 0 <= a < c < |bookings| :: bookings[a].code != bookings[c].code
    ensures FindBooking(bookings, bookings[b].code, bookings[b].user) == Some(b)
  {
    var n := |bookings| - 1;
    if b < n {
      UniqueCodeFound(bookings[..n], b);
    }
  }

  /** A booking is found under its code in every later state, with the same item. */
  lemma MadeStays(t: State, later: seq<Step>, b: nat, code: string, user: Id, item: Item)
    requires Sane(t) && Made(t, b, code, user, item)
    ensures var u := Run(t, later);
      Made(u, b, code, user, item) && FindBooking(u.bookings, code, user) == Some(b)
  {
    LifecyclesAcyclic(t, later);
    RunKeeps(t, later);
    var u := Run(t, later);
    assert t.items[b] == u.items[b];
    UniqueCodeFound(u.bookings, b);
  }

  /** The answer to a repeated request: the booking, or a conflict. */
  function Again(u: State, b: nat, same: bool): Result<nat>
    requires b < |u.bookings|
  {
    if same && Open(u.bookings[b]) then Ok(b) else Err(Conflict)
  }

  lemma FlightMade(s: State, user: Id, code: string, flight: Id, quantity: int, now: int, hold: nat)
    requires Aligned(s) && CreateFlight(s, user, code, flight, quantity, now, hold).1.Ok?
    ensures var (t, r) := CreateFlight(s, user, code, flight, quantity, now, hold);
      quantity >= 0 && Made(t, r.value, code, user, FlightItem(flight, quantity))
  {
  }

  /** After a flight was booked, any request of that user under the same code, however much later and
      whatever flight and quantity it names, changes nothing; it is answered with the booking exactly
      when it is the same request and the booking is still open, and with a conflict otherwise. */
  lemma FlightRetry(s: State, user: Id, code: string, flight: Id, quantity: int, now: int, hold: nat,
                    t: State, b: nat, later: seq<Step>, flight': Id, quantity': int, now': int, hold': nat)
    requires Sane(s) && CreateFlight(s, user, code, flight, quantity, now, hold) == (t, Ok(b))
    ensures Aligned(t)
    ensures var u := Run(t, later);
      && b < |u.bookings|
      && CreateFlight(u, user, code, flight', quantity', now', hold') ==
           (u, Again(u, b, flight' == flight && quantity' == quantity))
  {
    FlightKeepsSane(s, user, code, flight, quantity, now, hold);
    FlightMade(s, user, code, flight, quantity, now, hold);
    MadeStays(t, later, b, code, user, FlightItem(flight, quantity));
  }

  lemma FlightKeepsSane(s: State, user: Id, code: string, flight: Id, quantity: int, now: int, hold: nat)
    requires Sane(s)
    ensures Sane(CreateFlight(s, user, code, flight, quantity, now, hold).0)
  {
    StepKeepsSane(s, DoFlight(user, code, flight, quantity, now, hold));
  }

  lemma HotelMade(s: State, user: Id, key: string, code: string, room: Id, checkIn: Day, checkOut: Day,
                  quantity: int, now: int, hold: nat)
    requires Aligned(s) && CreateHotel(s, user, key, code, room, checkIn, checkOut, quantity, now, hold).1.Ok?
    ensures var (t, r) := CreateHotel(s, user, key, code, room, checkIn, checkOut, quantity, now, hold);
      quantity >= 0 && Made(t, r.value, code, user, StayItem(room, checkIn, checkOut, quantity))
  {
  }

  lemma HotelKeepsSane(s: State, user: Id, key: string, code: string, room: Id, checkIn: Day, checkOut: Day,
                       quantity: int, now: int, hold: nat)
    requires Sane(s)
    ensures Sane(CreateHotel(s, user, key, code, room, checkIn, checkOut, quantity, now, hold).0)
  {
    StepKeepsSane(s, DoHotel(user, key, code, room, checkIn, checkOut, quantity, now, hold));
  }

  /** The same for a stay: a later request under its code takes no room night and creates no row. */
  lemma HotelRetry(s: State, user: Id, key: string, code: string, room: Id, checkIn: Day, checkOut: Day,
                   quantity: int, now: int, hold: nat, t: State, b: nat, later: seq<Step>,
                   room': Id, checkIn': Day, checkOut': Day, quantity': int, now': int, hold': nat)
    requires Sane(s) && CreateHotel(s, user, key, code, room, checkIn, checkOut, quantity, now, hold) == (t, Ok(b))
    ensures Aligned(t)
    ensures var u := Run(t, later);
      && b < |u.bookings|
      && CreateHotel(u, user, key, code, room', checkIn', checkOut', quantity', now', hold') ==
           (u, Again(u, b, room' == room && checkIn' == checkIn && checkOut' == checkOut && quantity' == quantity))
  {
    HotelKeepsSane(s, user, key, code, room, checkIn, checkOut, quantity, now, hold);
    HotelMade(s, user, key, code, room, checkIn, checkOut, quantity, now, hold);
    MadeStays(t, later, b, code, user, StayItem(room, checkIn, checkOut, quantity));
  }

  lemma TourMade(s: State, user: Id, key: string, code: string, schedule: Id, party: Party, now: int, hold: nat)
    requires Aligned(s) && CreateTour(s, user, key, code, schedule, party, now, hold).1.Ok?
    ensures var (t, r) := CreateTour(s, user, key, code, schedule, party, now, hold);
      Made(t, r.value, code, user, TourOf(schedule, party))
  {
  }

  lemma TourKeepsSane(s: State, user: Id, key: string, code: string, schedule: Id, party: Party, now: int, hold: nat)
    requires Sane(s)
    ensures Sane(CreateTour(s, user, key, code, schedule, party, now, hold).0)
  {
    StepKeepsSane(s, DoTour(user, key, code, schedule, party, now, hold));
  }

  /** The same for a tour. */
  lemma TourRetry(s: State, user: Id, key: string, code: string, schedule: Id, party: Party, now: int, hold: nat,
                  t: State, b: nat, later: seq<Step>, schedule': Id, party': Party, now': int, hold': nat)
    requires Sane(s) && CreateTour(s, user, key, code, schedule, party, now, hold) == (t, Ok(b))
    ensures Aligned(t)
    ensures var u := Run(t, later);
      && b < |u.bookings|
      && CreateTour(u, user, key, code, schedule', party', now', hold') ==
           (u, Again(u, b, schedule' == schedule && party' == party))
  {
    TourKeepsSane(s, user, key, code, schedule, party, now, hold);
    TourMade(s, user, key, code, schedule, party, now, hold);
    MadeStays(t, later, b, code, user, TourOf(schedule, party));
  }

  // ---- payments ----

  lemma UniqueKeyFound(payments: seq<Payment>, p: nat)
    requires p < |payments|
    requires forall q, r | 0 <= q < r < |payments| && payments[q].booking == payments[r].booking ::
      payments[q].key != payments[r].key
    ensures FindByKey(payments, payments[p].booking, payments[p].key) == Some(p)
  {
    var n := |payments| - 1;
    if p < n {
      UniqueKeyFound(payments[..n], p);
    }
  }

  /** A payment keeps everything but its status, and is found under its key, in every later state. */
  lemma PaymentStays(s: State, later: seq<Step>, p: nat)
    requires Sane(s) && p < |s.payments|
    ensures var u := Run(s, later);
      && p < |u.payments| && u.payments[p] == s.payments[p].(status := u.payments[p].status)
      && FindByKey(u.payments, s.payments[p].booking, s.payments[p].key) == Some(p)
      && s.payments[p].booking < |s.bookings| <= |u.bookings|
      && u.bookings[s.payments[p].booking].currency == s.bookings[s.payments[p].booking].currency
  {
    LifecyclesAcyclic(s, later);
    RunKeeps(s, later);
    UniqueKeyFound(Run(s, later).payments, p);
  }

  /** A later request for a payment under a key that has one. */
  predicate SamePayment(u: State, p: nat, b: nat, user: Id, via: PaymentMethod, now: int,
                        available: set<PaymentMethod>)
    requires p < |u.payments| && b < |u.bookings|
  {
    var row, payment := u.bookings[b], u.payments[p];
    && row.user == user && row.status == Pending && (row.expiresAt.Some? ==> now < row.expiresAt.value)
    && via == payment.via && via in available
    && row.final == payment.amount && row.currency == payment.currency
  }

  /** Once a booking has a payment under a key, a request under that key changes nothing in any later
      state, not even the requests in flight. It is answered with that payment exactly when the booking
      can still be paid and method and price are the same: a coupon applied in between turns the answer
      into an error. */
  lemma InitiateRetry(s: State, later: seq<Step>, p: nat, user: Id, via: PaymentMethod, now: int,
                      available: set<PaymentMethod>)
    requires Sane(s) && p < |s.payments| && s.payments[p].key != ""
    ensures var u := Run(s, later);
      var b := s.payments[p].booking;
      && p < |u.payments| && b < |u.bookings|
      && var (t, r) := InitiatePayment(u, b, user, via, s.payments[p].key, now, available);
         && t == u
         && (r.Ok? ==> r == Ok(p))
         && (r.Ok? <==> SamePayment(u, p, b, user, via, now, available))
  {
    PaymentStays(s, later, p);
    RunKeeps(s, later);
    var u := Run(s, later);
    PaymentPositive(u, p);
    InitiateAgain(u, p, s.payments[p].booking, user, via, s.payments[p].key, now, available);
  }

  lemma InitiateAgain(u: State, p: nat, b: nat, user: Id, via: PaymentMethod, key: string, now: int,
                      available: set<PaymentMethod>)
    requires p < |u.payments| && b < |u.bookings| && key != "" && u.payments[p].amount > 0
    requires FindByKey(u.payments, b, key) == Some(p)
    ensures var (t, r) := InitiatePayment(u, b, user, via, key, now, available);
      && t == u
      && (r.Ok? ==> r == Ok(p))
      && (r.Ok? <==> SamePayment(u, p, b, user, via, now, available))
  {
  }

  lemma PaymentPositive(u: State, p: nat)
    requires Sane(u) && p < |u.payments|
    ensures u.payments[p].booking < |u.bookings| && u.payments[p].amount > 0
  {
  }

  /** Two requests in flight under one key: a later insertion never adds a second payment. */
  lemma InsertRetry(s: State, i: nat, now: int, t: State, p: nat, later: seq<Step>, j: nat, now': int)
    requires Sane(s) && i < |s.looks| && j < |s.looks| && s.looks[i].booking == s.looks[j].booking
    requires s.looks[i].key == s.looks[j].key && InsertLook(s, i, now) == (t, Ok(p))
    ensures Aligned(t)
    ensures var u := Run(t, later);
      InsertLook(u, j, now').0 == u && (InsertLook(u, j, now').1.Ok? ==> InsertLook(u, j, now').1 == Ok(p))
  {
    StepKeepsSane(s, DoInsert(i, now));
    InsertedUnderKey(s, i, now);
    PaymentStays(t, later, p);
    LooksStay(t, later);
    SecondInsert(Run(t, later), j, now', p);
  }

  lemma InsertedUnderKey(s: State, i: nat, now: int)
    requires i < |s.looks| && InsertLook(s, i, now).1.Ok?
    ensures var (t, r) := InsertLook(s, i, now);
      && t.looks == s.looks && r.value < |t.payments|
      && t.payments[r.value].booking == s.looks[i].booking && t.payments[r.value].key == s.looks[i].key
  {
  }

  lemma SecondInsert(u: State, j: nat, now: int, p: nat)
    requires j < |u.looks| && FindByKey(u.payments, u.looks[j].booking, u.looks[j].key) == Some(p)
    ensures InsertLook(u, j, now).0 == u && (InsertLook(u, j, now).1.Ok? ==> InsertLook(u, j, now).1 == Ok(p))
  {
  }

  lemma {:induction false} LooksStay(s: State, later: seq<Step>)
    requires Sane(s)
    ensures s.looks <= Run(s, later).looks
  {
    if later != [] {
      var n := |later| - 1;
      LooksStay(s, later[..n]);
      RunKeeps(s, later[..n]);
      StepKeepsLooks(Run(s, later[..n]), later[n]);
    }
  }

  // ---- the checkout ----

  predicate TourFor(item: Item, schedule: Id, party: Party) {
    && item.TourItem? && item.schedule == schedule && item.adults == party.adults
    && item.children == party.children && item.infants == party.infants
  }

  /** What a successful checkout leaves: a tour booking, and its payment under the checkout's key. */
  ghost predicate CheckedOut(t: State, b: nat, p: nat, code: string, user: Id, schedule: Id, party: Party,
                             via: PaymentMethod, key: string)
  {
    && b < |t.bookings| == |t.items| && t.bookings[b].code == code && t.bookings[b].user == user
    && t.items[b] != [] && TourFor(t.items[b][0], schedule, party)
    && p < |t.payments| && t.payments[p].booking == b && t.payments[p].key == key && t.payments[p].via == via
    && t.payments[p].currency == t.bookings[b].currency
  }

  lemma ReplayCheckedOut(s: State, b: nat, schedule: Id, party: Party, via: PaymentMethod, key: string,
                         available: set<PaymentMethod>)
    requires Aligned(s) && b < |s.bookings|
    requires ReplayCheckout(s, b, schedule, party, via, key, available).1.Ok?
    ensures var (s1, begun) := ReplayCheckout(s, b, schedule, party, via, key, available);
      var (code, user) := (s.bookings[b].code, s.bookings[b].user);
      && s1 == s.(looks := s1.looks) && s.items[b] != [] && TourFor(s.items[b][0], schedule, party)
      && (begun.value.Done? ==> CheckedOut(s1, b, begun.value.payment, code, user, schedule, party, via, key))
      && (begun.value.Waiting? ==>
            && begun.value.look < |s1.looks|
            && s1.looks[begun.value.look] == Look(b, via, key, s.bookings[b].final, s.bookings[b].currency, false))
  {
  }

  lemma InsertCheckedOut(s: State, i: nat, now: int, schedule: Id, party: Party)
    requires Aligned(s) && i < |s.looks| && !s.looks[i].reuse && InsertLook(s, i, now).1.Ok?
    requires var look := s.looks[i];
      && look.booking < |s.bookings| && look.currency == s.bookings[look.booking].currency
      && s.items[look.booking] != [] && TourFor(s.items[look.booking][0], schedule, party)
    ensures var look := s.looks[i];
      var (t, r) := InsertLook(s, i, now);
      CheckedOut(t, look.booking, r.value, s.bookings[look.booking].code, s.bookings[look.booking].user, schedule,
                 party, look.via, look.key)
  {
  }

  lemma NewCheckedOut(s: State, user: Id, code: string, schedule: Id, party: Party, via: PaymentMethod, key: string,
                      now: int, hold: nat, available: set<PaymentMethod>)
    requires Aligned(s) && NewCheckout(s, user, code, schedule, party, via, key, now, hold, available).1.Ok?
    ensures var (t, r) := NewCheckout(s, user, code, schedule, party, via, key, now, hold, available);
      CheckedOut(t, |s.bookings|, r.value, code, user, schedule, party, via, key)
  {
    NewCheckoutAdds(s, user, code, schedule, party, via, key, now, hold, available);
  }

  /** The parts of a checkout: its first step, and the insertion if one is left to do. */
  lemma CheckoutParts(s: State, user: Id, code: string, schedule: Id, party: Party, via: PaymentMethod, key: string,
                      now: int, hold: nat, available: set<PaymentMethod>, s1: State, b: nat, begun: Begun)
    requires Aligned(s)
    requires BeginCheckout(s, user, code, schedule, party, via, key, now, hold, available) == (s1, Ok((b, begun)))
    ensures key != ""
    ensures FindBooking(s.bookings, code, user).Some? ==>
      b < |s.bookings| && s.bookings[b].code == code && s.bookings[b].user == user
      && ReplayCheckout(s, b, schedule, party, via, key, available) == (s1, Ok(begun))
    ensures FindBooking(s.bookings, code, user).None? ==>
      b == |s.bookings| && begun.Done?
      && NewCheckout(s, user, code, schedule, party, via, key, now, hold, available) == (s1, Ok(begun.payment))
  {
  }

  lemma InsertDone(s1: State, i: nat, now: int, b: nat, code: string, user: Id, schedule: Id, party: Party,
                   via: PaymentMethod, key: string)
    requires Sane(s1) && i < |s1.looks| && b < |s1.bookings|
    requires s1.looks[i] == Look(b, via, key, s1.bookings[b].final, s1.bookings[b].currency, false)
    requires s1.bookings[b].code == code && s1.bookings[b].user == user
    requires s1.items[b] != [] && TourFor(s1.items[b][0], schedule, party) && InsertLook(s1, i, now).1.Ok?
    ensures var (t, r) := InsertLook(s1, i, now);
      Sane(t) && CheckedOut(t, b, r.value, code, user, schedule, party, via, key)
  {
    StepKeepsSane(s1, DoInsert(i, now));
    InsertCheckedOut(s1, i, now, schedule, party);
  }

  lemma ReplayDone(s: State, b: nat, schedule: Id, party: Party, via: PaymentMethod, key: string, now: int,
                   available: set<PaymentMethod>, s1: State, begun: Begun)
    requires Aligned(s) && b < |s.bookings| && Sane(s1)
    requires ReplayCheckout(s, b, schedule, party, via, key, available) == (s1, Ok(begun))
    ensures begun.Done? ==>
      CheckedOut(s1, b, begun.payment, s.bookings[b].code, s.bookings[b].user, schedule, party, via, key)
    ensures begun.Waiting? && InsertLook(s1, begun.look, now).1.Ok? ==>
      var (t, r) := InsertLook(s1, begun.look, now);
      Sane(t) && CheckedOut(t, b, r.value, s.bookings[b].code, s.bookings[b].user, schedule, party, via, key)
  {
    ReplayCheckedOut(s, b, schedule, party, via, key, available);
    if begun.Waiting? && InsertLook(s1, begun.look, now).1.Ok? {
      InsertDone(s1, begun.look, now, b, s.bookings[b].code, s.bookings[b].user, schedule, party, via, key);
    }
  }

  lemma BeginKeepsSane(s: State, user: Id, code: string, schedule: Id, party: Party, via: PaymentMethod, key: string,
                       now: int, hold: nat, available: set<PaymentMethod>)
    requires Sane(s)
    ensures Sane(BeginCheckout(s, user, code, schedule, party, via, key, now, hold, available).0)
  {
    StepKeepsSane(s, DoCheckout(user, code, schedule, party, via, key, now, hold, available));
  }

  /** A successful checkout, replayed or new, keeps the invariants and leaves booking and payment. */
  lemma BegunDone(s: State, user: Id, code: string, schedule: Id, party: Party, via: PaymentMethod, key: string,
                  now: int, hold: nat, available: set<PaymentMethod>, s1: State, b: nat, begun: Begun)
    requires Sane(s)
    requires BeginCheckout(s, user, code, schedule, party, via, key, now, hold, available) == (s1, Ok((b, begun)))
    ensures Sane(s1)
    ensures begun.Done? ==> CheckedOut(s1, b, begun.payment, code, user, schedule, party, via, key)
    ensures begun.Waiting? && InsertLook(s1, begun.look, now).1.Ok? ==>
      var (t, r) := InsertLook(s1, begun.look, now);
      Sane(t) && CheckedOut(t, b, r.value, code, user, schedule, party, via, key)
  {
    BeginKeepsSane(s, user, code, schedule, party, via, key, now, hold, available);
    CheckoutParts(s, user, code, schedule, party, via, key, now, hold, available, s1, b, begun);
    if FindBooking(s.bookings, code, user).None? {
      NewCheckedOut(s, user, code, schedule, party, via, key, now, hold, available);
    } else {
      ReplayDone(s, b, schedule, party, via, key, now, available, s1, begun);
    }
  }

  lemma CheckoutDone(s: State, user: Id, code: string, schedule: Id, party: Party, via: PaymentMethod, key: string,
                     now: int, hold: nat, available: set<PaymentMethod>, t: State, b: nat, p: nat)
    requires Sane(s)
    requires Checkout(s, user, code, schedule, party, via, key, now, hold, available) == (t, Ok((b, p)))
    ensures Sane(t) && key != "" && CheckedOut(t, b, p, code, user, schedule, party, via, key)
  {
    var (s1, begun) := BeginCheckout(s, user, code, schedule, party, via, key, now, hold, available);
    CheckoutParts(s, user, code, schedule, party, via, key, now, hold, available, s1, begun.value.0, begun.value.1);
    BegunDone(s, user, code, schedule, party, via, key, now, hold, available, s1, begun.value.0, begun.value.1);
  }

  lemma CheckedOutStays(t: State, later: seq<Step>, b: nat, p: nat, code: string, user: Id, schedule: Id,
                        party: Party, via: PaymentMethod, key: string)
    requires Sane(t) && CheckedOut(t, b, p, code, user, schedule, party, via, key)
    ensures var u := Run(t, later);
      && CheckedOut(u, b, p, code, user, schedule, party, via, key)
      && FindBooking(u.bookings, code, user) == Some(b) && FindByKey(u.payments, b, key) == Some(p)
  {
    MadeStays(t, later, b, code, user, t.items[b][0]);
    PaymentStays(t, later, p);
  }

  /** The answer of a repeated checkout, for one booking and payment. */
  lemma CheckoutAgain(u: State, b: nat, p: nat, code: string, user: Id, schedule: Id, party: Party,
                      via: PaymentMethod, key: string, schedule': Id, party': Party, via': PaymentMethod,
                      now: int, hold: nat, available: set<PaymentMethod>)
    requires Aligned(u) && key != "" && CheckedOut(u, b, p, code, user, schedule, party, via, key)
    requires FindBooking(u.bookings, code, user) == Some(b) && FindByKey(u.payments, b, key) == Some(p)
    ensures Checkout(u, user, code, schedule', party', via', key, now, hold, available) ==
      (u, if schedule' == schedule && party' == party && via' == via && Open(u.bookings[b])
             && u.payments[p].amount == u.bookings[b].final
          then Ok((b, p)) else Err(Conflict))
  {
  }

  /** After a tour was checked out, any checkout of that user under the same key, however much later,
      changes nothing; it is answered with booking and payment exactly when schedule, party and method
      are the same, the booking is still open, and no coupon has lowered its price since. */
  lemma CheckoutRetry(s: State, user: Id, code: string, schedule: Id, party: Party, via: PaymentMethod, key: string,
                      now: int, hold: nat, available: set<PaymentMethod>, t: State, b: nat, p: nat,
                      later: seq<Step>, schedule': Id, party': Party, via': PaymentMethod, now': int, hold': nat,
                      available': set<PaymentMethod>)
    requires Sane(s)
    requires Checkout(s, user, code, schedule, party, via, key, now, hold, available) == (t, Ok((b, p)))
    ensures Aligned(t)
    ensures var u := Run(t, later);
      && b < |u.bookings| && p < |u.payments|
      && Checkout(u, user, code, schedule', party', via', key, now', hold', available') ==
           (u, if schedule' == schedule && party' == party && via' == via && Open(u.bookings[b])
                  && u.payments[p].amount == u.bookings[b].final
               then Ok((b, p)) else Err(Conflict))
  {
    CheckoutDone(s, user, code, schedule, party, via, key, now, hold, available, t, b, p);
    CheckedOutStays(t, later, b, p, code, user, schedule, party, via, key);
    CheckoutAgain(Run(t, later), b, p, code, user, schedule, party, via, key, schedule', party', via', now', hold',
                  available');
  }
}
