/** Bookable stock as values: flight seats, hotel room nights, tour slots.

    Hotel nights are stored sparsely: a room has a row for a day only once some booking touched
    that night, and a missing row means that every room is free. `Level` is the abstract
    calendar behind the rows, total over all nights of a known room. */
module Inventory {
  import opened Basics

  type Day = int

  datatype TravelerType = Adult | Child | Infant

  datatype Flight = Flight(seats: int, bookable: bool, price: int)
  datatype Room = Room(total: int, nightPrice: int, nights: map<Day, int>)
  datatype Schedule = Schedule(slots: int, capacity: int, open: bool, prices: map<TravelerType, int>)

  datatype Stock = Stock(
    flights: map<Id, Flight>,
    rooms: map<Id, Room>,
    schedules: map<Id, Schedule>)

  datatype Item =
    | FlightItem(flight: Id, quantity: nat)
    | StayItem(room: Id, checkIn: Day, checkOut: Day, quantity: nat)
    | TourItem(schedule: Id, quantity: nat, adults: int, children: int, infants: int)

  /** One thing that can run out. */
  datatype Unit = SeatOf(flight: Id) | NightOf(room: Id, day: Day) | SlotOf(schedule: Id)

  predicate Has(st: Stock, u: Unit) {
    match u
    case SeatOf(f) => f in st.flights
    case NightOf(r, _) => r in st.rooms
    case SlotOf(t) => t in st.schedules
  }

  function RoomLevel(room: Room, day: Day): int {
    if day in room.nights then room.nights[day] else room.total
  }

  function Level(st: Stock, u: Unit): int
    requires Has(st, u)
  {
    match u
    case SeatOf(f) => st.flights[f].seats
    case NightOf(r, d) => RoomLevel(st.rooms[r], d)
    case SlotOf(t) => st.schedules[t].slots
  }

  /** The ceiling that a release never exceeds; flights have none. */
  function Cap(st: Stock, u: Unit): Option<int>
    requires Has(st, u)
  {
    match u
    case SeatOf(_) => None
    case NightOf(r, _) => Some(st.rooms[r].total)
    case SlotOf(t) => Some(st.schedules[t].capacity)
  }

  function Capped(cap: Option<int>, level: int): int {
    if cap.Some? then Min(level, cap.value) else level
  }

  /** No unit is below zero or above its ceiling. */
  ghost predicate Valid(st: Stock) {
    forall u: Unit | Has(st, u) :: 0 <= Level(st, u) == Capped(Cap(st, u), Level(st, u))
  }

  /** Same units with the same ceilings. */
  ghost predicate SameUnits(a: Stock, b: Stock) {
    forall u: Unit :: Has(a, u) == Has(b, u) && (Has(a, u) ==> Cap(a, u) == Cap(b, u))
  }

  // ---- what a booking's items ask of one unit ----

  function Demand(item: Item, u: Unit): nat {
    match item
    case FlightItem(f, q) => if u == SeatOf(f) then q else 0
    case StayItem(r, i, o, q) => if u.NightOf? && u.room == r && i <= u.day < o then q else 0
    case TourItem(t, q, _, _, _) => if u == SlotOf(t) then q else 0
  }

  function DemandAll(items: seq<Item>, u: Unit): nat {
    if items == [] then 0 else Demand(items[0], u) + DemandAll(items[1..], u)
  }

  /** The item's flight, room or schedule is known. */
  predicate Listed(st: Stock, item: Item) {
    match item
    case FlightItem(f, _) => f in st.flights
    case StayItem(r, _, _, _) => r in st.rooms
    case TourItem(t, _, _, _, _) => t in st.schedules
  }

  // ---- the operations ----

  /** Creates the missing rows of a stay, every room free. */
  function WithRows(room: Room, checkIn: Day, checkOut: Day): Room {
    room.(nights := room.nights + map d | checkIn <= d < checkOut :: RoomLevel(room, d))
  }

  function TakeNights(room: Room, checkIn: Day, checkOut: Day, quantity: nat): Room {
    room.(nights := room.nights + map d | checkIn <= d < checkOut :: RoomLevel(room, d) - quantity)
  }

  function RestoreNights(room: Room, checkIn: Day, checkOut: Day, quantity: nat): Room {
    room.(nights := room.nights +
      map d | checkIn <= d < checkOut :: Min(RoomLevel(room, d) + quantity, room.total))
  }

  lemma SameLevels(room: Room, checkIn: Day, checkOut: Day)
    ensures WithRows(room, checkIn, checkOut).total == room.total
    ensures forall d :: RoomLevel(WithRows(room, checkIn, checkOut), d) == RoomLevel(room, d)
  {
  }

  /** Restoring a stay does not depend on whether its rows were created first. */
  lemma RowsFirst(room: Room, checkIn: Day, checkOut: Day, quantity: nat)
    ensures RestoreNights(WithRows(room, checkIn, checkOut), checkIn, checkOut, quantity) ==
            RestoreNights(room, checkIn, checkOut, quantity)
    ensures TakeNights(WithRows(room, checkIn, checkOut), checkIn, checkOut, quantity) ==
            TakeNights(room, checkIn, checkOut, quantity)
  {
    RestoreAfterRows(room, checkIn, checkOut, quantity);
    TakeAfterRows(room, checkIn, checkOut, quantity);
  }

  lemma RestoreAfterRows(room: Room, checkIn: Day, checkOut: Day, quantity: nat)
    ensures RestoreNights(WithRows(room, checkIn, checkOut), checkIn, checkOut, quantity) ==
            RestoreNights(room, checkIn, checkOut, quantity)
  {
    SameLevels(room, checkIn, checkOut);
    var a := RestoreNights(WithRows(room, checkIn, checkOut), checkIn, checkOut, quantity);
    var b := RestoreNights(room, checkIn, checkOut, quantity);
    assert a.nights.Keys == b.nights.Keys;
    assert forall d | d in b.nights :: a.nights[d] == b.nights[d];
    assert a.nights == b.nights;
  }

  lemma TakeAfterRows(room: Room, checkIn: Day, checkOut: Day, quantity: nat)
    ensures TakeNights(WithRows(room, checkIn, checkOut), checkIn, checkOut, quantity) ==
            TakeNights(room, checkIn, checkOut, quantity)
  {
    SameLevels(room, checkIn, checkOut);
    var a := TakeNights(WithRows(room, checkIn, checkOut), checkIn, checkOut, quantity);
    var b := TakeNights(room, checkIn, checkOut, quantity);
    assert a.nights.Keys == b.nights.Keys;
    assert forall d | d in b.nights :: a.nights[d] == b.nights[d];
    assert a.nights == b.nights;
  }

  function TakeItem(st: Stock, item: Item): Stock
    requires Listed(st, item)
  {
    match item
    case FlightItem(f, q) =>
      st.(flights := st.flights[f := st.flights[f].(seats := st.flights[f].seats - q)])
    case StayItem(r, i, o, q) =>
      st.(rooms := st.rooms[r := TakeNights(st.rooms[r], i, o, q)])
    case TourItem(t, q, _, _, _) =>
      st.(schedules := st.schedules[t := st.schedules[t].(slots := st.schedules[t].slots - q)])
  }

  /** Gives one item back; an unknown flight, room or schedule is skipped. */
  function RestoreItem(st: Stock, item: Item): Stock {
    if !Listed(st, item) then st else
    match item
    case FlightItem(f, q) =>
      st.(flights := st.flights[f := st.flights[f].(seats := st.flights[f].seats + q)])
    case StayItem(r, i, o, q) =>
      st.(rooms := st.rooms[r := RestoreNights(st.rooms[r], i, o, q)])
    case TourItem(t, q, _, _, _) =>
      st.(schedules := st.schedules[t :=
        st.schedules[t].(slots := Min(st.schedules[t].slots + q, st.schedules[t].capacity))])
  }

  function RestoreAll(st: Stock, items: seq<Item>): Stock
    decreases |items|
  {
    if items == [] then st else RestoreAll(RestoreItem(st, items[0]), items[1..])
  }

  // ---- what the operations mean on the abstract calendar ----

  /** Creating rows is invisible: no night changes its level. */
  lemma RowsAreInvisible(room: Room, checkIn: Day, checkOut: Day, day: Day)
    ensures RoomLevel(WithRows(room, checkIn, checkOut), day) == RoomLevel(room, day)
  {
  }

  /** Taking an item lowers each unit by exactly the item's demand. */
  lemma TakeLowers(st: Stock, item: Item, u: Unit)
    requires Listed(st, item) && Has(st, u)
    ensures SameUnits(st, TakeItem(st, item))
    ensures Level(TakeItem(st, item), u) == Level(st, u) - Demand(item, u)
  {
  }

  lemma RestoreRaises(st: Stock, item: Item, u: Unit)
    requires Has(st, u) && Level(st, u) == Capped(Cap(st, u), Level(st, u))
    ensures SameUnits(st, RestoreItem(st, item))
    ensures Level(RestoreItem(st, item), u) == Capped(Cap(st, u), Level(st, u) + Demand(item, u))
  {
  }

  /** Restoring a whole booking raises each unit by the total demand and caps once: capping
      after every item loses nothing more. */
  lemma {:induction false} RestoreAllRaises(st: Stock, items: seq<Item>, u: Unit)
    requires Has(st, u) && Level(st, u) == Capped(Cap(st, u), Level(st, u))
    ensures SameUnits(st, RestoreAll(st, items))
    ensures Level(RestoreAll(st, items), u) == Capped(Cap(st, u), Level(st, u) + DemandAll(items, u))
    decreases |items|
  {
    if items != [] {
      RestoreRaises(st, items[0], u);
      RestoreAllRaises(RestoreItem(st, items[0]), items[1..], u);
    }
  }

  lemma RestoreAllValid(st: Stock, items: seq<Item>)
    requires Valid(st)
    ensures Valid(RestoreAll(st, items)) && SameUnits(st, RestoreAll(st, items))
  {
    var st' := RestoreAll(st, items);
    forall u: Unit | true
      ensures Has(st, u) == Has(st', u)
      ensures Has(st, u) ==> Cap(st, u) == Cap(st', u)
      ensures Has(st, u) ==> 0 <= Level(st', u) == Capped(Cap(st', u), Level(st', u))
    {
      RestoreKeeps(st, items);
      if Has(st, u) {
        RestoreAllRaises(st, items, u);
      }
    }
  }

  lemma {:induction false} RestoreKeeps(st: Stock, items: seq<Item>)
    ensures SameUnits(st, RestoreAll(st, items))
    decreases |items|
  {
    if items != [] {
      RestoreKeeps(RestoreItem(st, items[0]), items[1..]);
    }
  }

  /** A release undoes the booking: taking an item that fits and restoring it gives back the
      level of every unit. */
  lemma RestoreUndoesTake(st: Stock, item: Item, u: Unit)
    requires Valid(st) && Listed(st, item) && Has(st, u)
    ensures Has(RestoreAll(TakeItem(st, item), [item]), u)
    ensures Level(RestoreAll(TakeItem(st, item), [item]), u) == Level(st, u)
  {
    TakeLowers(st, item, u);
    RestoreAllRaises(TakeItem(st, item), [item], u);
    assert DemandAll([item], u) == Demand(item, u) + DemandAll([item][1..], u);
  }

  // ---- searching a stay ----

  /** The scarcest night of a stay on the abstract calendar, never above the room count. */
  function ScarcestNight(st: Stock, room: Id, checkIn: Day, checkOut: Day): int
    requires room in st.rooms
    decreases checkOut - checkIn
  {
    if checkOut <= checkIn then st.rooms[room].total
    else Min(ScarcestNight(st, room, checkIn, checkOut - 1), Level(st, NightOf(room, checkOut - 1)))
  }

  /** `_validate_inventory`: every night of the stay has `quantity` rooms. */
  predicate StayFits(st: Stock, room: Id, checkIn: Day, checkOut: Day, quantity: int)
    requires room in st.rooms
  {
    forall d | checkIn <= d < checkOut :: Level(st, NightOf(room, d)) >= quantity
  }

  lemma {:induction false} ScarcestNightIsMin(st: Stock, room: Id, checkIn: Day, checkOut: Day, low: int)
    requires room in st.rooms
    ensures low <= ScarcestNight(st, room, checkIn, checkOut) <==>
            low <= st.rooms[room].total && StayFits(st, room, checkIn, checkOut, low)
    decreases checkOut - checkIn
  {
    if checkIn < checkOut {
      ScarcestNightIsMin(st, room, checkIn, checkOut - 1, low);
    }
  }

  /** Search agrees with booking: a non-empty stay shows at least `quantity` rooms exactly when
      the booking validation accepts `quantity`. */
  lemma SearchAgreesWithBooking(st: Stock, room: Id, checkIn: Day, checkOut: Day, quantity: int)
    requires Valid(st) && room in st.rooms && checkIn < checkOut
    ensures ScarcestNight(st, room, checkIn, checkOut) >= quantity
       <==> StayFits(st, room, checkIn, checkOut, quantity)
  {
    ScarcestNightIsMin(st, room, checkIn, checkOut, quantity);
    assert Has(st, NightOf(room, checkIn));
  }
}
