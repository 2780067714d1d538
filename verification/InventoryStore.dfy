/** The inventory tables and the operations that change them in place:
    backend/app/repositories/hotel_repository.py and
    backend/app/services/booking_inventory_service.py. */
module InventoryStore {
  import opened Basics
  import opened Inventory

  /** `_stay_dates`: the nights of a stay, in order. */
  ghost predicate IsStay(days: seq<Day>, checkIn: Day, checkOut: Day) {
    && |days| == (if checkIn <= checkOut then checkOut - checkIn else 0)
    && forall i | 0 <= i < |days| :: days[i] == checkIn + i
  }

  /** The loop of `ensure_room_inventory_rows` over one room's rows. */
  method AddMissingNights(room: Room, checkIn: Day, checkOut: Day) returns (row: Room, days: seq<Day>)
    ensures row == WithRows(room, checkIn, checkOut)
    ensures IsStay(days, checkIn, checkOut)
    ensures forall d | d in days :: d in row.nights
    ensures forall d :: RoomLevel(row, d) == RoomLevel(room, d)
  {
    row, days := room, [];
    while checkIn + |days| < checkOut
      invariant |days| == 0 || checkIn + |days| <= checkOut
      invariant forall i | 0 <= i < |days| :: days[i] == checkIn + i
      invariant row == room.(nights := row.nights)
      invariant forall d :: d in row.nights <==> d in room.nights || checkIn <= d < checkIn + |days|
      invariant forall d | d in row.nights :: row.nights[d] == RoomLevel(room, d)
    {
      var day := checkIn + |days|;
      if day !in row.nights {
        row := row.(nights := row.nights[day := row.total]);
      }
      days := days + [day];
    }
    assert row.nights == WithRows(room, checkIn, checkOut).nights;
  }

  /** The capped increment loop of `restore_inventory` over the rows of a stay. */
  method RaiseNights(room: Room, checkIn: Day, checkOut: Day, days: seq<Day>, quantity: nat)
    returns (row: Room)
    requires IsStay(days, checkIn, checkOut) && forall d | d in days :: d in room.nights
    ensures row == RestoreNights(room, checkIn, checkOut, quantity)
  {
    row := room;
    for n := 0 to |days|
      invariant row == room.(nights := row.nights) && row.nights.Keys == room.nights.Keys
      invariant forall d | d in row.nights ::
        row.nights[d] == (if checkIn <= d < checkIn + n then Min(room.nights[d] + quantity,
                                                                 room.total) else room.nights[d])
    {
      row := row.(nights := row.nights[days[n] := Min(row.nights[days[n]] + quantity, row.total)]);
    }
    forall d | checkIn <= d < checkOut ensures d in room.nights { assert days[d - checkIn] == d; }
    assert row.nights == RestoreNights(room, checkIn, checkOut, quantity).nights;
  }

  /** The decrement loop of `create_hotel_booking` over the rows of a stay. */
  method LowerNights(room: Room, checkIn: Day, checkOut: Day, days: seq<Day>, quantity: nat)
    returns (row: Room)
    requires IsStay(days, checkIn, checkOut) && forall d | d in days :: d in room.nights
    ensures row == TakeNights(room, checkIn, checkOut, quantity)
  {
    row := room;
    for n := 0 to |days|
      invariant row == room.(nights := row.nights) && row.nights.Keys == room.nights.Keys
      invariant forall d | d in row.nights ::
        row.nights[d] == (if checkIn <= d < checkIn + n then room.nights[d] - quantity else room.nights[d])
    {
      row := row.(nights := row.nights[days[n] := row.nights[days[n]] - quantity]);
    }
    forall d | checkIn <= d < checkOut ensures d in room.nights { assert days[d - checkIn] == d; }
    assert row.nights == TakeNights(room, checkIn, checkOut, quantity).nights;
  }

  /** Restoring a stay after its missing rows were created. */
  lemma RestoreThroughRows(st: Stock, room: Id, checkIn: Day, checkOut: Day, quantity: nat)
    requires room in st.rooms
    ensures RestoreItem(st, StayItem(room, checkIn, checkOut, quantity)) ==
            st.(rooms := st.rooms[room :=
              RestoreNights(WithRows(st.rooms[room], checkIn, checkOut), checkIn, checkOut, quantity)])
  {
    RowsFirst(st.rooms[room], checkIn, checkOut, quantity);
  }

  class InventoryTables {
    var flights: map<Id, Flight>
    var rooms: map<Id, Room>
    var schedules: map<Id, Schedule>

    ghost function View(): Stock
      reads this
    {
      Stock(flights, rooms, schedules)
    }

    constructor (initial: Stock)
      ensures View() == initial
    {
      flights, rooms := initial.flights, initial.rooms;
      schedules := initial.schedules;
    }

    /** Creates the rows that a stay is missing and returns its nights in order. No night changes
        its level. */
    method EnsureRoomInventoryRows(room: Id, checkIn: Day, checkOut: Day) returns (days: seq<Day>)
      requires room in rooms
      modifies this`rooms
      ensures rooms == old(rooms)[room := WithRows(old(rooms)[room], checkIn, checkOut)]
      ensures IsStay(days, checkIn, checkOut) && forall d | d in days :: d in rooms[room].nights
      ensures forall d :: RoomLevel(rooms[room], d) == RoomLevel(old(rooms)[room], d)
    {
      var row;
      row, days := AddMissingNights(rooms[room], checkIn, checkOut);
      rooms := rooms[room := row];
    }

    /** Gives back every item of a booking. */
    method RestoreInventory(items: seq<Item>)
      modifies this
      ensures View() == RestoreAll(old(View()), items)
    {
      var n := 0;
      while n < |items|
        invariant n <= |items|
        invariant RestoreAll(View(), items[n..]) == RestoreAll(old(View()), items)
      {
        assert items[n..][1..] == items[n + 1..];
        match items[n] {
          case FlightItem(flight, quantity) =>
            if flight in flights {
              flights := flights[flight := flights[flight].(seats := flights[flight].seats + quantity)];
            }
          case StayItem(room, checkIn, checkOut, quantity) =>
            RestoreStay(room, checkIn, checkOut, quantity);
          case TourItem(schedule, quantity, _, _, _) =>
            if schedule in schedules {
              var row := schedules[schedule];
              schedules := schedules[schedule := row.(slots := Min(row.slots + quantity, row.capacity))];
            }
        }
        n := n + 1;
      }
    }

    method RestoreStay(room: Id, checkIn: Day, checkOut: Day, quantity: nat)
      modifies this`rooms
      ensures View() == RestoreItem(old(View()), StayItem(room, checkIn, checkOut, quantity))
    {
      if room in rooms {
        RestoreThroughRows(View(), room, checkIn, checkOut, quantity);
        var days := EnsureRoomInventoryRows(room, checkIn, checkOut);
        var row := RaiseNights(rooms[room], checkIn, checkOut, days, quantity);
        rooms := rooms[room := row];
      }
    }

    /** `_validate_inventory` over the rows of a stay. */
    method ValidateInventory(room: Id, checkIn: Day, checkOut: Day, days: seq<Day>, quantity: int) returns (ok: bool)
      requires room in rooms && IsStay(days, checkIn, checkOut)
      requires forall d | d in days :: d in rooms[room].nights
      ensures ok <==> StayFits(View(), room, checkIn, checkOut, quantity)
    {
      var n := 0;
      while n < |days|
        invariant n <= |days|
        invariant forall d | checkIn <= d < checkIn + n :: RoomLevel(rooms[room], d) >= quantity
      {
        if rooms[room].nights[days[n]] < quantity {
          assert Level(View(), NightOf(room, days[n])) < quantity;
          return false;
        }
        n := n + 1;
      }
      return true;
    }

    /** Takes a stay whose rows `EnsureRoomInventoryRows` has just created. */
    method TakeStay(room: Id, checkIn: Day, checkOut: Day, days: seq<Day>, quantity: nat)
      requires room in rooms && IsStay(days, checkIn, checkOut)
      requires forall d | d in days :: d in rooms[room].nights
      modifies this`rooms
      ensures View() == TakeItem(old(View()), StayItem(room, checkIn, checkOut, quantity))
    {
      var row := LowerNights(rooms[room], checkIn, checkOut, days, quantity);
      rooms := rooms[room := row];
    }

    /** Availability of several rooms for one stay. It equals the scarcest night of the abstract
        calendar. */
    method BuildRoomAvailabilityMap(ids: seq<Id>, checkIn: Day, checkOut: Day)
      returns (available: map<Id, int>)
      requires forall r | r in ids :: r in rooms
      ensures available.Keys == set r | r in ids
      ensures forall r | r in ids :: available[r] == ScarcestNight(View(), r, checkIn, checkOut)
    {
      available := LowerByRows(rooms, ids, checkIn, checkOut);
      forall r | r in ids ensures available[r] == ScarcestNight(View(), r, checkIn, checkOut) {
        LeastRowIsScarcest(View(), r, checkIn, checkOut, available[r]);
      }
    }
  }

  /** `low` is the least of a room's count and its stored rows of the stay. */
  ghost predicate LeastRow(room: Room, checkIn: Day, checkOut: Day, low: int) {
    && low <= room.total
    && (forall d | d in room.nights && checkIn <= d < checkOut :: low <= room.nights[d])
    && (low != room.total ==> exists d :: d in room.nights && checkIn <= d < checkOut && low == room.nights[d])
  }

  lemma LeastRowIsScarcest(st: Stock, r: Id, checkIn: Day, checkOut: Day, low: int)
    requires r in st.rooms && LeastRow(st.rooms[r], checkIn, checkOut, low)
    ensures low == ScarcestNight(st, r, checkIn, checkOut)
  {
    ScarcestNightIsMin(st, r, checkIn, checkOut, low);
    ScarcestNightIsMin(st, r, checkIn, checkOut, ScarcestNight(st, r, checkIn, checkOut));
    if low != st.rooms[r].total {
      var d :| d in st.rooms[r].nights && checkIn <= d < checkOut && low == st.rooms[r].nights[d];
      assert Level(st, NightOf(r, d)) == low;
    }
  }

  /** The room count of each room, lowered by every stored row of the stay. */
  method LowerByRows(rooms: map<Id, Room>, ids: seq<Id>, checkIn: Day, checkOut: Day)
    returns (available: map<Id, int>)
    requires forall r | r in ids :: r in rooms
    ensures available.Keys == set r | r in ids
    ensures forall r | r in ids :: LeastRow(rooms[r], checkIn, checkOut, available[r])
  {
    available := map r | r in ids :: rooms[r].total;
    var pending := set r, d | r in ids && d in rooms[r].nights.Keys && checkIn <= d < checkOut :: (r, d);
    ghost var rows := pending;
    while pending != {}
      invariant pending <= rows
      invariant available.Keys == set r | r in ids
      invariant forall r | r in ids :: available[r] <= rooms[r].total
      invariant forall k | k in rows - pending :: available[k.0] <= rooms[k.0].nights[k.1]
      invariant forall r | r in ids && available[r] != rooms[r].total ::
        (exists d :: (r, d) in rows && available[r] == rooms[r].nights[d])
      decreases |pending|
    {
      var k :| k in pending;
      pending := pending - {k};
      available := available[k.0 := Min(available[k.0], rooms[k.0].nights[k.1])];
    }
    forall r | r in ids ensures LeastRow(rooms[r], checkIn, checkOut, available[r]) {
      forall d | d in rooms[r].nights && checkIn <= d < checkOut ensures available[r] <= rooms[r].nights[d] {
        assert (r, d) in rows - pending;
      }
    }
  }
}
