/** What the expiry sweep does, booking by booking and payment by payment, stated from the rows and the
    clock alone. */
module LifecycleSweep {
  import opened Basics
  import opened Sorting
  import opened Lifecycle
  import opened LifecycleRuns
  import opened LifecycleAnswers

  predicate Distinct(ids: seq<nat>) {
    forall i, j | 0 <= i < j < |ids| :: ids[i] != ids[j]
  }

  function Swept(row: Booking): Booking {
    row.(status := Expired, payStatus := PayCancelled, expiresAt := None)
  }

  /** Payment `p` is what a sweep cancels of booking `b`. */
  ghost predicate Cancels(payments: seq<Payment>, p: nat, b: nat) {
    NewestPayment(payments, p, b) && payments[p].status == PayPending
  }

  lemma TurnPayments(s: State, b: nat, p: nat)
    requires Aligned(s) && b < |s.bookings| && p < |s.payments|
    ensures var t := ExpireOne(s, b);
      && |t.payments| == |s.payments|
      && t.payments[p] == if Cancels(s.payments, p, b) then s.payments[p].(status := PayCancelled) else s.payments[p]
  {
    LatestPaymentIff(s, b, p);
    assert LatestPayment(s, b) == Latest(s.payments, (x: Payment) => x.booking, (x: Payment) => x.createdAt, b);
  }

  /** Which payment is the newest does not depend on statuses. */
  ghost predicate SameButStatus(a: seq<Payment>, b: seq<Payment>) {
    |a| == |b| && forall p | 0 <= p < |a| :: b[p] == a[p].(status := b[p].status)
  }

  lemma NewestStays(a: seq<Payment>, c: seq<Payment>, p: nat, b: nat)
    requires SameButStatus(a, c)
    ensures NewestPayment(a, p, b) <==> NewestPayment(c, p, b)
  {
    if NewestPayment(a, p, b) {
      forall q | 0 <= q < |c| && c[q].booking == b
        ensures c[q].createdAt < c[p].createdAt || (c[q].createdAt == c[p].createdAt && q <= p)
      {
        assert a[q].booking == b;
      }
    }
    if NewestPayment(c, p, b) {
      forall q | 0 <= q < |a| && a[q].booking == b
        ensures a[q].createdAt < a[p].createdAt || (a[q].createdAt == a[p].createdAt && q <= p)
      {
        assert c[q].booking == b;
      }
    }
  }

  lemma TurnSame(s: State, b: nat)
    requires Aligned(s) && b < |s.bookings|
    ensures SameButStatus(s.payments, ExpireOne(s, b).payments)
  {
    forall p | 0 <= p < |s.payments|
      ensures |ExpireOne(s, b).payments| == |s.payments|
      ensures ExpireOne(s, b).payments[p] == s.payments[p].(status := ExpireOne(s, b).payments[p].status)
    {
      TurnPayments(s, b, p);
    }
  }

  /** The whole loop, booking by booking. */
  lemma {:induction false} LoopBookings(s: State, ids: seq<nat>, b: nat)
    requires Aligned(s) && Distinct(ids) && (forall i | 0 <= i < |ids| :: ids[i] < |s.bookings|)
    requires b < |s.bookings|
    ensures var t := ExpireAll(s, ids);
      && t.bookings[b] == (if b in ids then Swept(s.bookings[b]) else s.bookings[b])
      && t.tallies[b] == if b in ids then s.tallies[b].(bySweep := s.tallies[b].bySweep + 1) else s.tallies[b]
    decreases |ids|
  {
    if ids != [] {
      ExpireOneChange(s, ids[0]);
      LoopBookings(ExpireOne(s, ids[0]), ids[1..], b);
    }
  }

  /** The whole loop, payment by payment. */
  lemma {:induction false} LoopPayments(s: State, ids: seq<nat>, p: nat)
    requires Aligned(s) && Distinct(ids) && (forall i | 0 <= i < |ids| :: ids[i] < |s.bookings|)
    requires p < |s.payments|
    ensures var t := ExpireAll(s, ids);
      && |t.payments| == |s.payments|
      && t.payments[p] ==
           if s.payments[p].booking in ids && Cancels(s.payments, p, s.payments[p].booking)
           then s.payments[p].(status := PayCancelled) else s.payments[p]
    decreases |ids|
  {
    if ids != [] {
      var s1 := ExpireOne(s, ids[0]);
      TurnPayments(s, ids[0], p);
      TurnSame(s, ids[0]);
      NewestStays(s.payments, s1.payments, p, s.payments[p].booking);
      LoopPayments(s1, ids[1..], p);
    }
  }

  lemma {:induction false} LoopRest(s: State, ids: seq<nat>)
    requires Aligned(s) && forall i | 0 <= i < |ids| :: ids[i] < |s.bookings|
    ensures var t := ExpireAll(s, ids);
      t == s.(bookings := t.bookings, tallies := t.tallies, stock := t.stock, payments := t.payments)
    decreases |ids|
  {
    if ids != [] {
      ExpireOneChange(s, ids[0]);
      LoopRest(ExpireOne(s, ids[0]), ids[1..]);
    }
  }

  /** The bookings of a sweep: all of them pending and unpaid with a hold that has run out, and each such
      booking is among them unless the batch is full of bookings whose hold ran out no later. */
  lemma Chosen(bookings: seq<Booking>, now: int, b: nat)
    requires b < |bookings|
    ensures var ids := ExpiredPending(bookings, now, SWEEP_LIMIT);
      && |ids| <= 100 && Distinct(ids)
      && (forall i | 0 <= i < |ids| ::
            && ids[i] < |bookings| && bookings[ids[i]].status == Pending && bookings[ids[i]].payStatus == PayPending
            && bookings[ids[i]].expiresAt.Some? && bookings[ids[i]].expiresAt.value <= now)
      && (bookings[b].status == Pending && bookings[b].payStatus == PayPending
          && bookings[b].expiresAt.Some? && bookings[b].expiresAt.value <= now ==>
            || b in ids
            || (|ids| == 100
                && forall i | 0 <= i < |ids| :: bookings[ids[i]].expiresAt.value <= bookings[b].expiresAt.value))
  {
    ExpiredAreDue(bookings, now, SWEEP_LIMIT);
    var due := DueBookings(bookings, now);
    if IsDue(bookings[b], now) {
      var n :| 0 <= n < |due| && due[n] == b;
      var key := (x: nat) => ExpiryKey(bookings, x);
      TopIsLeast(due, key, SWEEP_LIMIT, n);
      var ids := ExpiredPending(bookings, now, SWEEP_LIMIT);
      if b !in ids {
        forall i | 0 <= i < |ids| ensures bookings[ids[i]].expiresAt.value <= bookings[b].expiresAt.value {
          assert ids[i] in ids;
          assert key(ids[i]) <= key(b);
        }
      }
    }
  }

  lemma SweepLength(s: State, now: int)
    requires Aligned(s)
    ensures |Sweep(s, now).bookings| == |s.bookings|
  {
  }

  /** A booking that is not pending and unpaid, has no expiry, or whose hold has not run out, is left alone
      by the sweep, and so are its tally and its payments. */
  lemma SweepSpares(s: State, now: int, b: nat)
    requires Aligned(s) && b < |s.bookings|
    requires s.bookings[b].status != Pending || s.bookings[b].payStatus != PayPending
             || s.bookings[b].expiresAt.None? || now < s.bookings[b].expiresAt.value
    ensures |Sweep(s, now).bookings| == |s.bookings|
    ensures Sweep(s, now).bookings[b] == s.bookings[b] && Sweep(s, now).tallies[b] == s.tallies[b]
  {
    var ids := ExpiredPending(s.bookings, now, SWEEP_LIMIT);
    Chosen(s.bookings, now, b);
    LoopBookings(s, ids, b);
  }

  /** The sweep has closed booking `b`. */
  predicate ClosedBy(s: State, t: State, b: nat)
    requires Aligned(s) && Aligned(t)
  {
    && b < |s.bookings| && b < |t.bookings|
    && t.bookings[b] == s.bookings[b].(status := Expired, payStatus := PayCancelled, expiresAt := None)
    && t.tallies[b] == s.tallies[b].(bySweep := s.tallies[b].bySweep + 1)
  }

  /** A hundred other bookings whose holds ran out no later than `b`'s were closed instead. */
  ghost predicate OustedBy(s: State, t: State, b: nat, others: set<nat>)
    requires Aligned(s) && Aligned(t) && b < |s.bookings| && s.bookings[b].expiresAt.Some?
  {
    && |others| == 100 && b !in others
    && forall c | c in others ::
         && ClosedBy(s, t, c) && s.bookings[c].status == Pending && s.bookings[c].expiresAt.Some?
         && s.bookings[c].expiresAt.value <= s.bookings[b].expiresAt.value
  }

  /** A pending, unpaid booking whose hold has run out is closed by the sweep, unless a hundred others whose
      holds ran out no later are closed instead; then it stays as it was for the next sweep. */
  lemma SweepCloses(s: State, now: int, b: nat)
    requires Aligned(s) && b < |s.bookings|
    requires s.bookings[b].status == Pending && s.bookings[b].payStatus == PayPending
    requires s.bookings[b].expiresAt.Some? && s.bookings[b].expiresAt.value <= now
    ensures var t := Sweep(s, now);
      || ClosedBy(s, t, b)
      || (&& |t.bookings| == |s.bookings| && t.bookings[b] == s.bookings[b] && t.tallies[b] == s.tallies[b]
          && exists others: set<nat> :: OustedBy(s, t, b, others))
  {
    var ids := ExpiredPending(s.bookings, now, SWEEP_LIMIT);
    var t := Sweep(s, now);
    Chosen(s.bookings, now, b);
    LoopBookings(s, ids, b);
    if b !in ids {
      forall c | c in ids
        ensures ClosedBy(s, t, c) && s.bookings[c].status == Pending && s.bookings[c].expiresAt.Some?
        ensures s.bookings[c].expiresAt.value <= s.bookings[b].expiresAt.value
      {
        var i :| 0 <= i < |ids| && ids[i] == c;
        LoopBookings(s, ids, c);
      }
      DistinctSize(ids);
      assert OustedBy(s, t, b, Members(ids));
    }
  }

  /** The bookings that differ between two states. */
  function Changed(s: State, t: State): set<nat>
    requires |s.bookings| == |t.bookings|
  {
    set b: nat | b < |s.bookings| && t.bookings[b] != s.bookings[b]
  }

  lemma LoopCount(s: State, ids: seq<nat>)
    requires Aligned(s) && Distinct(ids)
    requires forall i | 0 <= i < |ids| :: ids[i] < |s.bookings| && s.bookings[ids[i]].status == Pending
    ensures |Changed(s, ExpireAll(s, ids))| == |ids|
  {
    var changed := Changed(s, ExpireAll(s, ids));
    forall b: nat ensures b in changed <==> b in Members(ids) {
      if b in ids {
        var i :| 0 <= i < |ids| && ids[i] == b;
        assert ids[i] < |s.bookings|;
      }
      if b < |s.bookings| {
        LoopBookings(s, ids, b);
      }
    }
    assert changed == Members(ids);
    DistinctSize(ids);
  }

  /** A sweep closes at most a hundred bookings, and touches nothing but bookings, payments and stock. */
  lemma SweepBounded(s: State, now: int)
    requires Aligned(s)
    ensures var t := Sweep(s, now);
      && |t.bookings| == |s.bookings|
      && |Changed(s, t)| == |ExpiredPending(s.bookings, now, SWEEP_LIMIT)| <= 100
      && t == s.(bookings := t.bookings, tallies := t.tallies, stock := t.stock, payments := t.payments)
  {
    var ids := ExpiredPending(s.bookings, now, SWEEP_LIMIT);
    ExpiredAreDue(s.bookings, now, SWEEP_LIMIT);
    LoopRest(s, ids);
    LoopCount(s, ids);
  }

  /** Of the payments, a sweep cancels exactly the open one that is the newest of a booking it closes. */
  lemma SweepPayments(s: State, now: int, p: nat)
    requires Aligned(s) && p < |s.payments| && s.payments[p].booking < |s.bookings|
    ensures var t := Sweep(s, now);
      && |t.payments| == |s.payments|
      && t.payments[p] ==
           if ClosedBy(s, t, s.payments[p].booking) && NewestPayment(s.payments, p, s.payments[p].booking)
              && s.payments[p].status == PayPending
           then s.payments[p].(status := PayCancelled) else s.payments[p]
  {
    var ids := ExpiredPending(s.bookings, now, SWEEP_LIMIT);
    ExpiredAreDue(s.bookings, now, SWEEP_LIMIT);
    LoopBookings(s, ids, s.payments[p].booking);
    LoopPayments(s, ids, p);
  }

  /** The payments that differ between two tables. */
  function ChangedPayments(before: seq<Payment>, after: seq<Payment>): set<nat>
    requires |before| == |after|
  {
    set p: nat | p < |before| && after[p] != before[p]
  }

  /** Changes so far are cancellations, so cancelling an open payment is one more. */
  lemma OneMoreCancelled(before: seq<Payment>, now: seq<Payment>, p: nat)
    requires |before| == |now| && p < |now| && now[p].status == PayPending
    requires forall q | 0 <= q < |now| :: now[q] == before[q] || now[q].status == PayCancelled
    ensures var after := now[p := now[p].(status := PayCancelled)];
      && |ChangedPayments(before, after)| == |ChangedPayments(before, now)| + 1
      && forall q | 0 <= q < |after| :: after[q] == before[q] || after[q].status == PayCancelled
  {
    var after := now[p := now[p].(status := PayCancelled)];
    assert ChangedPayments(before, after) == ChangedPayments(before, now) + {p};
  }
}
