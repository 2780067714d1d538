/** Safety over whole runs: the properties of every reachable state and of every pair of states
    along a run. */
module LifecycleTheorems {
  import opened Basics
  import opened Inventory
  import opened Lifecycle
  import opened LifecycleInvariant
  import opened LifecycleRuns
  import opened LifecycleLedger

  /** Everything that every step keeps: the row invariant, the requests in flight, the stock books. */
  ghost predicate Sane(s: State) {
    Inv(s) && LooksSound(s.bookings, s.looks) && Books(s)
  }

  lemma FreshKeeps(s: State)
    requires Fresh(s)
    ensures Sane(s)
  {
    forall u: Unit | Has(s.opening, u) ensures Has(s.stock, u) && Balanced(s, u) {
      assert Net(s, u) == 0 && Held(s, u) == 0;
    }
  }

  lemma StepKeepsSane(s: State, step: Step)
    requires Sane(s)
    ensures Sane(Apply(s, step))
  {
    StepKeeps(s, step);
    StepKeepsLooks(s, step);
    StepBooks(s, step);
  }

  lemma {:induction false} RunKeeps(s: State, steps: seq<Step>)
    requires Sane(s)
    ensures Sane(Run(s, steps))
  {
    if steps != [] {
      var n := |steps| - 1;
      RunKeeps(s, steps[..n]);
      StepKeepsSane(Run(s, steps[..n]), steps[n]);
    }
  }

  // ---- every reachable state ----

  lemma ReachableKeeps(s: State, t: State)
    requires Reachable(s, t)
    ensures Sane(t) && t.opening == s.stock
  {
    var steps :| Run(s, steps) == t;
    FreshKeeps(s);
    RunKeeps(s, steps);
    OpeningFixed(s, steps);
  }

  /** Voucher safety: whoever can see a voucher has a paid payment that covers the current price. */
  lemma VoucherSafety(s: State, t: State, b: nat)
    requires Reachable(s, t) && b < |t.bookings| && HasVoucher(t.bookings[b])
    ensures exists p | 0 <= p < |t.payments| ::
      t.payments[p].booking == b && t.payments[p].status == PayPaid && t.payments[p].amount >= t.bookings[b].final
  {
    ReachableKeeps(s, t);
    assert HasPaidPayment(t.payments, b);
  }

  /** A payment is refunded exactly when one of its refunds is processed, and no refund exceeds it. */
  lemma RefundsBacked(s: State, t: State, p: nat)
    requires Reachable(s, t) && p < |t.payments|
    ensures t.payments[p].status == PayRefunded <==> HasProcessedRefund(t.refunds, p)
    ensures forall r | 0 <= r < |t.refunds| && t.refunds[r].payment == p ::
      t.refunds[r].amount <= t.payments[p].amount && t.payments[p].status in {PayPaid, PayRefunded}
  {
    ReachableKeeps(s, t);
  }

  /** Callbacks and the sweep together release a booking at most once, and not at all while it is
      pending; a pending booking is unpaid, has an expiry and only pending payments. */
  lemma OneAutomaticRelease(s: State, t: State, b: nat)
    requires Reachable(s, t) && b < |t.bookings|
    ensures b < |t.tallies| && t.tallies[b].byCallback + t.tallies[b].bySweep <= 1
    ensures t.bookings[b].status == Pending ==>
      && t.bookings[b].payStatus == PayPending && t.bookings[b].expiresAt.Some? && t.tallies[b].Total() == 0
      && forall p | 0 <= p < |t.payments| && t.payments[p].booking == b :: t.payments[p].status == PayPending
  {
    ReachableKeeps(s, t);
  }

  /** The coupon books balance: counters count usage rows, limits hold, and a booking carries a
      coupon exactly when the usage row exists. */
  lemma CouponBalance(s: State, t: State, code: string, b: nat)
    requires Reachable(s, t) && code in t.coupons && b < |t.bookings|
    ensures t.coupons[code].used == UsesOf(t.usages, code)
    ensures t.coupons[code].limitTotal.Some? ==> t.coupons[code].used <= Max0(t.coupons[code].limitTotal.value)
    ensures t.coupons[code].limitPerUser.Some? ==>
              UsesBy(t.usages, code, t.bookings[b].user) <= Max0(t.coupons[code].limitPerUser.value)
    ensures t.bookings[b].coupon == Some(code) <==> UsedFor(t.usages, code, b)
    ensures 0 <= t.bookings[b].final <= t.bookings[b].base
  {
    ReachableKeeps(s, t);
    assert Priced(t.bookings[b]);
  }

  /** The stock ledger of every run: nothing goes below zero or above its ceiling; flight seats
      equal the opening seats less all bookings plus every release; a capped unit is at least the
      opening level less what unreleased bookings hold. */
  lemma StockLedger(s: State, t: State, u: Unit)
    requires Reachable(s, t) && Has(s.stock, u)
    ensures Aligned(t) && Has(t.stock, u) && t.opening == s.stock && Cap(t.stock, u) == Cap(s.stock, u)
    ensures 0 <= Level(t.stock, u) == Capped(Cap(s.stock, u), Level(t.stock, u))
    ensures u.SeatOf? ==> Level(t.stock, u) == Level(s.stock, u) - Net(t, u)
    ensures !u.SeatOf? ==> Level(t.stock, u) >= Level(s.stock, u) - Held(t, u)
  {
    ReachableKeeps(s, t);
    assert Balanced(t, u);
  }

  lemma {:induction false} OpeningFixed(s: State, steps: seq<Step>)
    requires Sane(s)
    ensures Run(s, steps).opening == s.opening
  {
    if steps != [] {
      var n := |steps| - 1;
      OpeningFixed(s, steps[..n]);
      RunKeeps(s, steps[..n]);
      StepKeeps(Run(s, steps[..n]), steps[n]);
    }
  }

  // ---- along a run ----

  /** What is left of the payment graph over several steps. */
  predicate PaymentReaches(a: PaymentStatus, b: PaymentStatus) {
    || a == b
    || (a == PayPending && b in {PayPaid, PayFailed, PayCancelled, PayRefunded})
    || (a == PayPaid && b == PayRefunded)
  }

  /** Rows only move forward: no payment, booking or refund ever goes back, and no payment changes
      its amount. */
  ghost predicate Forward(s: State, t: State) {
    && BookingsMove(s.bookings, t.bookings) && RefundsMove(s.refunds, t.refunds) && s.items <= t.items
    && |s.payments| <= |t.payments|
    && (forall p | 0 <= p < |s.payments| ::
          && t.payments[p] == s.payments[p].(status := t.payments[p].status)
          && PaymentReaches(s.payments[p].status, t.payments[p].status))
    && (forall k | k in s.callbacks :: k in t.callbacks && t.callbacks[k] == s.callbacks[k])
  }

  lemma ForwardStep(s: State, t: State, u: State)
    requires Forward(s, t) && Moves(t, u)
    ensures Forward(s, u)
  {
  }

  /** Payment, booking and refund lifecycles are acyclic under all services together: from any
      reachable state, any further run only moves rows forward, and no booking becomes pending
      again. */
  lemma {:induction false} LifecyclesAcyclic(s: State, steps: seq<Step>)
    requires Sane(s)
    ensures Forward(s, Run(s, steps))
  {
    if steps != [] {
      var n := |steps| - 1;
      LifecyclesAcyclic(s, steps[..n]);
      RunKeeps(s, steps[..n]);
      StepKeeps(Run(s, steps[..n]), steps[n]);
      ForwardStep(s, Run(s, steps[..n]), Run(s, steps));
    }
  }

  // ---- callbacks at most once ----

  ghost predicate Touches(s: State, t: State) {
    t.bookings != s.bookings || t.payments != s.payments || t.stock != s.stock || t.tallies != s.tallies
  }

  ghost predicate IsEffect(s: State, step: Step, key: (string, string)) {
    step.DoDeliver? && (step.delivery.gateway, step.delivery.txnRef) == key
    && Aligned(s) && Touches(s, Apply(s, step))
  }

  /** How many deliveries of one (gateway, transaction reference) changed a payment, a booking or
      the stock. */
  ghost function Effects(s: State, steps: seq<Step>, key: (string, string)): nat
    requires Aligned(s)
  {
    if steps == [] then 0
    else
      var n := |steps| - 1;
      Effects(s, steps[..n], key) + (if IsEffect(Run(s, steps[..n]), steps[n], key) then 1 else 0)
  }

  /** A delivery whose reference is already stored changes nothing, whichever path it takes; it is
      acknowledged exactly when it names the same payment with the same payload. */
  lemma DuplicateChangesNothing(s: State, d: Delivery)
    requires Aligned(s) && (d.gateway, d.txnRef) in s.callbacks
    ensures DeliverLocked(s, d).0 == s && ProcessCallback(s, d).0 == s
    ensures DeliverLocked(s, d).1.Ok? ==> ProcessCallback(s, d).1 == DeliverLocked(s, d).1
  {
  }

  /** One step has an effect for a reference only when it stores that reference. */
  lemma StepEffect(t: State, step: Step, key: (string, string))
    requires Aligned(t) && IsEffect(t, step, key)
    ensures key !in t.callbacks && key in Apply(t, step).callbacks
  {
    var d := step.delivery;
    if key in t.callbacks {
      DuplicateChangesNothing(t, d);
    }
    if DeliverLocked(t, d).1.Ok? {
      AcceptedIsStored(t, d);
    }
  }

  lemma CallbacksStay(s: State, step: Step)
    requires Sane(s)
    ensures forall k | k in s.callbacks :: k in Apply(s, step).callbacks
  {
    StepKeeps(s, step);
  }

  lemma {:induction false} EffectsBounded(s: State, steps: seq<Step>, key: (string, string))
    requires Sane(s)
    ensures Effects(s, steps, key) <=
            (if key in Run(s, steps).callbacks then 1 else 0) - (if key in s.callbacks then 1 else 0)
  {
    if steps != [] {
      var n := |steps| - 1;
      EffectsBounded(s, steps[..n], key);
      StepBound(s, steps[..n], steps[n], key);
    }
  }

  lemma StepBound(s: State, before: seq<Step>, step: Step, key: (string, string))
    requires Sane(s)
    ensures var t := Run(s, before);
      (if IsEffect(t, step, key) then 1 else 0) <=
      (if key in Apply(t, step).callbacks then 1 else 0) - (if key in t.callbacks then 1 else 0)
  {
    var t := Run(s, before);
    RunKeeps(s, before);
    CallbacksStay(t, step);
    if IsEffect(t, step, key) {
      StepEffect(t, step, key);
    }
  }

  /** In some run from the fresh state `s`, `n` deliveries of one reference have an effect. */
  ghost predicate SomeRunHasEffects(s: State, key: (string, string), n: nat) {
    Fresh(s) && exists steps :: Effects(s, steps, key) == n
  }

  /** However deliveries of one reference interleave with each other and with everything else, at
      most one of them has an effect. */
  lemma CallbackAtMostOnce(s: State, key: (string, string), n: nat)
    requires SomeRunHasEffects(s, key, n)
    ensures n <= 1
  {
    var steps :| Effects(s, steps, key) == n;
    FreshKeeps(s);
    EffectsBounded(s, steps, key);
  }

  lemma RefIsUnique(s: State, p: nat)
    requires Inv(s) && p < |s.payments|
    ensures FindByRef(s.payments, s.payments[p].orderRef) == Some(p)
  {
  }

  lemma StoredIsAcknowledged(t: State, p: nat, d: Delivery)
    requires Inv(t) && p < |t.payments| && t.payments[p].orderRef == d.orderRef
    requires (d.gateway, d.txnRef) in t.callbacks && t.callbacks[(d.gateway, d.txnRef)] == Callback(p, d)
    ensures ProcessCallback(t, d) == (t, Ok(p))
  {
    RefIsUnique(t, p);
  }

  lemma AcceptedIsStored(s: State, d: Delivery)
    requires Aligned(s) && DeliverLocked(s, d).1.Ok? && (d.gateway, d.txnRef) !in s.callbacks
    ensures var (t, r) := DeliverLocked(s, d);
      && r.value < |t.payments| && t.payments[r.value].orderRef == d.orderRef
      && (d.gateway, d.txnRef) in t.callbacks && t.callbacks[(d.gateway, d.txnRef)] == Callback(r.value, d)
  {
  }

  /** A gateway that repeats an accepted notification, at any later time, is told again that it was
      accepted, and nothing changes. */
  lemma RedeliveryAcknowledged(s: State, d: Delivery, later: seq<Step>)
    requires Sane(s) && (d.gateway, d.txnRef) !in s.callbacks
    requires DeliverLocked(s, d).1.Ok?
    ensures var t := Run(DeliverLocked(s, d).0, later);
      ProcessCallback(t, d) == (t, DeliverLocked(s, d).1)
  {
    var (s1, r) := DeliverLocked(s, d);
    DeliverKeeps(s, d);
    DeliverBooks(s, d);
    AcceptedIsStored(s, d);
    LifecyclesAcyclic(s1, later);
    RunKeeps(s1, later);
    StoredIsAcknowledged(Run(s1, later), r.value, d);
  }
}
