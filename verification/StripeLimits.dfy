/** A run that strands a payment: a whole price, a half-price coupon, a Stripe payment, and the honest
    webhook that can never confirm it. */
module StripeLimits {
  import opened Basics
  import opened Inventory
  import opened CouponAmounts
  import opened Lifecycle
  import opened LifecycleLimits
  import opened StripeAmounts

  /** A flight at 101 dong and a coupon for half the price. */
  function OnSale(): State {
    var stock := Stock(map[0 := Flight(1, true, 10_100)], map[], map[]);
    State([], [], [], [], map[], map["HALF" := HalfPrice(0)], [], stock, stock, [], [])
  }

  function HalfPrice(used: int): Coupon {
    Coupon(true, None, None, FlightProduct, Percentage, 5_000, None, 0, None, None, used)
  }

  /** The one booking, with or without the coupon, and its payment if there is one. */
  function Sold(coupon: Option<string>, discount: int, usages: seq<Usage>, looks: seq<Look>, payments: seq<Payment>)
    : State
  {
    OnSale().(
      bookings := [Booking("BK-1", 7, Pending, PayPending, 10_100, discount, 10_100 - discount, CURRENCY, coupon,
                           Some(1800))],
      items := [[FlightItem(0, 1)]], tallies := [Tally(0, 0, 0)],
      stock := Stock(map[0 := Flight(0, true, 10_100)], map[], map[]),
      coupons := map["HALF" := HalfPrice(|usages|)], usages := usages, looks := looks, payments := payments)
  }

  const HALF_LOOK := Look(0, Stripe, "k", 5_050, CURRENCY, true)
  const HALF_PAYMENT := Payment(0, Stripe, PayPending, 5_050, CURRENCY, "PAY-BK-1-k", "k", 10)
  const USAGE := Usage("HALF", 7, 0)

  function Booked1(): State { Sold(None, 0, [], [], []) }
  function Discounted(): State { Sold(Some("HALF"), 5_050, [USAGE], [], []) }
  function Looked(): State { Sold(Some("HALF"), 5_050, [USAGE], [HALF_LOOK], []) }
  function Stranded(): State { Sold(Some("HALF"), 5_050, [USAGE], [HALF_LOOK], [HALF_PAYMENT]) }

  lemma BookIt()
    ensures Apply(OnSale(), BOOK) == Booked1()
  {
  }

  lemma HalfOff()
    ensures Discount(Percentage, 5_000, None, 10_100) == 5_050
  {
  }

  lemma DiscountIt()
    ensures Apply(Booked1(), DoCoupon(0, 7, "HALF", 5)) == Discounted()
  {
    HalfOff();
    assert BookingProduct([FlightItem(0, 1)]) == Ok(FlightProduct);
    assert ApplyCoupon(Booked1(), 0, 7, "HALF", 5).1.Ok?;
    assert map["HALF" := HalfPrice(0)]["HALF" := HalfPrice(1)] == map["HALF" := HalfPrice(1)];
  }

  lemma LookAtIt()
    ensures Apply(Discounted(), DoLook(0, 7, Stripe, "k", 10, {Stripe})) == Looked()
  {
  }

  lemma ReferenceText()
    ensures OrderRef("BK-1", "k") == "PAY-BK-1-k"
  {
  }

  lemma InsertIt()
    ensures Apply(Looked(), DoInsert(0, 10)) == Stranded()
  {
    ReferenceText();
  }

  lemma StrandedRun()
    ensures Reachable(OnSale(), Stranded())
  {
    ReachableStart(OnSale());
    BookIt();
    ReachableNext(OnSale(), OnSale(), BOOK, Booked1());
    DiscountIt();
    ReachableNext(OnSale(), Booked1(), DoCoupon(0, 7, "HALF", 5), Discounted());
    LookAtIt();
    ReachableNext(OnSale(), Discounted(), DoLook(0, 7, Stripe, "k", 10, {Stripe}), Looked());
    InsertIt();
    ReachableNext(OnSale(), Looked(), DoInsert(0, 10), Stranded());
  }

  // ---- the webhook ----

  /** Stripe was asked for 50 and reports that 50 were received. */
  const WEBHOOK := Event("payment_intent.succeeded", "PAY-BK-1-k", "vnd", Some(50), Some(50), "ch_1", "pi_1")
  const REPORT := Delivery("stripe", "PAY-BK-1-k", "ch_1", "50.00", Some(50.0), "VND", "paid")

  lemma AmountText()
    ensures Format(5_000) == "50.00" && Parse("50.00") == Some(50.0)
  {
    assert Digits(5) == "5";
    assert Digits(50) == "50";
    FormatRead(5_000);
  }

  lemma ReferenceStrips()
    ensures Strip("PAY-BK-1-k") == "PAY-BK-1-k"
  {
  }

  lemma WebhookReads()
    ensures ReadWebhook(WEBHOOK) == Ok(REPORT)
  {
    assert Upper("vnd") == "VND" && Upper("VND") == "VND";
    ReferenceStrips();
    ChargeStrips();
    AmountText();
    assert FromMinor(50, "VND") == 5_000;
  }

  lemma WebhookEchoes()
    ensures Echoes(WEBHOOK, HALF_PAYMENT)
  {
    assert Lower("VND") == "vnd" && Upper("VND") == "VND";
    StoredAmountIsExact(5_050);
    assert WholePart(5_050) == 50;
  }

  /** From a whole price to a stranded payment: the booking costs 50.50 dong, Stripe is asked for 50, and
      its honest webhook is refused as a mismatch and changes nothing. */
  lemma CouponStrandsPayment()
    ensures Reachable(OnSale(), Stranded()) && Stranded().payments == [HALF_PAYMENT]
    ensures Echoes(WEBHOOK, HALF_PAYMENT) && ReadWebhook(WEBHOOK) == Ok(REPORT) && HonestReport(HALF_PAYMENT, REPORT)
    ensures DeliverLocked(Stranded(), REPORT) == (Stranded(), Err(Validation))
  {
    StrandedRun();
    WebhookReads();
    WebhookEchoes();
    Refused();
  }

  lemma Reported()
    ensures HonestReport(HALF_PAYMENT, REPORT)
  {
    WebhookReads();
    WebhookEchoes();
  }

  lemma StrandedFound()
    ensures FindByRef(Stranded().payments, "PAY-BK-1-k") == Some(0) && ZeroDecimal(CURRENCY)
  {
    assert Upper("VND") == "VND";
  }

  lemma Refused()
    ensures HonestReport(HALF_PAYMENT, REPORT)
    ensures DeliverLocked(Stranded(), REPORT) == (Stranded(), Err(Validation))
  {
    Reported();
    StrandedFound();
    StrandedIsRefused(Stranded(), 0, REPORT);
  }
}
