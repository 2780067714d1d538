/** Stripe amounts of backend/app/services/payment_gateway_service.py: the amount sent to the gateway in
    minor units, the amount text made from a webhook, and what the callback check then says. A stored
    amount is a whole number of hundredths. */
module StripeAmounts {
  import opened Basics
  import opened Lifecycle
  import opened LifecycleAnswers

  const ZERO_DECIMAL: set<string> := {
    "BIF", "CLP", "DJF", "GNF", "JPY", "KMF", "KRW", "MGA", "PYG", "RWF", "UGX", "VND", "VUV", "XAF",
    "XOF", "XPF"
  }

  predicate ZeroDecimal(currency: string) {
    Upper(currency) in ZERO_DECIMAL
  }

  /** Decimal.quantize(Decimal("0.01"), ROUND_HALF_UP), as hundredths: ties go away from zero. */
  function QuantizeHalfUp(x: real): int {
    if x >= 0.0 then (x * 100.0 + 0.5).Floor else -((-x * 100.0 + 0.5).Floor)
  }

  /** Python's `int` on a decimal of `hundredths`: truncation towards zero. */
  function WholePart(hundredths: int): int {
    if hundredths >= 0 then hundredths / 100 else -((-hundredths) / 100)
  }

  /** `_to_minor_units`. */
  function ToMinor(amount: real, currency: string): int {
    var hundredths := QuantizeHalfUp(amount);
    if ZeroDecimal(currency) then WholePart(hundredths) else hundredths
  }

  /** `_from_minor_units`, as hundredths. */
  function FromMinor(minor: int, currency: string): int {
    if ZeroDecimal(currency) then minor * 100 else minor
  }

  function Abs(x: real): real {
    if x >= 0.0 then x else -x
  }

  lemma HalfUpIsNearest(x: real)
    ensures Abs(QuantizeHalfUp(x) as real - x * 100.0) <= 0.5
    ensures QuantizeHalfUp(x) as real == x * 100.0 <==> ((x * 100.0).Floor as real == x * 100.0)
    ensures Abs(QuantizeHalfUp(x) as real - x * 100.0) == 0.5 ==> Abs(QuantizeHalfUp(x) as real) > Abs(x * 100.0)
  {
  }

  /** There and back: the amount survives exactly when it has no more than two decimals and, in a
      zero-decimal currency, none. What is lost otherwise stays below one unit and half a hundredth,
      and below half a hundredth alone in a currency with decimals. */
  lemma MinorUnitsRoundTrip(x: real, currency: string)
    ensures var back := FromMinor(ToMinor(x, currency), currency);
      && (back as real == x * 100.0 <==>
            (x * 100.0).Floor as real == x * 100.0 &&
            (ZeroDecimal(currency) ==> x.Floor as real == x))
      && Abs(back as real - x * 100.0) < 100.0 + 0.5
      && (!ZeroDecimal(currency) ==> Abs(back as real - x * 100.0) <= 0.5)
  {
    HalfUpIsNearest(x);
    var h := QuantizeHalfUp(x);
    var back := FromMinor(ToMinor(x, currency), currency);
    if ZeroDecimal(currency) {
      WholePartLoss(h);
      if h as real == x * 100.0 {
        WholeIffDivisible(x, h);
      }
    }
  }

  lemma WholePartLoss(h: int)
    ensures -100 < h - WholePart(h) * 100 < 100
    ensures WholePart(h) * 100 == h <==> h % 100 == 0
    ensures h >= 0 ==> WholePart(h) * 100 <= h
    ensures h <= 0 ==> WholePart(h) * 100 >= h
  {
  }

  lemma WholeIffDivisible(x: real, h: int)
    requires h as real == x * 100.0
    ensures x.Floor as real == x <==> h % 100 == 0
  {
    if h % 100 == 0 {
      assert x == (h / 100) as real;
    }
    if x.Floor as real == x {
      assert h == x.Floor * 100;
    }
  }

  // ---- decimal text ----

  function Digit(d: nat): char
    requires d < 10
  {
    ('0' as int + d) as char
  }

  predicate IsDigit(c: char) {
    '0' <= c <= '9'
  }

  predicate AllDigits(text: string) {
    forall i | 0 <= i < |text| :: IsDigit(text[i])
  }

  function Digits(n: nat): string {
    if n < 10 then [Digit(n)] else Digits(n / 10) + [Digit(n % 10)]
  }

  function Number(text: string): nat
    requires AllDigits(text)
  {
    if text == [] then 0
    else 10 * Number(text[..|text| - 1]) + (text[|text| - 1] as int - '0' as int)
  }

  /** `_format_decimal`: the value with exactly two decimals. */
  function Format(hundredths: int): string {
    if hundredths < 0 then "-" + FormatMagnitude(-hundredths) else FormatMagnitude(hundredths)
  }

  function FormatMagnitude(n: nat): string {
    Digits(n / 100) + ['.', Digit(n / 10 % 10), Digit(n % 10)]
  }

  /** The index of the first point, or the length. */
  function PointAt(text: string): (k: nat)
    ensures k <= |text| && (k < |text| ==> text[k] == '.')
  {
    if text == [] || text[0] == '.' then 0 else 1 + PointAt(text[1..])
  }

  /** Plain decimal numerals, as Python's Decimal reads them: a sign, digits, a point, digits. */
  function Parse(text: string): Option<real> {
    if text != [] && text[0] == '-' then
      (match ParseMagnitude(text[1..]) case Some(x) => Some(-x) case None => None)
    else if text != [] && text[0] == '+' then ParseMagnitude(text[1..])
    else ParseMagnitude(text)
  }

  function ParseMagnitude(text: string): Option<real> {
    var k := PointAt(text);
    var fraction := if k < |text| then text[k + 1..] else [];
    var digits := text[..k] + fraction;
    if digits == [] || !AllDigits(digits) then None
    else Some(Number(digits) as real / TenTo(|fraction|))
  }

  function TenTo(n: nat): (r: real)
    ensures r > 0.0
  {
    if n == 0 then 1.0 else 10.0 * TenTo(n - 1)
  }

  lemma {:induction false} DigitsRead(n: nat)
    ensures AllDigits(Digits(n)) && Number(Digits(n)) == n && Digits(n) != []
  {
    if n >= 10 {
      DigitsRead(n / 10);
      assert Digits(n)[..|Digits(n)| - 1] == Digits(n / 10);
    } else {
      assert Digits(n)[..0] == [];
    }
  }

  lemma {:induction false} PointAfterDigits(digits: string, rest: string)
    requires AllDigits(digits)
    ensures PointAt(digits + ['.'] + rest) == |digits|
  {
    var text := digits + ['.'] + rest;
    if digits != [] {
      PointAfterDigits(digits[1..], rest);
      assert text[0] == digits[0] && IsDigit(digits[0]);
      assert text[1..] == digits[1..] + ['.'] + rest;
    }
  }

  lemma NumberTwoMore(text: string, a: nat, b: nat)
    requires AllDigits(text) && a < 10 && b < 10
    ensures AllDigits(text + [Digit(a), Digit(b)])
    ensures Number(text + [Digit(a), Digit(b)]) == 100 * Number(text) + 10 * a + b
  {
    var longer := text + [Digit(a), Digit(b)];
    assert longer[..|longer| - 1] == text + [Digit(a)];
    assert (text + [Digit(a)])[..|text|] == text;
  }

  lemma TwoPlaces()
    ensures TenTo(2) == 100.0
  {
    assert TenTo(0) == 1.0 && TenTo(1) == 10.0;
  }

  /** The parts that the parser finds around the point. */
  lemma PointSplits(whole: string, a: nat, b: nat)
    requires AllDigits(whole) && a < 10 && b < 10
    ensures var text := whole + ['.', Digit(a), Digit(b)];
      && PointAt(text) == |whole| && text[..|whole|] == whole && text[|whole| + 1..] == [Digit(a), Digit(b)]
  {
    var text := whole + ['.', Digit(a), Digit(b)];
    assert text == whole + ['.'] + [Digit(a), Digit(b)];
    PointAfterDigits(whole, [Digit(a), Digit(b)]);
  }

  lemma ParseAt(text: string, whole: string, fraction: string, scale: real, n: nat)
    requires PointAt(text) == |whole| < |text| && text[..|whole|] == whole && text[|whole| + 1..] == fraction
    requires whole + fraction != [] && AllDigits(whole + fraction) && scale == TenTo(|fraction|) && scale > 0.0
    requires Number(whole + fraction) == n
    ensures ParseMagnitude(text) == Some(n as real / scale)
  {
  }

  lemma DecimalRead(whole: string, a: nat, b: nat, text: string)
    requires AllDigits(whole) && a < 10 && b < 10 && text == whole + ['.', Digit(a), Digit(b)]
    ensures ParseMagnitude(text) == Some((100 * Number(whole) + 10 * a + b) as real / 100.0)
  {
    PointSplits(whole, a, b);
    NumberTwoMore(whole, a, b);
    TwoPlaces();
    ParseAt(text, whole, [Digit(a), Digit(b)], 100.0, 100 * Number(whole) + 10 * a + b);
  }

  lemma HundredsTensOnes(n: nat)
    ensures 100 * (n / 100) + 10 * (n / 10 % 10) + n % 10 == n
  {
  }

  lemma MagnitudeRead(n: nat)
    ensures ParseMagnitude(FormatMagnitude(n)) == Some(n as real / 100.0)
    ensures IsDigit(FormatMagnitude(n)[0])
  {
    var whole := Digits(n / 100);
    DigitsRead(n / 100);
    HundredsTensOnes(n);
    NumeralRead(whole, n, n / 10 % 10, n % 10);
  }

  lemma NumeralRead(whole: string, n: nat, a: nat, b: nat)
    requires AllDigits(whole) && whole != [] && a < 10 && b < 10 && n == 100 * Number(whole) + 10 * a + b
    ensures var text := whole + ['.', Digit(a), Digit(b)];
      ParseMagnitude(text) == Some(n as real / 100.0) && IsDigit(text[0])
  {
    DecimalRead(whole, a, b, whole + ['.', Digit(a), Digit(b)]);
    assert (whole + ['.', Digit(a), Digit(b)])[0] == whole[0];
  }

  lemma SignedRead(magnitude: string)
    requires magnitude != [] && IsDigit(magnitude[0]) && ParseMagnitude(magnitude).Some?
    ensures Parse(magnitude) == ParseMagnitude(magnitude)
    ensures Parse("-" + magnitude) == Some(-ParseMagnitude(magnitude).value)
  {
    var text := "-" + magnitude;
    assert text[0] == '-' && text[1..] == magnitude;
  }

  /** Every amount is read back from its text. */
  lemma FormatRead(hundredths: int)
    ensures Parse(Format(hundredths)) == Some(hundredths as real / 100.0)
  {
    var n := if hundredths < 0 then -hundredths else hundredths;
    MagnitudeRead(n);
    SignedRead(FormatMagnitude(n));
  }

  // ---- the webhook ----

  /** The fields of a verified Stripe event that are read; absent ones are empty or None. */
  datatype Event = Event(
    kind: string, orderRef: string, currency: string, received: Option<int>, amount: Option<int>,
    charge: string, id: string)

  predicate Blank(c: char) {
    c == ' ' || c == '\t' || c == '\n' || c == '\r'
  }

  function StripLeft(text: string): string {
    if text != [] && Blank(text[0]) then StripLeft(text[1..]) else text
  }

  function Strip(text: string): string {
    var left := StripLeft(text);
    StripRight(left)
  }

  function StripRight(text: string): string {
    if text != [] && Blank(text[|text| - 1]) then StripRight(text[..|text| - 1]) else text
  }

  function EventStatus(kind: string): Option<string> {
    if kind == "payment_intent.succeeded" then Some("paid")
    else if kind == "payment_intent.payment_failed" then Some("failed")
    else if kind == "payment_intent.canceled" then Some("cancelled")
    else None
  }

  /** `_extract_stripe_amount_minor`. */
  function EventAmount(e: Event): Option<int> {
    var (first, second) :=
      if e.kind == "payment_intent.succeeded" then (e.received, e.amount) else (e.amount, e.received);
    if first.Some? then first else second
  }

  /** `parse_stripe_webhook` after the signature check. */
  function ReadWebhook(e: Event): Result<Delivery> {
    var status, minor := EventStatus(e.kind), EventAmount(e);
    var orderRef, currency := Strip(e.orderRef), Upper(e.currency);
    var txnRef := Strip(if e.charge != "" then e.charge else e.id);
    if status.None? || orderRef == "" || currency == "" || minor.None? || txnRef == "" then Err(Validation)
    else
      var text := Format(FromMinor(minor.value, currency));
      Ok(Delivery("stripe", orderRef, txnRef, text, Parse(text), currency, status.value))
  }

  /** `create_payment_session` sends the order reference, the amount in minor units and the currency in
      lower case; an honest gateway reports all of them unchanged. */
  predicate Echoes(e: Event, p: Payment) {
    && e.orderRef == p.orderRef && e.currency == Lower(p.currency)
    && EventAmount(e) == Some(ToMinor(p.amount as real / 100.0, p.currency))
  }

  lemma CaseFolds(text: string)
    ensures Upper(Lower(text)) == Upper(text) && Upper(Upper(text)) == Upper(text)
  {
    assert |Upper(Lower(text))| == |Upper(text)| == |Upper(Upper(text))|;
    forall i | 0 <= i < |text| ensures Upper(Lower(text))[i] == Upper(text)[i] == Upper(Upper(text))[i] {}
  }

  lemma StoredAmountIsExact(hundredths: int)
    ensures QuantizeHalfUp(hundredths as real / 100.0) == hundredths
  {
    assert hundredths as real / 100.0 * 100.0 == hundredths as real;
    HalfUpIsNearest(hundredths as real / 100.0);
  }

  /** The delivery made from an honest report: the payment's currency, and its amount as far as it
      survives the minor units. */
  lemma HonestDelivery(e: Event, p: Payment)
    requires Echoes(e, p) && ReadWebhook(e).Ok?
    ensures var d := ReadWebhook(e).value;
      && Upper(d.currency) == Upper(p.currency)
      && d.amount == Some(FromMinor(ToMinor(p.amount as real / 100.0, p.currency), p.currency) as real / 100.0)
      && EventStatus(e.kind) == Some(d.status)
  {
    CaseFolds(p.currency);
    FormatRead(FromMinor(EventAmount(e).value, ReadWebhook(e).value.currency));
  }

  lemma StoredAmountSurvivesIff(hundredths: int, currency: string)
    ensures FromMinor(ToMinor(hundredths as real / 100.0, currency), currency) == hundredths <==>
            !ZeroDecimal(currency) || hundredths % 100 == 0
  {
    StoredAmountIsExact(hundredths);
    WholePartLoss(hundredths);
  }

  lemma SameHundredths(back: int, hundredths: int)
    ensures SameAmount(Some(back as real / 100.0), hundredths) <==> back == hundredths
  {
  }

  /** A well-formed report of a pending payment is judged by its amount alone. */
  lemma AmountDecides(p: Payment, d: Delivery, hundredths: int)
    requires p.status == PayPending && Upper(d.currency) == Upper(p.currency) && NormalizeStatus(d.status).Ok?
    requires d.amount == Some(hundredths as real / 100.0)
    ensures ValidateCallback(p, d) ==
            if hundredths == p.amount then NormalizeStatus(d.status) else Err(Validation)
  {
    SameHundredths(hundredths, p.amount);
  }

  lemma EventStatusKnown(kind: string)
    requires EventStatus(kind).Some?
    ensures NormalizeStatus(EventStatus(kind).value).Ok?
  {
    StatusReads();
  }

  /** `d` was made from some honest report of `p`. */
  ghost predicate HonestReport(p: Payment, d: Delivery) {
    exists e :: Echoes(e, p) && ReadWebhook(e) == Ok(d)
  }

  /** An honest report of a pending payment passes the callback check exactly when the currency has
      decimals or the amount is whole; otherwise it is refused as an amount mismatch, whatever its
      status. */
  lemma HonestEchoAcceptedIff(p: Payment, d: Delivery)
    requires HonestReport(p, d) && p.status == PayPending
    ensures ValidateCallback(p, d) ==
            if !ZeroDecimal(p.currency) || p.amount % 100 == 0 then NormalizeStatus(d.status) else Err(Validation)
    ensures NormalizeStatus(d.status).Ok?
  {
    var e :| Echoes(e, p) && ReadWebhook(e) == Ok(d);
    HonestDelivery(e, p);
    EventStatusKnown(e.kind);
    HonestVerdict(p, d);
  }

  lemma HonestVerdict(p: Payment, d: Delivery)
    requires p.status == PayPending && Upper(d.currency) == Upper(p.currency) && NormalizeStatus(d.status).Ok?
    requires d.amount ==
             Some(FromMinor(ToMinor(p.amount as real / 100.0, p.currency), p.currency) as real / 100.0)
    ensures ValidateCallback(p, d) ==
            if !ZeroDecimal(p.currency) || p.amount % 100 == 0 then NormalizeStatus(d.status) else Err(Validation)
  {
    StoredAmountSurvivesIff(p.amount, p.currency);
    AmountDecides(p, d, FromMinor(ToMinor(p.amount as real / 100.0, p.currency), p.currency));
  }

  lemma StatusReads()
    ensures NormalizeStatus("paid") == Ok(PayPaid)
    ensures NormalizeStatus("failed") == Ok(PayFailed)
    ensures NormalizeStatus("cancelled") == Ok(PayCancelled)
  {
    assert Lower("paid") == "paid";
    assert Lower("failed") == "failed";
    assert Lower("cancelled") == "cancelled";
  }

  /** A complete event of a successful charge is read. */
  lemma CompleteIsRead(e: Event, minor: int)
    requires e.kind == "payment_intent.succeeded" && e.received == Some(minor) && e.charge == "ch_1"
    requires e.orderRef != "" && Strip(e.orderRef) == e.orderRef && e.currency != ""
    ensures EventAmount(e) == Some(minor)
    ensures ReadWebhook(e).Ok? && ReadWebhook(e).value.orderRef == e.orderRef
    ensures ReadWebhook(e).value.gateway == "stripe" && ReadWebhook(e).value.status == "paid"
  {
    ChargeStrips();
    assert |Upper(e.currency)| == |e.currency|;
  }

  function ChargeOf(p: Payment): Event {
    var minor := ToMinor(p.amount as real / 100.0, p.currency);
    Event("payment_intent.succeeded", p.orderRef, Lower(p.currency), Some(minor), Some(minor), "ch_1", "pi_1")
  }

  /** Honest reports exist: here is one for each payment that a gateway can refer to. */
  lemma HonestReportExists(p: Payment) returns (e: Event, d: Delivery)
    requires p.currency != "" && p.orderRef != "" && Strip(p.orderRef) == p.orderRef
    ensures Echoes(e, p) && ReadWebhook(e) == Ok(d) && HonestReport(p, d)
    ensures d.orderRef == p.orderRef && d.gateway == "stripe" && d.status == "paid"
  {
    e := ChargeOf(p);
    assert |Lower(p.currency)| == |p.currency|;
    CompleteIsRead(e, e.received.value);
    d := ReadWebhook(e).value;
  }

  lemma ChargeStrips()
    ensures Strip("ch_1") == "ch_1"
  {
  }

  /** In every state: an honest report of a pending payment that is not whole in a zero-decimal currency
      is refused and changes nothing, whatever it reports. */
  lemma StrandedIsRefused(s: State, p: nat, d: Delivery)
    requires Aligned(s) && FindByRef(s.payments, d.orderRef) == Some(p) && s.payments[p].booking < |s.bookings|
    requires s.payments[p].status == PayPending && HonestReport(s.payments[p], d)
    requires ZeroDecimal(s.payments[p].currency) && s.payments[p].amount % 100 != 0
    ensures DeliverLocked(s, d) == (s, Err(Validation))
  {
    HonestEchoAcceptedIff(s.payments[p], d);
  }

  /** What each kind of event reports. */
  function Reports(kind: string): PaymentStatus
    requires EventStatus(kind).Some?
  {
    if kind == "payment_intent.succeeded" then PayPaid
    else if kind == "payment_intent.payment_failed" then PayFailed
    else PayCancelled
  }

  lemma EventSays(kind: string)
    requires EventStatus(kind).Some?
    ensures Says(EventStatus(kind).value, Reports(kind))
  {
  }

  lemma HonestMatches(p: Payment, d: Delivery)
    requires Upper(d.currency) == Upper(p.currency)
    requires d.amount ==
             Some(FromMinor(ToMinor(p.amount as real / 100.0, p.currency), p.currency) as real / 100.0)
    requires !ZeroDecimal(p.currency) || p.amount % 100 == 0
    ensures d.amount == Some(p.amount as real / 100.0) && SameText(d.currency, p.currency)
  {
    CaseApart(d.currency, p.currency);
    StoredAmountSurvivesIff(p.amount, p.currency);
  }

  lemma WebhookRef(e: Event, d: Delivery)
    requires ReadWebhook(e) == Ok(d) && Strip(e.orderRef) == e.orderRef
    ensures d.orderRef == e.orderRef
  {
  }

  lemma HonestConcerns(s: State, p: nat, d: Delivery)
    requires p < |s.payments| && s.payments[p].booking < |s.bookings| && d.orderRef == s.payments[p].orderRef
    requires d.amount == Some(s.payments[p].amount as real / 100.0) && SameText(d.currency, s.payments[p].currency)
    ensures Concerns(s, d, p)
  {
    HundredthsBack(s.payments[p].amount);
  }

  lemma HundredthsBack(n: int)
    ensures (n as real / 100.0) * 100.0 == n as real
  {
  }

  /** `d` was made from some honest event of this kind about `p`, whose order reference has no outer blanks. */
  ghost predicate HonestEvent(p: Payment, kind: string, d: Delivery) {
    exists e :: Echoes(e, p) && ReadWebhook(e) == Ok(d) && Strip(e.orderRef) == e.orderRef && e.kind == kind
  }

  lemma HonestFacts(p: Payment, kind: string, d: Delivery)
    requires HonestEvent(p, kind, d) && (!ZeroDecimal(p.currency) || p.amount % 100 == 0)
    ensures d.orderRef == p.orderRef && d.amount == Some(p.amount as real / 100.0)
    ensures SameText(d.currency, p.currency)
    ensures EventStatus(kind).Some? && Says(d.status, Reports(kind))
  {
    var e :| Echoes(e, p) && ReadWebhook(e) == Ok(d) && Strip(e.orderRef) == e.orderRef && e.kind == kind;
    HonestDelivery(e, p);
    HonestMatches(p, d);
    WebhookRef(e, d);
    EventSays(kind);
  }

  /** From the gateway to the booking: an honest event about a pending payment whose amount survives the
      minor units, arriving under a new transaction reference, settles that payment as its kind says. */
  lemma HonestEventSettles(s: State, p: nat, kind: string, d: Delivery)
    requires Aligned(s) && UniqueRefs(s.payments) && (d.gateway, d.txnRef) !in s.callbacks
    requires p < |s.payments| && s.payments[p].booking < |s.bookings| && s.payments[p].status == PayPending
    requires HonestEvent(s.payments[p], kind, d)
    requires !ZeroDecimal(s.payments[p].currency) || s.payments[p].amount % 100 == 0
    ensures EventStatus(kind).Some? && DeliverLocked(s, d).1 == Ok(p)
    ensures Settles(s, d, p, Reports(kind), DeliverLocked(s, d).0)
  {
    HonestFacts(s.payments[p], kind, d);
    HonestConcerns(s, p, d);
    FirstDeliverySettles(s, d, p, Reports(kind));
  }
}
