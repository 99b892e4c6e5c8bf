/** Prices of the Stripe checkout, backend/internal/httpapi/routes.go: an amount in micros
    (millionths) is charged in minor units (hundredths) and later read back as micros. */
module Checkout {
  import opened Common
  import opened Decimal

  /** int64 arithmetic wraps around. */
  function Wrap(x: int): int {
    (x + MAX_INT + 1) % (2 * (MAX_INT + 1)) - MAX_INT - 1
  }

  /** Go's division rounds toward zero. */
  function Quotient(x: int, d: int): int
    requires d > 0
  {
    if x < 0 then -(-x / d) else x / d
  }

  function MicrosToCurrencyMinor(micros: int): Option<int> {
    if micros <= 0 then None else Some(Quotient(Wrap(micros + 5000), 10000))
  }

  datatype Package = Package(priceMicros: int, isBalance: bool, ratePositive: bool, minTopup: int, maxTopup: int)

  datatype Surcharge = Surcharge(enabled: bool, fee: nat, threshold: nat)

  datatype CheckoutError = AmountRequired | BelowMinimum | AboveMaximum | Free | NotPositive

  /** What is recorded for the session. */
  datatype Payment = Payment(amountMinor: int, feeMinor: int)

  /** The price of the order: chosen by the user for top-up packages. */
  function Price(pkg: Package, asked: int): Result<int, CheckoutError> {
    if !(pkg.isBalance && pkg.ratePositive) then
      if pkg.priceMicros <= 0 then Err(Free) else Ok(pkg.priceMicros)
    else if asked <= 0 then Err(AmountRequired)
    else if pkg.minTopup > 0 && asked < pkg.minTopup then Err(BelowMinimum)
    else if pkg.maxTopup > 0 && asked > pkg.maxTopup then Err(AboveMaximum)
    else Ok(asked)
  }

  function Fee(price: int, s: Surcharge): nat {
    if s.enabled && s.threshold > 0 && price < s.threshold then s.fee else 0
  }

  /** The price is the package's, or for a top-up package the amount asked for within its
      bounds; every refusal has its own reason. */
  lemma PriceIs(pkg: Package, asked: int)
    ensures var topup := pkg.isBalance && pkg.ratePositive;
            && (Price(pkg, asked) == Err(Free) <==> !topup && pkg.priceMicros <= 0)
            && (Price(pkg, asked) == Err(AmountRequired) <==> topup && asked <= 0)
            && (Price(pkg, asked) == Err(BelowMinimum) <==> topup && 0 < asked < pkg.minTopup)
            && (Price(pkg, asked) == Err(AboveMaximum) <==>
                  topup && asked > 0 && asked >= pkg.minTopup && 0 < pkg.maxTopup < asked)
            && (Price(pkg, asked).Ok? ==> Price(pkg, asked).value == if topup then asked else pkg.priceMicros)
            && Price(pkg, asked) != Err(NotPositive)
  {
  }

  /** The fee is due exactly below the threshold, when both are set. */
  lemma FeeIs(price: int, s: Surcharge)
    ensures Fee(price, s) == s.fee || Fee(price, s) == 0
    ensures s.fee > 0 ==> (Fee(price, s) == s.fee <==> s.enabled && 0 < s.threshold && price < s.threshold)
  {
  }

  function Checkout(pkg: Package, asked: int, s: Surcharge): Result<Payment, CheckoutError> {
    match Price(pkg, asked)
    case Err(e) => Err(e)
    case Ok(price) =>
      var fee := Fee(price, s);
      match MicrosToCurrencyMinor(Wrap(price + fee))
      case None => Err(NotPositive)
      case Some(amountMinor) =>
        var feeMinor := if fee > 0 then MicrosToCurrencyMinor(fee) else Some(0);
        Ok(Payment(amountMinor, if feeMinor.Some? then feeMinor.value else 0))
  }

  /** loadPaidAmountMicrosByCheckoutSession, on the record as checkout left it. */
  function PaidMicros(p: Payment): int {
    var base := Wrap(p.amountMinor - p.feeMinor);
    Wrap((if base < 0 then 0 else base) * 10000)
  }

  lemma SmallIsExact(x: int)
    requires -MAX_INT - 1 <= x <= MAX_INT
    ensures Wrap(x) == x
  {
  }

  /** The sum that is rounded fits an int64. */
  predicate Fits(price: int, s: Surcharge) {
    price + Fee(price, s) + 5000 <= MAX_INT
  }

  lemma RecordedParts(pkg: Package, asked: int, s: Surcharge, price: int)
    requires Price(pkg, asked) == Ok(price) && Fits(price, s)
    ensures var fee := Fee(price, s);
            Checkout(pkg, asked, s) == Ok(Payment((price + fee + 5000) / 10000, (fee + 5000) / 10000))
  {
    var fee := Fee(price, s);
    SmallIsExact(price + fee);
    SmallIsExact(price + fee + 5000);
    SmallIsExact(fee + 5000);
  }

  /** What is charged is the price with its fee, to the nearest minor unit; so is the fee. */
  lemma ChargedIsNearest(pkg: Package, asked: int, s: Surcharge, price: int)
    requires Price(pkg, asked) == Ok(price) && Fits(price, s)
    ensures var r := Checkout(pkg, asked, s);
            && r.Ok?
            && -5000 <= price + Fee(price, s) - r.value.amountMinor * 10000 < 5000
            && -5000 <= Fee(price, s) - r.value.feeMinor * 10000 < 5000
  {
    RecordedParts(pkg, asked, s, price);
  }

  /** The part credited later is less than one minor unit from the price, is the price
      exactly when that is a whole number of minor units, and is never clamped. */
  lemma PaidAmountMatchesPrice(pkg: Package, asked: int, s: Surcharge, price: int)
    requires Price(pkg, asked) == Ok(price) && Fits(price, s)
    ensures var r := Checkout(pkg, asked, s);
            && r.Ok?
            && r.value.amountMinor - r.value.feeMinor >= 0
            && PaidMicros(r.value) == (r.value.amountMinor - r.value.feeMinor) * 10000
            && -10000 < PaidMicros(r.value) - price < 10000
            && (PaidMicros(r.value) == price <==> price % 10000 == 0)
  {
    var fee := Fee(price, s);
    RecordedParts(pkg, asked, s, price);
    var base := (price + fee + 5000) / 10000 - (fee + 5000) / 10000;
    SmallIsExact(base);
    SmallIsExact(base * 10000);
  }

  /** Beyond that size the sum wraps around: a positive price is refused, or charged as a
      negative amount. */
  lemma OverflowIsNotCharged(pkg: Package, asked: int, s: Surcharge, price: int)
    requires Price(pkg, asked) == Ok(price) && price <= MAX_INT && s.fee <= MAX_INT && !Fits(price, s)
    ensures var r := Checkout(pkg, asked, s);
            r == Err(NotPositive) || (r.Ok? && r.value.amountMinor < 0)
  {
  }
}
