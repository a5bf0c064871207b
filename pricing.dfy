/** The stay price of reservas.js: the wizard's `calculatePrice` and the page's
    `calculateRealTimePrice`. Amounts are exact reals and dates are day numbers. */
module Pricing {
  import opened Wrappers

  datatype Quote = Quote(nights: int, subtotal: real, taxes: real, total: real)

  /** `subtotal * 0.15` */
  const TaxRate: real := 0.15

  /** The `|| 250` fallback of the wizard's calculator. */
  const WizardDefaultPrice: real := 250.0

  /** `Math.ceil((end - start) / 86400000)`: ISO dates parse to UTC midnights, so the quotient is already whole. */
  function Nights(checkIn: int, checkOut: int): int {
    checkOut - checkIn
  }

  /** The arithmetic both calculators share: price times nights, plus 15% tax. */
  function PriceFor(price: real, nights: int): (q: Quote)
    ensures q.nights == nights
    ensures q.taxes == q.subtotal * 15.0 / 100.0
    ensures q.total == q.subtotal * 115.0 / 100.0
  {
    var subtotal := price * nights as real;
    var taxes := subtotal * TaxRate;
    Quote(nights, subtotal, taxes, subtotal + taxes)
  }

  /** The quote for `n` nights is `n` times the quote for one night. */
  lemma PriceIsLinear(price: real, n: int)
    ensures var q, one := PriceFor(price, n), PriceFor(price, 1);
      q.subtotal == n as real * one.subtotal && q.taxes == n as real * one.taxes && q.total == n as real * one.total
  {
  }

  /** A non-negative price never yields a total below the subtotal. */
  lemma TotalCoversSubtotal(price: real, n: int)
    requires price >= 0.0 && n >= 1
    ensures 0.0 <= PriceFor(price, n).subtotal <= PriceFor(price, n).total
  {
  }

  /** The arithmetic of `calculatePrice`: a quote exactly when both dates are set and at least one night lies between them. */
  function StayQuote(price: real, checkIn: Option<int>, checkOut: Option<int>): (q: Option<Quote>)
    ensures q.Some? <==> checkIn.Some? && checkOut.Some? && checkIn.value < checkOut.value
    ensures q.Some? ==> q.value.nights >= 1 && q.value == PriceFor(price, checkOut.value - checkIn.value)
  {
    if checkIn.Some? && checkOut.Some? then
      var nights := Nights(checkIn.value, checkOut.value);
      if nights > 0 then Some(PriceFor(price, nights)) else None
    else None
  }

  /** Three nights at 250 come to 750 plus 112.50 tax, 862.50 in all. */
  lemma ThreeNightsAt250(checkIn: int)
    ensures StayQuote(250.0, Some(checkIn), Some(checkIn + 3)) == Some(Quote(3, 750.0, 112.5, 862.5))
  {
  }

  /** `parseFloat(text) || 250`: NaN (`None`) and zero fall back to 250. */
  function WizardUnitPrice(parsed: Option<real>): (p: real)
    ensures p != 0.0
    ensures parsed.Some? && parsed.value != 0.0 ==> p == parsed.value
    ensures parsed.None? || parsed.value == 0.0 ==> p == WizardDefaultPrice
  {
    if parsed.None? || parsed.value == 0.0 then WizardDefaultPrice else parsed.value
  }

  /** `parseFloat(text) || 0` */
  function RealTimeUnitPrice(parsed: Option<real>): real {
    if parsed.None? || parsed.value == 0.0 then 0.0 else parsed.value
  }

  /** `calculateRealTimePrice`: `None` (null) unless the price is positive, both dates are set and there is at least one night. */
  function RealTimePrice(parsed: Option<real>, checkIn: Option<int>, checkOut: Option<int>): (q: Option<Quote>)
    ensures q.Some? <==>
      parsed.Some? && parsed.value > 0.0 && checkIn.Some? && checkOut.Some? && checkIn.value < checkOut.value
    ensures q.Some? ==> q.value == PriceFor(parsed.value, checkOut.value - checkIn.value)
  {
    var price := RealTimeUnitPrice(parsed);
    if price > 0.0 && checkIn.Some? && checkOut.Some? then StayQuote(price, checkIn, checkOut) else None
  }

  /** With a positive room price on the page, both calculators produce the same quote. */
  lemma CalculatorsAgree(parsed: Option<real>, checkIn: Option<int>, checkOut: Option<int>)
    requires parsed.Some? && parsed.value > 0.0
    ensures RealTimePrice(parsed, checkIn, checkOut) == StayQuote(WizardUnitPrice(parsed), checkIn, checkOut)
  {
  }

  /** Without a readable price they part ways: the wizard prices the stay at 250 a night while the real-time
      display shows nothing. */
  lemma CalculatorsDisagreeWithoutPrice(parsed: Option<real>, checkIn: int, checkOut: int)
    requires parsed.None? || parsed.value == 0.0
    requires checkIn < checkOut
    ensures StayQuote(WizardUnitPrice(parsed), Some(checkIn), Some(checkOut)) == Some(PriceFor(250.0, checkOut - checkIn))
    ensures RealTimePrice(parsed, Some(checkIn), Some(checkOut)) == None
  {
  }
}
