/**
 Money rules of the inventory: half-up rounding, tax split of a purchase line and
 the share of a stored value that leaves with some of its pieces.
 */
module CostRules {
  import opened Wrappers
  import opened Decimals

  datatype CostState = Pending | Recorded
  datatype TaxMode = Included | Excluded
  datatype TaxTreatment = Taxed | NoTax

  /** What a client sends; `None` stands for an absent or unrecognised field. */
  datatype CostInput = CostInput(
    state: Option<CostState>,
    inputTotalCents: Option<string>,
    taxMode: Option<TaxMode>,
    taxTreatment: Option<TaxTreatment>,
    rateBps: Option<int>,
    currency: Option<string>)

  datatype CostMoney = CostMoney(
    inputTotalCents: nat,
    taxMode: TaxMode,
    taxTreatment: TaxTreatment,
    rateBps: nat,
    netCents: nat,
    taxCents: nat,
    totalCents: nat)

  datatype CostError =
    | MissingState | CurrencyNotMxn | AmountOnPending | InvalidAmount
    | MissingTaxMode | MissingTaxTreatment | RateOutOfRange
    | InvalidRatio | InvalidQuantity

  const BPS := 10000
  const MAX_SAFE_INTEGER := 9007199254740991

  /** n/d rounded to the nearest integer, halves upwards. */
  function HalfUp(n: nat, d: nat): (r: nat)
    requires d > 0
    ensures IsHalfUp(n, d, r)
  {
    HalfUpBounds(n, d);
    (2 * n + d) / (2 * d)
  }

  lemma HalfUpBounds(n: nat, d: nat)
    requires d > 0
    ensures IsHalfUp(n, d, (2 * n + d) / (2 * d))
  {
    var r := (2 * n + d) / (2 * d);
    assert 2 * n + d == r * (2 * d) + (2 * n + d) % (2 * d);
    assert r * (2 * d) == 2 * (r * d);
  }

  /** r is a nearest integer to n/d, the upper one on a tie. */
  predicate IsHalfUp(n: nat, d: nat, r: int) {
    2 * n - d < 2 * (r * d) <= 2 * n + d
  }

  /** The bounds leave room for one integer only. */
  lemma NearestIsUnique(n: nat, d: nat, r: int, h: int)
    requires d > 0
    requires IsHalfUp(n, d, r) && IsHalfUp(n, d, h)
    ensures r == h
  {
    Apart(r, h, d);
    Apart(h, r, d);
  }

  /** Distinct multiples of d are at least d apart. */
  lemma Apart(a: int, b: int, d: nat)
    ensures a < b ==> a * d + d <= b * d
  {
    if a < b {
      ProductGrows(a + 1, b, d);
    }
  }

  lemma ProductGrows(a: int, b: int, d: nat)
    requires a <= b
    ensures a * d <= b * d
  {
  }

  lemma HalfUpIsUnique(n: nat, d: nat, r: int)
    requires d > 0 && IsHalfUp(n, d, r)
    ensures r == HalfUp(n, d)
  {
    NearestIsUnique(n, d, r, HalfUp(n, d));
  }

  function RoundRatio(n: int, d: int): Result<nat, CostError> {
    if n < 0 || d <= 0 then Err(InvalidRatio) else Ok(HalfUp(n, d))
  }

  /** At most sixteen digits, canonical. */
  function Cents(value: string): Option<nat> {
    if Canonical(value) && |value| <= 16 then Some(Parse(value)) else None
  }

  /** Cents reads exactly what Decimal prints, and nothing of more than sixteen digits. */
  lemma CentsReadsDecimals(n: nat)
    ensures n < Pow10(16) ==> Cents(Decimal(n)) == Some(n)
    ensures n >= Pow10(16) ==> Cents(Decimal(n)) == None
  {
    ParseAfterDecimal(n);
    DecimalLength(n, 16);
  }

  lemma CentsDeterminesText(value: string)
    ensures Cents(value).Some? ==> Decimal(Cents(value).value) == value && Cents(value).value < Pow10(16)
  {
    if Cents(value).Some? {
      DecimalAfterParse(value);
      DecimalLength(Parse(value), 16);
    }
  }

  /** Net part of an amount under a tax mode. */
  function NetOf(mode: TaxMode, amount: nat, rate: nat): nat {
    if mode == Included then HalfUp(amount * BPS, BPS + rate) else amount
  }

  /** Tax part; kept as an integer because its sign is a claim, not an assumption. */
  function TaxOf(mode: TaxMode, amount: nat, rate: nat): int {
    if mode == Included then amount - NetOf(mode, amount, rate)
    else HalfUp(NetOf(mode, amount, rate) * rate, BPS)
  }

  lemma TaxIsNeverNegative(mode: TaxMode, amount: nat, rate: nat)
    ensures TaxOf(mode, amount, rate) >= 0
  {
    if mode == Included {
      ShareAtMostWhole(amount, BPS, BPS + rate);
    }
  }

  function CalculateCost(input: CostInput): Result<Option<CostMoney>, CostError> {
    if input.state.None? then Err(MissingState)
    else if input.currency.Some? && input.currency.value != "" && input.currency.value != "MXN" then Err(CurrencyNotMxn)
    else if input.state.value == Pending then
      if input.inputTotalCents.Some? then Err(AmountOnPending) else Ok(None)
    else if input.inputTotalCents.None? || Cents(input.inputTotalCents.value).None? then Err(InvalidAmount)
    else if input.taxMode.None? then Err(MissingTaxMode)
    else if input.taxTreatment.None? then Err(MissingTaxTreatment)
    else
      var rate := if input.taxTreatment.value == NoTax then Some(0) else input.rateBps;
      if rate.None? || rate.value < 0 || rate.value > BPS then Err(RateOutOfRange)
      else
        var amount := Cents(input.inputTotalCents.value).value;
        var net := NetOf(input.taxMode.value, amount, rate.value);
        var tax := TaxOf(input.taxMode.value, amount, rate.value);
        TaxIsNeverNegative(input.taxMode.value, amount, rate.value);
        Ok(Some(CostMoney(amount, input.taxMode.value, input.taxTreatment.value, rate.value, net, tax, net + tax)))
  }

  /** Share of `value` carried by `qty` of `available` pieces. */
  function AllocatedCost(value: int, qty: int, available: int): Result<nat, CostError> {
    if !(0 < qty <= MAX_SAFE_INTEGER) || !(qty <= available <= MAX_SAFE_INTEGER) then Err(InvalidQuantity)
    else RoundRatio(value * qty, available)
  }

  /** A share is told exactly of a value not negative and of some of the pieces there are, counted exactly by the runtime. */
  lemma ShareIsToldIff(value: int, qty: int, available: int)
    ensures AllocatedCost(value, qty, available).Ok? <==> 0 <= value && 0 < qty <= available <= 9007199254740991
    ensures AllocatedCost(value, qty, available) == Err(InvalidQuantity) <==> !(0 < qty <= available <= 9007199254740991)
    ensures AllocatedCost(value, qty, available).Ok? ==>
              value * qty >= 0 && IsHalfUp(value * qty, available, AllocatedCost(value, qty, available).value)
  {
    if qty > 0 {
      SignOfProduct(value, qty);
    }
  }

  lemma SignOfProduct(a: int, b: int)
    requires b > 0
    ensures a * b >= 0 <==> a >= 0
  {
    if a < 0 {
      ProductGrows(a, -1, b);
    }
  }

  /** A share of part of the pieces never exceeds the whole. */
  lemma ShareAtMostWhole(v: nat, q: nat, d: nat)
    requires d > 0 && q <= d
    ensures HalfUp(v * q, d) <= v
  {
    NearestAtMostWhole(v, q, d, HalfUp(v * q, d));
  }

  lemma NearestAtMostWhole(v: nat, q: nat, d: nat, r: int)
    requires d > 0 && q <= d && IsHalfUp(v * q, d, r)
    ensures r <= v
  {
    Apart(v, r, d);
    assert v * d == v * q + v * (d - q);
  }

  /** All the pieces carry the whole value. */
  lemma ShareOfAll(v: nat, d: nat)
    requires d > 0
    ensures HalfUp(v * d, d) == v
  {
    HalfUpIsUnique(v * d, d, v);
  }

  /** A cost is accepted exactly when it says whether it is known and, if so, its amount, mode, treatment and a rate within the whole. */
  lemma CostIsAcceptedIff(input: CostInput)
    ensures var r := CalculateCost(input);
            var pesos := input.currency.None? || input.currency.value in {"", "MXN"};
            && (r == Ok(None) <==> input.state == Some(Pending) && pesos && input.inputTotalCents.None?)
            && (r.Ok? && r.value.Some? <==>
                  && input.state == Some(Recorded) && pesos
                  && input.inputTotalCents.Some? && Cents(input.inputTotalCents.value).Some?
                  && input.taxMode.Some? && input.taxTreatment.Some?
                  && (input.taxTreatment.value == Taxed ==> input.rateBps.Some? && 0 <= input.rateBps.value <= BPS))
            && (r.Ok? && r.value.Some? ==>
                  var m := r.value.value;
                  && Some(m.inputTotalCents) == Cents(input.inputTotalCents.value)
                  && m.taxMode == input.taxMode.value && m.taxTreatment == input.taxTreatment.value
                  && m.rateBps == (if m.taxTreatment == NoTax then 0 else input.rateBps.value))
  {
  }

  // -- Tax round trips ------------------------------------------------------------------

  /** Quoting net-of-tax, then quoting the resulting total tax-included, gives the same split. */
  lemma ExcludedThenIncluded(amount: nat, rate: nat)
    requires rate <= BPS
    ensures var tax := TaxOf(Excluded, amount, rate);
            tax >= 0
            && NetOf(Included, amount + tax, rate) == amount
            && TaxOf(Included, amount + tax, rate) == tax
  {
    var t := HalfUp(amount * rate, BPS);
    var d := BPS + rate;
    assert amount * d == amount * BPS + amount * rate;
    assert (amount + t) * BPS == amount * BPS + t * BPS;
    if rate == 0 {
      assert amount * rate == 0;
    }
    assert IsHalfUp((amount + t) * BPS, d, amount);
    NearestIsUnique((amount + t) * BPS, d, amount, HalfUp((amount + t) * BPS, d));
  }

  /** Quoting tax-included, then re-quoting its net, is off by at most one centavo. */
  lemma IncludedThenExcluded(amount: nat, rate: nat)
    requires rate <= BPS
    ensures var net := NetOf(Included, amount, rate);
            var total := net + TaxOf(Excluded, net, rate);
            -1 <= total - amount <= 1
  {
    var net := HalfUp(amount * BPS, BPS + rate);
    WithinOne(amount, rate, net, HalfUp(net * rate, BPS));
  }

  lemma WithinOne(amount: nat, rate: nat, net: nat, tax: nat)
    requires rate <= BPS
    requires IsHalfUp(amount * BPS, BPS + rate, net) && IsHalfUp(net * rate, BPS, tax)
    ensures -1 <= net + tax - amount <= 1
  {
    assert net * (BPS + rate) == net * BPS + net * rate;
  }

  /** The same two trips through the service's own entry point, with its amount limit. */
  lemma RequoteIncluded(input: CostInput)
    requires CalculateCost(input).Ok? && CalculateCost(input).value.Some?
    requires CalculateCost(input).value.value.taxMode == Excluded
    ensures var money := CalculateCost(input).value.value;
            var again := CalculateCost(input.(taxMode := Some(Included), inputTotalCents := Some(Decimal(money.totalCents))));
            if money.totalCents < Pow10(16)
            then again == Ok(Some(money.(taxMode := Included, inputTotalCents := money.totalCents)))
            else again == Err(InvalidAmount)
  {
    var money := CalculateCost(input).value.value;
    CentsReadsDecimals(money.totalCents);
    ExcludedThenIncluded(money.inputTotalCents, money.rateBps);
  }

  lemma RequoteExcluded(input: CostInput)
    requires CalculateCost(input).Ok? && CalculateCost(input).value.Some?
    requires CalculateCost(input).value.value.taxMode == Included
    ensures var money := CalculateCost(input).value.value;
            var again := CalculateCost(input.(taxMode := Some(Excluded), inputTotalCents := Some(Decimal(money.netCents))));
            again.Ok? && again.value.Some?
            && again.value.value.netCents == money.netCents
            && -1 <= again.value.value.totalCents - money.totalCents <= 1
  {
    var money := CalculateCost(input).value.value;
    CentsDeterminesText(input.inputTotalCents.value);
    ShareAtMostWhole(money.inputTotalCents, BPS, BPS + money.rateBps);
    CentsReadsDecimals(money.netCents);
    IncludedThenExcluded(money.inputTotalCents, money.rateBps);
  }

  /** A taxed amount quoted without its tax. */
  function NetQuote(amount: nat, rate: nat): CostInput {
    CostInput(Some(Recorded), Some(Decimal(amount)), Some(Excluded), Some(Taxed), Some(rate), None)
  }

  /** The quote is accepted, and its total is accepted again as a quote with tax. */
  predicate Requotes(amount: nat, rate: nat) {
    var priced := CalculateCost(NetQuote(amount, rate));
    && priced.Ok? && priced.value.Some?
    && CalculateCost(NetQuote(priced.value.value.totalCents, rate).(taxMode := Some(Included))).Ok?
  }

  lemma NetQuoteIsPriced(amount: nat, rate: nat)
    requires amount < Pow10(16) && rate <= BPS
    ensures var tax := HalfUp(amount * rate, BPS);
            CalculateCost(NetQuote(amount, rate)) == Ok(Some(CostMoney(amount, Excluded, Taxed, rate, amount, tax, amount + tax)))
  {
    CentsReadsDecimals(amount);
  }

  /** Exactly which accepted quotes can be quoted again: those whose total needs no seventeenth digit. */
  lemma RequotesIffSixteenDigits(amount: nat, rate: nat)
    requires amount < Pow10(16) && rate <= BPS
    ensures Requotes(amount, rate) <==> amount + HalfUp(amount * rate, BPS) < Pow10(16)
  {
    NetQuoteIsPriced(amount, rate);
    RequoteIncluded(NetQuote(amount, rate));
  }

  /** The largest amount cannot, at the usual rate. */
  lemma LargestQuoteCannotBeRequoted()
    ensures CalculateCost(NetQuote(9999_9999_9999_9999, 1600)).Ok? && !Requotes(9999_9999_9999_9999, 1600)
  {
    SixteenDigits();
    NetQuoteIsPriced(9999_9999_9999_9999, 1600);
    RequotesIffSixteenDigits(9999_9999_9999_9999, 1600);
    HalfUpIsUnique(9999_9999_9999_9999 * 1600, BPS, 1600_0000_0000_0000);
  }

  /**
   Net and tax always add up to the total, the quoted amount is one of them, and the tax
   is the rate applied to the net up to rounding.
   */
  lemma TotalIsNetPlusTax(input: CostInput)
    requires CalculateCost(input).Ok? && CalculateCost(input).value.Some?
    ensures var m := CalculateCost(input).value.value;
            m.totalCents == m.netCents + m.taxCents
            && m.inputTotalCents == (if m.taxMode == Included then m.totalCents else m.netCents)
            && (m.taxTreatment == NoTax ==> m.taxCents == 0)
            && -(BPS + m.rateBps) <= 2 * (m.taxCents * BPS - m.netCents * m.rateBps) <= BPS + m.rateBps
  {
    var m := CalculateCost(input).value.value;
    if m.taxMode == Included {
      IncludedTaxFollowsRate(m.inputTotalCents, m.rateBps, m.netCents);
    }
    if m.rateBps == 0 {
      ShareOfAll(m.inputTotalCents, BPS);
      ShareOfAll(0, BPS);
      assert m.netCents * m.rateBps == 0 * BPS;
    }
  }

  lemma IncludedTaxFollowsRate(amount: nat, rate: nat, net: nat)
    requires IsHalfUp(amount * BPS, BPS + rate, net)
    ensures -(BPS + rate) <= 2 * ((amount - net) * BPS - net * rate) <= BPS + rate
  {
    assert net * (BPS + rate) == net * BPS + net * rate;
    assert (amount - net) * BPS == amount * BPS - net * BPS;
  }

  // -- Accumulated rounding -------------------------------------------------------------

  /** v of q pieces is within k/2 centavos of the exact proportional share of v0 over q0. */
  predicate WithinDrift(v0: int, q0: int, v: int, q: int, k: nat) {
    -(k * q0) <= 2 * (v * q0 - v0 * q) <= k * q0
  }

  /** One more rounded outflow adds at most half a centavo to the drift. */
  lemma OneMoreOutflow(v0: int, q0: nat, v: nat, q: nat, out: nat, share: nat, k: nat)
    requires 0 < out <= q
    requires IsHalfUp(v * out, q, share)
    requires WithinDrift(v0, q0, v, q, k)
    ensures WithinDrift(v0, q0, v - share, q - out, k + 1)
  {
    var drift := v * q0 - v0 * q;
    var err := v * out - share * q;
    var next := (v - share) * q0 - v0 * (q - out);
    ScaledDrift(v0, q0, v, q, out, share);
    UpperDrift(next, drift, err, q, q - out, q0, k * q0);
    assert (-next) * q == (q - out) * (-drift) + (-err) * q0;
    UpperDrift(-next, -drift, -err, q, q - out, q0, k * q0);
    assert (k + 1) * q0 == k * q0 + q0;
  }

  lemma ScaledDrift(v0: int, q0: nat, v: nat, q: nat, out: nat, share: nat)
    ensures ((v - share) * q0 - v0 * (q - out)) * q
         == (q - out) * (v * q0 - v0 * q) + (v * out - share * q) * q0
  {
  }

  lemma UpperDrift(next: int, drift: int, err: int, q: nat, rest: nat, q0: nat, bound: nat)
    requires 0 < q && rest <= q
    requires next * q == rest * drift + err * q0
    requires 2 * drift <= bound && 2 * err <= q
    ensures 2 * next <= bound + q0
  {
    Times(2 * drift, bound, rest);
    Times(2 * err, q, q0);
    Times(rest, q, bound);
    assert 2 * (next * q) <= q * bound + q * q0;
    assert q * bound + q * q0 == (bound + q0) * q;
    Divide(2 * next, bound + q0, q);
  }

  lemma Times(a: int, b: int, c: nat)
    requires a <= b
    ensures a * c <= b * c
  {
  }

  lemma Divide(a: int, b: int, c: nat)
    requires c > 0 && a * c <= b * c
    ensures a <= b
  {
    Apart(b, a, c);
  }
}
