/**
 Token cost arithmetic: the conservative bound reserved at admission and the
 charge computed from provider-reported usage. Amounts are nanodollars; rates
 are nanodollars per million tokens; an absent rate or counter is unknown.
 */
module Cost {
  import opened Basics

  const MILLION: Int64 := 1_000_000

  datatype PriceSchedule = PriceSchedule(
    version: string,
    input: Option<Int64>,
    output: Option<Int64>,
    cachedInput: Option<Int64>,
    cacheWrite: Option<Int64>,
    cacheWrite5m: Option<Int64>,
    cacheWrite1h: Option<Int64>,
    maximumUnitCost: Option<Int64>,
    unitOperation: string)

  datatype Usage = Usage(
    input: Option<Int64>,
    output: Option<Int64>,
    total: Option<Int64>,
    cachedInput: Option<Int64>,
    cacheWrite: Option<Int64>,
    cacheWrite5m: Option<Int64>,
    cacheWrite1h: Option<Int64>,
    reasoningOutput: Option<Int64>,
    toolInput: Option<Int64>)

  datatype CostError =
    | UnknownCost
    | InvalidOperands
    | NegativeRate
    | NegativeUsage
    | DetailExceedsAggregate
    | ExceedsInt64

  datatype CostResult = Cost(amount: Int64) | Err(error: CostError)

  datatype Term = Term(units: Int64, rate: Int64)

  datatype Terms = Priced(terms: seq<Term>) | Unpriced(error: CostError)

  // ---------------------------------------------------------------- arithmetic

  predicate Negative(o: Option<Int64>) { o.Some? && o.value < 0 }

  /** Sum of two non-negative amounts, or nothing when it leaves int64. */
  function CheckedAdd(a: Int64, b: Int64): (r: Option<Int64>)
    ensures r.Some? <==> a >= 0 && b >= 0 && a + b <= MAX_INT64
    ensures r.Some? ==> r.value == a + b
  {
    if a < 0 || b < 0 || a > MAX_INT64 - b then None else Some(a + b)
  }

  ghost function SumTerms(terms: seq<Term>): int {
    if terms == [] then 0
    else SumTerms(terms[..|terms| - 1]) + terms[|terms| - 1].units * terms[|terms| - 1].rate
  }

  ghost predicate NonNegativeTerms(terms: seq<Term>) {
    forall t | t in terms :: t.units >= 0 && t.rate >= 0
  }

  ghost function CeilDiv(n: int, d: int): int
    requires d > 0
  {
    (n + d - 1) / d
  }

  /** The rounded-up quotient is the least amount that covers the exact cost. */
  lemma CeilDivIsLeast(n: int, d: int, c: int)
    requires d > 0
    ensures CeilDiv(n, d) * d >= n
    ensures c * d >= n ==> CeilDiv(n, d) <= c
  {
    var q := CeilDiv(n, d);
    assert (n + d - 1) == q * d + (n + d - 1) % d;
    if c < q {
      MulMonotone(c, q - 1, d);
      assert (q - 1) * d == q * d - d;
    }
  }

  lemma CeilDivMonotone(m: int, n: int, d: int)
    requires d > 0 && m <= n
    ensures CeilDiv(m, d) <= CeilDiv(n, d)
  {
    CeilDivIsLeast(n, d, 0);
    CeilDivIsLeast(m, d, CeilDiv(n, d));
  }

  lemma MulMonotone(a: int, b: int, r: int)
    requires a <= b && 0 <= r
    ensures a * r <= b * r
  {
  }

  /** What pricing a list of terms yields. */
  ghost function TermsCost(terms: seq<Term>, unit: Int64): CostResult {
    if unit <= 0 || !NonNegativeTerms(terms) then Err(InvalidOperands)
    else if CeilDiv(SumTerms(terms), unit) > MAX_INT64 then Err(ExceedsInt64)
    else
      SumNonNegative(terms); CeilDivIsLeast(SumTerms(terms), unit, 0);
      CeilNonNegative(SumTerms(terms), unit);
      Cost(CeilDiv(SumTerms(terms), unit))
  }

  lemma CeilNonNegative(n: int, d: int)
    requires d > 0 && n >= 0
    ensures CeilDiv(n, d) >= 0
  {
  }

  lemma {:induction false} SumNonNegative(terms: seq<Term>)
    requires NonNegativeTerms(terms)
    ensures SumTerms(terms) >= 0
  {
    if terms != [] {
      SumNonNegative(terms[..|terms| - 1]);
      var t := terms[|terms| - 1];
      assert t in terms;
      MulMonotone(0, t.units, t.rate);
    }
  }

  /** Prices terms with an exact accumulator: the least whole amount covering them. */
  method EstimateTerms(terms: seq<Term>, unit: Int64) returns (r: CostResult)
    ensures r == TermsCost(terms, unit)
  {
    if unit <= 0 {
      return Err(InvalidOperands);
    }
    var total := 0;
    for i := 0 to |terms|
      invariant NonNegativeTerms(terms[..i])
      invariant total == SumTerms(terms[..i])
    {
      var t := terms[i];
      assert terms[..i + 1] == terms[..i] + [t];
      assert terms[..i + 1][..i] == terms[..i];
      if t.units < 0 || t.rate < 0 {
        assert t in terms;
        return Err(InvalidOperands);
      }
      if t.units == 0 || t.rate == 0 {
        assert t.units * t.rate == 0;
        continue;
      }
      total := total + t.units * t.rate;
    }
    assert terms[..|terms|] == terms;
    SumNonNegative(terms);
    CeilNonNegative(total, unit);
    total := (total + unit - 1) / unit;
    if total > MAX_INT64 {
      return Err(ExceedsInt64);
    }
    return Cost(total);
  }

  // --------------------------------------------------------------------- bound

  /** The five rates that can apply to an input token. */
  function InputRates(p: PriceSchedule): (r: seq<Option<Int64>>) {
    [p.input, p.cachedInput, p.cacheWrite, p.cacheWrite5m, p.cacheWrite1h]
  }

  ghost predicate NonNegativeRates(p: PriceSchedule) {
    (forall i | 0 <= i < 5 :: !Negative(InputRates(p)[i])) && !Negative(p.output)
  }

  /** The highest configured rate of a list, when one is configured. */
  ghost function HighestRate(rates: seq<Option<Int64>>): (r: Option<Int64>) {
    if rates == [] then None
    else
      var rest := HighestRate(rates[..|rates| - 1]);
      var last := rates[|rates| - 1];
      if last.Some? && (rest.None? || last.value > rest.value) then last else rest
  }

  lemma {:induction false} HighestRateCovers(rates: seq<Option<Int64>>, i: nat)
    requires i < |rates| && rates[i].Some?
    ensures HighestRate(rates).Some? && rates[i].value <= HighestRate(rates).value
  {
    if i < |rates| - 1 {
      HighestRateCovers(rates[..|rates| - 1], i);
    }
  }

  lemma {:induction false} HighestRateIsConfigured(rates: seq<Option<Int64>>)
    ensures HighestRate(rates).Some? ==> HighestRate(rates) in rates
  {
    if rates != [] {
      HighestRateIsConfigured(rates[..|rates| - 1]);
    }
  }

  ghost function BoundCost(input: Int64, output: Int64, price: Option<PriceSchedule>): CostResult {
    if input < 0 || output < 0 then Err(InvalidOperands)
    else if price.None? then Err(UnknownCost)
    else
      var p := price.value;
      var top := HighestRate(InputRates(p));
      if exists i | 0 <= i < 5 :: Negative(InputRates(p)[i]) then Err(NegativeRate)
      else if input > 0 && top.None? then Err(UnknownCost)
      else if Negative(p.output) then Err(NegativeRate)
      else if output > 0 && p.output.None? then Err(UnknownCost)
      else TermsCost([Term(input, OrZero(top)), Term(output, OrZero(p.output))], MILLION)
  }

  method EstimateBound(input: Int64, output: Int64, price: Option<PriceSchedule>) returns (r: CostResult)
    ensures r == BoundCost(input, output, price)
  {
    if input < 0 || output < 0 {
      return Err(InvalidOperands);
    }
    if price.None? {
      return Err(UnknownCost);
    }
    var p := price.value;
    var rates := InputRates(p);
    var inputRate: Int64, haveInputRate := 0, false;
    for i := 0 to |rates|
      invariant forall j | 0 <= j < i :: !Negative(rates[j])
      invariant haveInputRate == HighestRate(rates[..i]).Some?
      invariant inputRate == OrZero(HighestRate(rates[..i]))
    {
      assert rates[..i + 1][..i] == rates[..i];
      if Negative(rates[i]) {
        return Err(NegativeRate);
      }
      if rates[i].Some? && (!haveInputRate || rates[i].value > inputRate) {
        inputRate, haveInputRate := rates[i].value, true;
      }
    }
    assert rates[..|rates|] == rates;
    if input > 0 && !haveInputRate {
      return Err(UnknownCost);
    }
    if Negative(p.output) {
      return Err(NegativeRate);
    }
    if output > 0 && p.output.None? {
      return Err(UnknownCost);
    }
    r := EstimateTerms([Term(input, inputRate), Term(output, OrZero(p.output))], MILLION);
  }

  // -------------------------------------------------------------------- charge

  /** Disjoint token categories of one usage report. */
  datatype Categories = Categories(
    ordinary: Int64, cached: Int64, write5m: Int64, write1h: Int64, writeOther: Int64, output: Int64)

  predicate NegativeCounter(u: Usage) {
    || Negative(u.input) || Negative(u.output) || Negative(u.cachedInput) || Negative(u.cacheWrite)
    || Negative(u.cacheWrite5m) || Negative(u.cacheWrite1h)
    || Negative(u.reasoningOutput) || Negative(u.toolInput)
  }

  /** The cache details are subsets of the aggregates that contain them. */
  predicate DetailsFit(u: Usage) {
    && OrZero(u.cacheWrite5m) + OrZero(u.cacheWrite1h) <= OrZero(u.cacheWrite)
    && OrZero(u.cachedInput) + OrZero(u.cacheWrite) <= OrZero(u.input)
  }

  /** A missing counter could still change the cost of this report. */
  predicate Ambiguous(u: Usage, p: PriceSchedule) {
    var input, cached, writes := OrZero(u.input), OrZero(u.cachedInput), OrZero(u.cacheWrite);
    var write5m, write1h := OrZero(u.cacheWrite5m), OrZero(u.cacheWrite1h);
    var cachedKnown := u.cachedInput.Some? || (u.cacheWrite.Some? && writes == input);
    var writesKnown := u.cacheWrite.Some? || (u.cachedInput.Some? && cached == input);
    var known5m := u.cacheWrite5m.Some? || (u.cacheWrite1h.Some? && write1h == writes);
    var known1h := u.cacheWrite1h.Some? || (u.cacheWrite5m.Some? && write5m == writes);
    || (input > 0 && p.cachedInput.Some? && !cachedKnown)
    || (input > 0 && (p.cacheWrite.Some? || p.cacheWrite5m.Some? || p.cacheWrite1h.Some?) && !writesKnown)
    || (writes > 0 && !known5m && p.cacheWrite5m.Some? && p.cacheWrite5m != p.cacheWrite)
    || (writes > 0 && !known1h && p.cacheWrite1h.Some? && p.cacheWrite1h != p.cacheWrite)
  }

  function Split(u: Usage): (c: Categories)
    requires u.input.Some? && u.output.Some? && !NegativeCounter(u) && DetailsFit(u)
  {
    var cached, writes := OrZero(u.cachedInput), OrZero(u.cacheWrite);
    var write5m, write1h := OrZero(u.cacheWrite5m), OrZero(u.cacheWrite1h);
    Categories(u.input.value - cached - writes, cached, write5m, write1h, writes - write5m - write1h, u.output.value)
  }

  /** The term of one category: none for an empty one, an error for an unusable rate. */
  function CategoryTerms(units: Int64, rate: Option<Int64>): (r: Terms) {
    if units == 0 then Priced([])
    else if rate.None? then Unpriced(UnknownCost)
    else if rate.value < 0 then Unpriced(NegativeRate)
    else Priced([Term(units, rate.value)])
  }

  /** Cache writes of one lifetime fall back to the aggregate write rate. */
  function WriteRate(specific: Option<Int64>, aggregate: Option<Int64>): (r: Option<Int64>) {
    if specific.Some? then specific else aggregate
  }

  function Append(a: Terms, b: Terms): (r: Terms) {
    if a.Unpriced? then a else if b.Unpriced? then b else Priced(a.terms + b.terms)
  }

  function CategoriesTerms(c: Categories, p: PriceSchedule): (r: Terms) {
    var inputTerms := Append(CategoryTerms(c.ordinary, p.input), CategoryTerms(c.cached, p.cachedInput));
    if inputTerms.Unpriced? then inputTerms
    else if Negative(p.cacheWrite) then Unpriced(NegativeRate)
    else
      Append(Append(Append(Append(inputTerms,
        CategoryTerms(c.write5m, WriteRate(p.cacheWrite5m, p.cacheWrite))),
        CategoryTerms(c.write1h, WriteRate(p.cacheWrite1h, p.cacheWrite))),
        CategoryTerms(c.writeOther, p.cacheWrite)),
        CategoryTerms(c.output, p.output))
  }

  /** The charge of a usage report under a price schedule. */
  ghost function UsageCost(usage: Option<Usage>, price: Option<PriceSchedule>): CostResult {
    if usage.None? || usage.value.input.None? || usage.value.output.None? then Err(UnknownCost)
    else
      var u := usage.value;
      if NegativeCounter(u) then Err(NegativeUsage)
      else if OrZero(u.cacheWrite) == 0 && (OrZero(u.cacheWrite5m) != 0 || OrZero(u.cacheWrite1h) != 0)
          then Err(UnknownCost)
      else if !DetailsFit(u) then Err(DetailExceedsAggregate)
      else if price.None? then
        if u.input.value == 0 && u.output.value == 0 then Cost(0) else Err(UnknownCost)
      else if Ambiguous(u, price.value) then Err(UnknownCost)
      else match CategoriesTerms(Split(u), price.value)
        case Unpriced(e) => Err(e)
        case Priced(terms) => TermsCost(terms, MILLION)
  }

  method EstimateUsageCost(usage: Option<Usage>, price: Option<PriceSchedule>) returns (r: CostResult)
    ensures r == UsageCost(usage, price)
  {
    if usage.None? || usage.value.input.None? || usage.value.output.None? {
      return Err(UnknownCost);
    }
    var u := usage.value;
    var counters := [u.input, u.output, u.cachedInput, u.cacheWrite, u.cacheWrite5m, u.cacheWrite1h,
                     u.reasoningOutput, u.toolInput];
    for i := 0 to |counters|
      invariant forall j | 0 <= j < i :: !Negative(counters[j])
    {
      if Negative(counters[i]) {
        assert counters[i] in counters;
        return Err(NegativeUsage);
      }
    }
    assert !NegativeCounter(u) by {
      assert forall j | 0 <= j < 8 :: !Negative(counters[j]);
      assert counters[0] == u.input && counters[1] == u.output && counters[2] == u.cachedInput;
      assert counters[3] == u.cacheWrite && counters[4] == u.cacheWrite5m && counters[5] == u.cacheWrite1h;
      assert counters[6] == u.reasoningOutput && counters[7] == u.toolInput;
    }
    var input, output := u.input.value, u.output.value;
    var cached, writes := OrZero(u.cachedInput), OrZero(u.cacheWrite);
    var write5m, write1h := OrZero(u.cacheWrite5m), OrZero(u.cacheWrite1h);
    if writes == 0 && (write5m != 0 || write1h != 0) {
      return Err(UnknownCost);
    }
    if write5m > writes || write1h > writes {
      return Err(DetailExceedsAggregate);
    }
    var writeDetails := CheckedAdd(write5m, write1h);
    if writeDetails.None? || writeDetails.value > writes {
      return Err(DetailExceedsAggregate);
    }
    var inputDetails := CheckedAdd(cached, writes);
    if inputDetails.None? || inputDetails.value > input {
      return Err(DetailExceedsAggregate);
    }
    if price.None? {
      return if input == 0 && output == 0 then Cost(0) else Err(UnknownCost);
    }
    var p := price.value;
    if Ambiguous(u, p) {
      return Err(UnknownCost);
    }
    var c := Split(u);
    var terms := CategoryTerms(c.ordinary, p.input);
    terms := Append(terms, CategoryTerms(c.cached, p.cachedInput));
    if terms.Unpriced? {
      return Err(terms.error);
    }
    if Negative(p.cacheWrite) {
      return Err(NegativeRate);
    }
    terms := Append(terms, CategoryTerms(c.write5m, WriteRate(p.cacheWrite5m, p.cacheWrite)));
    terms := Append(terms, CategoryTerms(c.write1h, WriteRate(p.cacheWrite1h, p.cacheWrite)));
    terms := Append(terms, CategoryTerms(c.writeOther, p.cacheWrite));
    terms := Append(terms, CategoryTerms(c.output, p.output));
    if terms.Unpriced? {
      return Err(terms.error);
    }
    r := EstimateTerms(terms.terms, MILLION);
  }

  // ---------------------------------------------------------------- properties

  /** The exact, unrounded cost of the categories in millionths of a nanodollar. */
  ghost function Amount(c: Categories, p: PriceSchedule): int {
    c.ordinary * OrZero(p.input) + c.cached * OrZero(p.cachedInput)
    + c.write5m * OrZero(WriteRate(p.cacheWrite5m, p.cacheWrite))
    + c.write1h * OrZero(WriteRate(p.cacheWrite1h, p.cacheWrite))
    + c.writeOther * OrZero(p.cacheWrite) + c.output * OrZero(p.output)
  }

  lemma {:induction false} SumAppend(a: seq<Term>, b: seq<Term>)
    ensures SumTerms(a + b) == SumTerms(a) + SumTerms(b)
  {
    if b == [] {
      assert a + b == a;
    } else {
      assert (a + b)[..|a + b| - 1] == a + b[..|b| - 1];
      SumAppend(a, b[..|b| - 1]);
    }
  }

  lemma CategoryAmount(units: Int64, rate: Option<Int64>)
    requires units >= 0
    ensures var t := CategoryTerms(units, rate);
            t.Priced? ==> SumTerms(t.terms) == units * OrZero(rate) && NonNegativeTerms(t.terms)
  {
    if units != 0 && rate.Some? {
      assert [Term(units, rate.value)][..0] == [];
    }
  }

  lemma AppendAmount(a: Terms, b: Terms)
    requires Append(a, b).Priced?
    requires NonNegativeTerms(a.terms) && NonNegativeTerms(b.terms)
    ensures SumTerms(Append(a, b).terms) == SumTerms(a.terms) + SumTerms(b.terms)
    ensures NonNegativeTerms(Append(a, b).terms)
  {
    SumAppend(a.terms, b.terms);
  }

  ghost predicate NonNegativeCategories(c: Categories) {
    c.ordinary >= 0 && c.cached >= 0 && c.write5m >= 0 && c.write1h >= 0 && c.writeOther >= 0 && c.output >= 0
  }

  /** Every priced report costs the exact amount of its categories, rounded up. */
  lemma PricedAmount(c: Categories, p: PriceSchedule)
    requires NonNegativeCategories(c) && CategoriesTerms(c, p).Priced?
    ensures NonNegativeTerms(CategoriesTerms(c, p).terms)
    ensures SumTerms(CategoriesTerms(c, p).terms) == Amount(c, p)
  {
    CategoryAmount(c.ordinary, p.input);
    CategoryAmount(c.cached, p.cachedInput);
    CategoryAmount(c.write5m, WriteRate(p.cacheWrite5m, p.cacheWrite));
    CategoryAmount(c.write1h, WriteRate(p.cacheWrite1h, p.cacheWrite));
    CategoryAmount(c.writeOther, p.cacheWrite);
    CategoryAmount(c.output, p.output);
    var t0, t1 := CategoryTerms(c.ordinary, p.input), CategoryTerms(c.cached, p.cachedInput);
    var t2 := CategoryTerms(c.write5m, WriteRate(p.cacheWrite5m, p.cacheWrite));
    var t3 := CategoryTerms(c.write1h, WriteRate(p.cacheWrite1h, p.cacheWrite));
    var t4, t5 := CategoryTerms(c.writeOther, p.cacheWrite), CategoryTerms(c.output, p.output);
    AppendAmount(t0, t1);
    AppendAmount(Append(t0, t1), t2);
    AppendAmount(Append(Append(t0, t1), t2), t3);
    AppendAmount(Append(Append(Append(t0, t1), t2), t3), t4);
    AppendAmount(Append(Append(Append(Append(t0, t1), t2), t3), t4), t5);
  }

  lemma CategoryWithin(units: Int64, rate: Option<Int64>, top: int)
    requires units >= 0 && top >= 0 && (rate.Some? ==> rate.value <= top)
    ensures units * OrZero(rate) <= units * top
  {
    MulMonotone(OrZero(rate), top, units);
  }

  lemma Distribute(a: int, b: int, c: int, d: int, e: int, t: int)
    ensures (a + b + c + d + e) * t == a * t + b * t + c * t + d * t + e * t
  {
  }

  /** No token category costs more than its tokens at the highest input rate. */
  lemma AmountWithinBound(c: Categories, p: PriceSchedule, top: int)
    requires NonNegativeCategories(c) && top >= 0
    requires forall i | 0 <= i < 5 :: InputRates(p)[i].Some? ==> InputRates(p)[i].value <= top
    ensures Amount(c, p)
         <= (c.ordinary + c.cached + c.write5m + c.write1h + c.writeOther) * top + c.output * OrZero(p.output)
  {
    assert InputRates(p)[0] == p.input && InputRates(p)[1] == p.cachedInput && InputRates(p)[2] == p.cacheWrite;
    assert InputRates(p)[3] == p.cacheWrite5m && InputRates(p)[4] == p.cacheWrite1h;
    CategoryWithin(c.ordinary, p.input, top);
    CategoryWithin(c.cached, p.cachedInput, top);
    CategoryWithin(c.write5m, WriteRate(p.cacheWrite5m, p.cacheWrite), top);
    CategoryWithin(c.write1h, WriteRate(p.cacheWrite1h, p.cacheWrite), top);
    CategoryWithin(c.writeOther, p.cacheWrite, top);
    Distribute(c.ordinary, c.cached, c.write5m, c.write1h, c.writeOther, top);
  }

  lemma PairSum(a: Term, b: Term)
    ensures SumTerms([a, b]) == a.units * a.rate + b.units * b.rate
  {
    assert [a, b][..1] == [a];
    assert SumTerms([a]) == SumTerms([a][..0]) + a.units * a.rate;
    assert [a][..0] == [];
  }

  lemma HighestInputRate(p: PriceSchedule)
    requires forall i | 0 <= i < 5 :: !Negative(InputRates(p)[i])
    ensures OrZero(HighestRate(InputRates(p))) >= 0
    ensures forall i | 0 <= i < 5 && InputRates(p)[i].Some? ::
              InputRates(p)[i].value <= OrZero(HighestRate(InputRates(p)))
  {
    var rates := InputRates(p);
    HighestRateIsConfigured(rates);
    forall i | 0 <= i < 5 && rates[i].Some?
      ensures rates[i].value <= OrZero(HighestRate(rates))
    {
      HighestRateCovers(rates, i);
    }
  }

  lemma SplitWithinBound(u: Usage, input: Int64, output: Int64, p: PriceSchedule)
    requires u.input.Some? && u.output.Some? && !NegativeCounter(u) && DetailsFit(u)
    requires u.input.value <= input && u.output.value <= output
    requires NonNegativeRates(p)
    ensures NonNegativeCategories(Split(u))
    ensures Amount(Split(u), p) <= input * OrZero(HighestRate(InputRates(p))) + output * OrZero(p.output)
  {
    var top := OrZero(HighestRate(InputRates(p)));
    HighestInputRate(p);
    AmountWithinBound(Split(u), p, top);
    MulMonotone(u.input.value, input, top);
    MulMonotone(u.output.value, output, OrZero(p.output));
  }

  /**
   Charge within reservation: whenever a bound is available for (input, output),
   the cost of any usage inside those limits is at most the bound, and pricing it
   never fails by leaving int64 or by a bad operand.
   */
  lemma ChargeWithinReservation(input: Int64, output: Int64, p: PriceSchedule, u: Usage)
    requires BoundCost(input, output, Some(p)).Cost?
    requires u.input.Some? && u.output.Some? && u.input.value <= input && u.output.value <= output
    ensures var r := UsageCost(Some(u), Some(p));
            && (r.Cost? ==> 0 <= r.amount <= BoundCost(input, output, Some(p)).amount)
            && (r.Err? ==> r.error != ExceedsInt64 && r.error != InvalidOperands && r.error != NegativeRate)
  {
    var top := OrZero(HighestRate(InputRates(p)));
    assert NonNegativeRates(p);
    assert InputRates(p)[0] == p.input && InputRates(p)[1] == p.cachedInput && InputRates(p)[2] == p.cacheWrite;
    assert InputRates(p)[3] == p.cacheWrite5m && InputRates(p)[4] == p.cacheWrite1h;
    if !NegativeCounter(u) && DetailsFit(u) && CategoriesTerms(Split(u), p).Priced? {
      SplitWithinBound(u, input, output, p);
      PricedAmount(Split(u), p);
      PairSum(Term(input, top), Term(output, OrZero(p.output)));
      CeilDivMonotone(Amount(Split(u), p), input * top + output * OrZero(p.output), MILLION);
      SumNonNegative(CategoriesTerms(Split(u), p).terms);
      CeilNonNegative(Amount(Split(u), p), MILLION);
    }
  }

  /** Every input token in the category whose rate is the highest. */
  ghost function WorstUsage(input: Int64, output: Int64, p: PriceSchedule): Usage {
    var top := HighestRate(InputRates(p));
    var cacheReads := if top == p.cachedInput && top != p.input then input else 0;
    var writes := if top == p.input || top == p.cachedInput then 0 else input;
    var short := if top == p.cacheWrite5m && top != p.cacheWrite then writes else 0;
    var long := if top == p.cacheWrite1h && top != p.cacheWrite && top != p.cacheWrite5m then writes else 0;
    Usage(Some(input), Some(output), None, Some(cacheReads), Some(writes), Some(short), Some(long), None, None)
  }

  /** The worst report is a complete, consistent one that uses the highest rate only. */
  lemma WorstSplit(input: Int64, output: Int64, p: PriceSchedule)
    requires NonNegativeRates(p) && input >= 0 && output >= 0
    requires input > 0 ==> HighestRate(InputRates(p)).Some?
    ensures var u := WorstUsage(input, output, p);
            && !NegativeCounter(u) && DetailsFit(u) && !Ambiguous(u, p)
            && var c := Split(u);
               var top := HighestRate(InputRates(p));
               || c == Categories(0, 0, 0, 0, 0, output)
               || (c == Categories(input, 0, 0, 0, 0, output) && p.input == top)
               || (c == Categories(0, input, 0, 0, 0, output) && p.cachedInput == top)
               || (c == Categories(0, 0, input, 0, 0, output) && p.cacheWrite5m == top)
               || (c == Categories(0, 0, 0, input, 0, output) && p.cacheWrite1h == top)
               || (c == Categories(0, 0, 0, 0, input, output) && p.cacheWrite == top)
    ensures var c := Split(WorstUsage(input, output, p));
            c.ordinary + c.cached + c.write5m + c.write1h + c.writeOther == input
  {
    HighestRateIsConfigured(InputRates(p));
  }

  lemma WorstAmount(input: Int64, output: Int64, p: PriceSchedule, c: Categories)
    requires NonNegativeRates(p) && input >= 0 && output >= 0
    requires c == Split(WorstUsage(input, output, p)) && (output > 0 ==> p.output.Some?)
    requires input > 0 ==> HighestRate(InputRates(p)).Some?
    requires !NegativeCounter(WorstUsage(input, output, p)) && DetailsFit(WorstUsage(input, output, p))
    ensures CategoriesTerms(c, p).Priced?
    ensures Amount(c, p) == input * OrZero(HighestRate(InputRates(p))) + output * OrZero(p.output)
  {
    WorstSplit(input, output, p);
    assert InputRates(p)[0] == p.input && InputRates(p)[1] == p.cachedInput && InputRates(p)[2] == p.cacheWrite;
    assert InputRates(p)[3] == p.cacheWrite5m && InputRates(p)[4] == p.cacheWrite1h;
  }

  /** The bound is tight: some report inside the limits costs exactly the bound. */
  lemma BoundIsTight(input: Int64, output: Int64, p: PriceSchedule)
    requires BoundCost(input, output, Some(p)).Cost?
    ensures UsageCost(Some(WorstUsage(input, output, p)), Some(p)) == BoundCost(input, output, Some(p))
  {
    assert NonNegativeRates(p);
    WorstSplit(input, output, p);
    var c := Split(WorstUsage(input, output, p));
    WorstAmount(input, output, p, c);
    PricedAmount(c, p);
    PairSum(Term(input, OrZero(HighestRate(InputRates(p)))), Term(output, OrZero(p.output)));
  }

  ghost predicate Fills(before: Option<Int64>, after: Option<Int64>) {
    before.Some? ==> after == before
  }

  /** u2 reports everything u1 reports, and possibly more, within the subset constraints. */
  ghost predicate Completes(u2: Usage, u1: Usage) {
    && u2.input == u1.input && u2.output == u1.output
    && Fills(u1.cachedInput, u2.cachedInput) && Fills(u1.cacheWrite, u2.cacheWrite)
    && Fills(u1.cacheWrite5m, u2.cacheWrite5m) && Fills(u1.cacheWrite1h, u2.cacheWrite1h)
    && !NegativeCounter(u2) && DetailsFit(u2)
  }

  /** With a single rate for a kind of write, how the writes are split does not matter. */
  lemma WriteSplit(a1: int, b1: int, c1: int, a2: int, b2: int, c2: int, ra: int, rb: int, rc: int)
    requires a1 + b1 + c1 == a2 + b2 + c2
    requires a1 == a2 || ra == rc
    requires b1 == b2 || rb == rc
    ensures a1 * ra + b1 * rb + c1 * rc == a2 * ra + b2 * rb + c2 * rc
  {
    if a1 == a2 && b1 == b2 {
    } else if a1 == a2 {
      assert (b1 + c1) * rc == (b2 + c2) * rc;
    } else if b1 == b2 {
      assert (a1 + c1) * rc == (a2 + c2) * rc;
    } else {
      assert (a1 + b1 + c1) * rc == (a2 + b2 + c2) * rc;
    }
  }

  /**
   No guessing: when a cost is given for a report with missing counters, filling
   in those counters consistently yields the same cost or "unknown", never
   another number.
   */
  lemma NoGuessing(u1: Usage, u2: Usage, price: Option<PriceSchedule>)
    requires UsageCost(Some(u1), price).Cost?
    requires price.Some? ==> NonNegativeRates(price.value)
    requires Completes(u2, u1)
    ensures UsageCost(Some(u2), price) in {UsageCost(Some(u1), price), Err(UnknownCost)}
  {
    if price.Some? && UsageCost(Some(u2), price) != Err(UnknownCost) {
      var p := price.value;
      assert InputRates(p)[0] == p.input && InputRates(p)[1] == p.cachedInput && InputRates(p)[2] == p.cacheWrite;
      assert InputRates(p)[3] == p.cacheWrite5m && InputRates(p)[4] == p.cacheWrite1h;
      var c1, c2 := Split(u1), Split(u2);
      assert c1.cached == c2.cached;
      assert c1.ordinary == c2.ordinary;
      PricedAmount(c1, p);
      PricedAmount(c2, p);
      WriteSplit(c1.write5m, c1.write1h, c1.writeOther, c2.write5m, c2.write1h, c2.writeOther,
                 OrZero(WriteRate(p.cacheWrite5m, p.cacheWrite)), OrZero(WriteRate(p.cacheWrite1h, p.cacheWrite)),
                 OrZero(p.cacheWrite));
    }
  }
}
