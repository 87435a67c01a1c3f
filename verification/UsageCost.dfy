/**
  The second stage of canonical usage: a cost in micro-dollars from one Run's
  counters and an immutable price snapshot, in checked 64-bit arithmetic with a
  single half-up rounding at the end (internal/domain/cost.go).
 */
module UsageCost {
  import opened Wrappers
  import opened CanonicalUsage

  /** Prices per million tokens; a stored snapshot has no negative price. */
  datatype Price = Price(uncached: Int64, cacheRead: Int64, cacheWrite: Int64, output: Int64)
  {
    predicate Valid() {
      0 <= uncached && 0 <= cacheRead && 0 <= cacheWrite && 0 <= output
    }
  }

  datatype Cost =
    | Micros(amount: Int64)
    | Unresolved(gap: Gap)
    | ArithmeticFailure

  datatype Gap = MissingCounter | Contradiction | CacheSplit

  /** The four billable token amounts. */
  datatype Buckets = Buckets(uncached: int, cacheRead: int, cacheWrite: int, output: int)

  function Numerator(b: Buckets, p: Price): int {
    b.uncached * p.uncached + b.cacheRead * p.cacheRead + b.cacheWrite * p.cacheWrite + b.output * p.output
  }

  /** Nearest whole micro-dollar, halves rounded up. */
  function RoundHalfUp(numerator: int): int {
    (numerator + 500_000) / 1_000_000
  }

  function CheckedMultiply(left: Int64, right: Int64): (r: Option<Int64>)
    requires 0 <= left && 0 <= right
    ensures r.Some? <==> left * right <= MAX_INT64
    ensures r.Some? ==> r.value == left * right
  {
    if left == 0 then Some(0)
    else
      QuotientBound(left, right);
      if right > MAX_INT64 / left then None else Some(left * right)
  }

  /** The division guard is exact. */
  lemma {:induction false} QuotientBound(left: int, right: int)
    requires 0 < left && 0 <= right
    ensures right > MAX_INT64 / left <==> left * right > MAX_INT64
    ensures 0 <= left * right
  {
    var q := MAX_INT64 / left;
    assert left * q <= MAX_INT64 < left * q + left;
    if right > q {
      MultiplyMonotone(left, q + 1, right);
    } else {
      MultiplyMonotone(left, right, q);
    }
  }

  lemma {:induction false} MultiplyMonotone(left: int, a: int, b: int)
    requires 0 <= left && a <= b
    ensures left * a <= left * b && (0 <= a ==> 0 <= left * a)
    ensures left * (a + 1) == left * a + left
  {
  }

  function RoundCostHalfUp(numerator: Int64): (r: Int64)
    requires 0 <= numerator
    ensures r == RoundHalfUp(numerator)
  {
    var quotient, remainder := numerator / 1_000_000, numerator % 1_000_000;
    if remainder >= 500_000 then quotient + 1 else quotient
  }

  /** One bucket of the numerator: an amount and its price. */
  datatype Term = Term(tokens: Int64, rate: Int64)

  function Product(t: Term): int {
    t.tokens * t.rate
  }

  function TotalOf(terms: seq<Term>): int {
    if terms == [] then 0 else TotalOf(terms[..|terms| - 1]) + Product(terms[|terms| - 1])
  }

  lemma {:induction false} PrefixTotals(terms: seq<Term>, n: nat)
    requires n <= |terms| && forall t | t in terms :: 0 <= Product(t)
    ensures 0 <= TotalOf(terms[..n]) <= TotalOf(terms)
    decreases |terms|
  {
    if n == |terms| {
      assert terms[..n] == terms;
      if n > 0 { PrefixTotals(terms[..n - 1], n - 1); }
    } else {
      PrefixTotals(terms[..|terms| - 1], n);
      assert terms[..|terms| - 1][..n] == terms[..n];
      assert terms[|terms| - 1] in terms;
    }
  }

  /** Adds up the products, refusing as soon as one does not fit. */
  method SumProducts(terms: seq<Term>) returns (sum: Option<Int64>)
    requires forall t | t in terms :: 0 <= t.tokens && 0 <= t.rate && 0 <= Product(t)
    ensures sum.Some? <==> TotalOf(terms) <= MAX_INT64
    ensures sum.Some? ==> 0 <= sum.value == TotalOf(terms)
  {
    var numerator: Int64 := 0;
    for i := 0 to |terms|
      invariant 0 <= numerator == TotalOf(terms[..i])
    {
      PrefixTotals(terms, i + 1);
      assert terms[..i + 1][..i] == terms[..i] && terms[i] in terms;
      var product := CheckedMultiply(terms[i].tokens, terms[i].rate);
      if product.None? {
        return None;
      }
      var next := CheckedAddNonNegative(numerator, product.value);
      if next.None? {
        return None;
      }
      numerator := next.value;
    }
    assert terms[..|terms|] == terms;
    return Some(numerator);
  }

  method ComputeCostBuckets(b: Buckets, p: Price) returns (cost: Cost)
    requires p.Valid()
    requires 0 <= b.uncached <= MAX_INT64 && 0 <= b.cacheRead <= MAX_INT64
    requires 0 <= b.cacheWrite <= MAX_INT64 && 0 <= b.output <= MAX_INT64
    ensures cost == if Numerator(b, p) <= MAX_INT64 then MicrosOf(RoundHalfUp(Numerator(b, p))) else ArithmeticFailure
  {
    ProductsNonNegative(b, p);
    var terms := [Term(b.uncached, p.uncached), Term(b.cacheRead, p.cacheRead),
                  Term(b.cacheWrite, p.cacheWrite), Term(b.output, p.output)];
    TotalIsNumerator(b, p, terms);
    var sum := SumProducts(terms);
    if sum.None? {
      return ArithmeticFailure;
    }
    return Micros(RoundCostHalfUp(sum.value));
  }

  lemma {:induction false} TotalIsNumerator(b: Buckets, p: Price, terms: seq<Term>)
    requires |terms| == 4
    requires Product(terms[0]) == b.uncached * p.uncached && Product(terms[1]) == b.cacheRead * p.cacheRead
    requires Product(terms[2]) == b.cacheWrite * p.cacheWrite && Product(terms[3]) == b.output * p.output
    ensures TotalOf(terms) == Numerator(b, p)
  {
    assert terms[..3][..2] == terms[..2] && terms[..2][..1] == terms[..1] && terms[..1][..0] == [];
    assert TotalOf(terms) == TotalOf(terms[..3]) + Product(terms[3]);
    assert TotalOf(terms[..3]) == TotalOf(terms[..2]) + Product(terms[2]);
    assert TotalOf(terms[..2]) == TotalOf(terms[..1]) + Product(terms[1]);
    assert TotalOf(terms[..1]) == TotalOf(terms[..0]) + Product(terms[0]);
  }

  lemma {:induction false} ProductsNonNegative(b: Buckets, p: Price)
    requires p.Valid() && 0 <= b.uncached && 0 <= b.cacheRead && 0 <= b.cacheWrite && 0 <= b.output
    ensures 0 <= b.uncached * p.uncached && 0 <= b.cacheRead * p.cacheRead
    ensures 0 <= b.cacheWrite * p.cacheWrite && 0 <= b.output * p.output
  {
  }

  /** The buckets a set of counters can be billed as, if that is provable at all. */
  function BillableBuckets(c: Counters, p: Price): Result<Buckets, Gap> {
    if c.uncached.None? || c.output.None? then Failure(MissingCounter)
    else if c.cacheRead.Some? && c.cacheWrite.Some? then
      if c.total.Some? && c.KnownInput() != c.total.value then Failure(Contradiction)
      else Success(Buckets(c.uncached.value, c.cacheRead.value, c.cacheWrite.value, c.output.value))
    else if c.total.None? then Failure(MissingCounter)
    else
      var combined := c.total.value - c.uncached.value;
      if combined < 0 then Failure(Contradiction)
      else if c.cacheRead.Some? && c.cacheRead.value > combined then Failure(Contradiction)
      else if c.cacheWrite.Some? && c.cacheWrite.value > combined then Failure(Contradiction)
      else if p.cacheRead != p.cacheWrite then Failure(CacheSplit)
      else Success(Buckets(c.uncached.value, combined, 0, c.output.value))
  }

  function CostOf(c: Counters, p: Price): Cost {
    match BillableBuckets(c, p)
    case Failure(gap) => Unresolved(gap)
    case Success(b) =>
      if Numerator(b, p) <= MAX_INT64 then MicrosOf(RoundHalfUp(Numerator(b, p))) else ArithmeticFailure
  }

  function MicrosOf(amount: int): Cost {
    if 0 <= amount <= MAX_INT64 then Micros(amount) else ArithmeticFailure
  }

  method ComputeCostMicroUSD(c: Counters, p: Price) returns (cost: Cost)
    requires p.Valid() && c.Valid()
    ensures cost == CostOf(c, p)
    ensures cost.Micros? ==> cost.amount >= 0
  {
    if c.uncached.None? || c.output.None? {
      return Unresolved(MissingCounter);
    }
    if c.cacheRead.Some? && c.cacheWrite.Some? {
      if c.total.Some? {
        var inputSum := CheckedAddNonNegative(c.uncached.value, c.cacheRead.value);
        if inputSum.None? {
          return ArithmeticFailure;
        }
        inputSum := CheckedAddNonNegative(inputSum.value, c.cacheWrite.value);
        if inputSum.None? {
          return ArithmeticFailure;
        }
        if inputSum.value != c.total.value {
          return Unresolved(Contradiction);
        }
      }
      var b := Buckets(c.uncached.value, c.cacheRead.value, c.cacheWrite.value, c.output.value);
      ProductsNonNegative(b, p);
      cost := ComputeCostBuckets(b, p);
      return;
    }
    if c.total.None? {
      return Unresolved(MissingCounter);
    }
    var combined := CheckedSubNonNegative(c.total.value, c.uncached.value);
    if combined.None? {
      return Unresolved(Contradiction);
    }
    if c.cacheRead.Some? && c.cacheRead.value > combined.value {
      return Unresolved(Contradiction);
    }
    if c.cacheWrite.Some? && c.cacheWrite.value > combined.value {
      return Unresolved(Contradiction);
    }
    if p.cacheRead != p.cacheWrite {
      return Unresolved(CacheSplit);
    }
    var b := Buckets(c.uncached.value, combined.value, 0, c.output.value);
    ProductsNonNegative(b, p);
    cost := ComputeCostBuckets(b, p);
  }

  /** Token amounts that agree with every counter the provider did expose. */
  predicate Explains(b: Buckets, c: Counters) {
    && 0 <= b.uncached && 0 <= b.cacheRead && 0 <= b.cacheWrite && 0 <= b.output
    && (c.uncached.Some? ==> b.uncached == c.uncached.value)
    && (c.cacheRead.Some? ==> b.cacheRead == c.cacheRead.value)
    && (c.cacheWrite.Some? ==> b.cacheWrite == c.cacheWrite.value)
    && (c.output.Some? ==> b.output == c.output.value)
    && (c.total.Some? ==> b.uncached + b.cacheRead + b.cacheWrite == c.total.value)
  }

  /**
    A resolved cost is never a guess: it is the rounded exact price of every
    token split that agrees with the report, whatever was left unknown.
   */
  lemma {:induction false} ResolvedCostIsForced(c: Counters, p: Price, b: Buckets)
    requires CostOf(c, p).Micros? && Explains(b, c)
    ensures CostOf(c, p).amount == RoundHalfUp(Numerator(b, p))
  {
    var billed := BillableBuckets(c, p).value;
    if c.cacheRead.None? || c.cacheWrite.None? {
      assert billed.cacheRead == b.cacheRead + b.cacheWrite;
      assert billed.cacheRead * p.cacheRead == b.cacheRead * p.cacheRead + b.cacheWrite * p.cacheWrite;
    }
  }

  /** With unequal cache prices an incomplete split really leaves the price open. */
  lemma {:induction false} UnequalSplitIsOpen(c: Counters, p: Price)
    requires c.Valid() && BillableBuckets(c, p) == Failure(CacheSplit)
    requires c.cacheRead.None? && c.cacheWrite.None? && c.total.value > c.uncached.value
    ensures exists a, b :: Explains(a, c) && Explains(b, c) && Numerator(a, p) != Numerator(b, p)
  {
    var combined := c.total.value - c.uncached.value;
    var a := Buckets(c.uncached.value, combined, 0, c.output.value);
    var b := Buckets(c.uncached.value, combined - 1, 1, c.output.value);
    assert Explains(a, c) && Explains(b, c);
    assert Numerator(a, p) - Numerator(b, p) == p.cacheRead - p.cacheWrite by {
      assert combined * p.cacheRead == (combined - 1) * p.cacheRead + p.cacheRead;
    }
  }
}
