/** Settling a Claude-format request from what OpenRouter says it cost.

    OpenRouter reports a cost but not how many prompt tokens were written to its
    cache.  The settlement infers that count from the cost, then bills tokens at
    the configured ratios.  Ratios, cost and the unrounded settlement are reals. */
module CacheInference {
  const QUOTA_PER_UNIT: real := 500_000.0

  datatype Price = Price(modelRatio: real, groupRatio: real, modelPrice: real, usePrice: bool, completionRatio: real,
                         cacheRatio: real, creationRatio: real, creation5mRatio: real, creation1hRatio: real,
                         creationDefaulted: bool)

  /** The upstream's cost field, of any JSON type.  Only a floating-point number is read
      as a cost, and every JSON number is one; only the integer 0 counts as no cost. */
  datatype Cost = Absent | Number(x: real) | Integer(n: int) | Other
  {
    function Worth(): real { if Number? then x else 0.0 }
    predicate Reported() { this != Integer(0) }
  }

  datatype Usage = Usage(prompt: nat, completion: nat, cached: nat, creation: nat, creation5m: nat, creation1h: nat,
                         includesCached: bool, cost: Cost)

  /** Round half away from zero. */
  function Round(x: real): int {
    if x >= 0.0 then (x + 0.5).Floor else -((0.5 - x).Floor)
  }

  function Abs(x: real): real { if x < 0.0 then -x else x }

  /** claudeCalculateQuota. */
  function CalculateQuota(p: Price, prompt: int, cached: int, creation5m: int, creation1h: int, remaining: int, completion: int,
                          creationRatio: real): real {
    if p.usePrice then p.modelPrice * QUOTA_PER_UNIT * p.groupRatio
    else (prompt as real + cached as real * p.cacheRatio + creation5m as real * p.creation5mRatio
          + creation1h as real * p.creation1hRatio + remaining as real * creationRatio
          + completion as real * p.completionRatio) * (p.modelRatio * p.groupRatio)
  }

  /** The count that would reproduce the cost exactly, before rounding. */
  function ExactCreation(u: Usage, p: Price): real
    requires p.modelRatio != 0.0 && p.creationRatio != 1.0
  {
    var quotaPrice := p.modelRatio / QUOTA_PER_UNIT;
    DenominatorNonZero(p);
    (u.cost.Worth() - u.prompt as real * quotaPrice + u.cached as real * (quotaPrice - quotaPrice * p.cacheRatio)
     - u.completion as real * (quotaPrice * p.completionRatio))
    / (quotaPrice * p.creationRatio - quotaPrice)
  }

  lemma DenominatorNonZero(p: Price)
    requires p.modelRatio != 0.0 && p.creationRatio != 1.0
    ensures var q := p.modelRatio / QUOTA_PER_UNIT; q * p.creationRatio - q == q * (p.creationRatio - 1.0) != 0.0
  {
    var q, d := p.modelRatio / QUOTA_PER_UNIT, p.creationRatio - 1.0;
    assert q != 0.0 && d != 0.0;
    ProductNonZero(q, d);
  }

  lemma ProductNonZero(a: real, b: real)
    requires a != 0.0 && b != 0.0
    ensures a * b != 0.0
  {
  }

  /** CalcOpenRouterCacheCreateTokens. */
  function InferCreation(u: Usage, p: Price): int
    requires p.modelRatio != 0.0
  {
    if p.creationRatio == 1.0 then 0 else Round(ExactCreation(u, p))
  }

  /** What the deduction part of PostClaudeConsumeQuota settles on. */
  datatype Deduction = Deduction(billable: int, creation: int, ratio: real)

  function Deduct(u: Usage, p: Price, openRouter: bool, custom: bool): Deduction
    requires p.modelRatio != 0.0
  {
    var ratio := if u.includesCached && p.creationDefaulted then 1.0 else p.creationRatio;
    if !u.includesCached then Deduction(u.prompt, u.creation, ratio)
    else
      var billable := u.prompt - u.cached;
      if Inferred(u, p, openRouter, custom) then Deduction(billable - InferCreation(u, p), InferCreation(u, p), p.creationRatio)
      else Deduction(billable - u.creation, u.creation, ratio)
  }

  /** The inference is attempted and its result is accepted. */
  predicate Inferred(u: Usage, p: Price, openRouter: bool, custom: bool)
    requires p.modelRatio != 0.0
  {
    && u.includesCached && openRouter && u.creation == 0 && p.creationRatio != 1.0 && u.cost.Reported()
    && !p.usePrice && !custom
    && 0 <= InferCreation(u, p) <= u.prompt - u.cached
  }

  /** The unrounded settlement. */
  function Settlement(u: Usage, p: Price, openRouter: bool, custom: bool): real
    requires p.modelRatio != 0.0
  {
    var d := Deduct(u, p, openRouter, custom);
    var remaining := d.creation - u.creation5m - u.creation1h;
    CalculateQuota(p, d.billable, u.cached, u.creation5m, u.creation1h, if remaining < 0 then 0 else remaining,
                   u.completion, d.ratio)
  }

  /** What the reported cost is worth. */
  function Target(u: Usage, p: Price): real {
    u.cost.Worth() * QUOTA_PER_UNIT * p.groupRatio
  }

  // ---------------------------------------------------------------- price per token

  /** A bill: how many tokens are charged at each rate. */
  datatype Bill = Bill(plain: int, cached: int, written5m: int, written1h: int, written: int, completion: int)
  {
    function PromptTokens(): int { plain + cached + written5m + written1h + written }

    function Cost(p: Price, writtenRatio: real): real {
      var unit := p.modelRatio * p.groupRatio;
      plain as real * unit + cached as real * (p.cacheRatio * unit) + written5m as real * (p.creation5mRatio * unit)
      + written1h as real * (p.creation1hRatio * unit) + written as real * (writtenRatio * unit)
      + completion as real * (p.completionRatio * unit)
    }
  }

  /** Without an inferred count, a request not sold at a flat price costs each of its
      tokens times that token's price: prompt tokens that met no cache at the base price,
      those read from the cache and those written for five minutes, for an hour or
      otherwise at their own ratios. */
  lemma SettlementPerToken(u: Usage, p: Price, openRouter: bool, custom: bool)
    requires p.modelRatio != 0.0 && !p.usePrice && !Inferred(u, p, openRouter, custom)
    ensures var split := u.creation5m + u.creation1h;
            var bill := Bill(if u.includesCached then u.prompt - u.cached - u.creation else u.prompt,
                             u.cached, u.creation5m, u.creation1h, if split <= u.creation then u.creation - split else 0,
                             u.completion);
            && Settlement(u, p, openRouter, custom)
               == bill.Cost(p, if u.includesCached && p.creationDefaulted then 1.0 else p.creationRatio)
            && (u.includesCached ==> (bill.PromptTokens() == u.prompt <==> split <= u.creation))
  {
    var d := Deduct(u, p, openRouter, custom);
    var remaining := d.creation - u.creation5m - u.creation1h;
    BillIsQuota(p, Bill(d.billable, u.cached, u.creation5m, u.creation1h, if remaining < 0 then 0 else remaining, u.completion),
                d.ratio);
  }

  lemma BillIsQuota(p: Price, b: Bill, ratio: real)
    requires !p.usePrice
    ensures CalculateQuota(p, b.plain, b.cached, b.written5m, b.written1h, b.written, b.completion, ratio) == b.Cost(p, ratio)
  {
    var unit := p.modelRatio * p.groupRatio;
    Reassociate(b.cached as real, p.cacheRatio, unit);
    Reassociate(b.written5m as real, p.creation5mRatio, unit);
    Reassociate(b.written1h as real, p.creation1hRatio, unit);
    Reassociate(b.written as real, ratio, unit);
    Reassociate(b.completion as real, p.completionRatio, unit);
    SumTimes(b.plain as real, b.cached as real * p.cacheRatio, b.written5m as real * p.creation5mRatio,
             b.written1h as real * p.creation1hRatio, b.written as real * ratio, b.completion as real * p.completionRatio, unit);
  }

  lemma Reassociate(n: real, ratio: real, unit: real)
    ensures n * ratio * unit == n * (ratio * unit)
  {}

  /** A flat price is the settlement whatever was used. */
  lemma FlatPrice(u: Usage, p: Price, openRouter: bool, custom: bool)
    requires p.modelRatio != 0.0 && p.usePrice
    ensures Settlement(u, p, openRouter, custom) == p.modelPrice * 500_000.0 * p.groupRatio
  {}

  lemma SumTimes(a: real, b: real, c: real, d: real, e: real, f: real, unit: real)
    ensures (a + b + c + d + e + f) * unit == a * unit + b * unit + c * unit + d * unit + e * unit + f * unit
  {}

  // ---------------------------------------------------------------- accuracy

  lemma RoundIsNearest(x: real, k: int)
    ensures Abs(Round(x) as real - x) <= 0.5
    ensures Abs(Round(x) as real - x) <= Abs(k as real - x)
  {
    var n := Round(x);
    if k > n {
      assert k as real >= n as real + 1.0;
    } else if k < n {
      assert k as real <= n as real - 1.0;
    }
  }

  /** Token cost outside cache creation, in units of the prompt price. */
  function Base(u: Usage, p: Price): real {
    u.prompt as real - u.cached as real + u.cached as real * p.cacheRatio + u.completion as real * p.completionRatio
  }

  /** The settlement as a function of the tokens written to the cache. */
  datatype Line = Line(start: real, slope: real)
  {
    function At(k: real): real { start + k * slope }
  }

  function LineOf(u: Usage, p: Price): Line {
    Line(Base(u, p) * (p.modelRatio * p.groupRatio), (p.creationRatio - 1.0) * (p.modelRatio * p.groupRatio))
  }

  /** What the request settles at if `k` tokens are billed as cache creation. */
  function BilledAt(u: Usage, p: Price, k: int): real {
    CalculateQuota(p, u.prompt - u.cached - k, u.cached, 0, 0, k, u.completion, p.creationRatio)
  }

  lemma BilledOnLine(u: Usage, p: Price, k: int)
    requires !p.usePrice
    ensures BilledAt(u, p, k) == LineOf(u, p).At(k as real)
  {
    var r, scale := k as real, p.modelRatio * p.groupRatio;
    assert (u.prompt - u.cached - k) as real == u.prompt as real - u.cached as real - r;
    assert r * p.creationRatio - r == r * (p.creationRatio - 1.0);
    assert BilledAt(u, p, k) == (Base(u, p) + r * (p.creationRatio - 1.0)) * scale;
    Spread(Base(u, p), r, p.creationRatio - 1.0, scale);
  }

  lemma Spread(base: real, x: real, d: real, scale: real)
    ensures (base + x * d) * scale == base * scale + x * (d * scale)
  {
  }

  /** The unrounded count reproduces the cost. */
  lemma ExactCountHitsTarget(u: Usage, p: Price)
    requires p.modelRatio != 0.0 && p.creationRatio != 1.0
    ensures LineOf(u, p).At(ExactCreation(u, p)) == Target(u, p)
  {
    var q, d, base, x := p.modelRatio / QUOTA_PER_UNIT, p.creationRatio - 1.0, Base(u, p), ExactCreation(u, p);
    DenominatorNonZero(p);
    var numerator := u.cost.Worth() - u.prompt as real * q + u.cached as real * (q - q * p.cacheRatio)
                   - u.completion as real * (q * p.completionRatio);
    assert numerator == u.cost.Worth() - q * base by {
      Distribute(q, u.prompt as real, u.cached as real, u.completion as real, p.cacheRatio, p.completionRatio);
    }
    Quotient(numerator, q * d, x);
    assert q * (base + x * d) == u.cost.Worth() by {
      Regroup(q, d, x, base);
    }
    Scale(base + x * d, q, p.modelRatio, p.groupRatio, u.cost.Worth());
    Spread(base, x, d, p.modelRatio * p.groupRatio);
  }

  lemma Distribute(q: real, prompt: real, cached: real, completion: real, cr: real, cpr: real)
    ensures prompt * q - cached * (q - q * cr) + completion * (q * cpr) == q * (prompt - cached + cached * cr + completion * cpr)
  {
  }

  lemma Quotient(n: real, d: real, x: real)
    requires d != 0.0 && x == n / d
    ensures x * d == n
  {
  }

  lemma Regroup(q: real, d: real, x: real, base: real)
    ensures q * (base + x * d) == q * base + x * (q * d)
  {
  }

  lemma Scale(t: real, q: real, mr: real, gr: real, cost: real)
    requires q * t == cost && q * QUOTA_PER_UNIT == mr
    ensures t * (mr * gr) == cost * QUOTA_PER_UNIT * gr
  {
    assert t * (mr * gr) == t * ((q * QUOTA_PER_UNIT) * gr) == (q * t) * QUOTA_PER_UNIT * gr;
  }

  lemma AbsProduct(a: real, b: real)
    ensures Abs(a * b) == Abs(a) * Abs(b)
  {
  }

  lemma DistanceOnLine(l: Line, k: real, x: real, distance: real)
    requires distance == Abs(k - x)
    ensures Abs(l.At(k) - l.At(x)) == distance * Abs(l.slope)
  {
    assert l.At(k) - l.At(x) == (k - x) * l.slope;
    AbsProduct(k - x, l.slope);
  }

  lemma Ordered(near: real, far: real, slope: real)
    requires near <= far && slope >= 0.0
    ensures near * slope <= far * slope
  {
  }

  lemma NearerOnLine(l: Line, k: real, x: real, distance: real, bound: real)
    requires distance == Abs(k - x) && distance <= bound
    ensures Abs(l.At(k) - l.At(x)) <= bound * Abs(l.slope)
  {
    DistanceOnLine(l, k, x, distance);
    Ordered(distance, bound, Abs(l.slope));
  }

  /** On any line, the rounded point lies within half a step of the exact one, and no
      other whole point lies closer. */
  lemma RoundedIsNearestOnLine(l: Line, x: real, target: real, other: int)
    requires l.At(x) == target
    ensures Abs(l.At(Round(x) as real) - target) <= 0.5 * Abs(l.slope)
    ensures Abs(l.At(Round(x) as real) - target) <= Abs(l.At(other as real) - target)
  {
    var distance, far := Abs(Round(x) as real - x), Abs(other as real - x);
    RoundIsNearest(x, other);
    NearerOnLine(l, Round(x) as real, x, distance, 0.5);
    NearerOnLine(l, Round(x) as real, x, distance, far);
    DistanceOnLine(l, other as real, x, far);
  }

  /** Billing the inferred count misses what the cost is worth by at most half a
      token's creation surcharge, and by no more than any other count. */
  lemma InferredCountIsNearest(u: Usage, p: Price, other: int)
    requires p.modelRatio != 0.0 && p.creationRatio != 1.0 && !p.usePrice
    ensures var line, k := LineOf(u, p), InferCreation(u, p);
            && Abs(line.At(k as real) - Target(u, p)) <= 0.5 * Abs(line.slope)
            && (k as real == ExactCreation(u, p) ==> line.At(k as real) == Target(u, p))
            && Abs(line.At(k as real) - Target(u, p)) <= Abs(line.At(other as real) - Target(u, p))
  {
    ExactCountHitsTarget(u, p);
    RoundedIsNearestOnLine(LineOf(u, p), ExactCreation(u, p), Target(u, p), other);
  }

  lemma SettlementIsBilled(u: Usage, p: Price, openRouter: bool, custom: bool)
    requires p.modelRatio != 0.0 && Inferred(u, p, openRouter, custom) && u.creation5m == 0 && u.creation1h == 0
    ensures Settlement(u, p, openRouter, custom) == BilledAt(u, p, InferCreation(u, p))
  {
  }

  /** When the inference is accepted and no 5m/1h split was reported, the unrounded
      settlement misses what the cost is worth by at most half a token's creation
      surcharge (the slope of the line); it is exact when the inferred count is; and
      billing any other token count would not come closer. */
  lemma InferenceReproducesCost(u: Usage, p: Price, openRouter: bool, custom: bool, other: int, settled: real, alternative: real)
    requires p.modelRatio != 0.0 && Inferred(u, p, openRouter, custom) && u.creation5m == 0 && u.creation1h == 0
    requires settled == Settlement(u, p, openRouter, custom) && alternative == BilledAt(u, p, other)
    ensures Abs(settled - Target(u, p)) <= 0.5 * Abs(LineOf(u, p).slope)
    ensures InferCreation(u, p) as real == ExactCreation(u, p) ==> settled == Target(u, p)
    ensures Abs(settled - Target(u, p)) <= Abs(alternative - Target(u, p))
  {
    SettlementIsBilled(u, p, openRouter, custom);
    BilledOnLine(u, p, InferCreation(u, p));
    BilledOnLine(u, p, other);
    InferredCountIsNearest(u, p, other);
  }

  // ---------------------------------------------------------------- no cost

  /** Prices as configured: positive model ratio, no negative ratio. */
  predicate Sensible(p: Price) {
    p.modelRatio > 0.0 && p.groupRatio >= 0.0 && p.cacheRatio >= 0.0 && p.completionRatio >= 0.0 && p.creationRatio >= 0.0
  }

  lemma BaseIsNonNegative(u: Usage, p: Price)
    requires Sensible(p) && u.cached <= u.prompt
    ensures Base(u, p) >= 0.0
  {
    Ordered(0.0, u.cached as real, p.cacheRatio);
    Ordered(0.0, u.completion as real, p.completionRatio);
  }

  /** With nothing to read as a cost, the exact count is the one that makes the request
      free. */
  lemma NoCostCount(u: Usage, p: Price)
    requires p.modelRatio != 0.0 && p.creationRatio != 1.0 && u.cost.Worth() == 0.0
    ensures ExactCreation(u, p) * (p.creationRatio - 1.0) == -Base(u, p)
  {
    var q, d, base, x := p.modelRatio / QUOTA_PER_UNIT, p.creationRatio - 1.0, Base(u, p), ExactCreation(u, p);
    DenominatorNonZero(p);
    var numerator := 0.0 - u.prompt as real * q + u.cached as real * (q - q * p.cacheRatio)
                   - u.completion as real * (q * p.completionRatio);
    assert numerator == -(q * base) by {
      Distribute(q, u.prompt as real, u.cached as real, u.completion as real, p.cacheRatio, p.completionRatio);
    }
    Quotient(numerator, q * d, x);
    Regroup(q, d, x, base);
    assert q * (base + x * d) == 0.0;
    if base + x * d != 0.0 {
      ProductNonZero(q, base + x * d);
    }
  }

  lemma SignOfQuotient(x: real, d: real, base: real)
    requires x * d == -base && base >= 0.0 && d != 0.0
    ensures d > 0.0 ==> x <= 0.0
    ensures d < 0.0 ==> x >= 0.0
  {
    if d > 0.0 && x > 0.0 {
      Ordered(0.0, x, d);
      ProductNonZero(x, d);
    }
    if d < 0.0 && x < 0.0 {
      Ordered(0.0, -x, -d);
      ProductNonZero(x, d);
    }
  }

  /** A usage without a readable cost still enters the inference.  With cache writes
      priced above the prompt it infers none, so nothing changes; priced below, it bills
      whatever count comes nearest to making the request free. */
  lemma NoCostInference(u: Usage, p: Price, openRouter: bool, custom: bool)
    requires Sensible(p) && u.cached <= u.prompt && u.cost.Worth() == 0.0
    requires Inferred(u, p, openRouter, custom)
    ensures p.creationRatio > 1.0 ==> InferCreation(u, p) == 0
    ensures u.creation5m == 0 && u.creation1h == 0 ==>
              Abs(Settlement(u, p, openRouter, custom)) <= 0.5 * Abs(LineOf(u, p).slope)
  {
    BaseIsNonNegative(u, p);
    NoCostCount(u, p);
    SignOfQuotient(ExactCreation(u, p), p.creationRatio - 1.0, Base(u, p));
    if u.creation5m == 0 && u.creation1h == 0 {
      assert Target(u, p) == 0.0;
      InferenceReproducesCost(u, p, openRouter, custom, 0, Settlement(u, p, openRouter, custom), BilledAt(u, p, 0));
    }
  }

  /** A missing cost makes a request free: its whole prompt is taken for cache writes at
      no price. */
  lemma MissingCostCanBeFree(prompt: nat) returns (u: Usage, p: Price)
    ensures u.prompt == prompt && u.cost.Absent? && Sensible(p)
    ensures Inferred(u, p, true, false) && InferCreation(u, p) == prompt && Settlement(u, p, true, false) == 0.0
  {
    u := Usage(prompt, 0, 0, 0, 0, 0, true, Absent);
    p := Price(1.0, 1.0, 0.0, false, 1.0, 0.0, 0.0, 0.0, 0.0, false);
    NoCostCount(u, p);
    assert Base(u, p) == prompt as real;
    assert ExactCreation(u, p) == prompt as real;
  }
}
