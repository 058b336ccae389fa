/** Prices and token usage: what a request can cost at most, and what it did cost. */
module Pricing {
  import opened Wrappers

  /** Dollars; the source computes in exact decimals. */
  type Money = real

  /** Prices per million tokens. `cacheWrite` is absent where the configuration leaves it out. */
  datatype Prices = Prices(input: Money, cachedInput: Money, output: Money, cacheWrite: Option<Money>)
  {
    function CacheWritePrice(): Money {
      if cacheWrite.Some? then cacheWrite.value else input * 1.25
    }

    /** What the configuration check of a model definition accepts. */
    predicate Valid() {
      && input >= 0.0 && cachedInput >= 0.0 && output >= 0.0 && (cacheWrite.Some? ==> cacheWrite.value >= 0.0)
      && cachedInput <= input && CacheWritePrice() >= input
    }
  }

  datatype TokenUsage = TokenUsage(input: int, cached: int, output: int, cacheWrite: int)
  {
    predicate Valid() {
      input >= 0 && cached >= 0 && output >= 0 && cacheWrite >= 0 && cached + cacheWrite <= input
    }
  }

  function Charge(tokens: int, price: Money): real {
    tokens as real * price
  }

  /** Millionths of a dollar. */
  function Millionths(p: Prices, u: TokenUsage): real {
    Charge(u.input - u.cached - u.cacheWrite, p.input) + Charge(u.cached, p.cachedInput)
    + Charge(u.cacheWrite, p.CacheWritePrice()) + Charge(u.output, p.output)
  }

  function EstimateCost(p: Prices, u: TokenUsage): Money {
    Millionths(p, u) / 1_000_000.0
  }

  lemma OneToken(n: int, price: Money)
    ensures Charge(n + 1, price) == Charge(n, price) + price
  {
  }

  /** Nothing costs nothing, and every token more, of each kind, costs its price per million. */
  lemma EveryTokenCosts(p: Prices, u: TokenUsage)
    ensures EstimateCost(p, TokenUsage(0, 0, 0, 0)) == 0.0
    ensures EstimateCost(p, u.(input := u.input + 1)) == EstimateCost(p, u) + p.input / 1_000_000.0
    ensures EstimateCost(p, u.(input := u.input + 1, cached := u.cached + 1))
         == EstimateCost(p, u) + p.cachedInput / 1_000_000.0
    ensures EstimateCost(p, u.(input := u.input + 1, cacheWrite := u.cacheWrite + 1))
         == EstimateCost(p, u) + p.CacheWritePrice() / 1_000_000.0
    ensures EstimateCost(p, u.(output := u.output + 1)) == EstimateCost(p, u) + p.output / 1_000_000.0
    ensures p.CacheWritePrice() == if p.cacheWrite.Some? then p.cacheWrite.value else 1.25 * p.input
  {
    NoTokens(p.input);
    NoTokens(p.cachedInput);
    NoTokens(p.CacheWritePrice());
    NoTokens(p.output);
    OneToken(u.input - u.cached - u.cacheWrite, p.input);
    OneToken(u.cached, p.cachedInput);
    OneToken(u.cacheWrite, p.CacheWritePrice());
    OneToken(u.output, p.output);
    hide Charge;
  }

  /** What the gateway reserves: no cache hits, and with caching on all input written to the cache. */
  function Maximum(p: Prices, inputBound: nat, outputBound: nat, caching: bool): Money {
    EstimateCost(p, TokenUsage(inputBound, 0, outputBound, if caching then inputBound else 0))
  }

  predicate Within(u: TokenUsage, inputBound: nat, outputBound: nat) {
    u.Valid() && u.input <= inputBound && u.output <= outputBound
  }

  lemma MoreTokens(m: int, n: int, price: Money)
    requires m <= n && price >= 0.0
    ensures Charge(m, price) <= Charge(n, price)
  {
    assert (n - m) as real * price >= 0.0;
  }

  lemma DearerTokens(n: int, p: Money, q: Money)
    requires n >= 0 && (n == 0 || p <= q)
    ensures Charge(n, p) <= Charge(n, q)
  {
    if n > 0 {
      assert n as real * (q - p) >= 0.0;
    }
  }

  lemma SplitTokens(i: int, c: int, w: int, p: Money)
    ensures Charge(i - c - w, p) + Charge(c, p) + Charge(w, p) == Charge(i, p)
  {
  }

  lemma NoTokens(p: Money)
    ensures Charge(0, p) == 0.0
  {
  }

  /** Accepted prices are not negative, reading from the cache is no dearer than fresh input, writing no cheaper. */
  lemma AcceptedIff(p: Prices)
    ensures p.Valid() <==>
      && 0.0 <= p.cachedInput <= p.input && 0.0 <= p.output
      && (if p.cacheWrite.Some? then p.input <= p.cacheWrite.value else true)
  {
  }

  /** A cost is never negative. */
  lemma CostNonnegative(p: Prices, u: TokenUsage)
    requires p.Valid() && u.Valid()
    ensures EstimateCost(p, u) >= 0.0
  {
    hide Charge;
    NoTokens(p.input);
    NoTokens(p.cachedInput);
    NoTokens(p.CacheWritePrice());
    NoTokens(p.output);
    MoreTokens(0, u.input - u.cached - u.cacheWrite, p.input);
    MoreTokens(0, u.cached, p.cachedInput);
    MoreTokens(0, u.cacheWrite, p.CacheWritePrice());
    MoreTokens(0, u.output, p.output);
  }

  /** No usage costs more than its input at price `q` and its output, if no token of it costs more than `q`. */
  lemma CostAtMost(p: Prices, u: TokenUsage, q: Money, inputBound: nat, outputBound: nat)
    requires p.Valid() && Within(u, inputBound, outputBound) && q >= p.input
    requires u.cacheWrite == 0 || q >= p.CacheWritePrice()
    ensures Millionths(p, u) <= Charge(inputBound, q) + Charge(outputBound, p.output)
  {
    hide Charge;
    DearerTokens(u.input - u.cached - u.cacheWrite, p.input, q);
    DearerTokens(u.cached, p.cachedInput, q);
    DearerTokens(u.cacheWrite, p.CacheWritePrice(), q);
    SplitTokens(u.input, u.cached, u.cacheWrite, q);
    MoreTokens(u.input, inputBound, q);
    MoreTokens(u.output, outputBound, p.output);
  }

  lemma MaximumCharges(p: Prices, inputBound: nat, outputBound: nat, caching: bool)
    ensures Maximum(p, inputBound, outputBound, caching)
      == (Charge(inputBound, if caching then p.CacheWritePrice() else p.input)
        + Charge(outputBound, p.output)) / 1_000_000.0
  {
    hide Charge;
    NoTokens(p.input);
    NoTokens(p.cachedInput);
    NoTokens(p.CacheWritePrice());
  }

  /** With caching enabled the reserved maximum bounds every usage within the admitted tokens. */
  lemma MaximumBoundsCachedCalls(p: Prices, u: TokenUsage, inputBound: nat, outputBound: nat)
    requires p.Valid() && Within(u, inputBound, outputBound)
    ensures EstimateCost(p, u) <= Maximum(p, inputBound, outputBound, true)
  {
    hide Charge, Maximum;
    CostAtMost(p, u, p.CacheWritePrice(), inputBound, outputBound);
    MaximumCharges(p, inputBound, outputBound, true);
  }

  /** The dearest usage that the token bounds admit, whether or not caching was asked for. */
  function Dearest(inputBound: nat, outputBound: nat): TokenUsage {
    TokenUsage(inputBound, 0, outputBound, inputBound)
  }

  /**
   With caching disabled the maximum assumes that nothing is written to the cache.  It bounds every
   usage within the admitted tokens exactly if cache writes cost no more than plain input, or no input
   is admitted at all.
   */
  lemma MaximumBoundsUncachedCallsIff(p: Prices, inputBound: nat, outputBound: nat)
    requires p.Valid()
    ensures (forall u: TokenUsage :: Within(u, inputBound, outputBound) ==>
               EstimateCost(p, u) <= Maximum(p, inputBound, outputBound, false))
            <==> (p.CacheWritePrice() == p.input || inputBound == 0)
  {
    if p.CacheWritePrice() == p.input || inputBound == 0 {
      forall u: TokenUsage | Within(u, inputBound, outputBound)
        ensures EstimateCost(p, u) <= Maximum(p, inputBound, outputBound, false)
      {
        hide Charge, Maximum;
        CostAtMost(p, u, p.input, inputBound, outputBound);
        MaximumCharges(p, inputBound, outputBound, false);
      }
    } else {
      var u := Dearest(inputBound, outputBound);
      assert Within(u, inputBound, outputBound);
      DearerWrites(p, inputBound, outputBound);
    }
  }

  lemma DearerWrites(p: Prices, inputBound: nat, outputBound: nat)
    requires p.Valid() && p.CacheWritePrice() != p.input && inputBound > 0
    ensures EstimateCost(p, Dearest(inputBound, outputBound)) > Maximum(p, inputBound, outputBound, false)
  {
    var extra := inputBound as real * (p.CacheWritePrice() - p.input);
    assert Charge(inputBound, p.CacheWritePrice()) == Charge(inputBound, p.input) + extra;
    hide Charge;
    MaximumCharges(p, inputBound, outputBound, true);
    MaximumCharges(p, inputBound, outputBound, false);
  }

  /** A usage that wrote nothing to the cache is bounded even with caching disabled. */
  lemma MaximumBoundsCallsWithoutWrites(p: Prices, u: TokenUsage, inputBound: nat, outputBound: nat)
    requires p.Valid() && Within(u, inputBound, outputBound) && u.cacheWrite == 0
    ensures EstimateCost(p, u) <= Maximum(p, inputBound, outputBound, false)
  {
    hide Charge, Maximum;
    CostAtMost(p, u, p.input, inputBound, outputBound);
    MaximumCharges(p, inputBound, outputBound, false);
  }
}
