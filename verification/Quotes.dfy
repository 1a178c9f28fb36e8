/**
 * Constant-product quotes of a bonding curve, read as trades on its virtual reserves. Each quote is
 * rounded down, so the product of the reserves never falls; splitting and round trips follow from that.
 */
module Quotes {
  import opened Wrappers
  import opened Arithmetic

  type U64 = x: int | 0 <= x <= 0xFFFF_FFFF_FFFF_FFFF

  const U128_MAX: nat := 0xFFFF_FFFF_FFFF_FFFF_FFFF_FFFF_FFFF_FFFF

  datatype Curve = Curve(virtualToken: U64, virtualSol: U64)

  /** The integer code: a 128-bit numerator and denominator, and a quotient narrowed to 64 bits. */
  function SolToTokenQuote(c: Curve, sol: U64): U64 {
    if c.virtualSol == 0 then 0
    else (c.virtualToken * sol / (c.virtualSol + sol)) % 0x1_0000_0000_0000_0000
  }

  function TokenToSolQuote(c: Curve, tokens: U64): U64 {
    if c.virtualToken == 0 then 0
    else (c.virtualSol * tokens / (c.virtualToken + tokens)) % 0x1_0000_0000_0000_0000
  }

  /** What `amount` paid into one reserve takes out of the other, without machine widths. */
  function Quote(paidIn: nat, takenFrom: nat, amount: nat): nat {
    if paidIn == 0 then 0 else takenFrom * amount / (paidIn + amount)
  }

  lemma QuotientBounds(n: nat, d: nat)
    requires d > 0
    ensures (n / d) * d <= n < (n / d + 1) * d
  {
    assert n == (n / d) * d + n % d;
    assert (n / d + 1) * d == (n / d) * d + d;
  }

  /** A quote never exceeds the reserve it is taken from, and empties it only if that is already empty. */
  lemma QuoteWithinReserve(paidIn: nat, takenFrom: nat, amount: nat)
    ensures Quote(paidIn, takenFrom, amount) <= takenFrom
    ensures takenFrom > 0 ==> Quote(paidIn, takenFrom, amount) < takenFrom
  {
    if paidIn > 0 {
      var d := paidIn + amount;
      assert takenFrom * d == takenFrom * paidIn + takenFrom * amount;
      if takenFrom > 0 {
        LeDiv(takenFrom, takenFrom * amount, d);
        assert takenFrom * paidIn > 0;
      } else {
        assert takenFrom * amount == 0;
      }
    }
  }

  lemma ProductOfU64(a: U64, b: U64)
    ensures a * b <= 0xFFFF_FFFF_FFFF_FFFF * 0xFFFF_FFFF_FFFF_FFFF
  {
    assert a * b <= 0xFFFF_FFFF_FFFF_FFFF * b by {
      assert (0xFFFF_FFFF_FFFF_FFFF - a) * b >= 0;
    }
  }

  /**
   * No intermediate value overflows 128 bits and the cast to 64 bits loses nothing, so the integer code
   * computes the exact quotes.
   */
  lemma MachineQuotesExact(c: Curve, amount: U64)
    ensures c.virtualToken * amount <= U128_MAX && c.virtualSol * amount <= U128_MAX
    ensures c.virtualSol + amount <= U128_MAX && c.virtualToken + amount <= U128_MAX
    ensures SolToTokenQuote(c, amount) == Quote(c.virtualSol, c.virtualToken, amount)
    ensures TokenToSolQuote(c, amount) == Quote(c.virtualToken, c.virtualSol, amount)
  {
    ProductOfU64(c.virtualToken, amount);
    ProductOfU64(c.virtualSol, amount);
    QuoteWithinReserve(c.virtualSol, c.virtualToken, amount);
    QuoteWithinReserve(c.virtualToken, c.virtualSol, amount);
  }

  // ---------------------------------------------------------------- trades

  datatype Reserves = Reserves(sol: nat, token: nat)

  datatype Trade = BuyTokens(sol: nat) | SellTokens(tokens: nat)

  function After(r: Reserves, t: Trade): Reserves {
    match t
    case BuyTokens(sol) =>
      QuoteWithinReserve(r.sol, r.token, sol);
      Reserves(r.sol + sol, r.token - Quote(r.sol, r.token, sol))
    case SellTokens(tokens) =>
      QuoteWithinReserve(r.token, r.sol, tokens);
      Reserves(r.sol - Quote(r.token, r.sol, tokens), r.token + tokens)
  }

  function AfterAll(r: Reserves, trades: seq<Trade>): Reserves
    decreases trades
  {
    if trades == [] then r else AfterAll(After(r, trades[0]), trades[1..])
  }

  /** What the traders gain in SOL and in tokens, as the program quotes it to them. */
  function SolGained(r: Reserves, trades: seq<Trade>): int
    decreases trades
  {
    if trades == [] then 0
    else
      var later := SolGained(After(r, trades[0]), trades[1..]);
      match trades[0]
      case BuyTokens(sol) => later - sol
      case SellTokens(tokens) => later + Quote(r.token, r.sol, tokens)
  }

  function TokensGained(r: Reserves, trades: seq<Trade>): int
    decreases trades
  {
    if trades == [] then 0
    else
      var later := TokensGained(After(r, trades[0]), trades[1..]);
      match trades[0]
      case BuyTokens(sol) => later + Quote(r.sol, r.token, sol)
      case SellTokens(tokens) => later - tokens
  }

  /** Over any sequence of trades, what the traders gain is what the curve loses, in SOL and in tokens. */
  lemma {:induction false} TradesConserve(r: Reserves, trades: seq<Trade>)
    ensures AfterAll(r, trades).sol + SolGained(r, trades) == r.sol
    ensures AfterAll(r, trades).token + TokensGained(r, trades) == r.token
    decreases trades
  {
    if trades != [] {
      TradesConserve(After(r, trades[0]), trades[1..]);
    }
  }

  lemma QuoteKeepsProduct(paidIn: nat, takenFrom: nat, amount: nat)
    ensures Quote(paidIn, takenFrom, amount) <= takenFrom
    ensures (paidIn + amount) * (takenFrom - Quote(paidIn, takenFrom, amount)) >= paidIn * takenFrom
  {
    QuoteWithinReserve(paidIn, takenFrom, amount);
    if paidIn > 0 {
      var q, d := Quote(paidIn, takenFrom, amount), paidIn + amount;
      QuotientBounds(takenFrom * amount, d);
      assert d * (takenFrom - q) == paidIn * takenFrom + takenFrom * amount - q * d;
    } else {
      assert paidIn * takenFrom == 0;
    }
  }

  function Product(r: Reserves): nat {
    r.sol * r.token
  }

  lemma TradeKeepsProduct(r: Reserves, t: Trade)
    ensures Product(After(r, t)) >= Product(r)
  {
    match t
    case BuyTokens(sol) => QuoteKeepsProduct(r.sol, r.token, sol);
    case SellTokens(tokens) => QuoteKeepsProduct(r.token, r.sol, tokens);
  }

  /** Over any sequence of buys and sells the product of the virtual reserves never decreases. */
  lemma {:induction false} ProductNeverFalls(r: Reserves, trades: seq<Trade>)
    ensures Product(AfterAll(r, trades)) >= Product(r)
    decreases trades
  {
    if trades != [] {
      TradeKeepsProduct(r, trades[0]);
      ProductNeverFalls(After(r, trades[0]), trades[1..]);
    }
  }

  lemma NoFreeSide(r: Reserves, r': Reserves)
    requires r.sol > 0 && r.token > 0 && Product(r') >= Product(r)
    ensures r'.sol <= r.sol ==> r'.token >= r.token
    ensures r'.token <= r.token ==> r'.sol >= r.sol
  {
    if r'.sol <= r.sol {
      ProductOrder(r.sol, r.token, r'.sol, r'.token);
    }
    if r'.token <= r.token {
      ProductOrder(r.token, r.sol, r'.token, r'.sol);
    }
  }

  /** No sequence of trades takes out tokens without leaving SOL behind, or SOL without leaving tokens. */
  lemma NothingForNothing(r: Reserves, trades: seq<Trade>)
    requires r.sol > 0 && r.token > 0
    ensures var r' := AfterAll(r, trades);
            && (r'.sol <= r.sol ==> r'.token >= r.token)
            && (r'.token <= r.token ==> r'.sol >= r.sol)
  {
    ProductNeverFalls(r, trades);
    NoFreeSide(r, AfterAll(r, trades));
  }

  lemma ProductOrder(a: nat, b: nat, a': nat, b': nat)
    requires a > 0 && a' * b' >= a * b && a' <= a
    ensures b' >= b
  {
    if b' < b {
      SmallerProduct(a, b, a', b');
    }
  }

  lemma SmallerProduct(a: nat, b: nat, a': nat, b': nat)
    requires a > 0 && a' <= a && b' < b
    ensures a' * b' < a * b
  {
    MulLe(a', a, b');
    assert a * b == a * b' + a * (b - b');
    assert a * (b - b') > 0;
  }

  /** Reserves that keep the product have lost no more than the single quote for what was paid in. */
  lemma ProductBoundsLoss(paidIn: nat, takenFrom: nat, amount: nat, left: nat)
    requires paidIn > 0 && (paidIn + amount) * left >= paidIn * takenFrom
    ensures takenFrom - left <= Quote(paidIn, takenFrom, amount)
  {
    var d, lost := paidIn + amount, takenFrom - left;
    assert lost * d == paidIn * takenFrom + takenFrom * amount - d * left;
    LeDiv(lost, takenFrom * amount, d);
  }

  lemma LossBounded(r: Reserves, r': Reserves, paid: nat)
    requires r.sol > 0 && r'.sol == r.sol + paid && Product(r') >= Product(r)
    ensures r.token - r'.token <= Quote(r.sol, r.token, paid)
  {
    ProductBoundsLoss(r.sol, r.token, paid, r'.token);
  }

  function TotalSol(buys: seq<nat>): nat {
    if buys == [] then 0 else buys[0] + TotalSol(buys[1..])
  }

  function AsBuys(buys: seq<nat>): seq<Trade> {
    if buys == [] then [] else [BuyTokens(buys[0])] + AsBuys(buys[1..])
  }

  lemma {:induction false} BuysAddSol(r: Reserves, buys: seq<nat>)
    ensures AfterAll(r, AsBuys(buys)).sol == r.sol + TotalSol(buys)
    ensures AfterAll(r, AsBuys(buys)).token <= r.token
    decreases buys
  {
    if buys != [] {
      QuoteWithinReserve(r.sol, r.token, buys[0]);
      assert AsBuys(buys)[0] == BuyTokens(buys[0]) && AsBuys(buys)[1..] == AsBuys(buys[1..]);
      BuysAddSol(After(r, BuyTokens(buys[0])), buys[1..]);
    }
  }

  /** Splitting a buy into any number of parts never yields more tokens than buying at once. */
  lemma SplitNeverHelps(r: Reserves, buys: seq<nat>)
    requires r.sol > 0
    ensures r.token - AfterAll(r, AsBuys(buys)).token <= Quote(r.sol, r.token, TotalSol(buys))
  {
    BuysAddSol(r, buys);
    ProductNeverFalls(r, AsBuys(buys));
    LossBounded(r, AfterAll(r, AsBuys(buys)), TotalSol(buys));
  }

  function TokensFrom(r: Reserves, sol: nat): nat {
    Quote(r.sol, r.token, sol)
  }

  /** Two buys never beat one, whatever their sizes. */
  ghost predicate SplitSafe(r: Reserves) {
    forall a: nat, b: nat ::
      TokensFrom(r, a) + TokensFrom(After(r, BuyTokens(a)), b) <= TokensFrom(r, a + b)
  }

  lemma EmptySolSplit(r: Reserves, a: nat, b: nat)
    requires r.sol == 0 && r.token <= 1
    ensures TokensFrom(r, a) + TokensFrom(After(r, BuyTokens(a)), b) <= TokensFrom(r, a + b)
  {
    assert After(r, BuyTokens(a)) == Reserves(a, r.token);
    QuoteWithinReserve(a, r.token, b);
  }

  /**
   * The guard that quotes zero for an empty SOL reserve breaks the split law: the first part of a split
   * fills the reserve and the second part is then paid. The law holds for all sizes if and only if the
   * SOL reserve is not empty or there is at most one token to be had.
   */
  lemma SplitSafeIff(r: Reserves)
    ensures SplitSafe(r) <==> r.sol > 0 || r.token <= 1
  {
    if r.sol > 0 {
      forall a: nat, b: nat
        ensures TokensFrom(r, a) + TokensFrom(After(r, BuyTokens(a)), b) <= TokensFrom(r, a + b)
      {
        var r' := After(r, BuyTokens(a));
        QuoteKeepsProduct(r.sol, r.token, a);
        QuoteKeepsProduct(r'.sol, r'.token, b);
        var left := After(r', BuyTokens(b)).token;
        assert r.sol + (a + b) == r'.sol + b;
        ProductBoundsLoss(r.sol, r.token, a + b, left);
      }
    } else if r.token <= 1 {
      forall a: nat, b: nat
        ensures TokensFrom(r, a) + TokensFrom(After(r, BuyTokens(a)), b) <= TokensFrom(r, a + b)
      {
        EmptySolSplit(r, a, b);
      }
    } else {
      var r' := After(r, BuyTokens(1));
      assert r' == Reserves(1, r.token);
      assert TokensFrom(r', 1) == r.token * 1 / 2 >= 1;
      assert TokensFrom(r, 1 + 1) == 0;
      assert TokensFrom(r, 1) + TokensFrom(After(r, BuyTokens(1)), 1) > TokensFrom(r, 1 + 1);
    }
  }

  /** Selling straight back what was bought never returns more SOL than was paid. */
  lemma SellBackNeverProfits(r: Reserves, sol: nat)
    ensures var bought := TokensFrom(r, sol);
            var r' := After(r, BuyTokens(sol));
            Quote(r'.token, r'.sol, bought) <= sol
  {
    var bought, r' := TokensFrom(r, sol), After(r, BuyTokens(sol));
    if r'.token > 0 {
      assert r'.token + bought == r.token;
      assert r'.sol * bought <= sol * r.token by { BoughtCost(r, sol); }
      DivAtMost(r'.sol * bought, r.token, sol);
    }
  }

  lemma BoughtCost(r: Reserves, sol: nat)
    ensures (r.sol + sol) * TokensFrom(r, sol) <= sol * r.token
  {
    if r.sol > 0 {
      QuotientBounds(r.token * sol, r.sol + sol);
    } else {
      assert (r.sol + sol) * 0 == 0;
    }
  }

  /** Paying more never buys fewer tokens. */
  lemma QuoteMonotone(paidIn: nat, takenFrom: nat, amount: nat, more: nat)
    requires amount <= more
    ensures Quote(paidIn, takenFrom, amount) <= Quote(paidIn, takenFrom, more)
  {
    if paidIn > 0 {
      var r := Reserves(paidIn, takenFrom);
      SplitSafeIff(r);
      var rest := more - amount;
      assert TokensFrom(r, amount) + TokensFrom(After(r, BuyTokens(amount)), rest) <= TokensFrom(r, amount + rest);
    }
  }
}
