/**
 * The valuation rule: which price a holding is valued at, what one table row
 * holds, and the running total; plus the single-symbol price lookup, which
 * applies no fallback. The quote service is an oracle `quote` from a symbol to
 * an optional price (`None` when the request, its status or its body failed).
 */
module Valuation {
  import opened Wrappers
  import opened Text
  import opened Holdings

  /** The price a holding is valued at when its quote is unavailable. */
  const FallbackPrice: real := 100.0

  /** Python truthiness of an optional number: present and not zero. */
  predicate Truthy(p: Option<real>)
  {
    p.Some? && p.value != 0.0
  }

  /** The price valuation uses for `sym`: the quote when there is one (even 0), the fallback otherwise. */
  function PriceUsed(quote: string -> Option<real>, sym: string): real
  {
    match quote(sym)
    case Some(p) => p
    case None => FallbackPrice
  }

  /** What `shares` shares are worth at `price`. */
  function Worth(shares: int, price: real): real
  {
    shares as real * price
  }

  lemma WorthAdd(a: int, b: int, price: real)
    ensures Worth(a + b, price) == Worth(a, price) + Worth(b, price)
  {
  }

  /** The current value of one holding: its shares at the price valuation uses. */
  function CurrentValue(h: Holding, quote: string -> Option<real>): real
  {
    Worth(h.shares, PriceUsed(quote, h.symbol))
  }

  /** One row of the valuation table; `profitLoss == None` is the "-" cell. */
  datatype Row = Row(symbol: string, shares: int, price: real, value: real, profitLoss: Option<real>)

  /** What the row shown for holding `h` must hold. */
  predicate Describes(r: Row, h: Holding, quote: string -> Option<real>)
  {
    && r.symbol == h.symbol
    && r.shares == h.shares
    && (quote(h.symbol).Some? ==> r.price == quote(h.symbol).value)
    && (quote(h.symbol).None? ==> r.price == FallbackPrice)
    && r.value == Worth(h.shares, r.price)
    && (r.profitLoss.Some? <==> Truthy(h.purchasePrice))
    && (r.profitLoss.Some? ==> r.profitLoss.value == r.value - Worth(h.shares, h.purchasePrice.value))
  }

  /** The portfolio total: the current values added up in list order. */
  function Total(hs: seq<Holding>, quote: string -> Option<real>): real
  {
    if hs == [] then 0.0
    else Total(hs[..|hs| - 1], quote) + CurrentValue(hs[|hs| - 1], quote)
  }

  /** The sum of all share counts. */
  function SumShares(hs: seq<Holding>): int
  {
    if hs == [] then 0 else hs[0].shares + SumShares(hs[1..])
  }

  /** The total of a concatenation is the sum of the totals: no holding is dropped or counted twice. */
  lemma {:induction false} TotalAppend(a: seq<Holding>, b: seq<Holding>, quote: string -> Option<real>)
    ensures Total(a + b, quote) == Total(a, quote) + Total(b, quote)
  {
    if b == [] {
      assert a + b == a;
    } else {
      var b' := b[..|b| - 1];
      assert (a + b)[..|a + b| - 1] == a + b';
      TotalAppend(a, b', quote);
    }
  }

  /** The total of a single holding is its current value. */
  lemma TotalSingle(h: Holding, quote: string -> Option<real>)
    ensures Total([h], quote) == CurrentValue(h, quote)
  {
    assert [h][..0] == [];
  }

  /** When every quote fails, every holding is valued at the fallback price. */
  lemma {:induction false} TotalAllFallback(hs: seq<Holding>, quote: string -> Option<real>)
    requires forall i :: 0 <= i < |hs| ==> quote(hs[i].symbol).None?
    ensures Total(hs, quote) == FallbackPrice * SumShares(hs) as real
  {
    if hs != [] {
      assert hs == [hs[0]] + hs[1..];
      TotalAppend([hs[0]], hs[1..], quote);
      TotalSingle(hs[0], quote);
      TotalAllFallback(hs[1..], quote);
    }
  }

  /**
   * Removing a symbol lowers the total by exactly the shares held under that
   * symbol at that symbol's price; every other holding keeps its contribution.
   */
  lemma {:induction false} TotalWithout(hs: seq<Holding>, sym: string, quote: string -> Option<real>)
    ensures Total(hs, quote) == Total(Without(hs, sym), quote) + Worth(SharesOf(hs, sym), PriceUsed(quote, sym))
  {
    if hs != [] {
      var h, rest := hs[0], hs[1..];
      var price := PriceUsed(quote, sym);
      assert hs == [h] + rest;
      TotalCons(h, rest, quote);
      TotalWithout(rest, sym, quote);
      if h.symbol == sym {
        assert Without(hs, sym) == Without(rest, sym);
        assert SharesOf(hs, sym) == h.shares + SharesOf(rest, sym);
        WorthAdd(h.shares, SharesOf(rest, sym), price);
      } else {
        assert Without(hs, sym) == [h] + Without(rest, sym);
        assert SharesOf(hs, sym) == SharesOf(rest, sym);
        TotalCons(h, Without(rest, sym), quote);
      }
    }
  }

  /** Total, seen from the front of the list. */
  lemma TotalCons(h: Holding, rest: seq<Holding>, quote: string -> Option<real>)
    ensures Total([h] + rest, quote) == CurrentValue(h, quote) + Total(rest, quote)
  {
    TotalAppend([h], rest, quote);
    TotalSingle(h, quote);
  }

  /** The one-holding scenario: 10 AAPL bought at 150.00 and quoted at 155.00. */
  lemma ScenarioSingleHolding(quote: string -> Option<real>, r: Row)
    requires quote("AAPL") == Some(155.0)
    requires Describes(r, Holding("AAPL", 10, Some(150.0)), quote)
    ensures r == Row("AAPL", 10, 155.0, 1550.0, Some(50.0))
    ensures Total([Holding("AAPL", 10, Some(150.0))], quote) == 1550.0
  {
    TotalSingle(Holding("AAPL", 10, Some(150.0)), quote);
  }

  /** The result of asking for one symbol's price. */
  datatype PriceReport = LookupIgnored | Quoted(symbol: string, price: real) | FetchFailed(symbol: string)

  /** The direct price lookup: a blank symbol asks nothing; a missing or zero quote is a failure, with no fallback. */
  function LookupPrice(symbolText: string, quote: string -> Option<real>): (r: PriceReport)
    ensures r.LookupIgnored? <==> symbolText == []
    ensures r.Quoted? ==> r.symbol == Upper(symbolText) && quote(r.symbol) == Some(r.price) && r.price != 0.0
    ensures r.FetchFailed? <==> symbolText != [] && !Truthy(quote(Upper(symbolText)))
    ensures r.FetchFailed? ==> r.symbol == Upper(symbolText)
  {
    UpperLength(symbolText);
    var symbol := Upper(symbolText);
    if symbol == [] then LookupIgnored
    else
      var price := quote(symbol);
      if Truthy(price) then Quoted(symbol, price.value) else FetchFailed(symbol)
  }

  /**
   * The lookup and the valuation disagree on purpose: where the quote is
   * missing the lookup fails but the valuation uses the fallback price, and
   * where the quote is 0 the lookup fails but the valuation uses 0.
   */
  lemma LookupVersusValuation(symbolText: string, quote: string -> Option<real>)
    requires symbolText != []
    ensures quote(Upper(symbolText)).None? ==>
      LookupPrice(symbolText, quote).FetchFailed? && PriceUsed(quote, Upper(symbolText)) == FallbackPrice
    ensures quote(Upper(symbolText)) == Some(0.0) ==>
      LookupPrice(symbolText, quote).FetchFailed? && PriceUsed(quote, Upper(symbolText)) == 0.0
  {
  }
}
