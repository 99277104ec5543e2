/**
 * The tracker's holdings list and the operations that touch it: the add,
 * remove and view (valuation) buttons, and the load run once at start-up.
 * (The fourth button, Get Price, reads no holdings; it is
 * `Valuation.LookupPrice`.) The list is a field of one
 * `Portfolio` object; add appends to it, remove and load replace it, and the
 * valuation reads it with a loop that keeps a running total. Dialog input
 * arrives as text; Python's `int()` and `float()` are the oracles `parseInt`
 * and `parseFloat` (`None` where they raise), and the quote service is the
 * oracle `quote`.
 */
module Tracker {
  import opened Wrappers
  import opened Text
  import opened Holdings
  import opened Valuation
  import opened Store

  datatype AddOutcome = AddIgnored | Added | InvalidInput

  datatype RemoveOutcome = RemoveIgnored | Removed | NotFound

  /** What the view button shows: the empty-portfolio notice, or the table and its total. */
  datatype View = EmptyNotice | Table(rows: seq<Row>, total: real)

  class Portfolio {
    var holdings: seq<Holding>

    /** The list starts empty, before anything is loaded. */
    constructor ()
      ensures holdings == []
    {
      holdings := [];
    }

    /**
     * Adds one holding. A blank symbol does nothing; a share count that does
     * not parse, or a non-empty purchase price that does not parse, reports
     * invalid input and leaves the list as it was; otherwise exactly one
     * holding is appended at the end, every earlier one staying in place.
     */
    method Add(symbolText: string, sharesText: string, priceText: string,
               parseInt: string -> Option<int>, parseFloat: string -> Option<real>)
      returns (outcome: AddOutcome)
      modifies this
      ensures symbolText == [] ==> outcome == AddIgnored && holdings == old(holdings)
      ensures symbolText != [] && (parseInt(sharesText).None? || (priceText != [] && parseFloat(priceText).None?)) ==>
        outcome == InvalidInput && holdings == old(holdings)
      ensures outcome == Added <==>
        symbolText != [] && parseInt(sharesText).Some? && (priceText == [] || parseFloat(priceText).Some?)
      ensures outcome == Added ==>
        |holdings| == |old(holdings)| + 1 &&
        holdings[..|old(holdings)|] == old(holdings) &&
        holdings[|old(holdings)|] ==
          Holding(Upper(symbolText), parseInt(sharesText).value,
                  if priceText == [] then None else parseFloat(priceText))
    {
      UpperLength(symbolText);
      var symbol := Upper(symbolText);
      if symbol == [] {
        return AddIgnored;
      }
      var shares := parseInt(sharesText);
      if shares.None? {
        return InvalidInput;
      }
      var purchasePrice: Option<real> := None;
      if priceText != [] {
        purchasePrice := parseFloat(priceText);
        if purchasePrice.None? {
          return InvalidInput;
        }
      }
      holdings := holdings + [Holding(symbol, shares.value, purchasePrice)];
      outcome := Added;
    }

    /**
     * Removes every holding whose symbol is the upper-cased input, keeping the
     * others in order, and reports Removed exactly when the list got shorter.
     */
    method Remove(symbolText: string) returns (outcome: RemoveOutcome)
      modifies this
      ensures symbolText == [] ==> outcome == RemoveIgnored && holdings == old(holdings)
      ensures symbolText != [] ==>
        holdings == Without(old(holdings), Upper(symbolText)) &&
        |old(holdings)| - |holdings| == Count(old(holdings), Upper(symbolText))
      ensures symbolText != [] ==>
        (outcome == Removed <==> Count(old(holdings), Upper(symbolText)) > 0) &&
        (outcome == NotFound <==> Count(old(holdings), Upper(symbolText)) == 0)
      ensures outcome == NotFound ==> holdings == old(holdings)
    {
      UpperLength(symbolText);
      var symbol := Upper(symbolText);
      if symbol == [] {
        return RemoveIgnored;
      }
      var initialLength := |holdings|;
      holdings := Without(holdings, symbol);
      WithoutLength(old(holdings), symbol);
      if |holdings| < initialLength {
        outcome := Removed;
      } else {
        WithoutNoMatch(old(holdings), symbol);
        outcome := NotFound;
      }
    }

    /**
     * The valuation table: one row per holding in list order, each valued at
     * its quote or the fallback price, and the total of the rows' values.
     */
    method Valuate(quote: string -> Option<real>) returns (view: View)
      ensures view.EmptyNotice? <==> holdings == []
      ensures view.Table? ==> |view.rows| == |holdings|
      ensures view.Table? ==> forall i :: 0 <= i < |holdings| ==> Describes(view.rows[i], holdings[i], quote)
      ensures view.Table? ==> view.total == Total(holdings, quote)
    {
      if holdings == [] {
        return EmptyNotice;
      }
      var rows: seq<Row> := [];
      var total: real := 0.0;
      var i := 0;
      while i < |holdings|
        invariant 0 <= i <= |holdings|
        invariant |rows| == i
        invariant forall k :: 0 <= k < i ==> Describes(rows[k], holdings[k], quote)
        invariant total == Total(holdings[..i], quote)
      {
        var stock := holdings[i];
        var currentPrice := quote(stock.symbol);
        var price := if currentPrice.None? then FallbackPrice else currentPrice.value;
        var currentValue := Worth(stock.shares, price);
        total := total + currentValue;
        var profitLoss := if Truthy(stock.purchasePrice)
          then Some(currentValue - Worth(stock.shares, stock.purchasePrice.value))
          else None;
        rows := rows + [Row(stock.symbol, stock.shares, price, currentValue, profitLoss)];
        assert holdings[..i + 1][..i] == holdings[..i];
        i := i + 1;
      }
      assert holdings[..i] == holdings;
      view := Table(rows, total);
    }

    /** Loading replaces the list by the recovered one. */
    method Load(file: FileState, decode: string -> Option<seq<Holding>>)
      modifies this
      ensures holdings == Recovered(old(holdings), file, decode)
    {
      match file
      case Absent =>
      case Content(text) =>
        var content := Strip(text);
        if content == [] {
          holdings := [];
        } else {
          match decode(content)
          case Some(decoded) => holdings := decoded;
          case None => holdings := [];
        }
    }
  }
}
