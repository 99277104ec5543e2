/**
 * One portfolio entry and the bookkeeping over the ordered list of entries:
 * the symbol filter that removal applies, and the counts it is measured by.
 * Nothing here enforces unique symbols, positive share counts or positive
 * purchase prices: the tracker accepts duplicates, zero and negative numbers.
 */
module Holdings {
  import opened Wrappers

  /** A stored record `{symbol, shares, purchase_price}`; `None` stands for a missing or null purchase price. */
  datatype Holding = Holding(symbol: string, shares: int, purchasePrice: Option<real>)

  /** The holdings whose symbol differs from `sym`, in their original order. */
  function Without(hs: seq<Holding>, sym: string): (r: seq<Holding>)
    ensures |r| <= |hs|
    ensures forall h :: h in r <==> h in hs && h.symbol != sym
  {
    if hs == [] then []
    else (if hs[0].symbol == sym then [] else [hs[0]]) + Without(hs[1..], sym)
  }

  /** How many holdings carry the symbol `sym`. */
  function Count(hs: seq<Holding>, sym: string): nat
  {
    if hs == [] then 0
    else (if hs[0].symbol == sym then 1 else 0) + Count(hs[1..], sym)
  }

  /** The total number of shares held under the symbol `sym`, over all its entries. */
  function SharesOf(hs: seq<Holding>, sym: string): int
  {
    if hs == [] then 0
    else (if hs[0].symbol == sym then hs[0].shares else 0) + SharesOf(hs[1..], sym)
  }

  /** No holding carries `sym` exactly when the count for `sym` is zero. */
  lemma {:induction false} CountZeroIffAbsent(hs: seq<Holding>, sym: string)
    ensures Count(hs, sym) == 0 <==> forall i :: 0 <= i < |hs| ==> hs[i].symbol != sym
  {
    if hs != [] {
      CountZeroIffAbsent(hs[1..], sym);
      assert forall i :: 1 <= i < |hs| ==> hs[i] == hs[1..][i - 1];
    }
  }

  /** The filter drops exactly the matching holdings: what is kept plus what is dropped is everything. */
  lemma {:induction false} WithoutLength(hs: seq<Holding>, sym: string)
    ensures |Without(hs, sym)| + Count(hs, sym) == |hs|
    ensures |Without(hs, sym)| < |hs| <==> Count(hs, sym) > 0
  {
    if hs != [] {
      WithoutLength(hs[1..], sym);
    }
  }

  /** When nothing matches, the filter returns the list itself. */
  lemma {:induction false} WithoutNoMatch(hs: seq<Holding>, sym: string)
    requires Count(hs, sym) == 0
    ensures Without(hs, sym) == hs
  {
    if hs != [] {
      WithoutNoMatch(hs[1..], sym);
      assert hs == [hs[0]] + hs[1..];
    }
  }

  /**
   * The filter works element by element and keeps order: on a concatenation it is
   * the concatenation of the filtered parts, and a single holding is kept
   * exactly when its symbol differs.
   */
  lemma {:induction false} WithoutAppend(a: seq<Holding>, b: seq<Holding>, sym: string)
    ensures Without(a + b, sym) == Without(a, sym) + Without(b, sym)
  {
    if a == [] {
      assert a + b == b;
    } else {
      assert (a + b)[1..] == a[1..] + b;
      WithoutAppend(a[1..], b, sym);
    }
  }

  lemma WithoutSingle(h: Holding, sym: string)
    ensures Without([h], sym) == if h.symbol == sym then [] else [h]
  {
    assert [h][1..] == [];
  }

  /** Filtering twice by the same symbol is the same as filtering once. */
  lemma {:induction false} WithoutIdempotent(hs: seq<Holding>, sym: string)
    ensures Without(Without(hs, sym), sym) == Without(hs, sym)
  {
    WithoutLength(Without(hs, sym), sym);
    CountZeroIffAbsent(Without(hs, sym), sym);
    WithoutNoMatch(Without(hs, sym), sym);
  }

  /** Appending a holding and then removing its symbol leaves what removing the symbol alone leaves. */
  lemma AppendThenRemove(hs: seq<Holding>, h: Holding)
    ensures Without(hs + [h], h.symbol) == Without(hs, h.symbol)
  {
    WithoutAppend(hs, [h], h.symbol);
    WithoutSingle(h, h.symbol);
  }
}
