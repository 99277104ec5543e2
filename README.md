# Stock portfolio tracker — holdings bookkeeping and valuation

This project models the core of a small desktop stock-portfolio tracker. The tracker keeps an
ordered list of holdings. Each holding has a symbol, a share count and an optional purchase
price. Four buttons act on the list:

- **Add** upper-cases the typed symbol, parses the share count and the optional purchase price,
  and appends one holding.
- **Remove** deletes every holding with the typed (upper-cased) symbol.
- **View** values every holding at its live quote. When the quote is unavailable it uses a
  fixed fallback price of 100.0. It shows one row per holding and a running total.
- **Get Price** looks up one quote directly, with no fallback.

At start-up the list is loaded from a JSON file, with a recovery rule for blank or corrupted
content.

Modules, leaf first:

- `Wrappers`: `Option`.
- `Text`: `str.upper()` and `str.strip()` on the ASCII range.
- `Holdings`: the `Holding` record, the symbol filter `Without`, and the counts `Count` and
  `SharesOf`.
- `Valuation`: the fallback price, the table `Row` and what a row must hold (`Describes`), the
  running total `Total`, the direct lookup `LookupPrice`, and lemmas about them.
- `Store`: the load recovery decision `Recovered`.
- `Tracker`: the class `Portfolio`. Its field `holdings` is the tracker's global list. Its
  methods `Add`, `Remove` and `Load` change the list; `Valuate` only reads it.

External pieces become parameters:

- The quote service is an oracle `quote: string -> Option<real>`. `None` means the request, the
  status check or the body failed.
- Python's `int()` and `float()` are oracles returning `None` where they raise.
- `json.loads` is a decode oracle returning `None` on a decode error.

Prices are exact `real`s, so sums and differences are exact.

The model follows what the code does, including where a stricter rule might be expected:

- Share counts and purchase prices may be zero or negative. `int()` and `float()` accept them.
- Duplicate symbols are allowed. Removing a symbol deletes all of its holdings.
- Remove reports only "removed" or "not found". It does not report a count. The model proves
  that the number removed equals the number of matching holdings.
- A purchase price of 0 is "falsy", so its row shows no profit/loss.
- The direct lookup treats a quote of 0 as a failure. The valuation uses a quote of 0 as it is.

## Model

| member | source | states |
|---|---|---|
| Text.UpperLength | stock.py:54-56 | upper-casing keeps the length, so the symbol is blank after `.upper()` exactly when it was typed blank |
| Text.UpperHasNoLowerCase | stock.py:54 | an upper-cased symbol contains no lower-case letter |
| Text.UpperIdempotent | stock.py:68-72 | upper-casing an already upper-cased symbol changes nothing, so typing a stored symbol in either case selects it |
| Text.TrimLeft | stock.py:43 | the result is a suffix of the content; everything dropped is whitespace; it does not start with whitespace |
| Text.TrimRight | stock.py:43 | the result is a prefix of the content; everything dropped is whitespace; it does not end with whitespace |
| Text.StripEmptyIffBlank | stock.py:43-47 | the stripped content is empty exactly when the file holds only whitespace |
| Text.Upper | stock.py:54 | `.upper()` on a typed symbol (also at stock.py:68 and stock.py:114); its properties are stated by UpperLength, UpperHasNoLowerCase and UpperIdempotent |
| Text.Strip | stock.py:43 | `.strip()` on the file's content; the result is TrimRight of TrimLeft (see their rows), and StripEmptyIffBlank states when it is empty |
| Holdings.Without | stock.py:72 | the filtered list is no longer than the original, and a holding is in it exactly when it was in the original and its symbol differs |
| Holdings.CountZeroIffAbsent | stock.py:72-77 | the match count is zero exactly when no holding carries the symbol |
| Holdings.WithoutLength | stock.py:71-74 | kept plus matching holdings is the original length, so the list got shorter exactly when some holding matched |
| Holdings.WithoutNoMatch | stock.py:72-77 | when nothing matches, the filter returns the list unchanged |
| Holdings.WithoutAppend | stock.py:72 | the filter of a concatenation is the concatenation of the filters, so relative order is kept |
| Holdings.WithoutSingle | stock.py:72 | a single holding is kept exactly when its symbol differs |
| Holdings.WithoutIdempotent | stock.py:72 | removing the same symbol twice is the same as removing it once |
| Holdings.AppendThenRemove | stock.py:61-72 | appending a holding and then removing its symbol gives what removing that symbol alone gives; on an empty list the result is empty |
| Valuation.Truthy | stock.py:106 | the `if purchase_price` test (and `if price` at stock.py:118): present and not zero; used by Describes and LookupPrice |
| Valuation.PriceUsed | stock.py:99-102 | the quote when present (even 0), else the fallback 100.0; see LookupVersusValuation and TotalAllFallback |
| Valuation.Describes | stock.py:104-109 | what one table row holds; Valuate proves every row satisfies it, and ScenarioSingleHolding evaluates it on one holding |
| Valuation.Total | stock.py:94-105 | the running total in list order; see TotalAppend, TotalAllFallback and TotalWithout, and Valuate, whose total equals it |
| Valuation.TotalAppend | stock.py:94-105 | the running total of a concatenation is the sum of the parts' totals |
| Valuation.TotalAllFallback | stock.py:99-105 | when every quote fails, the total is 100.0 times the sum of the share counts |
| Valuation.TotalWithout | stock.py:94-105 | the total equals the total after removing a symbol plus that symbol's summed shares at that symbol's price |
| Valuation.ScenarioSingleHolding | stock.py:94-109 | 10 AAPL bought at 150.00 and quoted at 155.00 give the row (AAPL, 10, 155.00, 1550.00, 50.00) and the total 1550.00 |
| Valuation.LookupPrice | stock.py:113-121 | a blank symbol asks nothing; a shown price is the quote for the upper-cased symbol and is non-zero; the lookup fails exactly when the quote is missing or 0 |
| Valuation.LookupVersusValuation | stock.py:99-121 | a missing quote fails the lookup while valuation uses 100.0; a zero quote fails the lookup while valuation uses 0 |
| Store.Recovered | stock.py:38-50 | the list after loading; its four cases are stated by RecoveredCases, and Load sets the list to it |
| Store.RecoveredCases | stock.py:38-50 | a missing file leaves the list; whitespace-only or undecodable content empties it; otherwise the decoded list replaces it |
| Tracker.Portfolio.constructor | stock.py:11 | the list starts empty |
| Tracker.Portfolio.Add | stock.py:53-65 | a blank symbol is a no-op; unparsable shares or an unparsable non-empty price report invalid input with the list unchanged; otherwise exactly one holding (upper-cased symbol, parsed shares, parsed price or none) is appended and earlier holdings are unchanged |
| Tracker.Portfolio.Remove | stock.py:67-77 | a blank symbol is a no-op; otherwise the list becomes the filtered list, the number removed equals the match count, "Removed" is reported exactly when something matched, and "Not Found" leaves the list unchanged |
| Tracker.Portfolio.Valuate | stock.py:79-111 | an empty list gives the empty notice; otherwise there is one row per holding in list order, with the same symbol and shares, priced at the quote (or 100.0 when it is missing), valued at shares times price, with profit/loss exactly when the purchase price is truthy (value minus shares times purchase price), and the total is the running sum of the values |
| Tracker.Portfolio.Load | stock.py:38-50 | the list becomes the recovered list for the file's state |

## Left out

- The HTTP request, the status check and JSON parsing of the quote (stock.py:14-31) are left out. They are network I/O. The whole fetch is the `quote` oracle, which also assumes a symbol gets the same quote throughout one valuation.
- Writing `portfolio.json` (`save_portfolio`, stock.py:34-36) is left out. It is file I/O and its overwrite is not atomic. A store/load round trip would depend on JSON encoding, which is not modelled.
- Tracker.Portfolio.Add: does not model a failing save. In the source the save runs inside the same `try` as the append. If the write raised, the holding would already be appended and "Invalid Input" would still be shown.
- Tracker.Portfolio.Remove: does not model a failing save. After the filter, that exception would propagate out of the callback.
- Tracker.Portfolio.Load: does not model read errors other than JSON decode errors. Such errors propagate in the source. Decoded JSON that is not a list of holding records is also not modelled.
- A cancelled symbol dialog (stock.py:54, stock.py:68, stock.py:114) is not modelled. It returns `None`, and `.upper()` on it crashes the callback. The other two cancellations are covered. A cancelled shares dialog makes `int(None)` raise, which is caught and reported as invalid input: the `parseInt` oracle returning `None`. A cancelled purchase-price dialog returns `None`, which is falsy, so the holding gets no purchase price: the same as an empty `priceText`.
- The console messages printed at stock.py:27, stock.py:30 and stock.py:49 are not modelled. They are output only.
- Text.Upper / Text.Strip: cover only ASCII case mapping and the ASCII/Latin-1 whitespace. Python's full Unicode `upper()` and `isspace()` are not modelled.
- The exact grammar of Python `int()` and `float()` is not modelled. It is the `parseInt`/`parseFloat` oracles.
- Floating-point rounding and the two-decimal formatting of table cells and the total are not modelled. Prices are exact reals.
- The tkinter windows, dialogs, message boxes and main loop are left out, along with the API-key configuration and its embedded default.
