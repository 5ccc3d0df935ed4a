# Apexswap swap page: amount validator, coin input and quote state

This project models, in Dafny, the two pieces of sequential logic in the
Apexswap DEX front-end's swap screen:

- the **coin input widget** (`src/components/ui/coin-input.tsx`): the amount
  validator `^[0-9]*[.,]?[0-9]*$` and the widget's three state cells `value`,
  `selectedCoin` and `visibleCoinList`, with their four transitions. These are a
  keystroke, a coin picked in the selector overlay, the coin button, and a
  click outside the overlay;
- the **swap page** (`src/pages/swap.tsx`): the swap intent (`tokenIn`,
  `tokenOut`, `amountIn`), the quote cells (`amountOut`, `adapter`,
  `dexname`), the fixed adapter-to-venue table, the quote effect
  `getAmountOut` that commits all three quote cells or none, and the wiring of
  the "You Pay" and "You Receive" inputs to the page state.

Files:

- `wrappers.dfy`: `Option`, standing for a value or JavaScript's `undefined`.
- `decimal_pattern.dfy` (module `Decimal`): the validator as a predicate that
  follows the regular expression's shape. It is proved equal to an independent
  description ("only digits and separators, at most one separator"). Keystroke
  consequences follow from that.
- `coin_input.dfy` (module `CoinInputs`): class `CoinInput`. The two callbacks
  `onchangeAmount` and `onchangeToken` become notifications that the handlers
  return.
- `swap.dfy` (module `Swap`): the venue table, the `Quote` value, the pure
  commit rule `Commit`, and class `SwapPage`. That class owns the two inputs and
  keeps the invariant that ties the intent to them.

The wallet, the ether unit conversions and the router's `queryNoSplit` call are
one opaque parameter, `Router`, which maps a `RouterQuery(amountIn, tokenIn,
tokenOut)` to either a reply `(amountOut, adapter)` or `None`, meaning that some
step threw. React's effect dependency list is modelled by `fetchedFor`, the
intent the effect last ran for. Events and effect passes are separate methods
(`Handle`, `RunEffect`) that the environment alternates.

## Model

| member | source | states |
|---|---|---|
| `Decimal.PatternIffAtMostOneSeparator` | src/components/ui/coin-input.tsx:27 | the pattern accepts a string exactly when it consists of digits and `.`/`,` only and holds at most one separator |
| `Decimal.PatternImpliesAtMostOneSeparator` | src/components/ui/coin-input.tsx:27 | every accepted string is made of digits and separators and has at most one separator |
| `Decimal.AtMostOneSeparatorImpliesPattern` | src/components/ui/coin-input.tsx:27 | every string of digits and separators with at most one separator is accepted |
| `Decimal.PrefixClosed` | src/components/ui/coin-input.tsx:27 | every prefix of an accepted amount is accepted (deleting from the end never gets refused) |
| `Decimal.AppendDigitAccepted` | src/components/ui/coin-input.tsx:27 | appending a digit to an accepted amount is accepted |
| `Decimal.AppendSeparatorAccepted` | src/components/ui/coin-input.tsx:27 | appending `.` or `,` is accepted exactly when the amount so far is all digits, so a second separator is refused |
| `Decimal.RejectsForeignChar` | src/components/ui/coin-input.tsx:27 | any character other than a digit or separator, anywhere, makes the input rejected |
| `Decimal.RejectsSecondSeparator` | src/components/ui/coin-input.tsx:27 | two separators anywhere make the input rejected |
| `Decimal.AcceptedExamples` | src/components/ui/coin-input.tsx:27 | the empty string, a lone `.` or `,`, `"0"`, `"12.50"`, `",5"` and `"7."` are accepted |
| `Decimal.RejectedExamples` | src/components/ui/coin-input.tsx:27 | signs, an exponent letter, a leading space, `"1.2.3"` and `"1.,"` are rejected |
| `CoinInputs.CoinAt` | src/components/ui/coin-input.tsx:43 | the list lookup is defined exactly for indices inside the list, and is then the entry at that index |
| `CoinInputs.CoinInput.constructor` | src/components/ui/coin-input.tsx:36-49 | initially the value is empty, the selection is the coin at the given index (undefined outside the list), the list is closed, and neither overlay nor scroll lock is requested |
| `CoinInputs.CoinInput.HandleOnChange` | src/components/ui/coin-input.tsx:50-56 | an accepted input becomes the value and, when a coin is selected, is notified unchanged (with no coin selected, reading its code throws before the notification); a rejected one leaves the value alone and notifies nothing; selection and visibility never change |
| `CoinInputs.CoinInput.HandleSelectedCoin` | src/components/ui/coin-input.tsx:57-62 | the picked coin becomes the selection, its address is notified, the list closes (overlay gone, scroll lock released) and the value is untouched |
| `CoinInputs.CoinInput.OpenCoinList` | src/components/ui/coin-input.tsx:70-71 | the button opens the list, so the overlay is rendered and the scroll lock requested; value and selection unchanged |
| `CoinInputs.CoinInput.ClickAway` | src/components/ui/coin-input.tsx:45-49 | an outside click closes the list, removing overlay and scroll lock; value and selection unchanged |
| `Swap.VenueName` | src/pages/swap.tsx:142-147 | each of the four adapter addresses maps to its venue (Trader Joe, Pangolin, Sushiswap, ElkFinance) and every other string to undefined |
| `Swap.VenueLookupIsExact` | src/pages/swap.tsx:142-147 | keys match only in their exact spelling: the lower-case Trader Joe address and the empty string resolve to no venue |
| `Swap.InitialQuoteIsUnresolved` | src/pages/swap.tsx:151-153 | the initial venue cell `""` is not the table's answer for the initial adapter `""` (which is undefined) |
| `Swap.Commit` | src/pages/swap.tsx:169-176 | a reply sets amount and adapter from the reply and the venue from the table for that adapter; a failure leaves all three cells as they were |
| `Swap.FailedFetchesKeepQuote` | src/pages/swap.tsx:157-176 | any run of failed fetches leaves the quote unchanged (stale quote on error) |
| `Swap.LastSuccessWins` | src/pages/swap.tsx:155-179 | after a run of fetches the quote is the one from the last successful reply, whatever failures follow it |
| `Swap.SuccessResolvesQuote` | src/pages/swap.tsx:169-173 | once any fetch has succeeded, the venue cell agrees with the table entry for the adapter cell |
| `Swap.SwapPage.constructor` | src/pages/swap.tsx:148-153 | initial intent `tokenIn`/`tokenOut` at the two fixed addresses and `amountIn = "0"`; initial quote `"0"`, `""`, `""`; the pay input is editable at coin index 0, the receive input read-only at index 1; the token list holds at least two coins, since the rate line (swap.tsx:250) reads the first two on every render |
| `Swap.SwapPage.Handle` | src/pages/swap.tsx:220-245 | the pay input's amount and token notifications set `amountIn` and `tokenIn`, the receive input's token notification sets `tokenOut`; nothing else in the intent and nothing in the quote changes; the page invariant is kept (amount always validated, intent mirrors the inputs) |
| `Swap.SwapPage.GetAmountOut` | src/pages/swap.tsx:155-178 | the router is asked with `(amountIn, tokenIn, tokenOut)` in that order; a reply commits amount, adapter and venue together, a failure changes none of them |
| `Swap.SwapPage.RunEffect` | src/pages/swap.tsx:178-179 | a fetch happens only when the intent differs from the one the effect last ran for; otherwise the quote is untouched |
| `CoinInputs.CoinInput.ShownText` | src/components/ui/coin-input.tsx:80 | an editable field shows the typed value, which is a validated amount; a read-only field shows the supplied amount (its two-decimal formatting is not modelled) |
| `Swap.SwapPage.PayField` | src/components/ui/coin-input.tsx:80 | the pay field shows the typed value, which is always a validated amount |
| `Swap.SwapPage.ReceiveField` | src/pages/swap.tsx:238-245 | the read-only receive field shows the page's `amountOut` |

## Left out

- The wallet-connect effect (src/pages/swap.tsx:128-141) and the provider and signer calls inside `getAmountOut` are browser and wallet I/O. Their only modelled effect is that they may throw, which is part of `Router` returning `None`.
- `parseEther`, `formatEther` and `queryNoSplit` come from a library that is not part of this model. They are folded into the opaque `Router`, and nothing is claimed about which accepted amounts (comma-separated ones, say) convert.
- Overlapping fetches are not modelled. Each fetch is one atomic step, so the race where a slow earlier reply overwrites a newer one is absent.
- `console.log` of the caught exception and of the selected coin's code is not modelled, because it is logging only.
- The `focused` state cell is not modelled. It is declared but never set or read.
- Floating-point displays are not modelled. This covers the two-decimal formatting of the read-only amount (`FieldText.External` records only which amount is shown), the USD-equivalent line, and the exchange rate `amountOut / amountIn`.
- The `useClickAway` and `useLockBodyScroll` internals, `CoinSelectView` and the contents of `coinList` are not part of this model. The overlay and the scroll lock are modelled as functions of `visibleCoinList`, which is what the widget passes to them. The coins offered by the selector are arbitrary `Coin` values.
- Coin icons and prices are not modelled, because they are display-only.
- `SortList`/`SortList2` are not modelled: their selection state belongs to the Listbox component. The chart, the hard-coded order and trade tables, styling and animation are not modelled either.
- `CoinInputs.CoinInput.HandleOnChange`: the TypeError thrown when no coin is selected is modelled only by its effect, a value that is set but not notified. The exception itself is not modelled, and the page never hits this case because it always has a selection.
- The default `defaultCoinIndex = 0` (src/components/ui/coin-input.tsx:36) has no counterpart, because both inputs on the swap page pass an index. The constructor takes the index as a parameter.
- Keystrokes in the read-only "You Receive" input are not modelled: a disabled input gets no change events, and that input has no `onchangeAmount`.
- Object-prototype keys in the venue lookup (`dexs["constructor"]`) are not modelled: the adapter is always a contract address, and the table is taken as a plain map.
