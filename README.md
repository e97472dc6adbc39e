# Monthly Money Manager ledger, in Dafny

The Monthly Money Manager app is a single SwiftUI screen, `ContentView`. The
user types an income and submits it. The user then adds named amounts to
three lists: home expenses, loans and credit-card payments. The screen shows
the total of the three lists and the income that remains.

This project models the ledger inside that screen. It does not model the
layout.

- `Amounts` holds `ExpenseItem` (a name and an amount). It has the category
  fold `SumAmounts`, which is `reduce(0) { $0 + $1.amount }` written as a left
  fold with an accumulator. It has `Total`, the body of `totalAmount`. It
  also has an independent head-first sum `SumOfAll`, with the lemmas that
  connect the fold to it.
- `ContentView` holds the class `ContentView`. Its fields are the screen's
  `@State` variables: three `seq<ExpenseItem>` lists and eight text fields.
  The class also has `TotalAmount` and `RemainingIncome`. The four buttons
  are methods that change the object in place: `SubmitIncome`,
  `AddExpense`, `AddLoan` and `AddPayment`. The seven pending text fields
  are public because the screen's text boxes write them directly. No text
  box writes `incomeAmount` or the three lists; only the four buttons do.
  They are public only because a Dafny class has no private fields, and
  clients are meant to change them only through the four methods.
  `Valid()` is the object invariant. It says that every stored amount came
  out of a successful parse.
- `ColorHex` extracts the byte channels in `Color.init(hex:)`. It works on a
  `bv64`, as Swift's `UInt64` does.
- `Scenarios` holds three sessions driven through the public contracts.
- `Wrappers` holds `Option`.

Swift's `Double(String)` is library code and is not visible here. It is
modelled as the parameter `parse` of the constructor, of type
`AmountParser`. The model does not say which texts it accepts. It uses one
fact only: the empty text does not parse, so `Double("")` is `nil`.

Amounts are `real`. This is exact arithmetic standing in for Swift's
`Double`. It is an abstraction, not a bit-exact model of IEEE-754 behaviour.

Two behaviours of the code are easy to misread. The model follows the code
in both:

- `remainingIncome` returns 0 when the income text does not parse. It does
  not return minus the total. `Scenarios.UnparsedIncome` shows this.
- The add buttons return nothing. A failed parse leaves the whole state as
  it was, and the caller gets no failure value.

## Model

| member | source | states |
|---|---|---|
| `Amounts.ReduceIsSum` | MoneyManager/MoneyManager/ContentView.swift:50-52 | Folding the amounts with `reduce` from any start value gives that start value plus the sum of the amounts, so the order of addition does not matter |
| `Amounts.FoldIsSum` | MoneyManager/MoneyManager/ContentView.swift:50-52 | A category total (the fold from 0) equals the head-first reference sum of its amounts |
| `Amounts.SumAppend` | MoneyManager/MoneyManager/ContentView.swift:50-52 | Appending one item to a list adds exactly that item's amount to the list's total |
| `Amounts.SumConcat` | MoneyManager/MoneyManager/ContentView.swift:50-53 | The total of two lists joined together is the sum of their totals |
| `Amounts.TotalIsSumOfAllItems` | MoneyManager/MoneyManager/ContentView.swift:49-54 | `totalAmount` equals the sum over all items of the three lists taken as one list |
| `Amounts.TotalAfterAppend` | MoneyManager/MoneyManager/ContentView.swift:49-54 | Appending an item to any one of the three lists raises `totalAmount` by exactly that item's amount |
| `ContentView.ContentView.RemainingIncome` | MoneyManager/MoneyManager/ContentView.swift:56-59 | The result is 0 when the income text does not parse. Otherwise it is the parsed income minus the sum of every amount in the three lists taken as one list |
| `ContentView.ContentView.constructor` | MoneyManager/MoneyManager/ContentView.swift:32-42 | The initial state has three empty lists and every text field set to "". In that state `totalAmount` is 0 and `remainingIncome` is 0, because "" does not parse. The invariant holds |
| `ContentView.ContentView.SubmitIncome` | MoneyManager/MoneyManager/ContentView.swift:196-198 | `incomeAmount` takes the pending income text. Nothing else changes: not the lists, not `newIncomeAmount` (which is not cleared), and not the other pending fields |
| `ContentView.ContentView.AddExpense` | MoneyManager/MoneyManager/ContentView.swift:200-205 | If the pending amount does not parse, nothing changes, including both pending texts. If it parses, `expenses` becomes the old list plus one item with the pending name and the parsed amount. The row's name and amount become "". The total rises by that amount. Every other list and field is unchanged, and the invariant is kept |
| `ContentView.ContentView.AddLoan` | MoneyManager/MoneyManager/ContentView.swift:207-212 | The same as `AddExpense`, but on `loans` and the loan row's fields |
| `ContentView.ContentView.AddPayment` | MoneyManager/MoneyManager/ContentView.swift:214-219 | The same as `AddExpense`, but on `creditCardPayments` and the payment row's fields |
| `ColorHex.Red` | MoneyManager/MoneyManager/ContentView.swift:17 | `(rgb >> 16) & 0xFF` is at most 255 and is exactly bits 16-23 of `rgb` |
| `ColorHex.Green` | MoneyManager/MoneyManager/ContentView.swift:18 | `(rgb >> 8) & 0xFF` is at most 255 and is exactly bits 8-15 of `rgb` |
| `ColorHex.Blue` | MoneyManager/MoneyManager/ContentView.swift:19 | `rgb & 0xFF` is at most 255 and is exactly bits 0-7 of `rgb` |
| `ColorHex.Recompose` | MoneyManager/MoneyManager/ContentView.swift:17-19 | The three channels together hold exactly the low 24 bits of `rgb`. A six-digit colour is rebuilt from them |
| `Scenarios.MonthWithIncome` | MoneyManager/MoneyManager/ContentView.swift:196-219 | Submit an income of 2000, then add 1200.00, 300.50 and 150.25 to the three lists. The total is then 1650.75 and the remaining income is 349.25 |
| `Scenarios.Overspent` | MoneyManager/MoneyManager/ContentView.swift:56-59 | With an income of 100 and one expense of 200, the remaining income is -100: it may be negative. The successful add lowers the remaining income by exactly 200 |
| `Scenarios.UnparsedIncome` | MoneyManager/MoneyManager/ContentView.swift:56-59 | With an unparsable income "abc" and one expense of 100, the total is 100 and the remaining income is 0. An unparsable loan amount adds nothing and leaves its text in place |

## Left out

- The SwiftUI `body` is left out: layout, modifiers, `NavigationView`, the `ForEach` rendering and `ContentView_Previews`. These are presentation only.
- The text-box bindings (`$newIncomeAmount` and the others) are not methods. They appear only as public fields that a client assigns.
- The colour-hex `@State` strings are left out. They are presentation constants.
- `Scanner.scanString` and `scanHexInt64` in `Color.init(hex:)` are Foundation code. Their acceptance rules are not visible, so `rgb` is an input to the channel functions.
- The `/ 255.0` conversions and the `Color(red:green:blue:)` call are left out. They are floating-point work and a UI call.
- Which strings `Double(String)` accepts is not modelled. The parser is a parameter, and the only fact assumed is that it rejects "".
- IEEE-754 rounding of `Double` sums is not modelled. Amounts are exact reals.
- Non-finite results of `Double(String)` are outside the model. In Swift, `Double("nan")` is NaN and `Double("inf")` is infinity, and such text can be pasted into an amount field. The app then appends the item, and `totalAmount` becomes NaN or infinite from then on. `AmountParser` returns only finite reals. So `Amounts.SumAppend`, `Amounts.TotalAfterAppend` and the other sum lemmas hold only for finite amounts summed without rounding.
- The `UUID()` item id is left out. Its uniqueness is probabilistic and comes from a library.
- The `String(format: "%.2f", ...)` display formatting is left out.
- `ContentView.ContentView.AddExpense`, `AddLoan` and `AddPayment` state the change in the total through `Amounts.Total` over the three lists, not through `TotalAmount()`. The two are equal by definition. This form keeps callers' proofs small.
