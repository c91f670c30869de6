# Personal-banking dashboard: ledger queries and money-movement dialogs

This project models the logic of a personal-banking dashboard written in React
and proves properties of it in Dafny. Three parts have real logic:

- **The transaction-history page** (`ledger.dfy`, module `Ledger`). It copies the
  ledger and sorts it newest first with a stable sort. It then keeps the
  transactions that pass three tests: the description contains the search text,
  ignoring case; the type filter is all, income (amount > 0) or expense
  (amount < 0); and the year filter is all or a prefix of the ISO date. Finally it
  totals the income, the expenses and their difference. All of this is pure
  functions with lemmas. The lemmas cover the permutation, the order, stability,
  the uniqueness of the stable sort, the subsequence and membership properties of
  the filter, idempotence, and the totals.
- **The dashboard helpers** (`dashboard.dfy`, module `Dashboard`). These are the
  five most recent transactions, the portfolio total, the greeting for an hour,
  and the first name shown in the heading.
- **The three money-movement dialogs** (`transfer.dfy`, `send_money.dfy`,
  `pay_bills.dfy`) and **the quick-action panel** that opens them
  (`quick_actions.dfy`). Each dialog is a class whose fields are the
  component's state variables and whose methods are its event handlers. The
  asynchronous confirm handler waits a fixed time and then reports success. It
  is split into `BeginConfirm`, the click, which sets `isProcessing`, and
  `CompleteConfirm`, the end of the wait, which clears it and shows the success
  step. The confirm button is disabled while `isProcessing` is set, so
  `BeginConfirm` starts nothing when a confirmation is already pending.

Shared records live in `bank_data.dfy` (module `BankData`). Money is integer
cents. A date is its ISO text together with an integer instant: the year filter
reads the text and the sort compares the instants.

Where the code and a natural reading of the product differ, the model follows
the code:

- The transfer and send dialogs accept any non-empty amount text. Nothing
  checks that the amount is positive.
- "Income" means amount > 0. A zero amount is neither income nor expense,
  although the transaction row prints it with a "+".
- A confirmation always succeeds. Closing a dialog does not cancel a pending
  confirmation. When it finishes, the dialog is left on its success step with
  the draft already cleared (`ScenarioCloseWhileProcessing`,
  `ScenarioCloseWhilePaying`). The bill dialog then shows an empty body,
  because its success view needs a selected bill.

Handlers that the page only offers in one step require that step. For example,
the submit handler belongs to the form, and Back and Confirm belong to the
review.

## Model

| member | source | states |
|---|---|---|
| `Ledger.SortNewestFirst` | src/pages/Transactions.tsx:12-14 | the sorted copy is a permutation of the ledger (same multiset) with non-increasing dates |
| `Ledger.SortKeepsTieOrder` | src/pages/Transactions.tsx:12-14 | stability: for every date, the transactions of that date appear in the sorted copy in ledger order |
| `Ledger.StableSortIsUnique` | src/pages/Transactions.tsx:12-14 | any newest-first arrangement that keeps ledger order among equal dates equals `SortNewestFirst`, so the result does not depend on the sort algorithm |
| `Ledger.NewestFirstDeterminedByTies` | src/pages/Transactions.tsx:12-14 | two newest-first lists that agree on the order within every date are identical |
| `Ledger.IncludesIffOccurs` | src/pages/Transactions.tsx:17 | the recursive `includes` holds exactly when the search text occurs at some position of the description |
| `Ledger.FilterTransactions` | src/pages/Transactions.tsx:16-25 | every kept transaction comes from the list and passes search AND type AND year; every listed transaction that passes all three is kept |
| `Ledger.FilterIsSubsequence` | src/pages/Transactions.tsx:16-25 | the filtered list is an order-preserving subsequence of the sorted list |
| `Ledger.FilterKeepsNewestFirst` | src/pages/Transactions.tsx:12-25 | filtering a newest-first list leaves it newest first |
| `Ledger.FilterAppend` | src/pages/Transactions.tsx:16-25 | filtering distributes over concatenation: each transaction is judged on its own |
| `Ledger.FilterKeepsMatching` | src/pages/Transactions.tsx:16-25 | a list whose every transaction passes the query is returned unchanged |
| `Ledger.FilterIdempotent` | src/pages/Transactions.tsx:16-25 | applying the same query to the filtered list returns it unchanged |
| `Ledger.InitialQueryKeepsAll` | src/pages/Transactions.tsx:8-23 | with the initial inputs (empty search, all types, all years) the filtered list is the sorted list |
| `Ledger.TotalsUnfold` | src/pages/Transactions.tsx:27-33 | the first transaction adds its amount to income if positive, its magnitude to expenses if negative, and nothing if zero |
| `Ledger.TotalsNonNegative` | src/pages/Transactions.tsx:27-33 | total income and total expenses are never negative, and both are 0 on an empty list |
| `Ledger.NetIsSumOfAmounts` | src/pages/Transactions.tsx:27-33 | the net card (income minus expenses, lines 90-91) equals the sum of all listed amounts |
| `Ledger.ZeroAmountIsNeither` | src/pages/Transactions.tsx:20-32 | a zero amount fails both the income and the expense filter, and inserting it anywhere changes neither total |
| `Ledger.TransactionsPage` | src/pages/Transactions.tsx:12-33 | the page shows the filter of the newest-first sort, a newest-first subsequence of it holding exactly the ledger's matching transactions; the income and expense cards are the totals of the shown list; totals are non-negative, net = income - expenses = sum of shown amounts, all zero when nothing is shown |
| `Ledger.ScenarioExpensesOf2024` | src/pages/Transactions.tsx:12-33 | three 2024 transactions under "expenses of 2024": two debits newest first, income 0, expenses $350, net -$350 |
| `Dashboard.RecentTransactions` | src/pages/Dashboard.tsx:12-14 | the recent list has min(5, n) transactions, is the head of the newest-first sort, is newest first, is drawn from the ledger, and no omitted transaction is newer than a shown one |
| `Dashboard.TotalBalance` | src/pages/Dashboard.tsx:24 | the portfolio total is the sum of the balances of checking, savings, IRA 2024 and IRA 2023 |
| `Dashboard.Greeting` | src/pages/Dashboard.tsx:26-31 | "Good morning" iff hour < 12, "Good afternoon" iff 12 <= hour < 18, "Good evening" iff hour >= 18 |
| `Dashboard.FirstToken` | src/pages/Dashboard.tsx:43 | `split(' ')[0]` is a space-free prefix of the name that ends at the end of the name or at a space |
| `Dashboard.FirstTokenUnique` | src/pages/Dashboard.tsx:43 | that characterisation determines the token: any such prefix equals `FirstToken` |
| `Dashboard.FirstName` | src/pages/Dashboard.tsx:43 | "Annie" when the user or the name is missing or the first token is empty; otherwise the first token; never empty, never contains a space |
| `Transfer.FindOption` | src/components/modals/TransferModal.tsx:51 | `find` returns the position of the first option with the id |
| `Transfer.AccountInfoDefinedIff` | src/components/modals/TransferModal.tsx:19-22 | `getAccountInfo` finds an option exactly when the id is "checking" or "savings", and then it has that id |
| `Transfer.SubmitCheck` | src/components/modals/TransferModal.tsx:30-32 | the draft passes iff the amount text is non-empty and the accounts differ; equal accounts always give the account error, even when the amount is empty |
| `Transfer.TransferModal.constructor` | src/components/modals/TransferModal.tsx:13-17 | starts on the form with checking to savings, empty amount, not processing |
| `Transfer.TransferModal.SelectFrom` | src/components/modals/TransferModal.tsx:87-89 | the "from" select stores one of the two account ids and changes nothing else |
| `Transfer.TransferModal.SelectTo` | src/components/modals/TransferModal.tsx:108-110 | the "to" select stores one of the two account ids and changes nothing else |
| `Transfer.TransferModal.EnterAmount` | src/components/modals/TransferModal.tsx:125-128 | the amount field stores the typed text and changes nothing else |
| `Transfer.TransferModal.Submit` | src/components/modals/TransferModal.tsx:28-35 | returns the submit check's verdict; moves form to confirm iff it passes; changes only the step |
| `Transfer.TransferModal.Back` | src/components/modals/TransferModal.tsx:164-165 | confirm back to form, accounts and amount kept |
| `Transfer.TransferModal.BeginConfirm` | src/components/modals/TransferModal.tsx:37-38 | sets `isProcessing`; starts a confirmation only when none is pending (the button's `disabled`, line 172) |
| `Transfer.TransferModal.CompleteConfirm` | src/components/modals/TransferModal.tsx:39-41 | clears `isProcessing` and shows the success step, whatever the step was |
| `Transfer.TransferModal.Close` | src/components/modals/TransferModal.tsx:45-49 | form step and empty amount; accounts and `isProcessing` untouched |
| `Transfer.TransferModal.ReviewAccounts` | src/components/modals/TransferModal.tsx:149-156 | the review's From and To lookups always succeed and return the options for the chosen ids |
| `SendMoney.ReviewRows` | src/components/modals/SendMoneyModal.tsx:135-154 | the review lists To, Amount, then a Memo row exactly when the memo is non-empty, then From |
| `SendMoney.SendMoneyModal.constructor` | src/components/modals/SendMoneyModal.tsx:12-16 | starts on the form with empty recipient, amount and memo, not processing |
| `SendMoney.SendMoneyModal.EnterRecipient` | src/components/modals/SendMoneyModal.tsx:84-85 | stores the typed recipient and changes nothing else |
| `SendMoney.SendMoneyModal.EnterAmount` | src/components/modals/SendMoneyModal.tsx:100-101 | stores the typed amount and changes nothing else |
| `SendMoney.SendMoneyModal.EnterMemo` | src/components/modals/SendMoneyModal.tsx:117-118 | stores the typed memo and changes nothing else |
| `SendMoney.SendMoneyModal.Submit` | src/components/modals/SendMoneyModal.tsx:18-25 | returns no error iff recipient and amount are non-empty (memo never required), otherwise the one missing-fields message; moves to confirm iff no error; changes only the step |
| `SendMoney.SendMoneyModal.Back` | src/components/modals/SendMoneyModal.tsx:158 | confirm back to form, recipient, amount and memo kept |
| `SendMoney.SendMoneyModal.BeginConfirm` | src/components/modals/SendMoneyModal.tsx:27-28 | sets `isProcessing`; starts a confirmation only when none is pending (line 165) |
| `SendMoney.SendMoneyModal.CompleteConfirm` | src/components/modals/SendMoneyModal.tsx:29-31 | clears `isProcessing` and shows the success step |
| `SendMoney.SendMoneyModal.Close` | src/components/modals/SendMoneyModal.tsx:35-41 | form step, recipient, amount and memo cleared; `isProcessing` untouched |
| `PayBills.Billers` | src/components/modals/PayBillsModal.tsx:11-16 | four billers with distinct ids and positive amounts |
| `PayBills.ViewOf` | src/components/modals/PayBillsModal.tsx:72-144 | the confirm and success views are shown exactly when their step is current and a bill is selected, and they show that bill |
| `PayBills.PayBillsModal.constructor` | src/components/modals/PayBillsModal.tsx:19-21 | starts on the biller list with nothing selected, not processing |
| `PayBills.PayBillsModal.SelectBill` | src/components/modals/PayBillsModal.tsx:23-26 | one click records a listed biller and opens the review; the amount is the biller's |
| `PayBills.PayBillsModal.Back` | src/components/modals/PayBillsModal.tsx:124 | back to the list, selected biller kept |
| `PayBills.PayBillsModal.BeginConfirm` | src/components/modals/PayBillsModal.tsx:28-29 | sets `isProcessing`; starts a payment only when none is pending (line 131) |
| `PayBills.PayBillsModal.CompleteConfirm` | src/components/modals/PayBillsModal.tsx:30-32 | clears `isProcessing` and shows the success step |
| `PayBills.PayBillsModal.Close` | src/components/modals/PayBillsModal.tsx:36-40 | back to the list with nothing selected |
| `PayBills.PayBillsModal.CurrentView` | src/components/modals/PayBillsModal.tsx:98-144 | on the confirm step the review always has a listed biller to show |
| `QuickActions.Dispatch` | src/components/QuickActions.tsx:26-47 | each of send, receive, bills and transfer opens its own dialog; invest and more navigate; any other name has no effect |
| `QuickActions.QuickActionsPanel.constructor` | src/components/QuickActions.tsx:21-24 | all four dialog flags start false |
| `QuickActions.QuickActionsPanel.HandleAction` | src/components/QuickActions.tsx:26-47 | sets exactly the dispatched flag and leaves the other three as they were, so several dialogs can be open; returns the route for invest and more |
| `QuickActions.QuickActionsPanel.CloseFlow` | src/components/QuickActions.tsx:82-85 | a dialog's close callback clears its own flag only |

## Left out

- Rendering: JSX, animation, icons and the purely presentational pages and components. The conditional rendering that carries logic is modelled: the memo row, the bill views and the account lookups of the review.
- Toast notifications: a refused submit returns its error (`Transfer.ErrorMessage`, `SendMoney.MissingFieldsMessage`) instead of showing it.
- The timer in each confirm handler: it is replaced by the `BeginConfirm`/`CompleteConfirm` pair. Elapsed time is not modelled, nor is a second React re-render racing a double click.
- Navigation: `navigate(...)` in the quick-action panel is returned as a route string. Routing, authentication and the login stub are not modelled.
- Date parsing: the instant used by the sort is an abstract integer next to the ISO text. An unparseable date (an `NaN` comparator result) is not modelled.
- Floating-point money: amounts and balances are integer cents, so sums are exact. Rounding in the browser's sums is not modelled.
- Currency and amount formatting (`Intl.NumberFormat`, `toLocaleString`, `parseFloat(amount).toFixed(2)`): `SendMoney.ReviewRows` shows the raw amount text.
- Case-insensitive search: `toLowerCase` is modelled for ASCII letters only. Unicode case mapping is not modelled.
- Number-input contents: a `type="number"` input only ever holds `""` or a valid number string, but the model lets the amount field of the transfer and send dialogs (`EnterAmount`) hold any text. This is more general and loses no behaviour of the handlers, which test only for the empty string.
- Browser constraint validation of the number inputs (`min="0"`, `step="0.01"`), which can block a form submit before the handler runs, is not modelled. The handlers are modelled as written.
- The dialogs' `isOpen` prop only hides or shows a dialog. The dialog state persists while hidden, and the model keeps it in the dialog object.
- The mock data module (`@/data/bankData`), the signed-in user and the clock are not part of this model. Accounts, transactions, the user and the hour are parameters.
- The receive-money dialog (its clipboard write) and the investments, accounts and profile pages are not part of this model.
