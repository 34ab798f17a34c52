# Account store and move-funds screens

This is a Dafny model of a banking prototype's account layer. It covers:

- the in-memory account store, which holds three accounts (pension, savings and current account) under a closed key set;
- the store's start-up loader, which reads a stored balance snapshot;
- the store's point update and two-account transfer;
- the effect that mirrors the balances to storage after every change;
- the screens of the "move funds" flow: pension warning, source selection, destination selection, amount entry, review and savings warning;
- the account detail, transactions and budgeting screens.

Each screen is modelled as pure functions. A screen reads the store snapshot, the incoming navigation state and the transaction list. It returns what it shows and the navigation it requests (`Navigation.Transition`). No screen of the flow writes to the store. The store itself is a class: its methods update the balance record in place, and each method re-establishes the invariant that the persisted snapshot mirrors the balances.

Modules, one per source file:

| module | file | models |
|---|---|---|
| `AccountContext` | `account_context.dfy` | `src/contexts/AccountContext.tsx` |
| `Navigation` | `navigation.dfy` | the router outcome and `location.state`, plus the route table of `src/App.tsx` |
| `Ledger` | `ledger.dfy` | the filter and stable newest-first sort shared by three screens |
| `PensionWarningPage` | `pension_warning.dfy` | `src/pages/PensionWarning.tsx` |
| `SelectSourcePage` | `select_source.dfy` | `src/pages/SelectSource.tsx` |
| `SelectDestinationPage` | `select_destination.dfy` | `src/pages/SelectDestination.tsx` |
| `MoveFundsPage` | `move_funds.dfy` | `src/pages/MoveFunds.tsx` |
| `ReviewTransferPage` | `review_transfer.dfy` | `src/pages/ReviewTransfer.tsx` |
| `SavingsWarningPage` | `savings_warning.dfy` | `src/pages/SavingsWarning.tsx` |
| `AccountDetailPage` | `account_detail.dfy` | `src/pages/AccountDetail.tsx` |
| `TransactionsPage` | `transactions.dfy` | `src/pages/Transactions.tsx` |
| `BudgetingPage` | `budgeting.dfy` | `src/pages/Budgeting.tsx` |

The model follows the code's own behaviour, including where the flow as designed would do something else:

- None of the screens calls `transferFunds`. The PIN and savings-warning routes are missing from the route table.
- The amount screen ignores its incoming state and compares against hard-coded balances. It forwards no source or destination, so the review screen it leads to cannot render (`ReviewTransferPage.AmountScreenNeverReachesReview`).
- A transfer whose source and destination are the same account credits that account. The later computed key of the object spread wins (`AccountContext.SelfTransferCredits`). The review screen previews a debit in that case (`ReviewTransferPage.SelfPreviewDisagreesWithTransfer`).
- The loader's `stored || default` turns a stored balance of 0 back into the default (`AccountContext.LoadForgetsZero`).

Money is `real`, so the model has exact arithmetic. Dates are integer millisecond timestamps.

## Model

| member | source | states |
|---|---|---|
| AccountContext.KeysListEveryAccountOnce | src/contexts/AccountContext.tsx:3 | the key list names each of the three account types exactly once |
| AccountContext.InitialAccountsWellFormed | src/contexts/AccountContext.tsx:22-44 | the initial record is well formed, every initial balance is positive, and the three sum to 139500 |
| AccountContext.OrDefault | src/contexts/AccountContext.tsx:57-59 | a present nonzero field is kept; an absent or zero field gives the default; a nonzero default never yields zero |
| AccountContext.UpdateBalanceOf | src/contexts/AccountContext.tsx:78-86 | the updated slot holds the new balance; the other slots are unchanged; every name, icon, colour and id is kept |
| AccountContext.UpdateThenGet | src/contexts/AccountContext.tsx:78-86 | an update keeps the record well formed (each slot's id is its key), and reading the slot back gives the new balance |
| AccountContext.UpdateIdempotent | src/contexts/AccountContext.tsx:78-86 | applying the same update twice equals applying it once |
| AccountContext.TransferOf | src/contexts/AccountContext.tsx:88-100 | the destination gains `amount`; a distinct source loses `amount`; the third account and all metadata are unchanged |
| AccountContext.TransferConserves | src/contexts/AccountContext.tsx:88-100 | between two distinct accounts, a transfer leaves the total of the three balances unchanged |
| AccountContext.SelfTransferCredits | src/contexts/AccountContext.tsx:95-98 | a transfer from an account to itself adds `amount` to it and to the total |
| AccountContext.BalancesMayGoNegative | src/contexts/AccountContext.tsx:88-100 | neither operation checks for funds: a transfer or an update can leave a negative balance |
| AccountContext.SnapshotOf | src/contexts/AccountContext.tsx:69-76 | the persisted snapshot holds exactly the three current balances |
| AccountContext.Load | src/contexts/AccountContext.tsx:49-66 | the loaded record is well formed, with the initial metadata and no zero balance; without a parseable snapshot it is the initial record |
| AccountContext.LoadWithoutDataGivesDefaults | src/contexts/AccountContext.tsx:22-44 | with nothing stored, or an unparseable value, the balances are 48750, 16250 and 74500 |
| AccountContext.LoadFieldByField | src/contexts/AccountContext.tsx:55-60 | each loaded balance is the stored field, or the initial balance when the field is missing or zero |
| AccountContext.LoadRestoresSnapshot | src/contexts/AccountContext.tsx:49-76 | loading the persisted snapshot of a record with nonzero balances gives that record back |
| AccountContext.LoadForgetsZero | src/contexts/AccountContext.tsx:57-59 | a balance of zero does not survive persistence: it reloads as the initial balance |
| AccountContext.Store.constructor | src/contexts/AccountContext.tsx:49-76 | the store starts from the loaded record, and the persisted snapshot mirrors it |
| AccountContext.Store.UpdateBalance | src/contexts/AccountContext.tsx:78-86 | the record becomes the point update of the old one; the snapshot mirrors it |
| AccountContext.Store.TransferFunds | src/contexts/AccountContext.tsx:88-100 | the record becomes the transfer applied to the old one; the snapshot mirrors it |
| AccountContext.Store.GetAccount | src/contexts/AccountContext.tsx:102-104 | returns the account stored under the key, whose id is that key |
| Ledger.OfAccount | src/pages/Transactions.tsx:35-36 | keeps exactly the transactions of the account, and never lengthens the list |
| Ledger.OfAccountCounts | src/pages/Transactions.tsx:35-36 | each of the account's entries is kept as often as it occurs, and no other entry is kept |
| Ledger.OfAccountKeepsOrder | src/pages/Transactions.tsx:35-36 | filtering keeps the input order: the account's entries of one date come in the order of the whole list |
| Ledger.Insert | src/pages/Transactions.tsx:37 | the result holds the inserted entry and the old entries, as a multiset |
| Ledger.InsertKeepsNewestFirst | src/pages/Transactions.tsx:37 | inserting into a newest-first list keeps it newest first |
| Ledger.SortNewestFirst | src/pages/Transactions.tsx:37 | the result is newest first and is a permutation of the input |
| Ledger.InsertKeepsTieOrder | src/pages/Transactions.tsx:37 | an inserted entry goes ahead of the entries with its date and leaves their order alone |
| Ledger.SortIsStable | src/pages/Transactions.tsx:37 | entries with equal dates keep their input order |
| Ledger.AccountTransactions | src/pages/AccountDetail.tsx:106-108 | exactly the account's transactions, as a permutation of the filtered list, newest first |
| Ledger.ListedTiesKeepOrder | src/pages/AccountDetail.tsx:106-108 | in the listed transactions, the entries of one date appear in the order of the whole transaction list |
| Ledger.Abs | src/pages/Transactions.tsx:149 | the magnitude is non-negative and is the value or its negation |
| PensionWarningPage.HandleBack | src/pages/PensionWarning.tsx:17-19 | back is a plain push to the home route with no state |
| PensionWarningPage.HandleContinue | src/pages/PensionWarning.tsx:21-28 | continue goes to the amount screen with the pension as source, savings as destination; no amount, currency or balances are forwarded |
| PensionWarningPage.HandleLearnMore | src/pages/PensionWarning.tsx:30-33 | "learn more" opens article 3, a path without a route of its own |
| PensionWarningPage.ContinueMatchesPensionDetail | src/pages/PensionWarning.tsx:21-28 | continuing from the warning is the same navigation as "Move funds" on the pension's detail screen |
| SelectSourcePage.HandleSelectAccount | src/pages/SelectSource.tsx:14-18 | navigates exactly when the balance is positive, and forwards only the chosen source |
| SelectSourcePage.GateAndCard | src/pages/SelectSource.tsx:14-18 | a disabled card never navigates; a negative balance leaves the card enabled and labelled available, yet selecting it does nothing |
| SelectSourcePage.CardDisabled | src/pages/SelectSource.tsx:50 | a disabled card never has a positive balance |
| SelectSourcePage.AvailabilityLabel | src/pages/SelectSource.tsx:67 | the card reads "Insufficient balance" exactly when it is disabled, and "Available to transfer" otherwise |
| SelectSourcePage.HandleBack | src/pages/SelectSource.tsx:10-12 | back is a plain push to the home route with no state |
| SelectDestinationPage.Without | src/pages/SelectDestination.tsx:19-20 | keeps exactly the keys other than the excluded one; without duplicates it drops exactly one |
| SelectDestinationPage.AvailableDestinations | src/pages/SelectDestination.tsx:19-20 | the two accounts other than the source, and never the source |
| SelectDestinationPage.DestinationsInKeyOrder | src/pages/SelectDestination.tsx:19-20 | the destinations follow the store's key order |
| SelectDestinationPage.Render | src/pages/SelectDestination.tsx:11-20 | redirects home with history replacement exactly when no source came in; otherwise offers the other two accounts, in key order, and every account but the source is offered |
| SelectDestinationPage.HandleDestinationSelect | src/pages/SelectDestination.tsx:22-29 | goes to the amount screen with the source and destination; no amount, currency or balances are forwarded |
| SelectDestinationPage.ChosenPairIsDistinct | src/pages/SelectDestination.tsx:19-29 | any offered destination differs from the forwarded source |
| MoveFundsPage.LeadingDigits | src/pages/MoveFunds.tsx:52 | the longest all-digit prefix: it is all digits and the next character is not a digit |
| MoveFundsPage.MatchesAmountPattern | src/pages/MoveFunds.tsx:52 | the filter accepts exactly the texts of digits and points that have at most one point and at most two digits after it |
| MoveFundsPage.MoveFundsForm.constructor | src/pages/MoveFunds.tsx:39-40 | the field starts empty, with currency GBP |
| MoveFundsPage.MoveFundsForm.HandleAmountChange | src/pages/MoveFunds.tsx:49-55 | the new text is kept exactly when it is empty or passes the filter, so the field always passes the filter |
| MoveFundsPage.MoveFundsForm.SelectCurrency | src/pages/MoveFunds.tsx:113 | only the currency changes, and the outcome of "next" is unchanged |
| MoveFundsPage.ParseAmount | src/pages/MoveFunds.tsx:58 | a filtered text parses to NaN exactly when it is empty or a lone point; otherwise it parses to a non-negative number |
| MoveFundsPage.IsValidAmount | src/pages/MoveFunds.tsx:70-73 | the empty text and the lone point are never valid |
| MoveFundsPage.HandleNext | src/pages/MoveFunds.tsx:57-68 | navigates exactly when the amount is valid, to the review screen, with the parsed amount and the two hard-coded balances, and no source, destination or currency |
| MoveFundsPage.HandleBack | src/pages/MoveFunds.tsx:45-47 | back is a plain push to the pension warning with no state |
| MoveFundsPage.NumeralValue | src/pages/MoveFunds.tsx:58 | a decimal numeral reads back as its number |
| MoveFundsPage.WholeAmountsUpToPensionBalance | src/pages/MoveFunds.tsx:42-73 | a whole number of pounds passes the filter and parses to itself; it is valid exactly from 1 to 48750 |
| MoveFundsPage.DecimalValue | src/pages/MoveFunds.tsx:58 | digits, a point and digits are worth at least their whole part |
| MoveFundsPage.AcceptedTextsHaveTwoShapes | src/pages/MoveFunds.tsx:52-55 | every text the filter accepts is digits alone, or digits, one point and at most two digits |
| MoveFundsPage.DigitsParse | src/pages/MoveFunds.tsx:52-73 | a text of digits alone, leading zeros included, passes the filter, parses to its decimal value, and is valid exactly when that value is from 1 to 48750 |
| MoveFundsPage.DigitsAndFractionParse | src/pages/MoveFunds.tsx:52-58 | digits, a point and at most two digits, with either part empty and leading zeros allowed, pass the filter and parse to the whole part plus the fraction; only the lone point is NaN |
| MoveFundsPage.DigitsAndFractionGate | src/pages/MoveFunds.tsx:52-73 | such a text is valid exactly when it is not the lone point and its value is above 0 and at most 48750 |
| MoveFundsPage.PenceAmounts | src/pages/MoveFunds.tsx:52-73 | a text of pounds, a point and two pence digits passes the filter, parses to pounds plus pence over 100, and is valid exactly when that value is above 0 and at most 48750 |
| MoveFundsPage.OnePennyIsValid | src/pages/MoveFunds.tsx:70-73 | "0.01" is valid and "0.00" is not |
| MoveFundsPage.PensionBalanceInPenceIsValid | src/pages/MoveFunds.tsx:70-73 | "48750.00" is valid |
| MoveFundsPage.OnePennyOverIsInvalid | src/pages/MoveFunds.tsx:70-73 | "48750.01" is not valid |
| MoveFundsPage.EmptyAndPointAreInvalid | src/pages/MoveFunds.tsx:49-73 | the empty text and "." are accepted by the field but are not valid amounts |
| ReviewTransferPage.Render | src/pages/ReviewTransfer.tsx:12-32 | shows exactly when amount, source and destination came in, with those values and currency defaulting to GBP; the source is projected at its balance minus the amount and the destination at its balance plus the amount, so the sum is kept; the warning shows exactly for a pension source |
| ReviewTransferPage.HandleMoveFunds | src/pages/ReviewTransfer.tsx:40-62 | a savings source goes to the savings warning and every other source to the PIN step, with the source, destination, amount and currency forwarded and no balances |
| ReviewTransferPage.HandleBack | src/pages/ReviewTransfer.tsx:34-38 | a plain push back to the amount screen carrying the pair only: amount, currency and balances are dropped |
| ReviewTransferPage.PreviewMatchesTransfer | src/pages/ReviewTransfer.tsx:24-28 | for distinct accounts, the projected balances are those the store's transfer would produce, and the total is kept |
| ReviewTransferPage.SelfPreviewDisagreesWithTransfer | src/pages/ReviewTransfer.tsx:27 | for a self-transfer of a nonzero amount, the preview's debit differs from the store's credit |
| ReviewTransferPage.ForwardRoutesAreUnrouted | src/pages/ReviewTransfer.tsx:40-62 | neither forward route is in the route table; the back route is |
| ReviewTransferPage.AmountScreenNeverReachesReview | src/pages/MoveFunds.tsx:60-66 | whatever the amount screen forwards, the review screen fails to render |
| SavingsWarningPage.HandleBack | src/pages/SavingsWarning.tsx:13-22 | a plain push to the review screen passing the four fields on unchanged, and nothing else |
| SavingsWarningPage.Received | src/pages/SavingsWarning.tsx:10-11 | the four fields are read from the incoming state, all missing when there is none, and the balances are never carried |
| SavingsWarningPage.HandleContinue | src/pages/SavingsWarning.tsx:24-33 | a plain push to the PIN step passing the four fields on unchanged, and nothing else |
| SavingsWarningPage.MissingStateForwardsNothing | src/pages/SavingsWarning.tsx:10-11 | without incoming state, both actions forward an empty state |
| SavingsWarningPage.HandleLearnMore | src/pages/SavingsWarning.tsx:98 | "learn more" opens article 2, a path without a route of its own |
| SavingsWarningPage.BackRestoresReview | src/pages/SavingsWarning.tsx:13-22 | going from the review to this screen and back renders the review exactly as before |
| SavingsWarningPage.ContinueCarriesReviewTuple | src/pages/SavingsWarning.tsx:24-33 | continue hands the PIN step the same state the review sent, on a route that has no entry |
| AccountDetailPage.OwnKey | src/pages/AccountDetail.tsx:98 | each of the three key names maps to its account, and nothing else maps |
| AccountDetailPage.InAccounts | src/pages/AccountDetail.tsx:100 | every own key passes the `in` test, and no name that passes it is empty |
| AccountDetailPage.HasMoveFundsButton | src/pages/AccountDetail.tsx:71-77 | the button is configured for every account but the current one |
| AccountDetailPage.Render | src/pages/AccountDetail.tsx:100-108 | "Invalid account" exactly when the `in` test fails; a failed render exactly for inherited names; otherwise the account, the shared filtered newest-first list of its transactions, and a button for every account but the current one |
| AccountDetailPage.HandleMoveFunds | src/pages/AccountDetail.tsx:110-127 | pension goes to savings and savings to the current account, both to the amount screen; the current account does nothing |
| AccountDetailPage.ButtonOnlyWhereHandled | src/pages/AccountDetail.tsx:71-77 | the button is shown exactly for the accounts whose handler navigates |
| AccountDetailPage.RowSign | src/pages/AccountDetail.tsx:201 | the sign is "+ " exactly for a positive amount, otherwise "- " |
| AccountDetailPage.RowShowsAmount | src/pages/AccountDetail.tsx:200-201 | sign and magnitude read back as the amount; zero shows "- " |
| AccountDetailPage.TypeLabel | src/pages/AccountDetail.tsx:196 | same length as the kind, the first character upper-cased, the rest unchanged |
| AccountDetailPage.TypeLabelCapitalises | src/pages/AccountDetail.tsx:196 | a lower-case first letter becomes upper case, and capitalising twice changes nothing |
| AccountDetailPage.TypeLabelsOfKnownKinds | src/pages/AccountDetail.tsx:196 | the known kinds show as "Withdrawal", "Topup" and "Transfer" |
| TransactionsPage.TabsAreTheThreeAccounts | src/pages/Transactions.tsx:15-27 | there is one tab for each account, and the first tab is the default selection |
| TransactionsPage.ListIsSelectedAccountNewestFirst | src/pages/Transactions.tsx:35-37 | the list holds exactly the selected account's transactions, newest first, with ties in the order of the whole transaction list |
| TransactionsPage.TransactionLabel | src/pages/Transactions.tsx:66-77 | a label is shown exactly for the three known kinds |
| TransactionsPage.AmountSign | src/pages/Transactions.tsx:148 | the sign is "+ " exactly for a non-negative amount, otherwise "- " |
| TransactionsPage.LabelsOfKinds | src/pages/Transactions.tsx:66-77 | each known kind has its label, and an unknown kind shows nothing |
| TransactionsPage.RowShowsAmount | src/pages/Transactions.tsx:145-149 | sign and magnitude read back as the amount; zero shows "+ " |
| BudgetingPage.SpentFromIsSum | src/pages/Budgeting.tsx:343 | the left fold equals the sum of the spent amounts plus its seed |
| BudgetingPage.Categories | src/pages/Budgeting.tsx:44-95 | two categories for savings and three for the current account, with distinct ids |
| BudgetingPage.TotalSpent | src/pages/Budgeting.tsx:343 | the total is the sum over the account's categories: 510 for the current account, 16250 for savings |
| BudgetingPage.Percentage | src/pages/Budgeting.tsx:474 | a category within a positive target lies between 0 and 100, and exactly at target gives 100 |
| BudgetingPage.CategoriesWithinTarget | src/pages/Budgeting.tsx:44-95 | every fixed category has a positive target and is within it |
| BudgetingPage.Ids | src/pages/Budgeting.tsx:345-351 | holds exactly the categories' ids |
| BudgetingPage.ConfigFromKeys | src/pages/Budgeting.tsx:345-351 | the fold adds exactly the categories' ids to the initial keys |
| BudgetingPage.ConfigFromKeeps | src/pages/Budgeting.tsx:345-351 | an id that no category carries keeps its entry |
| BudgetingPage.ConfigFromEntries | src/pages/Budgeting.tsx:345-351 | with distinct ids, each category's entry is its name and colour |
| BudgetingPage.ChartConfig | src/pages/Budgeting.tsx:345-351 | one entry per category id, each the category's name and colour |
| BudgetingPage.RecentTransactions | src/pages/Budgeting.tsx:331-334 | at most five entries: a prefix of the account's newest-first list, and the whole list when it is shorter |
| BudgetingPage.EmptyRecentIffNoTransactions | src/pages/Budgeting.tsx:601-604 | "No transactions yet" shows exactly when the account has no transaction |
| BudgetingPage.LabelsAgreeOnKnownKinds | src/pages/Budgeting.tsx:308-319 | the known kinds are labelled as on the transactions screen; an unknown kind shows as itself there but as nothing on the transactions screen |
| BudgetingPage.TransactionLabel | src/pages/Budgeting.tsx:308-319 | an unknown kind shows as itself, and the label is empty only for an empty kind |

## Left out

- Rendering, styling, animation, icons, the chart drawing, date formatting, and the locale formatting of amounts (`toLocaleString`, `toFixed`). Only the values these are given are modelled.
- Storage access and JSON. The loader takes the outcome of reading and parsing as a `Stored` value: nothing stored, unparseable, or a snapshot of optional balance fields. Each field is either a number or absent, so the model cannot represent a field that is present and truthy but not a number. The source keeps such a value, for example the string "100", because `||` falls back to the initial balance only for falsy values (`src/contexts/AccountContext.tsx:57-59`).
- Numbers are exact reals, not IEEE doubles. Rounding in `balance - amount`, `amount * 1.64` and the percentage is not modelled.
- React state scheduling, effects and re-rendering. The store applies each update at once, and the persistence effect runs right after it.
- The transaction list. The context value is `{ accounts, updateBalance, transferFunds, getAccount }` (`src/contexts/AccountContext.tsx:107`) and has no `transactions`. So `transactions.filter` throws at `src/pages/Transactions.tsx:35`, `src/pages/AccountDetail.tsx:106` and `src/pages/Budgeting.tsx:331`. The list-query members (`Ledger.OfAccount`, `Ledger.AccountTransactions`, the transactions and budgeting lists) describe these screens as if a list were supplied as a parameter. Transfers do not append to any ledger.
- MoveFundsPage.ParseAmount: the contract states only when the result is NaN and that it is never negative. The exact value for every accepted text, leading zeros (`007`, `05.25`), one pence digit, a trailing point and no whole part (`12.5`, `12.`, `.5`) included, is proved by lemma instead (`MoveFundsPage.AcceptedTextsHaveTwoShapes`, `MoveFundsPage.DigitsParse`, `MoveFundsPage.DigitsAndFractionParse`). Signs, exponents, whitespace and trailing text are not modelled, because the filter never lets them into the field.
- MoveFundsPage.IsValidAmount: the contract states only that the empty text and the lone point are invalid. The `0 < value <= 48750` gate for every accepted text is decided by lemma instead (`MoveFundsPage.DigitsParse`, `MoveFundsPage.DigitsAndFractionGate`).
- The amount screen's currency table and currency formatting; only the selected code is kept.
- AccountDetailPage.TypeLabel: upper-cases ASCII letters only, not the full Unicode case mapping of `toUpperCase`.
- AccountDetailPage.Render: of the names a plain object inherits, only the twelve standard `Object.prototype` members are listed.
- BudgetingPage.Percentage: a zero target (a division by zero) is excluded. No category has one.
- The budgeting screen's amount sign uses the same `>= 0` rule as the transactions screen, and the model states it once, as `TransactionsPage.AmountSign`. The budgeting account switch is the `BudgetAccount` type with its default; the switch's click handler is not modelled.
- The PIN-confirmation, transfer-confirmed, learn-article and home screens. They are not part of this model; only their routes appear.
- `SelectDestination.tsx`'s back button (`navigate(-1)`) needs the history stack, which is not modelled.
