/** The transactions screen: one tab per account, newest first. */
module TransactionsPage {
  import opened AccountContext
  import opened Ledger

  /** The tab selected on first render. */
  const DefaultTab: AccountType := CurrentAccount

  /** The filter tabs, in the key order of the label table. */
  const Tabs: seq<AccountType> := [CurrentAccount, Savings, Pension]

  /** `getTransactionLabel` */
  function TransactionLabel(kind: string): (caption: string)
    ensures caption != "" <==> kind in {"withdrawal", "topup", "transfer"}
  {
    if kind == "withdrawal" then "Withdrawal"
    else if kind == "topup" then "Top up"
    else if kind == "transfer" then "Transfer"
    else ""
  }

  /** `transaction.amount >= 0 ? "+ " : "- "` */
  function AmountSign(amount: real): (sign: string)
    ensures sign == "+ " <==> amount >= 0.0
    ensures sign == "+ " || sign == "- "
  {
    if amount >= 0.0 then "+ " else "- "
  }

  lemma TabsAreTheThreeAccounts()
    ensures forall k :: k in Tabs
    ensures |Tabs| == 3 && Tabs[0] != Tabs[1] && Tabs[0] != Tabs[2] && Tabs[1] != Tabs[2]
    ensures DefaultTab == Tabs[0]
  {
    forall k ensures k in Tabs {
      match k
      case CurrentAccount => assert Tabs[0] == k;
      case Savings => assert Tabs[1] == k;
      case Pension => assert Tabs[2] == k;
    }
  }

  /** The list under the selected tab: exactly that account's transactions, newest first, ties in list order. */
  lemma ListIsSelectedAccountNewestFirst(txs: seq<Transaction>, selected: AccountType, d: int)
    ensures forall t :: t in AccountTransactions(txs, selected) <==> t in txs && t.account == selected
    ensures NewestFirst(AccountTransactions(txs, selected))
    ensures DatedAt(AccountTransactions(txs, selected), d) == OfAccount(DatedAt(txs, d), selected)
  {
    ListedTiesKeepOrder(txs, selected, d);
  }

  lemma LabelsOfKinds(kind: string)
    ensures TransactionLabel("withdrawal") == "Withdrawal"
    ensures TransactionLabel("topup") == "Top up"
    ensures TransactionLabel("transfer") == "Transfer"
    ensures kind !in {"withdrawal", "topup", "transfer"} ==> TransactionLabel(kind) == ""
  {
  }

  /** The cell reads back as the amount; zero is shown with "+ ". */
  lemma RowShowsAmount(amount: real)
    ensures SignedValue(AmountSign(amount), Abs(amount)) == amount
    ensures AmountSign(0.0) == "+ "
  {
  }
}
