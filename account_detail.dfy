/** The account detail screen, reached with an account id taken from the URL. */
module AccountDetailPage {
  import opened Wrappers
  import opened AccountContext
  import opened Navigation
  import opened Ledger

  /** The store record's own keys, by name. */
  function OwnKey(id: string): (k: Option<AccountType>)
    ensures k == Some(Pension) <==> id == "pension"
    ensures k == Some(Savings) <==> id == "savings"
    ensures k == Some(CurrentAccount) <==> id == "currentAccount"
  {
    if id == "pension" then Some(Pension)
    else if id == "savings" then Some(Savings)
    else if id == "currentAccount" then Some(CurrentAccount)
    else None
  }

  /** The property names a plain object inherits, which the `in` operator also accepts. */
  const InheritedKeys: set<string> := {
    "constructor", "hasOwnProperty", "isPrototypeOf", "propertyIsEnumerable",
    "toLocaleString", "toString", "valueOf", "__proto__",
    "__defineGetter__", "__defineSetter__", "__lookupGetter__", "__lookupSetter__"}

  /**
   * `accountId in accounts`: the three key names and the inherited names.
   * No such name is empty, so the guard's own `!accountId` test adds nothing.
   */
  predicate InAccounts(id: string): (b: bool)
    ensures OwnKey(id).Some? ==> b
    ensures b ==> id != ""
  {
    OwnKey(id).Some? || id in InheritedKeys
  }

  /** `accountConfig[id].moveFundsButton` */
  function HasMoveFundsButton(id: AccountType): (b: bool)
    ensures b <==> id != CurrentAccount
  {
    id == Savings || id == Pension
  }

  datatype DetailView = DetailView(account: Account, transactions: seq<Transaction>, moveFundsButton: bool)

  /**
   * `InvalidAccount`: only the "Invalid account" text. `RenderFails`: an
   * inherited name passes the guard, and formatting the balance of the
   * property found there (not an account) throws.
   */
  datatype DetailScreen = InvalidAccount | RenderFails | Detail(view: DetailView)

  function Render(accounts: Accounts, txs: seq<Transaction>, id: string): (r: DetailScreen)
    ensures r.InvalidAccount? <==> !InAccounts(id)
    ensures r.RenderFails? <==> id in InheritedKeys
    ensures r.Detail? <==> OwnKey(id).Some?
    ensures r.Detail? ==>
      && r.view.account == accounts.Get(OwnKey(id).value)
      && r.view.transactions == AccountTransactions(txs, OwnKey(id).value)
      && (forall t :: t in r.view.transactions <==> t in txs && t.account == OwnKey(id).value)
      && NewestFirst(r.view.transactions)
      && (r.view.moveFundsButton <==> OwnKey(id).value != CurrentAccount)
  {
    if id == "" || !InAccounts(id) then InvalidAccount
    else match OwnKey(id)
      case None => RenderFails
      case Some(k) => Detail(DetailView(accounts.Get(k), AccountTransactions(txs, k), HasMoveFundsButton(k)))
  }

  /** `handleMoveFunds`: pension moves to savings, savings to the current account. */
  function HandleMoveFunds(id: AccountType): (t: Transition)
    ensures t.Go? <==> id != CurrentAccount
    ensures t.Go? ==> t.to == MoveFunds && !t.replace && t.state.amount.None?
    ensures t.Go? ==> t.state.sourceAccount == Some(id) && t.state.destinationAccount.Some?
    ensures t.Go? ==> t.state.destinationAccount.value != id
    ensures id == Pension ==> t.Go? && t.state.destinationAccount == Some(Savings)
    ensures id == Savings ==> t.Go? && t.state.destinationAccount == Some(CurrentAccount)
  {
    match id
    case Pension => Go(MoveFunds, NoState.(sourceAccount := Some(id), destinationAccount := Some(Savings)), false)
    case Savings => Go(MoveFunds, NoState.(sourceAccount := Some(id), destinationAccount := Some(CurrentAccount)), false)
    case CurrentAccount => Stay
  }

  /** The button is shown exactly where its handler navigates. */
  lemma ButtonOnlyWhereHandled(id: AccountType)
    ensures HasMoveFundsButton(id) <==> HandleMoveFunds(id).Go?
  {
  }

  /** `tr.amount > 0 ? '+ ' : '- '` */
  function RowSign(amount: real): (sign: string)
    ensures sign == "+ " <==> amount > 0.0
    ensures sign == "+ " || sign == "- "
  {
    if amount > 0.0 then "+ " else "- "
  }

  /** The cell reads back as the amount; zero is shown with "- ". */
  lemma RowShowsAmount(amount: real)
    ensures SignedValue(RowSign(amount), Abs(amount)) == amount
    ensures RowSign(0.0) == "- "
  {
  }

  /** `String.prototype.toUpperCase` on one character, for the Latin letters. */
  function UpperChar(c: char): char {
    if 'a' <= c <= 'z' then (c as int - 32) as char else c
  }

  /** `tr.type.charAt(0).toUpperCase() + tr.type.slice(1)` */
  function TypeLabel(kind: string): (shown: string)
    ensures |shown| == |kind|
    ensures forall i :: 0 < i < |kind| ==> shown[i] == kind[i]
    ensures kind != "" ==> shown[0] == UpperChar(kind[0])
  {
    if kind == "" then "" else [UpperChar(kind[0])] + kind[1..]
  }

  lemma TypeLabelCapitalises(kind: string)
    ensures kind != "" && 'a' <= kind[0] <= 'z' ==> 'A' <= TypeLabel(kind)[0] <= 'Z'
    ensures TypeLabel(TypeLabel(kind)) == TypeLabel(kind)
  {
  }

  lemma TypeLabelsOfKnownKinds()
    ensures TypeLabel("withdrawal") == "Withdrawal"
    ensures TypeLabel("topup") == "Topup"
    ensures TypeLabel("transfer") == "Transfer"
  {
  }
}
