/**
 * The review screen: projected balances from the store snapshot, the
 * retirement-impact flag, and the routing of "Move funds". Nothing here
 * writes to the store: every member returns a view or a transition.
 */
module ReviewTransferPage {
  import opened Wrappers
  import opened AccountContext
  import opened Navigation
  import MoveFundsPage

  /** Growth lost per pound taken from the pension, shown in the warning. */
  const RetirementMultiplier: real := 1.64

  /** What the screen shows once its incoming state is usable. */
  datatype ReviewView = ReviewView(
    amount: real,
    source: AccountType,
    destination: AccountType,
    currency: string,
    newSourceBalance: real,
    newDestinationBalance: real,
    showRetirementWarning: bool,
    retirementImpact: real)

  /**
   * `RenderFails`: reading `source.balance` of an account that is not there,
   * or calling `amount.toLocaleString` on a missing amount, throws.
   */
  datatype ReviewScreen = RenderFails | Shows(view: ReviewView)

  function Render(accounts: Accounts, incoming: NavState): (r: ReviewScreen)
    ensures r.Shows? <==> incoming.amount.Some? && incoming.sourceAccount.Some? && incoming.destinationAccount.Some?
    ensures r.Shows? ==>
      && r.view.amount == incoming.amount.value
      && r.view.source == incoming.sourceAccount.value
      && r.view.destination == incoming.destinationAccount.value
      && r.view.currency == incoming.currency.GetOr("GBP")
    ensures r.Shows? ==> (r.view.showRetirementWarning <==> r.view.source == Pension)
    ensures r.Shows? ==>
      && r.view.newSourceBalance == accounts.Get(r.view.source).balance - r.view.amount
      && r.view.newDestinationBalance == accounts.Get(r.view.destination).balance + r.view.amount
    ensures r.Shows? ==> r.view.newSourceBalance + r.view.newDestinationBalance
                         == accounts.Get(r.view.source).balance + accounts.Get(r.view.destination).balance
  {
    match (incoming.amount, incoming.sourceAccount, incoming.destinationAccount)
    case (Some(amount), Some(source), Some(destination)) =>
      Shows(ReviewView(
        amount, source, destination, incoming.currency.GetOr("GBP"),
        accounts.Get(source).balance - amount,
        accounts.Get(destination).balance + amount,
        source == Pension,
        amount * RetirementMultiplier))
    case _ => RenderFails
  }

  /** The state both forward routes carry. */
  function Forwarded(v: ReviewView): NavState {
    NoState.(amount := Some(v.amount), sourceAccount := Some(v.source),
             destinationAccount := Some(v.destination), currency := Some(v.currency))
  }

  /** `handleMoveFunds`: savings first goes through its warning, every other source to the PIN step. */
  function HandleMoveFunds(v: ReviewView): (t: Transition)
    ensures t.Go? && !t.replace
    ensures t.to == SavingsWarning <==> v.source == Savings
    ensures t.to == PinConfirmation <==> v.source != Savings
    ensures t.state.amount == Some(v.amount) && t.state.currency == Some(v.currency)
    ensures t.state.sourceAccount == Some(v.source) && t.state.destinationAccount == Some(v.destination)
    ensures t.state.pensionBalance.None? && t.state.savingsBalance.None?
  {
    if v.source == Savings then Go(SavingsWarning, Forwarded(v), false)
    else Go(PinConfirmation, Forwarded(v), false)
  }

  /** `handleBack`: back to the amount screen with the pair only; the amount is dropped. */
  function HandleBack(v: ReviewView): (t: Transition)
    ensures t.Go? && t.to == MoveFunds && !t.replace
    ensures t.state.sourceAccount == Some(v.source) && t.state.destinationAccount == Some(v.destination)
    ensures t.state.amount.None? && t.state.currency.None?
    ensures t.state.pensionBalance.None? && t.state.savingsBalance.None?
  {
    Go(MoveFunds, NoState.(sourceAccount := Some(v.source), destinationAccount := Some(v.destination)), false)
  }

  /** For two distinct accounts the preview is exactly what `transferFunds` would produce, and the total is kept. */
  lemma PreviewMatchesTransfer(accounts: Accounts, incoming: NavState)
    requires Render(accounts, incoming).Shows?
    requires Render(accounts, incoming).view.source != Render(accounts, incoming).view.destination
    ensures var v := Render(accounts, incoming).view;
      var after := TransferOf(accounts, v.source, v.destination, v.amount);
      && v.newSourceBalance == after.Get(v.source).balance
      && v.newDestinationBalance == after.Get(v.destination).balance
      && after.Total() == accounts.Total()
  {
  }

  /** With source and destination equal, the preview shows a debit while `transferFunds` would credit. */
  lemma SelfPreviewDisagreesWithTransfer(accounts: Accounts, incoming: NavState)
    requires Render(accounts, incoming).Shows?
    requires Render(accounts, incoming).view.source == Render(accounts, incoming).view.destination
    requires Render(accounts, incoming).view.amount != 0.0
    ensures var v := Render(accounts, incoming).view;
      v.newSourceBalance != TransferOf(accounts, v.source, v.source, v.amount).Get(v.source).balance
  {
  }

  /** Neither forward route is in the route table, so both land on the catch-all page. */
  lemma ForwardRoutesAreUnrouted(v: ReviewView)
    ensures !Routed(HandleMoveFunds(v).to)
    ensures Routed(HandleBack(v).to)
  {
  }

  /**
   * The amount screen forwards no source or destination, so the review
   * screen it leads to always fails to render.
   */
  lemma AmountScreenNeverReachesReview(accounts: Accounts, amount: string)
    requires MoveFundsPage.MatchesAmountPattern(amount)
    requires MoveFundsPage.HandleNext(amount).Go?
    ensures MoveFundsPage.HandleNext(amount).to == ReviewTransfer
    ensures Render(accounts, MoveFundsPage.HandleNext(amount).state) == RenderFails
  {
  }
}
