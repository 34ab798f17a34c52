/** The interstitial shown when savings is the source: it passes the transfer on unchanged. */
module SavingsWarningPage {
  import opened Wrappers
  import opened AccountContext
  import opened Navigation
  import ReviewTransferPage

  /**
   * `const { amount, sourceAccount, destinationAccount, currency } = location.state || {}`,
   * repackaged; a missing state object yields four undefined fields.
   */
  function Received(incoming: Option<NavState>): (st: NavState)
    ensures incoming.None? ==> st == NoState
    ensures incoming.Some? ==>
      && st.amount == incoming.value.amount
      && st.sourceAccount == incoming.value.sourceAccount
      && st.destinationAccount == incoming.value.destinationAccount
      && st.currency == incoming.value.currency
    ensures st.pensionBalance.None? && st.savingsBalance.None?
  {
    var st := incoming.GetOr(NoState);
    NoState.(amount := st.amount, sourceAccount := st.sourceAccount,
             destinationAccount := st.destinationAccount, currency := st.currency)
  }

  /** `handleBack` */
  function HandleBack(incoming: Option<NavState>): (t: Transition)
    ensures t.Go? && t.to == ReviewTransfer && !t.replace
    ensures t.state.pensionBalance.None? && t.state.savingsBalance.None?
    ensures incoming.Some? ==>
      && t.state.amount == incoming.value.amount
      && t.state.sourceAccount == incoming.value.sourceAccount
      && t.state.destinationAccount == incoming.value.destinationAccount
      && t.state.currency == incoming.value.currency
  {
    Go(ReviewTransfer, Received(incoming), false)
  }

  /** `handleContinue` */
  function HandleContinue(incoming: Option<NavState>): (t: Transition)
    ensures t.Go? && t.to == PinConfirmation && !t.replace
    ensures t.state.pensionBalance.None? && t.state.savingsBalance.None?
    ensures incoming.Some? ==>
      && t.state.amount == incoming.value.amount
      && t.state.sourceAccount == incoming.value.sourceAccount
      && t.state.destinationAccount == incoming.value.destinationAccount
      && t.state.currency == incoming.value.currency
  {
    Go(PinConfirmation, Received(incoming), false)
  }

  /** The "Learn more" button: article 2, a path without a route of its own. */
  function HandleLearnMore(): (t: Transition)
    ensures t.Go? && t.to == LearnArticle(2) && t.state == NoState
    ensures !Routed(t.to)
  {
    GoTo(LearnArticle(2))
  }

  /** The sum quoted in the screen's text; the incoming amount plays no part. */
  const QuotedAmount: real := 2500.0

  /** Without incoming state nothing fails: the fields are forwarded undefined. */
  lemma MissingStateForwardsNothing()
    ensures HandleBack(None).state == NoState
    ensures HandleContinue(None).state == NoState
  {
  }

  /**
   * Review with a savings source, "Move funds", then back from this screen:
   * the review screen renders exactly as before.
   */
  lemma BackRestoresReview(accounts: Accounts, incoming: NavState)
    requires ReviewTransferPage.Render(accounts, incoming).Shows?
    requires ReviewTransferPage.Render(accounts, incoming).view.source == Savings
    ensures var t := ReviewTransferPage.HandleMoveFunds(ReviewTransferPage.Render(accounts, incoming).view);
      && t.to == SavingsWarning
      && ReviewTransferPage.Render(accounts, HandleBack(Some(t.state)).state) == ReviewTransferPage.Render(accounts, incoming)
  {
  }

  /** Continuing hands the PIN step the same tuple the review screen sent. */
  lemma ContinueCarriesReviewTuple(v: ReviewTransferPage.ReviewView)
    requires v.source == Savings
    ensures HandleContinue(Some(ReviewTransferPage.HandleMoveFunds(v).state)).state
            == ReviewTransferPage.HandleMoveFunds(v).state
    ensures !Routed(HandleContinue(Some(ReviewTransferPage.HandleMoveFunds(v).state)).to)
  {
  }
}
