/** The early-access warning shown before moving money out of the pension. */
module PensionWarningPage {
  import opened Wrappers
  import opened AccountContext
  import opened Navigation
  import AccountDetailPage

  /** `handleBack` */
  function HandleBack(): (t: Transition)
    ensures t == Go(Root, NoState, false)
  {
    GoTo(Root)
  }

  /** `handleContinue`: a fixed pension-to-savings pair, without an amount. */
  function HandleContinue(): (t: Transition)
    ensures t.Go? && t.to == MoveFunds && !t.replace
    ensures t.state.sourceAccount == Some(Pension) && t.state.destinationAccount == Some(Savings)
    ensures t.state.amount.None? && t.state.currency.None?
    ensures t.state.pensionBalance.None? && t.state.savingsBalance.None?
  {
    Go(MoveFunds, NoState.(sourceAccount := Some(Pension), destinationAccount := Some(Savings)), false)
  }

  /** `handleLearnMore`: article 3, a path without a route of its own. */
  function HandleLearnMore(): (t: Transition)
    ensures t.Go? && t.to == LearnArticle(3) && t.state == NoState
    ensures !Routed(t.to)
  {
    GoTo(LearnArticle(3))
  }

  /**
   * Continuing from the warning and pressing "Move funds" on the pension's
   * detail screen lead to the same place with the same state.
   */
  lemma ContinueMatchesPensionDetail()
    ensures HandleContinue() == AccountDetailPage.HandleMoveFunds(Pension)
  {
  }
}
