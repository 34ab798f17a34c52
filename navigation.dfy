/**
 * What a screen hands to the router: the route it navigates to and the
 * per-navigation state it passes along. Screens never write to the store.
 */
module Navigation {
  import opened Wrappers
  import opened AccountContext

  /** The paths the move-funds screens navigate to. */
  datatype Route =
    | Root                    // "/"
    | PensionWarning          // "/pension-warning"
    | SelectSource            // "/select-source"
    | SelectDestination       // "/select-destination"
    | MoveFunds               // "/move-funds"
    | ReviewTransfer          // "/review-transfer"
    | TransferConfirmed       // "/transfer-confirmed"
    | SavingsWarning          // "/savings-warning"
    | PinConfirmation         // "/pin-confirmation"
    | LearnArticle(article: nat)  // "/learn/<article>"

  /** The route has its own entry in the application's route table; others fall to the catch-all page. */
  predicate Routed(r: Route) {
    match r
    case Root | PensionWarning | SelectSource | SelectDestination | MoveFunds | ReviewTransfer | TransferConfirmed => true
    case SavingsWarning | PinConfirmation | LearnArticle(_) => false
  }

  /**
   * The router's `location.state` as the move-funds screens use it. Each
   * field is `None` when the object does not carry it (`undefined`).
   */
  datatype NavState = NavState(
    amount: Option<real>,
    sourceAccount: Option<AccountType>,
    destinationAccount: Option<AccountType>,
    currency: Option<string>,
    pensionBalance: Option<real>,
    savingsBalance: Option<real>)

  /** Navigation without a `state` object. */
  const NoState: NavState := NavState(None, None, None, None, None, None)

  /** The outcome of a user action: no transition, or `navigate(to, { state, replace })`. */
  datatype Transition = Stay | Go(to: Route, state: NavState, replace: bool)

  /** `navigate(to)` with no options. */
  function GoTo(to: Route): Transition {
    Go(to, NoState, false)
  }
}
