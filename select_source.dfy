/** The source-account screen: a balance gate in front of the destination screen. */
module SelectSourcePage {
  import opened Wrappers
  import opened AccountContext
  import opened Navigation

  /** The state handed to the destination screen: only the chosen source. */
  function SourceOnly(id: AccountType): NavState {
    NoState.(sourceAccount := Some(id))
  }

  /** `handleSelectAccount(id)`: only a positive balance may be a source. */
  function HandleSelectAccount(accounts: Accounts, id: AccountType): (t: Transition)
    ensures t.Go? <==> accounts.Get(id).balance > 0.0
    ensures t.Go? ==> t.to == SelectDestination && t.state.sourceAccount == Some(id) && !t.replace
    ensures t.Go? ==> t.state == SourceOnly(id)
  {
    if accounts.Get(id).balance > 0.0 then Go(SelectDestination, SourceOnly(id), false) else Stay
  }

  /** The card's `disabled` attribute: a zero balance only. */
  predicate CardDisabled(balance: real): (disabled: bool)
    ensures disabled ==> !(balance > 0.0)
  {
    balance == 0.0
  }

  /** The caption under the account name. */
  function AvailabilityLabel(balance: real): (caption: string)
    ensures caption == "Insufficient balance" <==> CardDisabled(balance)
    ensures caption == "Available to transfer" <==> !CardDisabled(balance)
  {
    if balance == 0.0 then "Insufficient balance" else "Available to transfer"
  }

  /** `handleBack` */
  function HandleBack(): (t: Transition)
    ensures t == Go(Root, NoState, false)
  {
    GoTo(Root)
  }

  /**
   * A disabled card never navigates; a negative balance leaves the card
   * enabled and labelled available, yet selecting it does nothing.
   */
  lemma GateAndCard(accounts: Accounts, id: AccountType)
    ensures CardDisabled(accounts.Get(id).balance) ==> HandleSelectAccount(accounts, id) == Stay
    ensures accounts.Get(id).balance < 0.0 ==>
      && !CardDisabled(accounts.Get(id).balance)
      && AvailabilityLabel(accounts.Get(id).balance) == "Available to transfer"
      && HandleSelectAccount(accounts, id) == Stay
  {
  }
}
