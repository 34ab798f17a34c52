/** The destination-account screen: every store key except the source. */
module SelectDestinationPage {
  import opened Wrappers
  import opened AccountContext
  import opened Navigation

  predicate NoDuplicates(keys: seq<AccountType>) {
    forall i, j :: 0 <= i < j < |keys| ==> keys[i] != keys[j]
  }

  /** `keys.filter(accountId => accountId !== x)` */
  function Without(keys: seq<AccountType>, x: AccountType): (r: seq<AccountType>)
    ensures forall k :: k in r <==> k in keys && k != x
    ensures NoDuplicates(keys) ==> |r| == if x in keys then |keys| - 1 else |keys|
  {
    if keys == [] then []
    else
      assert NoDuplicates(keys) ==> NoDuplicates(keys[1..]) && keys[0] !in keys[1..];
      (if keys[0] == x then [] else [keys[0]]) + Without(keys[1..], x)
  }

  /** `availableDestinations` */
  function AvailableDestinations(source: AccountType): (r: seq<AccountType>)
    ensures source !in r
    ensures forall k :: k != source ==> k in r
    ensures |r| == 2
  {
    KeysListEveryAccountOnce();
    Without(Keys, source)
  }

  /** The list follows the store's key order. */
  lemma DestinationsInKeyOrder(source: AccountType)
    ensures AvailableDestinations(source) ==
      match source
      case Pension => [Savings, CurrentAccount]
      case Savings => [Pension, CurrentAccount]
      case CurrentAccount => [Pension, Savings]
  {
  }

  /** What the screen does on render. */
  datatype DestinationScreen =
    | Redirect(t: Transition)   // `navigate('/', { replace: true })`, then render nothing
    | Choose(source: AccountType, destinations: seq<AccountType>)

  function Render(incoming: NavState): (r: DestinationScreen)
    ensures r.Redirect? <==> incoming.sourceAccount.None?
    ensures r.Redirect? ==> r.t == Go(Root, NoState, true)
    ensures r.Choose? ==> r.source == incoming.sourceAccount.value && r.source !in r.destinations && |r.destinations| == 2
    ensures r.Choose? ==> r.destinations == AvailableDestinations(r.source)
    ensures r.Choose? ==> forall k :: k != r.source ==> k in r.destinations
  {
    match incoming.sourceAccount
    case None => Redirect(Go(Root, NoState, true))
    case Some(source) => Choose(source, AvailableDestinations(source))
  }

  /** `handleDestinationSelect(destination)` */
  function HandleDestinationSelect(source: AccountType, destination: AccountType): (t: Transition)
    ensures t.Go? && t.to == MoveFunds && !t.replace
    ensures t.state.sourceAccount == Some(source) && t.state.destinationAccount == Some(destination)
    ensures t.state.amount.None? && t.state.currency.None?
    ensures t.state.pensionBalance.None? && t.state.savingsBalance.None?
  {
    Go(MoveFunds, NoState.(sourceAccount := Some(source), destinationAccount := Some(destination)), false)
  }

  /** Any destination the screen offers differs from the source it forwards. */
  lemma ChosenPairIsDistinct(incoming: NavState, destination: AccountType)
    requires Render(incoming).Choose?
    requires destination in Render(incoming).destinations
    ensures var t := HandleDestinationSelect(Render(incoming).source, destination);
      t.state.sourceAccount.value != t.state.destinationAccount.value
  {
  }
}
