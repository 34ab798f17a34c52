/**
 * The account balance store: exactly three accounts under a closed key set,
 * a start-up loader that rebuilds balances from a stored snapshot, the
 * point update and the two-account transfer, and the persistence effect
 * that mirrors the balances after every change.
 */
module AccountContext {
  import opened Wrappers

  /** The closed key set of the store. */
  datatype AccountType = Pension | Savings | CurrentAccount

  /** One account: identity and display metadata, plus its balance. */
  datatype Account = Account(id: AccountType, name: string, icon: string, balance: real, color: string)

  /** The store's record, one slot per key. */
  datatype Accounts = Accounts(pension: Account, savings: Account, currentAccount: Account)
  {
    /** `accounts[id]` */
    function Get(id: AccountType): Account {
      match id
      case Pension => pension
      case Savings => savings
      case CurrentAccount => currentAccount
    }

    /** `{ ...this, [id]: a }`: the slot under the computed key is replaced. */
    function Put(id: AccountType, a: Account): (r: Accounts)
      ensures r.Get(id) == a
      ensures forall k :: k != id ==> r.Get(k) == Get(k)
    {
      match id
      case Pension => this.(pension := a)
      case Savings => this.(savings := a)
      case CurrentAccount => this.(currentAccount := a)
    }

    /** The sum of the three balances. */
    function Total(): real {
      pension.balance + savings.balance + currentAccount.balance
    }
  }

  /** Key order of the record, which is the order of `Object.keys(accounts)`. */
  const Keys: seq<AccountType> := [Pension, Savings, CurrentAccount]

  /** `INITIAL_ACCOUNTS` */
  const InitialAccounts: Accounts := Accounts(
    Account(Pension, "Pension", "\U{1F4B0}", 48750.0, "#FFFFFF"),
    Account(Savings, "Savings", "\U{1F437}", 16250.0, "#A488F5"),
    Account(CurrentAccount, "Current Account", "\U{1F4B3}", 74500.0, "#60A5FA"))

  /** Every slot holds the account whose id is its key. */
  ghost predicate WellFormed(a: Accounts) {
    forall k :: a.Get(k).id == k
  }

  /** The two accounts agree on everything but the balance. */
  predicate SameButBalance(x: Account, y: Account) {
    x.id == y.id && x.name == y.name && x.icon == y.icon && x.color == y.color
  }

  /** Slot by slot, the two records agree on everything but the balances. */
  ghost predicate SameMetadata(a: Accounts, b: Accounts) {
    forall k :: SameButBalance(a.Get(k), b.Get(k))
  }

  /** The initial record is well formed, every balance is positive, and the three sum to 139500. */
  lemma InitialAccountsWellFormed()
    ensures WellFormed(InitialAccounts)
    ensures forall k :: InitialAccounts.Get(k).balance > 0.0
    ensures InitialAccounts.Total() == 139500.0
  {
  }

  lemma KeysListEveryAccountOnce()
    ensures forall k :: k in Keys
    ensures |Keys| == 3 && Keys[0] != Keys[1] && Keys[0] != Keys[2] && Keys[1] != Keys[2]
  {
    forall k ensures k in Keys {
      match k
      case Pension => assert Keys[0] == k;
      case Savings => assert Keys[1] == k;
      case CurrentAccount => assert Keys[2] == k;
    }
  }

  // ---------------------------------------------------------------------
  // The updater expressions handed to `setAccounts`

  /** The updater of `updateBalance(id, newBalance)`. */
  function UpdateBalanceOf(prev: Accounts, id: AccountType, newBalance: real): (r: Accounts)
    ensures r.Get(id).balance == newBalance
    ensures forall k :: k != id ==> r.Get(k) == prev.Get(k)
    ensures SameMetadata(prev, r)
  {
    prev.Put(id, prev.Get(id).(balance := newBalance))
  }

  /**
   * The updater of `transferFunds(from, to, amount)`. Both new slots are
   * computed from `prev`; when `from == to` the second computed key
   * overwrites the first.
   */
  function TransferOf(prev: Accounts, from: AccountType, to: AccountType, amount: real): (r: Accounts)
    ensures from != to ==> r.Get(from).balance == prev.Get(from).balance - amount
    ensures r.Get(to).balance == prev.Get(to).balance + amount
    ensures forall k :: k != from && k != to ==> r.Get(k) == prev.Get(k)
    ensures SameMetadata(prev, r)
  {
    prev
      .Put(from, prev.Get(from).(balance := prev.Get(from).balance - amount))
      .Put(to, prev.Get(to).(balance := prev.Get(to).balance + amount))
  }

  lemma UpdateThenGet(prev: Accounts, id: AccountType, v: real)
    requires WellFormed(prev)
    ensures WellFormed(UpdateBalanceOf(prev, id, v))
    ensures UpdateBalanceOf(prev, id, v).Get(id).balance == v
  {
  }

  lemma UpdateIdempotent(prev: Accounts, id: AccountType, v: real)
    ensures UpdateBalanceOf(UpdateBalanceOf(prev, id, v), id, v) == UpdateBalanceOf(prev, id, v)
  {
  }

  lemma TransferConserves(prev: Accounts, from: AccountType, to: AccountType, amount: real)
    requires from != to
    ensures TransferOf(prev, from, to, amount).Total() == prev.Total()
  {
  }

  lemma SelfTransferCredits(prev: Accounts, id: AccountType, amount: real)
    ensures TransferOf(prev, id, id, amount).Get(id).balance == prev.Get(id).balance + amount
    ensures TransferOf(prev, id, id, amount).Total() == prev.Total() + amount
  {
  }

  /** Neither operation checks sign or sufficiency: balances can go negative. */
  lemma BalancesMayGoNegative()
    ensures TransferOf(InitialAccounts, Savings, Pension, 20000.0).Get(Savings).balance < 0.0
    ensures UpdateBalanceOf(InitialAccounts, CurrentAccount, -1.0).Get(CurrentAccount).balance < 0.0
  {
  }

  // ---------------------------------------------------------------------
  // Persistence: the stored snapshot and the start-up loader

  /** What the loader finds under the storage key `account_balances`. */
  datatype Stored =
    | NothingStored   // no entry, or an empty string
    | Unparseable     // JSON.parse (or reading a field of its result) throws
    | Snapshot(pensionBalance: Option<real>, savingsBalance: Option<real>, currentAccountBalance: Option<real>)
  {
    /** The stored field for `k`; `None` when the field is absent. */
    function Field(k: AccountType): Option<real>
      requires Snapshot?
    {
      match k
      case Pension => pensionBalance
      case Savings => savingsBalance
      case CurrentAccount => currentAccountBalance
    }
  }

  /** `stored || default`: an absent field or a zero falls back to the default. */
  function OrDefault(stored: Option<real>, default: real): (r: real)
    ensures stored.Some? && stored.value != 0.0 ==> r == stored.value
    ensures stored.None? || stored.value == 0.0 ==> r == default
    ensures default != 0.0 ==> r != 0.0
  {
    match stored
    case Some(x) => if x != 0.0 then x else default
    case None => default
  }

  /** The object the persistence effect writes after every change. */
  function SnapshotOf(a: Accounts): (s: Stored)
    ensures s.Snapshot?
    ensures forall k :: s.Field(k) == Some(a.Get(k).balance)
  {
    Snapshot(Some(a.pension.balance), Some(a.savings.balance), Some(a.currentAccount.balance))
  }

  /** The lazy initial state of the provider. */
  function Load(stored: Stored): (r: Accounts)
    ensures WellFormed(r) && SameMetadata(r, InitialAccounts)
    ensures forall k :: r.Get(k).balance != 0.0
    ensures !stored.Snapshot? ==> r == InitialAccounts
  {
    match stored
    case Snapshot(p, s, c) =>
      InitialAccounts.(
        pension := InitialAccounts.pension.(balance := OrDefault(p, InitialAccounts.pension.balance)),
        savings := InitialAccounts.savings.(balance := OrDefault(s, InitialAccounts.savings.balance)),
        currentAccount := InitialAccounts.currentAccount.(balance := OrDefault(c, InitialAccounts.currentAccount.balance)))
    case _ => InitialAccounts
  }

  lemma LoadWithoutDataGivesDefaults()
    ensures Load(NothingStored) == Load(Unparseable) == InitialAccounts
    ensures Load(NothingStored).Get(Pension).balance == 48750.0
    ensures Load(NothingStored).Get(Savings).balance == 16250.0
    ensures Load(NothingStored).Get(CurrentAccount).balance == 74500.0
  {
  }

  /** Field by field, the loader takes a truthy stored balance and otherwise the default. */
  lemma LoadFieldByField(stored: Stored, k: AccountType)
    requires stored.Snapshot?
    ensures Load(stored).Get(k).balance == OrDefault(stored.Field(k), InitialAccounts.Get(k).balance)
  {
  }

  /** Reloading what the effect persisted restores the record when no balance is zero. */
  lemma {:induction false} LoadRestoresSnapshot(a: Accounts)
    requires WellFormed(a) && SameMetadata(a, InitialAccounts)
    requires forall k :: a.Get(k).balance != 0.0
    ensures Load(SnapshotOf(a)) == a
  {
    var r := Load(SnapshotOf(a));
    forall k ensures r.Get(k) == a.Get(k) {
      assert SameButBalance(r.Get(k), InitialAccounts.Get(k));
      assert SameButBalance(a.Get(k), InitialAccounts.Get(k));
      LoadFieldByField(SnapshotOf(a), k);
    }
    assert r.pension == a.pension by { assert r.Get(Pension) == a.Get(Pension); }
    assert r.savings == a.savings by { assert r.Get(Savings) == a.Get(Savings); }
    assert r.currentAccount == a.currentAccount by { assert r.Get(CurrentAccount) == a.Get(CurrentAccount); }
  }

  /** A persisted zero balance is not restored: the default comes back instead. */
  lemma LoadForgetsZero(a: Accounts, k: AccountType)
    requires a.Get(k).balance == 0.0
    ensures Load(SnapshotOf(a)).Get(k).balance == InitialAccounts.Get(k).balance
    ensures Load(SnapshotOf(a)) != a
  {
  }

  // ---------------------------------------------------------------------
  // The provider's state

  /**
   * The provider: `accounts` is the held React state and `persisted` the
   * value last written under the storage key by the persistence effect.
   */
  class Store {
    var accounts: Accounts
    var persisted: Stored

    /** Keys, metadata and the persisted mirror are what every change keeps. */
    ghost predicate Valid()
      reads this
    {
      WellFormed(accounts) && SameMetadata(accounts, InitialAccounts) && persisted == SnapshotOf(accounts)
    }

    /** Mounting: load from storage, then the effect persists the loaded balances. */
    constructor (stored: Stored)
      ensures Valid()
      ensures accounts == Load(stored)
      ensures persisted == SnapshotOf(Load(stored))
    {
      accounts := Load(stored);
      persisted := SnapshotOf(Load(stored));
    }

    method UpdateBalance(id: AccountType, newBalance: real)
      requires Valid()
      modifies this
      ensures Valid()
      ensures accounts == UpdateBalanceOf(old(accounts), id, newBalance)
      ensures persisted == SnapshotOf(accounts)
    {
      accounts := UpdateBalanceOf(accounts, id, newBalance);
      persisted := SnapshotOf(accounts);
    }

    method TransferFunds(from: AccountType, to: AccountType, amount: real)
      requires Valid()
      modifies this
      ensures Valid()
      ensures accounts == TransferOf(old(accounts), from, to, amount)
      ensures persisted == SnapshotOf(accounts)
    {
      accounts := TransferOf(accounts, from, to, amount);
      persisted := SnapshotOf(accounts);
    }

    method GetAccount(id: AccountType) returns (a: Account)
      requires Valid()
      ensures a.id == id
      ensures a == accounts.Get(id)
    {
      a := accounts.Get(id);
    }
  }
}
