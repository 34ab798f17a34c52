/** The budgeting screen: spending categories of one account and its five most recent transactions. */
module BudgetingPage {
  import opened AccountContext
  import opened Ledger
  import TransactionsPage

  /** The selector offers savings and the current account only. */
  type BudgetAccount = a: AccountType | a != Pension witness CurrentAccount

  const DefaultSelection: BudgetAccount := CurrentAccount

  /** A spending category; `when` is its date caption. */
  datatype Category = Category(id: string, name: string, when: string, spent: real, target: real, color: string)

  /** `budgetCategories[account]` */
  function Categories(account: BudgetAccount): (cs: seq<Category>)
    ensures |cs| == if account == Savings then 2 else 3
    ensures DistinctIds(cs)
  {
    match account
    case Savings => [
      Category("new-car", "New car", "May 2028", 6050.0, 12000.0, "#A488F5"),
      Category("home-renovation", "Home renovation", "March 2027", 10200.0, 25000.0, "#C7B6FB")]
    case CurrentAccount => [
      Category("groceries", "Groceries", "This month", 250.0, 500.0, "#E4B33D"),
      Category("restaurants", "Restaurants", "This month", 125.0, 200.0, "#ECCA77"),
      Category("entertainment", "Entertainment", "This month", 135.0, 300.0, "#F4E1B1")]
  }

  // ---------------------------------------------------------------------
  // totalSpent

  /** `cs.reduce((sum, cat) => sum + cat.spent, acc)`: a fold from the left. */
  function SpentFrom(acc: real, cs: seq<Category>): real
    decreases |cs|
  {
    if cs == [] then acc else SpentFrom(acc + cs[0].spent, cs[1..])
  }

  /** The sum of `spent` over the categories. */
  function Spent(cs: seq<Category>): real {
    if cs == [] then 0.0 else cs[0].spent + Spent(cs[1..])
  }

  lemma {:induction false} SpentFromIsSum(acc: real, cs: seq<Category>)
    ensures SpentFrom(acc, cs) == acc + Spent(cs)
    decreases |cs|
  {
    if cs != [] {
      SpentFromIsSum(acc + cs[0].spent, cs[1..]);
    }
  }

  /** `totalSpent` */
  function TotalSpent(account: BudgetAccount): (r: real)
    ensures r == Spent(Categories(account))
    ensures account == CurrentAccount ==> r == 510.0
    ensures account == Savings ==> r == 16250.0
  {
    var cs := Categories(account);
    SpentFromIsSum(0.0, cs);
    assert Spent(cs[|cs| - 1..]) == cs[|cs| - 1].spent;
    assert |cs| == 3 ==> Spent(cs[1..]) == cs[1].spent + Spent(cs[2..]);
    SpentFrom(0.0, cs)
  }

  // ---------------------------------------------------------------------
  // Percentages

  /** `(category.spent / category.target) * 100` */
  function Percentage(c: Category): (p: real)
    requires c.target != 0.0
    ensures c.target > 0.0 && 0.0 <= c.spent <= c.target ==> 0.0 <= p <= 100.0
    ensures c.target > 0.0 && c.spent == c.target ==> p == 100.0
  {
    c.spent / c.target * 100.0
  }

  /** Every fixed category has a positive target and is under it, so its percentage lies in 0..100. */
  lemma CategoriesWithinTarget(account: BudgetAccount)
    ensures forall c :: c in Categories(account) ==> 0.0 < c.target && 0.0 <= c.spent <= c.target
  {
  }

  // ---------------------------------------------------------------------
  // chartConfig

  datatype ChartEntry = ChartEntry(caption: string, color: string)

  /** `cs.reduce((config, cat) => { config[cat.id] = { label, color }; return config }, config)` */
  function ConfigFrom(config: map<string, ChartEntry>, cs: seq<Category>): map<string, ChartEntry>
    decreases |cs|
  {
    if cs == [] then config
    else ConfigFrom(config[cs[0].id := ChartEntry(cs[0].name, cs[0].color)], cs[1..])
  }

  /** The ids of the categories. */
  function Ids(cs: seq<Category>): (r: set<string>)
    ensures forall i :: 0 <= i < |cs| ==> cs[i].id in r
    ensures forall id :: id in r ==> exists i :: 0 <= i < |cs| && cs[i].id == id
  {
    if cs == [] then {} else {cs[0].id} + Ids(cs[1..])
  }

  predicate DistinctIds(cs: seq<Category>) {
    forall i, j :: 0 <= i < j < |cs| ==> cs[i].id != cs[j].id
  }

  lemma {:induction false} ConfigFromKeys(config: map<string, ChartEntry>, cs: seq<Category>)
    ensures ConfigFrom(config, cs).Keys == config.Keys + Ids(cs)
    decreases |cs|
  {
    if cs != [] {
      ConfigFromKeys(config[cs[0].id := ChartEntry(cs[0].name, cs[0].color)], cs[1..]);
    }
  }

  /** An id no category carries keeps its entry. */
  lemma {:induction false} ConfigFromKeeps(config: map<string, ChartEntry>, cs: seq<Category>, id: string)
    requires id in config && id !in Ids(cs)
    ensures id in ConfigFrom(config, cs) && ConfigFrom(config, cs)[id] == config[id]
    decreases |cs|
  {
    if cs != [] {
      ConfigFromKeeps(config[cs[0].id := ChartEntry(cs[0].name, cs[0].color)], cs[1..], id);
    }
  }

  /** With distinct ids, every category's entry is its own name and colour. */
  lemma {:induction false} ConfigFromEntries(config: map<string, ChartEntry>, cs: seq<Category>, i: nat)
    requires DistinctIds(cs) && i < |cs|
    ensures cs[i].id in ConfigFrom(config, cs)
    ensures ConfigFrom(config, cs)[cs[i].id] == ChartEntry(cs[i].name, cs[i].color)
    decreases |cs|
  {
    var next := config[cs[0].id := ChartEntry(cs[0].name, cs[0].color)];
    var rest := cs[1..];
    assert DistinctIds(rest) by {
      forall a, b | 0 <= a < b < |rest| ensures rest[a].id != rest[b].id {
        assert rest[a] == cs[a + 1] && rest[b] == cs[b + 1];
      }
    }
    if i == 0 {
      assert forall j :: 0 <= j < |rest| ==> rest[j] == cs[j + 1];
      ConfigFromKeeps(next, rest, cs[0].id);
    } else {
      assert cs[i] == rest[i - 1];
      ConfigFromEntries(next, rest, i - 1);
    }
  }

  /** `chartConfig`: one entry per category id of the selected account. */
  function ChartConfig(account: BudgetAccount): (m: map<string, ChartEntry>)
    ensures m.Keys == Ids(Categories(account))
    ensures forall i :: 0 <= i < |Categories(account)| ==>
      m[Categories(account)[i].id] == ChartEntry(Categories(account)[i].name, Categories(account)[i].color)
  {
    var cs := Categories(account);
    ConfigFromKeys(map[], cs);
    forall i | 0 <= i < |cs| ensures ConfigFrom(map[], cs)[cs[i].id] == ChartEntry(cs[i].name, cs[i].color) {
      ConfigFromEntries(map[], cs, i);
    }
    ConfigFrom(map[], cs)
  }

  // ---------------------------------------------------------------------
  // The recent transactions

  /** `filteredTransactions`: filter, sort newest first, `slice(0, 5)`. */
  function RecentTransactions(txs: seq<Transaction>, account: BudgetAccount): (r: seq<Transaction>)
    ensures |r| <= 5 && |r| <= |AccountTransactions(txs, account)|
    ensures r == AccountTransactions(txs, account)[..|r|]
    ensures |r| == 5 || r == AccountTransactions(txs, account)
    ensures NewestFirst(r)
    ensures forall t :: t in r ==> t in txs && t.account == account
  {
    var all := AccountTransactions(txs, account);
    if |all| <= 5 then
      assert all[..|all|] == all;
      all
    else
      all[..5]
  }

  /** "No transactions yet" is shown exactly when the account has no transaction at all. */
  lemma EmptyRecentIffNoTransactions(txs: seq<Transaction>, account: BudgetAccount)
    ensures RecentTransactions(txs, account) == [] <==> forall t :: t in txs ==> t.account != account
  {
  }

  // ---------------------------------------------------------------------
  // Labels

  /** `getTransactionLabel` of this screen: an unknown kind is shown as it is. */
  function TransactionLabel(kind: string): (caption: string)
    ensures kind !in {"withdrawal", "topup", "transfer"} ==> caption == kind
    ensures caption != "" <==> kind != ""
  {
    if kind == "withdrawal" then "Withdrawal"
    else if kind == "topup" then "Top up"
    else if kind == "transfer" then "Transfer"
    else kind
  }

  /** The two screens label the known kinds alike and differ only on unknown kinds. */
  lemma LabelsAgreeOnKnownKinds(kind: string)
    ensures kind in {"withdrawal", "topup", "transfer"} ==> TransactionLabel(kind) == TransactionsPage.TransactionLabel(kind)
    ensures kind !in {"withdrawal", "topup", "transfer"} ==>
      TransactionLabel(kind) == kind && TransactionsPage.TransactionLabel(kind) == ""
  {
  }
}
