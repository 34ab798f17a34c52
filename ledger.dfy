/**
 * The transaction list queries shared by the account detail, transactions
 * and budgeting screens: keep the transactions of one account, then sort
 * them newest first with a stable sort.
 */
module Ledger {
  import opened AccountContext

  /** A transaction record; `date` is the timestamp in milliseconds (`date.getTime()`). */
  datatype Transaction = Transaction(id: nat, account: AccountType, kind: string, amount: real, date: int)

  /** `txs.filter(t => t.account === account)` */
  function OfAccount(txs: seq<Transaction>, account: AccountType): (r: seq<Transaction>)
    ensures forall t :: t in r <==> t in txs && t.account == account
    ensures |r| <= |txs|
  {
    if txs == [] then []
    else
      assert txs == [txs[0]] + txs[1..];
      (if txs[0].account == account then [txs[0]] else []) + OfAccount(txs[1..], account)
  }

  /** The filter keeps each of the account's entries as often as it occurs, and no other entry. */
  lemma {:induction false} OfAccountCounts(txs: seq<Transaction>, account: AccountType)
    ensures forall t :: multiset(OfAccount(txs, account))[t] == if t.account == account then multiset(txs)[t] else 0
  {
    if txs != [] {
      assert txs == [txs[0]] + txs[1..];
      OfAccountCounts(txs[1..], account);
    }
  }

  /** Filtering keeps the input order: within one date, the account's entries come in the order of the whole list. */
  lemma {:induction false} OfAccountKeepsOrder(txs: seq<Transaction>, account: AccountType, d: int)
    ensures DatedAt(OfAccount(txs, account), d) == OfAccount(DatedAt(txs, d), account)
  {
    if txs != [] {
      OfAccountKeepsOrder(txs[1..], account, d);
      var head := if txs[0].account == account then [txs[0]] else [];
      DatedAtAppend(head, OfAccount(txs[1..], account), d);
      var dated := if txs[0].date == d then [txs[0]] else [];
      OfAccountAppend(dated, DatedAt(txs[1..], d), account);
    }
  }

  lemma {:induction false} DatedAtAppend(a: seq<Transaction>, b: seq<Transaction>, d: int)
    ensures DatedAt(a + b, d) == DatedAt(a, d) + DatedAt(b, d)
  {
    if a != [] {
      assert (a + b)[1..] == a[1..] + b;
      DatedAtAppend(a[1..], b, d);
    } else {
      assert a + b == b;
    }
  }

  lemma {:induction false} OfAccountAppend(a: seq<Transaction>, b: seq<Transaction>, account: AccountType)
    ensures OfAccount(a + b, account) == OfAccount(a, account) + OfAccount(b, account)
  {
    if a != [] {
      var h := if a[0].account == account then [a[0]] else [];
      assert (a + b)[0] == a[0] && (a + b)[1..] == a[1..] + b;
      calc {
        OfAccount(a + b, account);
        h + OfAccount(a[1..] + b, account);
        { OfAccountAppend(a[1..], b, account); }
        h + (OfAccount(a[1..], account) + OfAccount(b, account));
        (h + OfAccount(a[1..], account)) + OfAccount(b, account);
        OfAccount(a, account) + OfAccount(b, account);
      }
    } else {
      assert a + b == b;
    }
  }

  /** Newest first: no entry is dated after an entry before it. */
  predicate NewestFirst(s: seq<Transaction>) {
    forall i, j :: 0 <= i < j < |s| ==> s[i].date >= s[j].date
  }

  /** The entries of `s` dated `d`, in the order of `s`. */
  function DatedAt(s: seq<Transaction>, d: int): seq<Transaction> {
    if s == [] then []
    else (if s[0].date == d then [s[0]] else []) + DatedAt(s[1..], d)
  }

  /**
   * Inserts `x` in front of the first entry not newer than it, so that `x`
   * stays ahead of every entry with the same date.
   */
  function Insert(x: Transaction, s: seq<Transaction>): (r: seq<Transaction>)
    ensures multiset(r) == multiset(s) + multiset{x}
    ensures forall y :: y in r <==> y == x || y in s
  {
    if s == [] then [x]
    else if s[0].date <= x.date then [x] + s
    else
      assert s == [s[0]] + s[1..];
      [s[0]] + Insert(x, s[1..])
  }

  lemma {:induction false} InsertKeepsNewestFirst(x: Transaction, s: seq<Transaction>)
    requires NewestFirst(s)
    ensures NewestFirst(Insert(x, s))
  {
    if s != [] && s[0].date > x.date {
      var rest := Insert(x, s[1..]);
      InsertKeepsNewestFirst(x, s[1..]);
      assert forall y :: y in s[1..] ==> s[0].date >= y.date by {
        forall y | y in s[1..] ensures s[0].date >= y.date {
          var j :| 0 <= j < |s[1..]| && s[1..][j] == y;
          assert s[j + 1] == y;
        }
      }
      var r := [s[0]] + rest;
      assert Insert(x, s) == r;
      forall i, j | 0 <= i < j < |r| ensures r[i].date >= r[j].date {
        if i == 0 {
          assert r[j] in rest;
        } else {
          assert r[i] == rest[i - 1] && r[j] == rest[j - 1];
        }
      }
    }
  }

  /**
   * `sort((a, b) => b.date.getTime() - a.date.getTime())`: a stable sort
   * (Array.prototype.sort, ECMA-262 2019 edition, section 22.1.3.27),
   * written as an insertion sort from the back of the list.
   */
  function SortNewestFirst(s: seq<Transaction>): (r: seq<Transaction>)
    ensures NewestFirst(r)
    ensures multiset(r) == multiset(s)
    ensures |r| == |s|
  {
    if s == [] then []
    else
      assert s == [s[0]] + s[1..];
      InsertKeepsNewestFirst(s[0], SortNewestFirst(s[1..]));
      Insert(s[0], SortNewestFirst(s[1..]))
  }

  lemma DatedAtCons(y: Transaction, s: seq<Transaction>, d: int)
    ensures DatedAt([y] + s, d) == (if y.date == d then [y] else []) + DatedAt(s, d)
  {
  }

  lemma {:induction false} InsertKeepsTieOrder(x: Transaction, s: seq<Transaction>, d: int)
    ensures DatedAt(Insert(x, s), d) == (if x.date == d then [x] else []) + DatedAt(s, d)
  {
    if s == [] {
      DatedAtCons(x, s, d);
    } else if s[0].date <= x.date {
      DatedAtCons(x, s, d);
    } else {
      InsertKeepsTieOrder(x, s[1..], d);
      DatedAtCons(s[0], Insert(x, s[1..]), d);
      assert s == [s[0]] + s[1..];
      DatedAtCons(s[0], s[1..], d);
    }
  }

  /** Stability: entries with equal dates keep their relative order. */
  lemma {:induction false} SortIsStable(s: seq<Transaction>, d: int)
    ensures DatedAt(SortNewestFirst(s), d) == DatedAt(s, d)
  {
    if s != [] {
      SortIsStable(s[1..], d);
      InsertKeepsTieOrder(s[0], SortNewestFirst(s[1..]), d);
    }
  }

  /** The list every transaction screen shows for `account`. */
  function AccountTransactions(txs: seq<Transaction>, account: AccountType): (r: seq<Transaction>)
    ensures forall t :: t in r <==> t in txs && t.account == account
    ensures multiset(r) == multiset(OfAccount(txs, account))
    ensures NewestFirst(r)
  {
    var r := SortNewestFirst(OfAccount(txs, account));
    assert forall t :: t in r <==> t in multiset(r);
    r
  }

  /** Among the listed entries, those of one date appear in the order of the whole transaction list. */
  lemma ListedTiesKeepOrder(txs: seq<Transaction>, account: AccountType, d: int)
    ensures DatedAt(AccountTransactions(txs, account), d) == DatedAt(OfAccount(txs, account), d)
    ensures DatedAt(AccountTransactions(txs, account), d) == OfAccount(DatedAt(txs, d), account)
  {
    SortIsStable(OfAccount(txs, account), d);
    OfAccountKeepsOrder(txs, account, d);
  }

  // ---------------------------------------------------------------------
  // Amount cells: a sign prefix followed by `Math.abs(amount)`

  /** `Math.abs` */
  function Abs(x: real): (r: real)
    ensures r >= 0.0 && (r == x || r == -x)
  {
    if x < 0.0 then -x else x
  }

  /** The amount a reader takes from a sign prefix and a magnitude. */
  function SignedValue(prefix: string, magnitude: real): real {
    if prefix == "+ " then magnitude else -magnitude
  }
}
