/** The client-side store the pages share (`BankingProvider`): a list of accounts
    seeded with three demo accounts, a list of transactions, and the two operations
    that change them. Amounts are in paise. */
module BankingContext {
  import opened Common
  import opened Seqs

  datatype Account = Account(
    id: int, name: string, number: string, kind: string, balance: int,
    available: Option<int>, creditLimit: Option<int>)

  datatype Txn = Txn(
    id: string, date: int, description: string, amount: int, kind: string,
    status: string, category: string, reference: string, account: string)

  /** What `addTransaction` is given: a transaction without `id` and `reference`. */
  datatype NewTxn = NewTxn(
    date: int, description: string, amount: int, kind: string, status: string,
    category: string, account: string)

  /** The demo accounts the provider starts with. */
  function Seed(): seq<Account> {
    [ Account(1, "Main Account", "\U{2022}\U{2022}\U{2022}\U{2022} 7890", "Savings", 12500050, Some(12000000), None),
      Account(2, "Salary Account", "\U{2022}\U{2022}\U{2022}\U{2022} 4321", "Salary", 35000075, Some(35000075), None),
      Account(3, "Credit Card", "\U{2022}\U{2022}\U{2022}\U{2022} 5678", "Credit Card", -1250030, Some(8750000), Some(10000000)) ]
  }

  ghost predicate UniqueIds(accs: seq<Account>) {
    forall i, j :: 0 <= i < j < |accs| ==> accs[i].id != accs[j].id
  }

  /** One account after `updateAccount(id, b)`: the new balance, and `available`
      recomputed as `b - (creditLimit || 0)`, when the id matches. */
  function Renewed(a: Account, id: int, b: int): Account {
    if a.id == id then a.(balance := b, available := Some(b - a.creditLimit.GetOr(0))) else a
  }

  /** `accounts.map(...)` of `updateAccount`. */
  function WithNewBalance(accs: seq<Account>, id: int, b: int): (r: seq<Account>)
    ensures |r| == |accs|
  {
    seq(|accs|, k requires 0 <= k < |accs| => Renewed(accs[k], id, b))
  }

  /** `updateAccount` changes only the accounts with that id: their balance becomes b
      and their `available` b minus the credit limit; every other field and every
      other account stays as it was. */
  lemma {:induction false} WithNewBalanceAt(accs: seq<Account>, id: int, b: int, k: nat)
    requires k < |accs|
    ensures accs[k].id == id ==>
      WithNewBalance(accs, id, b)[k] ==
      accs[k].(balance := b, available := Some(b - accs[k].creditLimit.GetOr(0)))
    ensures accs[k].id != id ==> WithNewBalance(accs, id, b)[k] == accs[k]
  {
  }

  predicate HasId(id: int, a: Account) {
    a.id == id
  }

  predicate HasNumber(number: string, a: Account) {
    a.number == number
  }

  /** `getAccountById`: the position of the first account with the id, if any. */
  function AccountById(accs: seq<Account>, id: int): (r: Option<nat>)
    ensures r.Some? ==> r.value < |accs| && accs[r.value].id == id
    ensures r.Some? ==> forall k :: 0 <= k < r.value ==> accs[k].id != id
    ensures r.None? ==> forall k :: 0 <= k < |accs| ==> accs[k].id != id
  {
    FindFirst(accs, a => HasId(id, a))
  }

  /** `accounts.find(acc => acc.number === number)` */
  function AccountByNumber(accs: seq<Account>, number: string): (r: Option<nat>)
    ensures r.Some? ==> r.value < |accs| && accs[r.value].number == number
    ensures r.Some? ==> forall k :: 0 <= k < r.value ==> accs[k].number != number
    ensures r.None? ==> forall k :: 0 <= k < |accs| ==> accs[k].number != number
  {
    FindFirst(accs, a => HasNumber(number, a))
  }

  /** The balance `addTransaction` computes: 'credit' adds the amount, any other type
      subtracts it, whatever the current balance. */
  function Moved(a: Account, t: NewTxn): int {
    if t.kind == "credit" then a.balance + t.amount else a.balance - t.amount
  }

  /** The stored transaction: the input, with id and reference made from the clock. */
  function Stamped(t: NewTxn, now: nat): (e: Txn)
    ensures e.id == NatToString(now) && e.reference == Reference(now)
    ensures e.date == t.date && e.description == t.description && e.amount == t.amount
    ensures e.kind == t.kind && e.status == t.status && e.category == t.category && e.account == t.account
  {
    Txn(NatToString(now), t.date, t.description, t.amount, t.kind, t.status, t.category, Reference(now), t.account)
  }

  /** The accounts after `addTransaction(t)`: the first account carrying the entry's
      number is given its moved balance, by id; with no such account nothing changes. */
  function Posted(accs: seq<Account>, t: NewTxn): seq<Account> {
    match AccountByNumber(accs, t.account)
    case None => accs
    case Some(i) => WithNewBalance(accs, accs[i].id, Moved(accs[i], t))
  }

  function Total(accs: seq<Account>): int {
    if accs == [] then 0 else accs[0].balance + Total(accs[1..])
  }

  class Banking {
    var accounts: seq<Account>
    var transactions: seq<Txn>

    /** The store's invariant: no two accounts share an id, so `updateAccount`
        addresses at most one of them. */
    ghost predicate Valid()
      reads this
    {
      UniqueIds(accounts)
    }

    /** The provider's initial state; `saved` stands for the transactions restored from
        browser storage. */
    constructor (saved: seq<Txn>)
      ensures accounts == Seed() && transactions == saved
      ensures Valid()
    {
      accounts := Seed();
      transactions := saved;
    }

    method UpdateAccount(accountId: int, newBalance: int)
      modifies this`accounts
      ensures accounts == WithNewBalance(old(accounts), accountId, newBalance)
      ensures old(Valid()) ==> Valid()
    {
      if Valid() {
        WithNewBalanceKeepsIds(accounts, accountId, newBalance);
      }
      accounts := WithNewBalance(accounts, accountId, newBalance);
    }

    /** Prepends the stamped entry and moves the balance of the account with the
        entry's number, if there is one; returns the stamped entry. The provider reads
        the accounts of its last render; for one call between renders those are the
        current `accounts`, which is what this method reads. */
    method AddTransaction(t: NewTxn, now: nat) returns (e: Txn)
      modifies this
      ensures e == Stamped(t, now)
      ensures transactions == [e] + old(transactions)
      ensures accounts == Posted(old(accounts), t)
      ensures old(Valid()) ==> Valid()
    {
      e := Stamped(t, now);
      transactions := [e] + transactions;
      var found := AccountByNumber(accounts, t.account);
      if found.Some? {
        var account := accounts[found.value];
        UpdateAccount(account.id, Moved(account, t));
      }
    }

    /** `accounts.find(a => a.id === id)`: the first stored account with the id. */
    function GetAccountById(id: int): (r: Option<Account>)
      reads this
      ensures r.Some? <==> exists k :: 0 <= k < |accounts| && accounts[k].id == id
      ensures r.Some? ==> r.value.id == id
      ensures r.Some? ==>
        exists k :: 0 <= k < |accounts| && r.value == accounts[k] && forall j :: 0 <= j < k ==> accounts[j].id != id
    {
      match AccountById(accounts, id)
      case None => None
      case Some(i) => Some(accounts[i])
    }
  }

  /** The update keeps every id, so ids stay unique. */
  lemma {:induction false} WithNewBalanceKeepsIds(accs: seq<Account>, id: int, b: int)
    requires UniqueIds(accs)
    ensures UniqueIds(WithNewBalance(accs, id, b))
  {
    var r := WithNewBalance(accs, id, b);
    forall i, j | 0 <= i < j < |r| ensures r[i].id != r[j].id {
      assert r[i].id == accs[i].id && r[j].id == accs[j].id;
    }
  }

  /** With unique ids, posting an entry whose number the i-th account carries first
      moves that account's balance by exactly the amount (up for a credit, down
      otherwise, with no funds check) and leaves every other account unchanged. */
  lemma {:induction false} PostingMovesOneAccount(accs: seq<Account>, t: NewTxn, i: nat)
    requires UniqueIds(accs) && AccountByNumber(accs, t.account) == Some(i)
    ensures |Posted(accs, t)| == |accs|
    ensures Posted(accs, t)[i].balance == accs[i].balance + (if t.kind == "credit" then t.amount else -t.amount)
    ensures forall k :: 0 <= k < |accs| && k != i ==> Posted(accs, t)[k] == accs[k]
  {
    forall k | 0 <= k < |accs| && k != i ensures Posted(accs, t)[k] == accs[k] {
      WithNewBalanceAt(accs, accs[i].id, Moved(accs[i], t), k);
      if k < i {
        assert accs[k].id != accs[i].id;
      } else {
        assert accs[i].id != accs[k].id;
      }
    }
  }

  /** An entry naming no account's number moves no balance (it is still logged). */
  lemma {:induction false} PostingUnknownNumber(accs: seq<Account>, t: NewTxn)
    requires forall k :: 0 <= k < |accs| ==> accs[k].number != t.account
    ensures Posted(accs, t) == accs
  {
  }

  /** Two lists that differ at most at position i differ in total by the difference there. */
  lemma {:induction false} TotalDiffersAt(s: seq<Account>, t: seq<Account>, i: nat)
    requires |s| == |t| && i < |s|
    requires forall k :: 0 <= k < |s| && k != i ==> s[k].balance == t[k].balance
    ensures Total(t) == Total(s) - s[i].balance + t[i].balance
  {
    if i == 0 {
      TotalSame(s[1..], t[1..]);
    } else {
      TotalDiffersAt(s[1..], t[1..], i - 1);
    }
  }

  lemma {:induction false} TotalSame(s: seq<Account>, t: seq<Account>)
    requires |s| == |t| && forall k :: 0 <= k < |s| ==> s[k].balance == t[k].balance
    ensures Total(t) == Total(s)
  {
    if s != [] {
      TotalSame(s[1..], t[1..]);
    }
  }

  /** Posting moves the total of all balances by the entry's signed amount when an
      account carries its number, and not at all otherwise. */
  lemma {:induction false} PostingTotal(accs: seq<Account>, t: NewTxn)
    requires UniqueIds(accs)
    ensures Total(Posted(accs, t)) ==
      Total(accs) + (if AccountByNumber(accs, t.account).None? then 0
                     else if t.kind == "credit" then t.amount else -t.amount)
  {
    match AccountByNumber(accs, t.account)
    case None =>
    case Some(i) =>
      PostingMovesOneAccount(accs, t, i);
      TotalDiffersAt(accs, Posted(accs, t), i);
  }
}
