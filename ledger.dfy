/** The hosted tables the API routes read and write (`accounts`, `transactions`,
    `fixed_deposits`, `credit_cards`, `users`), held in memory, with the only
    operations the routes use on them: `.select().eq(column, value).single()`,
    `.update({ balance }).eq(column, value)` and `.insert(rows)`. Each write
    takes a `succeeds` flag: a failed call changes nothing and reports an
    error, a successful one applies in full. */
module Ledger {
  import opened Common

  /** A row of `accounts`. */
  datatype AccountRow = AccountRow(
    id: string, userId: string, name: string, number: string, kind: string,
    balance: int, creditLimit: Option<int>)

  /** A row of `transactions`; optional columns are None when a route leaves them out. */
  datatype Entry = Entry(
    accountId: Option<string>, account: string, amount: int, description: Option<string>,
    kind: string, date: int, status: string, category: Option<string>, reference: Option<string>)

  /** The columns of a fixed deposit that the route copies from the request unchanged. */
  datatype FdTerms = FdTerms(
    interestRate: Option<real>, interestPayout: Option<string>, startDate: Option<int>,
    maturityDate: Option<int>, nominee: Option<string>)

  /** A row of `fixed_deposits`. */
  datatype FdRow = FdRow(
    accountNumber: string, amount: int, tenure: int, terms: FdTerms, userId: string,
    fdNumber: string, status: string)

  /** A row of `credit_cards`. */
  datatype CardRow = CardRow(
    userId: string, name: string, kind: string, limit: int, balance: int, available: int,
    number: string, issuedDate: int)

  /** A row of `users`. */
  datatype UserRow = UserRow(
    id: string, email: string, password: string, fullName: string,
    accountNumber: Option<string>, createdAt: int)

  /** The two columns the routes filter `accounts` on. */
  datatype Column = IdColumn | NumberColumn

  function Col(a: AccountRow, c: Column): string {
    match c
    case IdColumn => a.id
    case NumberColumn => a.number
  }

  ghost predicate IdAbsent(accs: seq<AccountRow>, id: string) {
    forall k :: 0 <= k < |accs| ==> accs[k].id != id
  }

  /** `id` is the primary key of `accounts`: no id occurs twice. Stated row by row
      so that the solver only unfolds it where a proof asks for it. */
  ghost predicate UniqueIds(accs: seq<AccountRow>)
    decreases |accs|
  {
    accs == [] || (IdAbsent(accs[1..], accs[0].id) && UniqueIds(accs[1..]))
  }

  /** Row i is the one and only row whose column c equals v. */
  ghost predicate OnlyMatch(accs: seq<AccountRow>, c: Column, v: string, i: nat) {
    i < |accs| && Col(accs[i], c) == v &&
    forall k :: 0 <= k < |accs| && k != i ==> Col(accs[k], c) != v
  }

  /** The first row at or after `from` whose column c equals v. */
  function FirstFrom(accs: seq<AccountRow>, c: Column, v: string, from: nat): (r: Option<nat>)
    decreases |accs| - from
    ensures r.Some? ==> from <= r.value < |accs| && Col(accs[r.value], c) == v
    ensures r.Some? ==> forall k :: from <= k < r.value ==> Col(accs[k], c) != v
    ensures r.None? ==> forall k :: from <= k < |accs| ==> Col(accs[k], c) != v
  {
    if from >= |accs| then None
    else if Col(accs[from], c) == v then Some(from)
    else FirstFrom(accs, c, v, from + 1)
  }

  /** `.eq(c, v).single()`: the matching row when exactly one row matches;
      PostgREST answers an error for zero or for several rows. */
  function Single(accs: seq<AccountRow>, c: Column, v: string): (r: Option<nat>)
    ensures r.Some? ==> OnlyMatch(accs, c, v, r.value)
    ensures r.None? ==> forall i :: 0 <= i < |accs| ==> !OnlyMatch(accs, c, v, i)
  {
    match FirstFrom(accs, c, v, 0)
    case None => None
    case Some(i) =>
      var later := FirstFrom(accs, c, v, i + 1);
      if later.None? then Some(i)
      else
        var j := later.value;
        assert forall k :: 0 <= k < |accs| ==> !OnlyMatch(accs, c, v, k) by {
          forall k | 0 <= k < |accs| ensures !OnlyMatch(accs, c, v, k) {
            if k == i {
              assert j != i && Col(accs[j], c) == v;
            } else {
              assert Col(accs[i], c) == v;
            }
          }
        }
        None
  }

  /** `.update({ balance: b }).eq(c, v)`: every matching row gets balance b. */
  function WithBalance(accs: seq<AccountRow>, c: Column, v: string, b: int): (r: seq<AccountRow>)
    ensures |r| == |accs|
  {
    if accs == [] then []
    else
      [if Col(accs[0], c) == v then accs[0].(balance := b) else accs[0]] + WithBalance(accs[1..], c, v, b)
  }

  /** The table after an update that may have failed; a failed update changes nothing. */
  function Updated(accs: seq<AccountRow>, succeeds: bool, c: Column, v: string, b: int): seq<AccountRow> {
    if succeeds then WithBalance(accs, c, v, b) else accs
  }

  /** Row k after the update: the new balance where column c equals v, untouched elsewhere. */
  lemma {:induction false} WithBalanceAt(accs: seq<AccountRow>, c: Column, v: string, b: int, k: nat)
    requires k < |accs|
    ensures WithBalance(accs, c, v, b)[k] == if Col(accs[k], c) == v then accs[k].(balance := b) else accs[k]
    ensures WithBalance(accs, c, v, b)[k].id == accs[k].id
    ensures WithBalance(accs, c, v, b)[k].number == accs[k].number
  {
    if k > 0 {
      WithBalanceAt(accs[1..], c, v, b, k - 1);
    }
  }

  function TotalBalance(accs: seq<AccountRow>): int {
    if accs == [] then 0 else accs[0].balance + TotalBalance(accs[1..])
  }

  lemma {:induction false} TotalBalanceAppend(accs: seq<AccountRow>, a: AccountRow)
    ensures TotalBalance(accs + [a]) == TotalBalance(accs) + a.balance
  {
    if accs != [] {
      assert (accs + [a])[1..] == accs[1..] + [a];
      TotalBalanceAppend(accs[1..], a);
    }
  }

  /** Setting the balance of the only matching row moves the total by the difference. */
  lemma {:induction false} TotalAfterWithBalance(accs: seq<AccountRow>, c: Column, v: string, b: int, i: nat)
    requires OnlyMatch(accs, c, v, i)
    ensures TotalBalance(WithBalance(accs, c, v, b)) == TotalBalance(accs) - accs[i].balance + b
  {
    var r := WithBalance(accs, c, v, b);
    assert r[1..] == WithBalance(accs[1..], c, v, b);
    if i == 0 {
      NoMatchUnchanged(accs[1..], c, v, b);
    } else {
      assert OnlyMatch(accs[1..], c, v, i - 1) by {
        forall k | 0 <= k < |accs[1..]| && k != i - 1 ensures Col(accs[1..][k], c) != v {
          assert accs[1..][k] == accs[k + 1];
        }
      }
      TotalAfterWithBalance(accs[1..], c, v, b, i - 1);
    }
  }

  lemma {:induction false} NoMatchUnchanged(accs: seq<AccountRow>, c: Column, v: string, b: int)
    requires forall k :: 0 <= k < |accs| ==> Col(accs[k], c) != v
    ensures WithBalance(accs, c, v, b) == accs
  {
    if accs != [] {
      assert forall k :: 0 <= k < |accs[1..]| ==> Col(accs[1..][k], c) != v by {
        forall k | 0 <= k < |accs[1..]| ensures Col(accs[1..][k], c) != v {
          assert accs[1..][k] == accs[k + 1];
        }
      }
      NoMatchUnchanged(accs[1..], c, v, b);
      assert accs == [accs[0]] + accs[1..];
    }
  }

  /** With unique ids, an account is the only match for its own id. */
  lemma {:induction false} OnlyMatchOwnId(accs: seq<AccountRow>, i: nat)
    requires UniqueIds(accs) && i < |accs|
    ensures OnlyMatch(accs, IdColumn, accs[i].id, i)
  {
    if i == 0 {
      forall k | 0 < k < |accs| ensures accs[k].id != accs[0].id {
        assert accs[1..][k - 1] == accs[k];
      }
    } else {
      OnlyMatchOwnId(accs[1..], i - 1);
      assert accs[1..][i - 1] == accs[i];
      forall k | 0 <= k < |accs| && k != i ensures accs[k].id != accs[i].id {
        if k > 0 {
          assert accs[1..][k - 1] == accs[k];
        } else {
          assert accs[1..][i - 1].id != accs[0].id;
        }
      }
    }
  }

  /** Adding a row with an id not yet present keeps ids unique. */
  lemma {:induction false} UniqueIdsAppend(accs: seq<AccountRow>, a: AccountRow)
    requires UniqueIds(accs) && IdAbsent(accs, a.id)
    ensures UniqueIds(accs + [a])
  {
    if accs != [] {
      assert (accs + [a])[1..] == accs[1..] + [a];
      assert IdAbsent(accs[1..], a.id) by {
        forall k | 0 <= k < |accs[1..]| ensures accs[1..][k].id != a.id {
          assert accs[1..][k] == accs[k + 1];
        }
      }
      UniqueIdsAppend(accs[1..], a);
      assert IdAbsent(accs[1..] + [a], accs[0].id) by {
        forall k | 0 <= k < |accs[1..] + [a]| ensures (accs[1..] + [a])[k].id != accs[0].id {
          if k == |accs[1..]| {
            assert accs[0].id != a.id;
          }
        }
      }
    }
  }

  lemma {:induction false} ColIgnoresBalance(a: AccountRow, c: Column, b: int)
    ensures Col(a.(balance := b), c) == Col(a, c)
  {
  }

  /** A balance update changes neither ids nor numbers, so lookups still find the same row. */
  lemma {:induction false} OnlyMatchAfterWithBalance(accs: seq<AccountRow>, c: Column, v: string, b: int, c2: Column, v2: string, i: nat)
    requires OnlyMatch(accs, c2, v2, i)
    ensures OnlyMatch(WithBalance(accs, c, v, b), c2, v2, i)
  {
    var r := WithBalance(accs, c, v, b);
    forall k | 0 <= k < |r| ensures Col(r[k], c2) == Col(accs[k], c2) {
      WithBalanceAt(accs, c, v, b, k);
      ColIgnoresBalance(accs[k], c2, b);
    }
  }

  /** The update keeps every id, so the key stays unique. */
  lemma {:induction false} WithBalanceKeepsIds(accs: seq<AccountRow>, c: Column, v: string, b: int)
    requires UniqueIds(accs)
    ensures UniqueIds(WithBalance(accs, c, v, b))
  {
    if accs != [] {
      var r := WithBalance(accs, c, v, b);
      assert r[1..] == WithBalance(accs[1..], c, v, b);
      WithBalanceKeepsIds(accs[1..], c, v, b);
      assert IdAbsent(r[1..], r[0].id) by {
        WithBalanceAt(accs, c, v, b, 0);
        forall k | 0 <= k < |r[1..]| ensures r[1..][k].id != r[0].id {
          WithBalanceAt(accs[1..], c, v, b, k);
        }
      }
    }
  }

  /** The signed effect the TypeScript routes give an entry: a 'credit' adds, anything else subtracts. */
  function Signed(e: Entry): int {
    if e.kind == "credit" then e.amount else -e.amount
  }

  /** Sum of the signed amounts of the entries that reference the account id. */
  function LoggedFor(es: seq<Entry>, id: string): int {
    if es == [] then 0
    else (if es[0].accountId == Some(id) then Signed(es[0]) else 0) + LoggedFor(es[1..], id)
  }

  lemma {:induction false} LoggedForPair(e0: Entry, e1: Entry, id: string)
    ensures LoggedFor([e0, e1], id) ==
      (if e0.accountId == Some(id) then Signed(e0) else 0) + (if e1.accountId == Some(id) then Signed(e1) else 0)
  {
    assert [e0, e1][1..] == [e1];
    assert [e1][1..] == [];
    assert LoggedFor([e1], id) == (if e1.accountId == Some(id) then Signed(e1) else 0) + LoggedFor([], id);
  }

  /** Sum of the raw amounts of the entries whose `account` column is the number
      (the convention of the legacy transfer route, which stores signed amounts). */
  function RawLoggedFor(es: seq<Entry>, number: string): int {
    if es == [] then 0
    else (if es[0].account == number then es[0].amount else 0) + RawLoggedFor(es[1..], number)
  }

  /** The balance a row had before an operation: 0 for a row the operation created. */
  function BalanceBefore(before: seq<AccountRow>, k: nat): int {
    if k < |before| then before[k].balance else 0
  }

  /** Reconciliation of one operation: every account's balance moved by exactly the
      signed sum of the entries the operation appended for it. */
  ghost predicate Reconciled(before: seq<AccountRow>, after: seq<AccountRow>, appended: seq<Entry>) {
    forall k :: 0 <= k < |after| ==>
      after[k].balance - BalanceBefore(before, k) == LoggedFor(appended, after[k].id)
  }

  /** One entry for an existing account, with the balance moved by its signed amount,
      is a reconciled posting. */
  lemma {:induction false} SinglePostingReconciles(accs: seq<AccountRow>, i: nat, e: Entry)
    requires UniqueIds(accs) && i < |accs| && e.accountId == Some(accs[i].id)
    ensures Reconciled(accs, WithBalance(accs, IdColumn, accs[i].id, accs[i].balance + Signed(e)), [e])
  {
    var b := accs[i].balance + Signed(e);
    var after := WithBalance(accs, IdColumn, accs[i].id, b);
    OnlyMatchOwnId(accs, i);
    forall k | 0 <= k < |after|
      ensures after[k].balance - BalanceBefore(accs, k) == LoggedFor([e], after[k].id)
    {
      WithBalanceAt(accs, IdColumn, accs[i].id, b, k);
      assert [e][1..] == [];
    }
  }

  /** Two rows sharing a number make the number unusable for `.single()` lookups. */
  lemma {:induction false} SharedNumberNotFound(accs: seq<AccountRow>, i: nat, j: nat)
    requires i < |accs| && j < |accs| && i != j && accs[i].number == accs[j].number
    ensures Single(accs, NumberColumn, accs[i].number).None?
  {
    var v := accs[i].number;
    forall k | 0 <= k < |accs| ensures !OnlyMatch(accs, NumberColumn, v, k) {
      if k == i {
        assert Col(accs[j], NumberColumn) == v;
      } else {
        assert Col(accs[i], NumberColumn) == v;
      }
    }
  }

  /** The two columns the routes filter `users` on. */
  datatype UserKey = ByEmail(email: string) | ByAccountNumber(number: string)

  predicate UserMatches(u: UserRow, key: UserKey) {
    match key
    case ByEmail(e) => u.email == e
    case ByAccountNumber(n) => u.accountNumber == Some(n)
  }

  /** Row i is the one and only user matching the key. */
  ghost predicate OnlyUser(users: seq<UserRow>, key: UserKey, i: nat) {
    i < |users| && UserMatches(users[i], key) &&
    forall k :: 0 <= k < |users| && k != i ==> !UserMatches(users[k], key)
  }

  function FirstUserFrom(users: seq<UserRow>, key: UserKey, from: nat): (r: Option<nat>)
    decreases |users| - from
    ensures r.Some? ==> from <= r.value < |users| && UserMatches(users[r.value], key)
    ensures r.Some? ==> forall k :: from <= k < r.value ==> !UserMatches(users[k], key)
    ensures r.None? ==> forall k :: from <= k < |users| ==> !UserMatches(users[k], key)
  {
    if from >= |users| then None
    else if UserMatches(users[from], key) then Some(from)
    else FirstUserFrom(users, key, from + 1)
  }

  /** `.from('users').eq(column, value).single()`: the user when exactly one matches. */
  function SingleUser(users: seq<UserRow>, key: UserKey): (r: Option<nat>)
    ensures r.Some? ==> OnlyUser(users, key, r.value)
    ensures r.None? ==> forall i :: 0 <= i < |users| ==> !OnlyUser(users, key, i)
  {
    match FirstUserFrom(users, key, 0)
    case None => None
    case Some(i) =>
      var later := FirstUserFrom(users, key, i + 1);
      if later.None? then Some(i)
      else
        var j := later.value;
        assert forall k :: 0 <= k < |users| ==> !OnlyUser(users, key, k) by {
          forall k | 0 <= k < |users| ensures !OnlyUser(users, key, k) {
            if k == i {
              assert j != i && UserMatches(users[j], key);
            } else {
              assert UserMatches(users[i], key);
            }
          }
        }
        None
  }

  class Store {
    var accounts: seq<AccountRow>
    var transactions: seq<Entry>
    var fixedDeposits: seq<FdRow>
    var creditCards: seq<CardRow>
    var users: seq<UserRow>

    ghost predicate Valid()
      reads this
    {
      UniqueIds(accounts)
    }

    constructor (accounts: seq<AccountRow>, transactions: seq<Entry>, fixedDeposits: seq<FdRow>,
                 creditCards: seq<CardRow>, users: seq<UserRow>)
      requires UniqueIds(accounts)
      ensures Valid()
      ensures this.accounts == accounts && this.transactions == transactions
      ensures this.fixedDeposits == fixedDeposits && this.creditCards == creditCards && this.users == users
    {
      this.accounts := accounts;
      this.transactions := transactions;
      this.fixedDeposits := fixedDeposits;
      this.creditCards := creditCards;
      this.users := users;
    }

    /** `from('accounts').update({ balance: b }).eq(c, v)` */
    method UpdateBalance(c: Column, v: string, b: int, succeeds: bool)
      requires Valid()
      modifies this`accounts
      ensures Valid()
      ensures accounts == Updated(old(accounts), succeeds, c, v, b)
    {
      if succeeds {
        WithBalanceKeepsIds(accounts, c, v, b);
        accounts := WithBalance(accounts, c, v, b);
      }
    }

    /** `from('transactions').insert(es)`: one statement, all rows or none. */
    method InsertEntries(es: seq<Entry>, succeeds: bool)
      modifies this`transactions
      ensures transactions == if succeeds then old(transactions) + es else old(transactions)
    {
      if succeeds {
        transactions := transactions + es;
      }
    }

    /** `from('accounts').insert(a)`; the database gives the row a fresh id. */
    method InsertAccount(a: AccountRow, succeeds: bool)
      requires Valid()
      requires IdAbsent(accounts, a.id)
      modifies this`accounts
      ensures Valid()
      ensures accounts == if succeeds then old(accounts) + [a] else old(accounts)
    {
      if succeeds {
        UniqueIdsAppend(accounts, a);
        accounts := accounts + [a];
      }
    }

    /** `from('fixed_deposits').insert(fd)` */
    method InsertFixedDeposit(fd: FdRow, succeeds: bool)
      modifies this`fixedDeposits
      ensures fixedDeposits == if succeeds then old(fixedDeposits) + [fd] else old(fixedDeposits)
    {
      if succeeds {
        fixedDeposits := fixedDeposits + [fd];
      }
    }

    /** `from('credit_cards').insert(card)` */
    method InsertCard(card: CardRow, succeeds: bool)
      modifies this`creditCards
      ensures creditCards == if succeeds then old(creditCards) + [card] else old(creditCards)
    {
      if succeeds {
        creditCards := creditCards + [card];
      }
    }

    /** `from('users').insert(u)` */
    method InsertUser(u: UserRow, succeeds: bool)
      modifies this`users
      ensures users == if succeeds then old(users) + [u] else old(users)
    {
      if succeeds {
        users := users + [u];
      }
    }
  }
}
