/** `POST /api/transactions` (TypeScript): records one ledger entry for an account
    named by id and then moves the account's balance by it, in two separate writes. */
module TransactionsRoute {
  import opened Common
  import opened Ledger

  /** The body; `category`, `status` and `date` have defaults when left out. */
  datatype Request = Request(
    accountId: Option<string>, kind: Option<string>, amount: Option<int>, description: Option<string>,
    category: Option<string>, status: Option<string>, date: Option<int>)

  datatype Decision = Go(row: nat) | Stop(status: int, message: string)

  /** The checks before any write. No balance check is made, and for a debit the
      amount may exceed the balance. */
  function Check(accs: seq<AccountRow>, req: Request): (d: Decision)
    ensures d.Go? <==>
      Truthy(req.accountId) && TruthyNum(req.amount) && Truthy(req.kind) &&
      Single(accs, IdColumn, req.accountId.value).Some?
    ensures d.Go? ==> OnlyMatch(accs, IdColumn, req.accountId.value, d.row)
    ensures d.Stop? ==> d.status in {400, 404}
  {
    if !Truthy(req.accountId) || !TruthyNum(req.amount) || !Truthy(req.kind) then
      Stop(400, "account_id, amount and type are required fields.")
    else
      match Single(accs, IdColumn, req.accountId.value)
      case None => Stop(404, "Account not found")
      case Some(i) => Go(i)
  }

  /** Each refusal and the case it answers: a missing field (an amount of 0
      included), then an unknown account; a negative amount goes ahead. */
  lemma {:induction false} CheckOutcomes(accs: seq<AccountRow>, req: Request)
    ensures !(Truthy(req.accountId) && TruthyNum(req.amount) && Truthy(req.kind)) ==>
      Check(accs, req) == Stop(400, "account_id, amount and type are required fields.")
    ensures (Truthy(req.accountId) && TruthyNum(req.amount) && Truthy(req.kind) &&
             Single(accs, IdColumn, req.accountId.value).None?) ==>
      Check(accs, req) == Stop(404, "Account not found")
    ensures req.amount == Some(0) ==> Check(accs, req).Stop?
  {
  }

  /** The entry written: the body's fields with their defaults, the account's number,
      and a reference made from the clock. */
  function NewEntry(acc: AccountRow, req: Request, now: nat): (e: Entry)
    requires TruthyNum(req.amount) && Truthy(req.kind)
    ensures e.accountId == Some(acc.id) && e.account == acc.number
    ensures e.amount == req.amount.value && e.kind == req.kind.value
    ensures e.status == req.status.GetOr("completed") && e.category == Some(req.category.GetOr("General"))
    ensures e.date == req.date.GetOr(now) && e.reference == Some(Reference(now))
  {
    Entry(Some(acc.id), acc.number, req.amount.value, req.description, req.kind.value,
          req.date.GetOr(now), req.status.GetOr("completed"), Some(req.category.GetOr("General")),
          Some(Reference(now)))
  }

  /** `type === 'credit'` adds the amount; every other type subtracts it. */
  function NewBalance(acc: AccountRow, kind: string, amount: int): (b: int)
    ensures kind == "credit" ==> b == acc.balance + amount
    ensures kind != "credit" ==> b == acc.balance - amount
  {
    if kind == "credit" then acc.balance + amount else acc.balance - amount
  }

  method Post(db: Store, req: Option<Request>, now: nat, insertOk: bool, updateOk: bool)
    returns (r: Response<Entry>)
    requires db.Valid()
    modifies db`accounts, db`transactions
    ensures db.Valid()
    ensures req.None? ==> r == Fail(500, "Internal server error") && unchanged(db)
    ensures req.Some? && Check(old(db.accounts), req.value).Stop? ==>
      r == Fail(Check(old(db.accounts), req.value).status, Check(old(db.accounts), req.value).message) &&
      unchanged(db)
    ensures req.Some? && Check(old(db.accounts), req.value).Go? ==>
      var acc := old(db.accounts)[Check(old(db.accounts), req.value).row];
      var e := NewEntry(acc, req.value, now);
      db.transactions == old(db.transactions) + (if insertOk then [e] else []) &&
      db.accounts == Updated(old(db.accounts), insertOk && updateOk, IdColumn, acc.id,
                             NewBalance(acc, e.kind, e.amount)) &&
      r == if !insertOk then Fail(500, "Failed to insert transaction")
           else if !updateOk then Fail(500, "Transaction saved but failed to update balance")
           else Ok(201, e)
  {
    if req.None? {
      return Fail(500, "Internal server error");
    }
    var body := req.value;
    if !Truthy(body.accountId) || !TruthyNum(body.amount) || !Truthy(body.kind) {
      return Fail(400, "account_id, amount and type are required fields.");
    }
    var idx := Single(db.accounts, IdColumn, body.accountId.value);
    if idx.None? {
      return Fail(404, "Account not found");
    }
    var account := db.accounts[idx.value];
    var newBalance := NewBalance(account, body.kind.value, body.amount.value);
    var txn := NewEntry(account, body, now);
    db.InsertEntries([txn], insertOk);
    if !insertOk {
      return Fail(500, "Failed to insert transaction");
    }
    db.UpdateBalance(IdColumn, body.accountId.value, newBalance, updateOk);
    if !updateOk {
      return Fail(500, "Transaction saved but failed to update balance");
    }
    return Ok(201, txn);
  }

  /** When both writes succeed the posting is reconciled: the account moved by the
      signed amount of the one entry, every other account stayed put. */
  lemma {:induction false} PostingReconciles(accs: seq<AccountRow>, i: nat, req: Request, now: nat)
    requires UniqueIds(accs) && i < |accs| && TruthyNum(req.amount) && Truthy(req.kind)
    ensures
      var e := NewEntry(accs[i], req, now);
      Reconciled(accs, WithBalance(accs, IdColumn, accs[i].id, NewBalance(accs[i], e.kind, e.amount)), [e])
  {
    var e := NewEntry(accs[i], req, now);
    assert NewBalance(accs[i], e.kind, e.amount) == accs[i].balance + Signed(e);
    SinglePostingReconciles(accs, i, e);
  }

  /** A failed balance update after a successful insert leaves the entry unmatched. */
  lemma {:induction false} HalfPostingUnreconciled(accs: seq<AccountRow>, i: nat, req: Request, now: nat)
    requires UniqueIds(accs) && i < |accs| && TruthyNum(req.amount) && Truthy(req.kind)
    ensures !Reconciled(accs, accs, [NewEntry(accs[i], req, now)])
  {
    var e := NewEntry(accs[i], req, now);
    assert [e][1..] == [];
    assert LoggedFor([e], accs[i].id) == Signed(e) != 0;
  }
}

/** `GET /api/transactions` (JavaScript): the entries matching the optional query
    parameters, newest first. */
module TransactionsQuery {
  import opened Common
  import opened Ledger
  import opened Seqs

  /** Query parameters; None stands for a parameter that is absent or empty. */
  datatype Query = Query(accountNumber: Option<string>, kind: Option<string>, status: Option<string>, date: Option<int>)

  /** The equality filters the handler adds; 'All' for type or status adds none. */
  predicate Matches(q: Query, e: Entry) {
    (Truthy(q.accountNumber) ==> e.account == q.accountNumber.value) &&
    (Truthy(q.kind) && q.kind.value != "All" ==> e.kind == q.kind.value) &&
    (Truthy(q.status) && q.status.value != "All" ==> e.status == q.status.value) &&
    (q.date.Some? ==> e.date == q.date.value)
  }

  function EntryDate(e: Entry): int {
    e.date
  }

  /** The response: an error message from the query, or exactly the matching entries
      (each as often as it is stored) ordered by date, newest first. */
  function Get(entries: seq<Entry>, q: Query, queryError: Option<string>): (r: Response<seq<Entry>>)
    ensures queryError.Some? ==> r == Fail(500, queryError.value)
    ensures queryError.None? ==> r.Ok? && r.status == 200
    ensures r.Ok? ==> forall e :: multiset(r.body)[e] == if Matches(q, e) then multiset(entries)[e] else 0
    ensures r.Ok? ==> SortedDesc(r.body, EntryDate)
  {
    if queryError.Some? then Fail(500, queryError.value)
    else
      var matching := Filter(entries, e => Matches(q, e));
      Ok(200, SortDesc(matching, EntryDate))
  }

  /** With no parameters every stored entry comes back. */
  lemma {:induction false} NoFilterReturnsAll(entries: seq<Entry>)
    ensures
      var r := Get(entries, Query(None, None, None, None), None);
      multiset(r.body) == multiset(entries)
  {
    var r := Get(entries, Query(None, None, None, None), None);
    assert forall e :: Matches(Query(None, None, None, None), e);
    assert forall e :: multiset(r.body)[e] == multiset(entries)[e];
  }

  /** `type=All` and `status=All` filter nothing, the same as leaving them out. */
  lemma {:induction false} AllIsNoFilter(q: Query, e: Entry)
    ensures Matches(q.(kind := Some("All")), e) == Matches(q.(kind := None), e)
    ensures Matches(q.(status := Some("All")), e) == Matches(q.(status := None), e)
  {
  }
}
