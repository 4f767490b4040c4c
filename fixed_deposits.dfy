/** `POST /api/fixed-deposits`: books a fixed deposit funded from an account named by
    number, then debits the account and records the debit, the last two together. */
module FixedDepositsRoute {
  import opened Common
  import opened Ledger

  datatype Request = Request(
    accountNumber: Option<string>, amount: Option<int>, tenure: Option<int>,
    terms: FdTerms, userId: Option<string>)

  datatype Decision = Go(row: nat) | Stop(status: int, message: string)

  /** The checks before any write, in the order the handler makes them. */
  function Check(accs: seq<AccountRow>, req: Request): (d: Decision)
    ensures d.Go? ==>
      Truthy(req.accountNumber) && TruthyNum(req.amount) && TruthyNum(req.tenure) &&
      OnlyMatch(accs, NumberColumn, req.accountNumber.value, d.row) &&
      req.amount.value <= accs[d.row].balance
    ensures d.Stop? ==> d.status in {400, 404}
  {
    if !Truthy(req.accountNumber) || !TruthyNum(req.amount) || !TruthyNum(req.tenure) then
      Stop(400, "accountNumber, amount and tenure are required.")
    else
      match Single(accs, NumberColumn, req.accountNumber.value)
      case None => Stop(404, "Source account not found")
      case Some(i) =>
        if accs[i].balance < req.amount.value then Stop(400, "Insufficient balance")
        else Go(i)
  }

  /** Each refusal and the case it answers: a missing field, then an unknown account
      number, then a balance below the amount; a balance equal to the amount is
      enough. */
  lemma {:induction false} CheckOutcomes(accs: seq<AccountRow>, req: Request)
    ensures !(Truthy(req.accountNumber) && TruthyNum(req.amount) && TruthyNum(req.tenure)) ==>
      Check(accs, req) == Stop(400, "accountNumber, amount and tenure are required.")
    ensures Truthy(req.accountNumber) && TruthyNum(req.amount) && TruthyNum(req.tenure) ==>
      Check(accs, req) == match Single(accs, NumberColumn, req.accountNumber.value)
        case None => Stop(404, "Source account not found")
        case Some(i) => if accs[i].balance < req.amount.value then Stop(400, "Insufficient balance") else Go(i)
  {
  }

  /** `FD${Date.now().toString().slice(-6)}`: the last six digits of the clock. */
  function FdNumber(now: nat): string {
    "FD" + LastN(NatToString(now), 6)
  }

  /** FD numbers are eight characters, "FD" and six digits, once the clock has six digits. */
  lemma {:induction false} FdNumberShape(now: nat)
    requires now >= 100000
    ensures |FdNumber(now)| == 8 && FdNumber(now)[..2] == "FD" && AllDigits(FdNumber(now)[2..])
  {
    assert Pow10(5) == 100000 by {
      assert Pow10(1) == 10 && Pow10(2) == 100 && Pow10(3) == 1000 && Pow10(4) == 10000;
    }
    NatToStringAtLeast(now, 6);
    var tail := LastN(NatToString(now), 6);
    assert FdNumber(now)[2..] == tail;
    assert forall i :: 0 <= i < |tail| ==> tail[i] == NatToString(now)[|NatToString(now)| - 6 + i];
  }

  /** k zero digits. */
  function Zeros(k: nat): (z: string)
    ensures |z| == k && forall i :: 0 <= i < k ==> z[i] == '0'
  {
    if k == 0 then [] else Zeros(k - 1) + ['0']
  }

  /** The numeral of m * 10^k is the numeral of m followed by k zeros. */
  lemma {:induction false} NatToStringShift(m: nat, k: nat)
    requires m >= 1
    ensures NatToString(m * Pow10(k)) == NatToString(m) + Zeros(k)
  {
    if k > 0 {
      var n := m * Pow10(k);
      assert n == 10 * (m * Pow10(k - 1));
      assert n >= 10 && n / 10 == m * Pow10(k - 1) && n % 10 == 0;
      NatToStringShift(m, k - 1);
      assert NatToString(n) == NatToString(m * Pow10(k - 1)) + [DigitChar(0)];
    }
  }

  /** Only the last six digits of the clock are used, so deposits booked at any two
      whole multiples of 1,000,000 ms get the same FD number, "FD000000". */
  lemma {:induction false} FdNumbersRepeat(m: nat)
    requires m >= 1
    ensures FdNumber(m * 1000000) == "FD000000"
  {
    assert Pow10(6) == 1000000 by {
      assert Pow10(1) == 10 && Pow10(2) == 100 && Pow10(3) == 1000 && Pow10(4) == 10000 && Pow10(5) == 100000;
    }
    NatToStringShift(m, 6);
    var s := NatToString(m * 1000000);
    assert LastN(s, 6) == Zeros(6);
    assert Zeros(6) == "000000";
  }

  /** The deposit row: the request's fields, the caller's user id or else the
      account owner's, the FD number and status 'active'. */
  function NewDeposit(acc: AccountRow, req: Request, now: nat): (fd: FdRow)
    requires Truthy(req.accountNumber) && TruthyNum(req.amount) && TruthyNum(req.tenure)
    ensures fd.accountNumber == req.accountNumber.value && fd.amount == req.amount.value
    ensures fd.tenure == req.tenure.value && fd.terms == req.terms && fd.status == "active"
    ensures fd.userId == if Truthy(req.userId) then req.userId.value else acc.userId
    ensures fd.fdNumber == FdNumber(now)
  {
    FdRow(req.accountNumber.value, req.amount.value, req.tenure.value, req.terms,
          if Truthy(req.userId) then req.userId.value else acc.userId, FdNumber(now), "active")
  }

  /** The debit that funds the deposit. */
  function Funding(acc: AccountRow, req: Request, now: nat): (e: Entry)
    requires Truthy(req.accountNumber) && TruthyNum(req.amount)
    ensures e.accountId == Some(acc.id) && e.kind == "debit" && e.amount == req.amount.value
    ensures e.description == Some("Fixed Deposit - " + FdNumber(now)) && e.category == Some("Fixed Deposit")
  {
    Entry(Some(acc.id), req.accountNumber.value, req.amount.value, Some("Fixed Deposit - " + FdNumber(now)),
          "debit", now, "completed", Some("Fixed Deposit"), Some(Reference(now)))
  }

  method Post(db: Store, req: Option<Request>, now: nat, fdInsertOk: bool, balanceOk: bool, entryOk: bool)
    returns (r: Response<FdRow>)
    requires db.Valid()
    modifies db`accounts, db`transactions, db`fixedDeposits
    ensures db.Valid()
    ensures req.None? ==> r == Fail(500, "Internal server error") && unchanged(db)
    ensures req.Some? && Check(old(db.accounts), req.value).Stop? ==>
      r == Fail(Check(old(db.accounts), req.value).status, Check(old(db.accounts), req.value).message) &&
      unchanged(db)
    ensures req.Some? && Check(old(db.accounts), req.value).Go? ==>
      var acc := old(db.accounts)[Check(old(db.accounts), req.value).row];
      var fd := NewDeposit(acc, req.value, now);
      db.fixedDeposits == old(db.fixedDeposits) + (if fdInsertOk then [fd] else []) &&
      db.accounts == Updated(old(db.accounts), fdInsertOk && balanceOk, IdColumn, acc.id,
                             acc.balance - req.value.amount.value) &&
      db.transactions == old(db.transactions) + (if fdInsertOk && entryOk then [Funding(acc, req.value, now)] else []) &&
      r == if !fdInsertOk then Fail(500, "Failed to create fixed deposit")
           else if !balanceOk || !entryOk then Fail(500, "FD created but failed bookkeeping")
           else Ok(201, fd)
  {
    if req.None? {
      return Fail(500, "Internal server error");
    }
    var body := req.value;
    if !Truthy(body.accountNumber) || !TruthyNum(body.amount) || !TruthyNum(body.tenure) {
      return Fail(400, "accountNumber, amount and tenure are required.");
    }
    var idx := Single(db.accounts, NumberColumn, body.accountNumber.value);
    if idx.None? {
      return Fail(404, "Source account not found");
    }
    if db.accounts[idx.value].balance < body.amount.value {
      return Fail(400, "Insufficient balance");
    }
    assert Check(db.accounts, body) == Go(idx.value);
    var account := db.accounts[idx.value];
    r := Book(db, db.accounts, NewDeposit(account, body, now), Funding(account, body, now),
              account.id, account.balance - body.amount.value, fdInsertOk, balanceOk, entryOk);
  }

  /** The writes of `Post` once the checks have passed: the deposit row, then the
      balance update and the funding debit, each taking effect only when its write
      succeeds. */
  method Book(db: Store, accs: seq<AccountRow>, fd: FdRow, funding: Entry, accountId: string, newBalance: int,
               fdInsertOk: bool, balanceOk: bool, entryOk: bool)
    returns (r: Response<FdRow>)
    requires db.Valid() && db.accounts == accs
    modifies db`accounts, db`transactions, db`fixedDeposits
    ensures db.Valid()
    ensures db.fixedDeposits == old(db.fixedDeposits) + (if fdInsertOk then [fd] else [])
    ensures db.accounts == Updated(accs, fdInsertOk && balanceOk, IdColumn, accountId, newBalance)
    ensures db.transactions == old(db.transactions) + (if fdInsertOk && entryOk then [funding] else [])
    ensures r == if !fdInsertOk then Fail(500, "Failed to create fixed deposit")
                 else if !balanceOk || !entryOk then Fail(500, "FD created but failed bookkeeping")
                 else Ok(201, fd)
  {
    db.InsertFixedDeposit(fd, fdInsertOk);
    if !fdInsertOk {
      assert db.accounts == old(db.accounts);
      return Fail(500, "Failed to create fixed deposit");
    }
    db.UpdateBalance(IdColumn, accountId, newBalance, balanceOk);
    ghost var booked := db.accounts;
    db.InsertEntries([funding], entryOk);
    assert db.accounts == booked;
    if !balanceOk || !entryOk {
      return Fail(500, "FD created but failed bookkeeping");
    }
    return Ok(201, fd);
  }

  /** A fully booked deposit is reconciled: the account moved by the signed amount of
      the funding debit, and no other account moved; the new balance is not negative.
      `Check` going ahead with row i gives every precondition but the first. */
  lemma {:induction false} FundingReconciles(accs: seq<AccountRow>, req: Request, i: nat, now: nat)
    requires UniqueIds(accs) && i < |accs| && Truthy(req.accountNumber) && TruthyNum(req.amount)
    requires req.amount.value <= accs[i].balance
    ensures Reconciled(accs, WithBalance(accs, IdColumn, accs[i].id, accs[i].balance - req.amount.value),
                       [Funding(accs[i], req, now)])
    ensures WithBalance(accs, IdColumn, accs[i].id, accs[i].balance - req.amount.value)[i].balance >= 0
    ensures forall k :: 0 <= k < |accs| && accs[k].balance >= 0 ==>
      WithBalance(accs, IdColumn, accs[i].id, accs[i].balance - req.amount.value)[k].balance >= 0
  {
    var b := accs[i].balance - req.amount.value;
    var e := Funding(accs[i], req, now);
    assert b == accs[i].balance + Signed(e);
    SinglePostingReconciles(accs, i, e);
    forall k | 0 <= k < |accs|
      ensures WithBalance(accs, IdColumn, accs[i].id, b)[k].balance == accs[k].balance ||
              WithBalance(accs, IdColumn, accs[i].id, b)[k].balance == b
    {
      WithBalanceAt(accs, IdColumn, accs[i].id, b, k);
    }
    WithBalanceAt(accs, IdColumn, accs[i].id, b, i);
  }

  /** The check accepts a negative amount, and booking it then raises the balance. */
  lemma {:induction false} NegativeDepositCredits(accs: seq<AccountRow>, req: Request, i: nat)
    requires Truthy(req.accountNumber) && TruthyNum(req.tenure) && req.amount.Some? && req.amount.value < 0
    requires OnlyMatch(accs, NumberColumn, req.accountNumber.value, i) && accs[i].balance >= req.amount.value
    ensures Check(accs, req) == Go(i)
    ensures WithBalance(accs, IdColumn, accs[i].id, accs[i].balance - req.amount.value)[i].balance > accs[i].balance
  {
    assert Single(accs, NumberColumn, req.accountNumber.value) == Some(i);
    WithBalanceAt(accs, IdColumn, accs[i].id, accs[i].balance - req.amount.value, i);
  }
}
