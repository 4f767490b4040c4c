/** `POST /api/transfer` (TypeScript version): moves money from an account named by
    id to an account named by number, with two balance updates and a pair of
    ledger entries issued together and not atomically. */
module TransferRoute {
  import opened Common
  import opened Ledger

  datatype Request = Request(
    fromAccountId: Option<string>, toAccountNumber: Option<string>,
    amount: Option<int>, remarks: Option<string>)

  datatype Receipt = Receipt(reference: string, newFromBal: int, newToBal: int)

  /** The rows of the source and of the destination, the amount and the remarks. */
  datatype Plan = Plan(from: nat, to: nat, amount: int, remarks: string)

  datatype Decision = Go(plan: Plan) | Stop(status: int, message: string)

  /** The checks before any write, in the order the handler makes them. */
  function Check(accs: seq<AccountRow>, req: Request): (d: Decision)
    ensures d.Go? ==>
      Truthy(req.fromAccountId) && Truthy(req.toAccountNumber) && req.amount.Some? &&
      d.plan.from < |accs| && d.plan.to < |accs| &&
      OnlyMatch(accs, IdColumn, req.fromAccountId.value, d.plan.from) &&
      OnlyMatch(accs, NumberColumn, req.toAccountNumber.value, d.plan.to) &&
      d.plan.amount == req.amount.value && 0 < d.plan.amount <= accs[d.plan.from].balance
    ensures d.Stop? ==> d.status in {400, 404}
  {
    if !Truthy(req.fromAccountId) || !Truthy(req.toAccountNumber) || req.amount.None? || req.amount.value <= 0 then
      Stop(400, "Missing or invalid fields")
    else
      match Single(accs, IdColumn, req.fromAccountId.value)
      case None => Stop(404, "Source account not found")
      case Some(i) =>
        if accs[i].balance < req.amount.value then Stop(400, "Insufficient balance")
        else
          match Single(accs, NumberColumn, req.toAccountNumber.value)
          case None => Stop(404, "Destination account not found")
          case Some(j) => Go(Plan(i, j, req.amount.value, req.remarks.GetOr("")))
  }

  predicate PlanFits(accs: seq<AccountRow>, p: Plan) {
    p.from < |accs| && p.to < |accs|
  }

  /** The body passes the first check: both fields truthy and a positive amount. */
  predicate FieldsOk(req: Request) {
    Truthy(req.fromAccountId) && Truthy(req.toAccountNumber) && req.amount.Some? && req.amount.value > 0
  }

  /** Each refusal and the case it answers: bad fields, then an unknown source, then
      a short balance, decided before the destination is looked up, then an unknown
      destination; every other request goes ahead. */
  lemma {:induction false} CheckOutcomes(accs: seq<AccountRow>, req: Request)
    ensures !FieldsOk(req) ==> Check(accs, req) == Stop(400, "Missing or invalid fields")
    ensures FieldsOk(req) && Single(accs, IdColumn, req.fromAccountId.value).None? ==>
      Check(accs, req) == Stop(404, "Source account not found")
    ensures (FieldsOk(req) && Single(accs, IdColumn, req.fromAccountId.value).Some? &&
             accs[Single(accs, IdColumn, req.fromAccountId.value).value].balance < req.amount.value) ==>
      Check(accs, req) == Stop(400, "Insufficient balance")
    ensures (FieldsOk(req) && Single(accs, IdColumn, req.fromAccountId.value).Some? &&
             accs[Single(accs, IdColumn, req.fromAccountId.value).value].balance >= req.amount.value) ==>
      Check(accs, req) == match Single(accs, NumberColumn, req.toAccountNumber.value)
        case None => Stop(404, "Destination account not found")
        case Some(j) => Go(Plan(Single(accs, IdColumn, req.fromAccountId.value).value, j,
                                req.amount.value, req.remarks.GetOr("")))
  {
  }

  /** The debit leg and the credit leg, in that order, sharing one reference. */
  function Legs(accs: seq<AccountRow>, p: Plan, now: nat): (legs: seq<Entry>)
    requires PlanFits(accs, p)
    ensures |legs| == 2
    ensures legs[0].accountId == Some(accs[p.from].id) && legs[0].kind == "debit" && legs[0].amount == p.amount
    ensures legs[1].accountId == Some(accs[p.to].id) && legs[1].kind == "credit" && legs[1].amount == p.amount
    ensures legs[0].reference == legs[1].reference == Some(Reference(now))
  {
    var suffix := if p.remarks != "" then " - " + p.remarks else "";
    [ Entry(Some(accs[p.from].id), accs[p.from].number, p.amount,
            Some("Transfer to " + accs[p.to].number + suffix), "debit", now, "completed",
            Some("Transfer"), Some(Reference(now))),
      Entry(Some(accs[p.to].id), accs[p.to].number, p.amount,
            Some("Transfer from " + accs[p.from].number + suffix), "credit", now, "completed",
            Some("Transfer"), Some(Reference(now))) ]
  }

  /** The accounts table after the two updates, each applied only when it succeeded.
      Both new balances come from the reads made before either write. */
  function AfterTransfer(accs: seq<AccountRow>, p: Plan, fromOk: bool, toOk: bool): seq<AccountRow>
    requires PlanFits(accs, p)
  {
    var debited := Updated(accs, fromOk, IdColumn, accs[p.from].id, accs[p.from].balance - p.amount);
    Updated(debited, toOk, IdColumn, accs[p.to].id, accs[p.to].balance + p.amount)
  }

  method Post(db: Store, req: Option<Request>, now: nat, fromWriteOk: bool, toWriteOk: bool, insertOk: bool)
    returns (r: Response<Receipt>)
    requires db.Valid()
    modifies db`accounts, db`transactions
    ensures db.Valid()
    ensures req.None? ==> r == Fail(500, "Internal server error") && unchanged(db)
    ensures req.Some? && Check(old(db.accounts), req.value).Stop? ==>
      r == Fail(Check(old(db.accounts), req.value).status, Check(old(db.accounts), req.value).message) &&
      unchanged(db)
    ensures req.Some? && Check(old(db.accounts), req.value).Go? ==>
      var p := Check(old(db.accounts), req.value).plan;
      db.accounts == AfterTransfer(old(db.accounts), p, fromWriteOk, toWriteOk) &&
      db.transactions == old(db.transactions) + (if insertOk then Legs(old(db.accounts), p, now) else []) &&
      r == if fromWriteOk && toWriteOk && insertOk
           then Ok(201, Receipt(Reference(now), old(db.accounts)[p.from].balance - p.amount,
                                old(db.accounts)[p.to].balance + p.amount))
           else Fail(500, "Failed to complete transfer")
  {
    if req.None? {
      return Fail(500, "Internal server error");
    }
    var body := req.value;
    if !Truthy(body.fromAccountId) || !Truthy(body.toAccountNumber) || body.amount.None? || body.amount.value <= 0 {
      return Fail(400, "Missing or invalid fields");
    }
    var amount := body.amount.value;
    var fromIdx := Single(db.accounts, IdColumn, body.fromAccountId.value);
    if fromIdx.None? {
      return Fail(404, "Source account not found");
    }
    var fromAcc := db.accounts[fromIdx.value];
    if fromAcc.balance < amount {
      return Fail(400, "Insufficient balance");
    }
    var toIdx := Single(db.accounts, NumberColumn, body.toAccountNumber.value);
    if toIdx.None? {
      return Fail(404, "Destination account not found");
    }
    var plan := Plan(fromIdx.value, toIdx.value, amount, body.remarks.GetOr(""));
    assert Check(db.accounts, body) == Go(plan);
    r := Book(db, db.accounts, plan, now, fromWriteOk, toWriteOk, insertOk);
  }

  /** The writes of `Post` once the checks have passed: the pair of entries and the
      two balance updates, issued together with balances read before any write. The
      entries go to another table, so only the order of the two updates matters; the
      model applies them in the order written. */
  method Book(db: Store, accs: seq<AccountRow>, plan: Plan, now: nat, fromWriteOk: bool, toWriteOk: bool, insertOk: bool)
    returns (r: Response<Receipt>)
    requires db.Valid() && db.accounts == accs && PlanFits(accs, plan)
    modifies db`accounts, db`transactions
    ensures db.Valid()
    ensures db.accounts == AfterTransfer(accs, plan, fromWriteOk, toWriteOk)
    ensures db.transactions == old(db.transactions) + (if insertOk then Legs(accs, plan, now) else [])
    ensures r == if fromWriteOk && toWriteOk && insertOk
                 then Ok(201, Receipt(Reference(now), accs[plan.from].balance - plan.amount,
                                      accs[plan.to].balance + plan.amount))
                 else Fail(500, "Failed to complete transfer")
  {
    var newFromBal := accs[plan.from].balance - plan.amount;
    var newToBal := accs[plan.to].balance + plan.amount;
    db.InsertEntries(Legs(accs, plan, now), insertOk);
    db.UpdateBalance(IdColumn, accs[plan.from].id, newFromBal, fromWriteOk);
    db.UpdateBalance(IdColumn, accs[plan.to].id, newToBal, toWriteOk);
    if fromWriteOk && toWriteOk && insertOk {
      r := Ok(201, Receipt(Reference(now), newFromBal, newToBal));
    } else {
      r := Fail(500, "Failed to complete transfer");
    }
  }

  /** Row k after a transfer between two different accounts whose writes all succeeded. */
  lemma {:induction false} AfterTransferAt(accs: seq<AccountRow>, p: Plan, k: nat)
    requires UniqueIds(accs) && PlanFits(accs, p) && p.from != p.to && k < |accs|
    ensures AfterTransfer(accs, p, true, true)[k] ==
      if k == p.from then accs[k].(balance := accs[p.from].balance - p.amount)
      else if k == p.to then accs[k].(balance := accs[p.to].balance + p.amount)
      else accs[k]
  {
    var v0, v1 := accs[p.from].id, accs[p.to].id;
    var b0, b1 := accs[p.from].balance - p.amount, accs[p.to].balance + p.amount;
    var a1 := WithBalance(accs, IdColumn, v0, b0);
    assert AfterTransfer(accs, p, true, true)[k] == WithBalance(a1, IdColumn, v1, b1)[k];
    WithBalanceAt(accs, IdColumn, v0, b0, k);
    WithBalanceAt(a1, IdColumn, v1, b1, k);
    OnlyMatchOwnId(accs, p.from);
    OnlyMatchOwnId(accs, p.to);
    if k != p.from {
      assert Col(accs[k], IdColumn) != v0;
    }
    if k != p.to {
      assert Col(accs[k], IdColumn) != v1;
    }
  }

  /** Between two different accounts the total held moves by what each successful
      update did: nothing when both succeed, -amount or +amount when only one did
      (the handler then answers 500 but does not undo the other write). */
  lemma {:induction false} TotalAfterTransfer(accs: seq<AccountRow>, p: Plan, fromOk: bool, toOk: bool)
    requires UniqueIds(accs) && PlanFits(accs, p) && p.from != p.to
    ensures TotalBalance(AfterTransfer(accs, p, fromOk, toOk)) ==
      TotalBalance(accs) - (if fromOk then p.amount else 0) + (if toOk then p.amount else 0)
  {
    var v0, v1 := accs[p.from].id, accs[p.to].id;
    var b0, b1 := accs[p.from].balance - p.amount, accs[p.to].balance + p.amount;
    OnlyMatchOwnId(accs, p.from);
    OnlyMatchOwnId(accs, p.to);
    if fromOk {
      var a1 := WithBalance(accs, IdColumn, v0, b0);
      TotalAfterWithBalance(accs, IdColumn, v0, b0, p.from);
      if toOk {
        OnlyMatchAfterWithBalance(accs, IdColumn, v0, b0, IdColumn, v1, p.to);
        WithBalanceAt(accs, IdColumn, v0, b0, p.to);
        TotalAfterWithBalance(a1, IdColumn, v1, b1, p.to);
      }
    } else if toOk {
      TotalAfterWithBalance(accs, IdColumn, v1, b1, p.to);
    }
  }

  /** Sending from an account to itself: the second update overwrites the first
      with the balance read before the transfer plus the amount, so the account
      gains the amount. */
  lemma {:induction false} SelfTransferGains(accs: seq<AccountRow>, p: Plan)
    requires UniqueIds(accs) && PlanFits(accs, p) && p.from == p.to
    ensures AfterTransfer(accs, p, true, true)[p.from] == accs[p.from].(balance := accs[p.from].balance + p.amount)
    ensures TotalBalance(AfterTransfer(accs, p, true, true)) == TotalBalance(accs) + p.amount
  {
    var i := p.from;
    var v := accs[i].id;
    var b0, b1 := accs[i].balance - p.amount, accs[i].balance + p.amount;
    var a1 := WithBalance(accs, IdColumn, v, b0);
    assert AfterTransfer(accs, p, true, true) == WithBalance(a1, IdColumn, v, b1);
    WithBalanceAt(accs, IdColumn, v, b0, i);
    WithBalanceAt(a1, IdColumn, v, b1, i);
    OnlyMatchOwnId(accs, i);
    OnlyMatchAfterWithBalance(accs, IdColumn, v, b0, IdColumn, v, i);
    TotalAfterWithBalance(accs, IdColumn, v, b0, i);
    TotalAfterWithBalance(a1, IdColumn, v, b1, i);
  }

  /** A completed transfer between two different accounts is reconciled: each
      balance moved by exactly the signed sum of the legs written for it. */
  lemma {:induction false} TransferReconciles(accs: seq<AccountRow>, p: Plan, now: nat)
    requires UniqueIds(accs) && PlanFits(accs, p) && p.from != p.to
    ensures Reconciled(accs, AfterTransfer(accs, p, true, true), Legs(accs, p, now))
  {
    var after := AfterTransfer(accs, p, true, true);
    var legs := Legs(accs, p, now);
    assert legs == [legs[0], legs[1]];
    OnlyMatchOwnId(accs, p.from);
    OnlyMatchOwnId(accs, p.to);
    forall k | 0 <= k < |after|
      ensures after[k].balance - BalanceBefore(accs, k) == LoggedFor(legs, after[k].id)
    {
      AfterTransferAt(accs, p, k);
      LoggedForPair(legs[0], legs[1], accs[k].id);
    }
  }

  /** Sending to oneself is never reconciled: the legs cancel out while the balance rises. */
  lemma {:induction false} SelfTransferUnreconciled(accs: seq<AccountRow>, p: Plan, now: nat)
    requires UniqueIds(accs) && PlanFits(accs, p) && p.from == p.to && p.amount > 0
    ensures !Reconciled(accs, AfterTransfer(accs, p, true, true), Legs(accs, p, now))
  {
    SelfTransferGains(accs, p);
    var legs := Legs(accs, p, now);
    assert legs == [legs[0], legs[1]];
    LoggedForPair(legs[0], legs[1], accs[p.from].id);
  }
}
