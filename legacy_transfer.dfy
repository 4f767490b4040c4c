/** `POST /api/transfer` (JavaScript version): moves money between two accounts both
    named by number, with two sequential balance updates and two ledger entries
    carrying signed amounts. No write result is inspected. */
module LegacyTransferRoute {
  import opened Common
  import opened Ledger

  /** The body fields the handler uses; `method` and `ifsc` are read but never used. */
  datatype Request = Request(from: string, to: string, amount: int)

  /** The rows of the sender and of the recipient. */
  datatype Plan = Plan(from: nat, to: nat)

  datatype Decision = Go(plan: Plan) | Stop(status: int, message: string)

  /** The checks before any write, in the order the handler makes them. Nothing
      requires the amount to be positive. */
  function Check(accs: seq<AccountRow>, req: Request): (d: Decision)
    ensures d.Go? ==>
      OnlyMatch(accs, NumberColumn, req.from, d.plan.from) &&
      OnlyMatch(accs, NumberColumn, req.to, d.plan.to) &&
      accs[d.plan.from].balance >= req.amount
    ensures d.Stop? ==> d.status == 400
  {
    match Single(accs, NumberColumn, req.from)
    case None => Stop(400, "Invalid sender account")
    case Some(i) =>
      if accs[i].balance < req.amount then Stop(400, "Insufficient funds")
      else
        match Single(accs, NumberColumn, req.to)
        case None => Stop(400, "Invalid recipient account")
        case Some(j) => Go(Plan(i, j))
  }

  predicate PlanFits(accs: seq<AccountRow>, p: Plan) {
    p.from < |accs| && p.to < |accs|
  }

  /** Each refusal and the case it answers: an unknown sender, then a short balance,
      decided before the recipient is looked up, then an unknown recipient; any
      amount, negative ones included, goes ahead otherwise. */
  lemma {:induction false} CheckOutcomes(accs: seq<AccountRow>, req: Request)
    ensures Single(accs, NumberColumn, req.from).None? ==> Check(accs, req) == Stop(400, "Invalid sender account")
    ensures (Single(accs, NumberColumn, req.from).Some? &&
             accs[Single(accs, NumberColumn, req.from).value].balance < req.amount) ==>
      Check(accs, req) == Stop(400, "Insufficient funds")
    ensures (Single(accs, NumberColumn, req.from).Some? &&
             accs[Single(accs, NumberColumn, req.from).value].balance >= req.amount) ==>
      Check(accs, req) == match Single(accs, NumberColumn, req.to)
        case None => Stop(400, "Invalid recipient account")
        case Some(j) => Go(Plan(Single(accs, NumberColumn, req.from).value, j))
  {
  }

  /** The two entries: a 'Debit' of -amount on the sender and a 'Credit' of +amount on
      the recipient, dated by the day number only (`toISOString().slice(0, 10)`), with
      no account id, category or reference. */
  function Legs(req: Request, now: nat): (legs: seq<Entry>)
    ensures |legs| == 2
    ensures legs[0].account == req.from && legs[0].amount == -req.amount
    ensures legs[1].account == req.to && legs[1].amount == req.amount
    ensures legs[0].accountId.None? && legs[1].accountId.None?
  {
    [ Entry(None, req.from, -req.amount, Some("Transfer to " + req.to), "Debit", now / DayMillis,
            "Completed", None, None),
      Entry(None, req.to, req.amount, Some("Transfer from " + req.from), "Credit", now / DayMillis,
            "Completed", None, None) ]
  }

  /** Both updates filter by number and take their new balances from the reads made
      before either write. */
  function AfterTransfer(accs: seq<AccountRow>, req: Request, p: Plan, fromOk: bool, toOk: bool): seq<AccountRow>
    requires PlanFits(accs, p)
  {
    var debited := Updated(accs, fromOk, NumberColumn, req.from, accs[p.from].balance - req.amount);
    Updated(debited, toOk, NumberColumn, req.to, accs[p.to].balance + req.amount)
  }

  method Post(db: Store, req: Option<Request>, now: nat, fromWriteOk: bool, toWriteOk: bool, insertOk: bool)
    returns (r: Response<bool>)
    requires db.Valid()
    modifies db`accounts, db`transactions
    ensures db.Valid()
    ensures req.None? ==> r == Fail(500, "Internal server error") && unchanged(db)
    ensures req.Some? && Check(old(db.accounts), req.value).Stop? ==>
      r == Fail(400, Check(old(db.accounts), req.value).message) && unchanged(db)
    ensures req.Some? && Check(old(db.accounts), req.value).Go? ==>
      var p := Check(old(db.accounts), req.value).plan;
      db.accounts == AfterTransfer(old(db.accounts), req.value, p, fromWriteOk, toWriteOk) &&
      db.transactions == old(db.transactions) + (if insertOk then Legs(req.value, now) else []) &&
      r == Ok(200, true)
  {
    if req.None? {
      return Fail(500, "Internal server error");
    }
    var body := req.value;
    var fromIdx := Single(db.accounts, NumberColumn, body.from);
    if fromIdx.None? {
      return Fail(400, "Invalid sender account");
    }
    var fromAcc := db.accounts[fromIdx.value];
    if fromAcc.balance < body.amount {
      return Fail(400, "Insufficient funds");
    }
    var toIdx := Single(db.accounts, NumberColumn, body.to);
    if toIdx.None? {
      return Fail(400, "Invalid recipient account");
    }
    var toAcc := db.accounts[toIdx.value];
    db.UpdateBalance(NumberColumn, body.from, fromAcc.balance - body.amount, fromWriteOk);
    db.UpdateBalance(NumberColumn, body.to, toAcc.balance + body.amount, toWriteOk);
    db.InsertEntries(Legs(body, now), insertOk);
    return Ok(200, true);
  }

  /** Row k after a transfer between two different accounts whose writes all succeeded. */
  lemma {:induction false} AfterTransferAt(accs: seq<AccountRow>, req: Request, p: Plan, k: nat)
    requires OnlyMatch(accs, NumberColumn, req.from, p.from) && OnlyMatch(accs, NumberColumn, req.to, p.to)
    requires p.from != p.to && k < |accs|
    ensures AfterTransfer(accs, req, p, true, true)[k] ==
      if k == p.from then accs[k].(balance := accs[p.from].balance - req.amount)
      else if k == p.to then accs[k].(balance := accs[p.to].balance + req.amount)
      else accs[k]
  {
    var b0, b1 := accs[p.from].balance - req.amount, accs[p.to].balance + req.amount;
    var a1 := WithBalance(accs, NumberColumn, req.from, b0);
    WithBalanceAt(accs, NumberColumn, req.from, b0, k);
    WithBalanceAt(a1, NumberColumn, req.to, b1, k);
    if k != p.from {
      assert Col(accs[k], NumberColumn) != req.from;
    }
    if k != p.to {
      assert Col(accs[k], NumberColumn) != req.to;
    }
  }

  /** Read by account number and raw (signed) amount, a completed transfer between two
      different accounts is reconciled. */
  lemma {:induction false} LegacyReconciles(accs: seq<AccountRow>, req: Request, p: Plan, now: nat)
    requires OnlyMatch(accs, NumberColumn, req.from, p.from) && OnlyMatch(accs, NumberColumn, req.to, p.to)
    requires p.from != p.to
    ensures forall k :: 0 <= k < |accs| ==>
      AfterTransfer(accs, req, p, true, true)[k].balance - accs[k].balance ==
      RawLoggedFor(Legs(req, now), accs[k].number)
  {
    var legs := Legs(req, now);
    assert legs == [legs[0], legs[1]];
    forall k | 0 <= k < |accs|
      ensures AfterTransfer(accs, req, p, true, true)[k].balance - accs[k].balance ==
              RawLoggedFor(legs, accs[k].number)
    {
      AfterTransferAt(accs, req, p, k);
      RawLoggedForPair(legs[0], legs[1], accs[k].number);
    }
  }

  lemma {:induction false} RawLoggedForPair(e0: Entry, e1: Entry, number: string)
    ensures RawLoggedFor([e0, e1], number) ==
      (if e0.account == number then e0.amount else 0) + (if e1.account == number then e1.amount else 0)
  {
    assert [e0, e1][1..] == [e1];
    assert [e1][1..] == [];
    assert RawLoggedFor([e1], number) == (if e1.account == number then e1.amount else 0) + RawLoggedFor([], number);
  }

  /** The check accepts a negative amount, and the transfer then moves money from the
      recipient to the sender. */
  lemma {:induction false} NegativeAmountReverses(accs: seq<AccountRow>, req: Request, p: Plan)
    requires OnlyMatch(accs, NumberColumn, req.from, p.from) && OnlyMatch(accs, NumberColumn, req.to, p.to)
    requires p.from != p.to && req.amount < 0 && accs[p.from].balance >= 0
    ensures Check(accs, req) == Go(p)
    ensures AfterTransfer(accs, req, p, true, true)[p.from].balance > accs[p.from].balance
    ensures AfterTransfer(accs, req, p, true, true)[p.to].balance < accs[p.to].balance
  {
    assert Single(accs, NumberColumn, req.from) == Some(p.from);
    assert Single(accs, NumberColumn, req.to) == Some(p.to);
    AfterTransferAt(accs, req, p, p.from);
    AfterTransferAt(accs, req, p, p.to);
  }

  /** Sending to one's own number: the second update overwrites the first, so the
      account gains the amount. */
  lemma {:induction false} SelfTransferGains(accs: seq<AccountRow>, req: Request, p: Plan)
    requires PlanFits(accs, p) && accs[p.from].number == req.from && req.to == req.from && p.to == p.from
    ensures AfterTransfer(accs, req, p, true, true)[p.from].balance == accs[p.from].balance + req.amount
  {
    var a1 := WithBalance(accs, NumberColumn, req.from, accs[p.from].balance - req.amount);
    var a2 := WithBalance(a1, NumberColumn, req.to, accs[p.to].balance + req.amount);
    assert AfterTransfer(accs, req, p, true, true) == a2;
    WithBalanceAt(accs, NumberColumn, req.from, accs[p.from].balance - req.amount, p.from);
    WithBalanceAt(a1, NumberColumn, req.to, accs[p.to].balance + req.amount, p.from);
  }

  /** The entries carry no account id, so the id-based, 'credit'-signed reading the
      TypeScript routes use sees nothing of them. */
  lemma {:induction false} LegsInvisibleById(req: Request, now: nat, id: string)
    ensures LoggedFor(Legs(req, now), id) == 0
  {
    var legs := Legs(req, now);
    assert legs == [legs[0], legs[1]];
    LoggedForPair(legs[0], legs[1], id);
  }
}
