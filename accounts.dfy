/** `POST /api/accounts`: opens an account with a random ten-digit number and,
    when the opening balance is positive, records it as a deposit. */
module AccountsRoute {
  import opened Common
  import opened Ledger

  /** The body; `initialDeposit` defaults to 0 when left out. */
  datatype Request = Request(
    userId: Option<string>, name: Option<string>, kind: Option<string>, initialDeposit: Option<int>)

  /** The only check the handler makes: the three required fields are truthy. */
  predicate Complete(req: Request) {
    Truthy(req.userId) && Truthy(req.name) && Truthy(req.kind)
  }

  /** `Math.floor(1000000000 + Math.random() * 9000000000)` as a string, for a draw
      `draw` standing for the integer part of `Math.random() * 9000000000`. */
  function AccountNumber(draw: nat): string
    requires draw < 9000000000
  {
    NatToString(1000000000 + draw)
  }

  /** Every generated number is ten decimal digits and reads back as the number drawn. */
  lemma {:induction false} AccountNumberShape(draw: nat)
    requires draw < 9000000000
    ensures |AccountNumber(draw)| == 10 && AllDigits(AccountNumber(draw))
    ensures ParseDigits(AccountNumber(draw)) == 1000000000 + draw
  {
    assert Pow10(10) == 10000000000 && Pow10(9) == 1000000000 by {
      assert Pow10(1) == 10 && Pow10(2) == 100 && Pow10(3) == 1000 && Pow10(4) == 10000;
      assert Pow10(5) == 100000 && Pow10(6) == 1000000 && Pow10(7) == 10000000 && Pow10(8) == 100000000;
    }
    NatToStringLength(1000000000 + draw, 10);
    ParseNatToString(1000000000 + draw);
  }

  /** Two openings give the same account number exactly when they drew the same value. */
  lemma {:induction false} AccountNumbersCollide(d1: nat, d2: nat)
    requires d1 < 9000000000 && d2 < 9000000000
    ensures AccountNumber(d1) == AccountNumber(d2) <==> d1 == d2
  {
    AccountNumberShape(d1);
    AccountNumberShape(d2);
  }

  /** The inserted row: the body's fields, the generated number, the opening
      balance as given (negative values included) and no credit limit. */
  function NewAccount(req: Request, id: string, number: string): (a: AccountRow)
    requires Complete(req)
    ensures a.id == id && a.userId == req.userId.value && a.name == req.name.value && a.kind == req.kind.value
    ensures a.number == number && a.balance == req.initialDeposit.GetOr(0) && a.creditLimit.None?
  {
    AccountRow(id, req.userId.value, req.name.value, number, req.kind.value, req.initialDeposit.GetOr(0), None)
  }

  /** The entries the opening writes: one 'Initial deposit' credit when the balance
      is positive and the insert succeeds; nothing otherwise. */
  function Opening(a: AccountRow, entryOk: bool, now: nat): (es: seq<Entry>)
    ensures es != [] <==> a.balance > 0 && entryOk
    ensures es != [] ==> es == [Entry(Some(a.id), a.number, a.balance, Some("Initial deposit"), "credit",
                                      now, "completed", Some("Deposit"), Some(Reference(now)))]
  {
    if a.balance > 0 && entryOk then
      [Entry(Some(a.id), a.number, a.balance, Some("Initial deposit"), "credit", now, "completed",
             Some("Deposit"), Some(Reference(now)))]
    else []
  }

  /** The handler. `draw` is the random draw, `newId` the id the database assigns, and
      `dbMessage` the database's error text when the account insert fails. The result
      of the deposit entry's insert is not inspected. */
  method Post(db: Store, req: Option<Request>, now: nat, draw: nat, newId: string,
              insertOk: bool, dbMessage: string, entryOk: bool)
    returns (r: Response<AccountRow>)
    requires db.Valid() && draw < 9000000000 && IdAbsent(db.accounts, newId)
    modifies db`accounts, db`transactions
    ensures db.Valid()
    ensures req.None? ==> r == Fail(500, "Internal server error") && unchanged(db)
    ensures req.Some? && !Complete(req.value) ==>
      r == Fail(400, "user_id, name and type are required") && unchanged(db)
    ensures req.Some? && Complete(req.value) ==>
      var a := NewAccount(req.value, newId, AccountNumber(draw));
      db.accounts == old(db.accounts) + (if insertOk then [a] else []) &&
      db.transactions == old(db.transactions) + (if insertOk then Opening(a, entryOk, now) else []) &&
      r == if insertOk then Ok(201, a) else Fail(500, dbMessage)
  {
    if req.None? {
      return Fail(500, "Internal server error");
    }
    var body := req.value;
    if !Complete(body) {
      return Fail(400, "user_id, name and type are required");
    }
    var number := AccountNumber(draw);
    var account := NewAccount(body, newId, number);
    db.InsertAccount(account, insertOk);
    if !insertOk {
      return Fail(500, dbMessage);
    }
    if account.balance > 0 {
      db.InsertEntries(Opening(account, entryOk, now), entryOk);
    }
    return Ok(201, account);
  }

  /** A successful opening is reconciled exactly when the opening balance is zero, or
      positive and its deposit entry was written: a negative balance, accepted without
      a check, and a lost deposit entry both leave money without a ledger entry. */
  lemma {:induction false} OpeningReconciled(accs: seq<AccountRow>, a: AccountRow, entryOk: bool, now: nat)
    requires IdAbsent(accs, a.id)
    ensures Reconciled(accs, accs + [a], Opening(a, entryOk, now)) <==>
            a.balance == 0 || (a.balance > 0 && entryOk)
  {
    var after := accs + [a];
    var es := Opening(a, entryOk, now);
    var logged := if a.balance > 0 && entryOk then a.balance else 0;
    assert LoggedFor(es, a.id) == logged by {
      if es != [] {
        assert es[1..] == [];
      }
    }
    forall k | 0 <= k < |accs|
      ensures after[k].balance - BalanceBefore(accs, k) == LoggedFor(es, after[k].id)
    {
      assert after[k] == accs[k] && accs[k].id != a.id;
      if es != [] {
        assert es[1..] == [];
      }
    }
    assert after[|accs|] == a && BalanceBefore(accs, |accs|) == 0;
    if !(a.balance == 0 || (a.balance > 0 && entryOk)) {
      assert after[|accs|].balance - BalanceBefore(accs, |accs|) != LoggedFor(es, after[|accs|].id);
    }
  }
}
