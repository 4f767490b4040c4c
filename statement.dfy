/** `generateStatement`: the arithmetic and the rows of an account statement. The
    entries are taken in the order given and listed in reverse, each row carrying a
    running balance that starts at the computed opening balance. */
module Statement {
  import opened Common
  import opened BankingContext

  /** The sum of f over the entries. */
  function SumOf(ts: seq<Txn>, f: Txn -> int): int {
    if ts == [] then 0 else f(ts[0]) + SumOf(ts[1..], f)
  }

  function CreditPart(t: Txn): int {
    if t.kind == "credit" then Abs(t.amount) else 0
  }

  function DebitPart(t: Txn): int {
    if t.kind == "debit" then Abs(t.amount) else 0
  }

  /** What an entry typed neither 'credit' nor 'debit' contributes. */
  function OtherPart(t: Txn): int {
    if t.kind != "credit" && t.kind != "debit" then Abs(t.amount) else 0
  }

  /** Total credits: the sum of `|amount|` over the entries typed 'credit'. */
  function Credits(ts: seq<Txn>): int {
    SumOf(ts, CreditPart)
  }

  /** Total debits: the sum of `|amount|` over the entries typed 'debit'. */
  function Debits(ts: seq<Txn>): int {
    SumOf(ts, DebitPart)
  }

  /** `account.balance - credits + debits` */
  function Opening(balance: int, ts: seq<Txn>): int {
    balance - Credits(ts) + Debits(ts)
  }

  /** A sum of non-negative terms is non-negative. */
  lemma {:induction false} SumOfNonNegative(ts: seq<Txn>, f: Txn -> int)
    requires forall t :: f(t) >= 0
    ensures SumOf(ts, f) >= 0
  {
    if ts != [] {
      SumOfNonNegative(ts[1..], f);
    }
  }

  /** Both totals are non-negative, and the summary closes: opening balance plus
      credits minus debits is the current balance. */
  lemma {:induction false} SummaryCloses(balance: int, ts: seq<Txn>)
    ensures Credits(ts) >= 0 && Debits(ts) >= 0
    ensures Opening(balance, ts) + Credits(ts) - Debits(ts) == balance
  {
    SumOfNonNegative(ts, CreditPart);
    SumOfNonNegative(ts, DebitPart);
  }

  /** Summing a pointwise sum of three functions. */
  lemma {:induction false} SumOfSplit(ts: seq<Txn>, f: Txn -> int, a: Txn -> int, b: Txn -> int, c: Txn -> int, x: int, y: int, z: int)
    requires forall t :: f(t) == x * a(t) + y * b(t) + z * c(t)
    ensures SumOf(ts, f) == x * SumOf(ts, a) + y * SumOf(ts, b) + z * SumOf(ts, c)
  {
    if ts != [] {
      SumOfSplit(ts[1..], f, a, b, c, x, y, z);
      assert x * (a(ts[0]) + SumOf(ts[1..], a)) == x * a(ts[0]) + x * SumOf(ts[1..], a);
      assert y * (b(ts[0]) + SumOf(ts[1..], b)) == y * b(ts[0]) + y * SumOf(ts[1..], b);
      assert z * (c(ts[0]) + SumOf(ts[1..], c)) == z * c(ts[0]) + z * SumOf(ts[1..], c);
    }
  }

  function Reverse(ts: seq<Txn>): (r: seq<Txn>)
    ensures |r| == |ts| && forall k :: 0 <= k < |ts| ==> r[k] == ts[|ts| - 1 - k]
  {
    if ts == [] then [] else Reverse(ts[1..]) + [ts[0]]
  }

  lemma {:induction false} SumOfAppend(s: seq<Txn>, t: Txn, f: Txn -> int)
    ensures SumOf(s + [t], f) == SumOf(s, f) + f(t)
  {
    if s != [] {
      assert (s + [t])[1..] == s[1..] + [t];
      SumOfAppend(s[1..], t, f);
    }
  }

  /** Reversing the entries does not change a sum over them. */
  lemma {:induction false} SumOfReverse(ts: seq<Txn>, f: Txn -> int)
    ensures SumOf(Reverse(ts), f) == SumOf(ts, f)
  {
    if ts != [] {
      SumOfReverse(ts[1..], f);
      SumOfAppend(Reverse(ts[1..]), ts[0], f);
    }
  }

  /** One displayed row; exactly one of the two amount columns is filled. */
  datatype Row = Row(
    date: int, description: string, reference: string,
    debit: Option<nat>, credit: Option<nat>, balance: int)

  /** The row for an entry: the reference, or the id when the reference is empty;
      the amount in the credit column for a 'credit', in the debit column otherwise. */
  function RowOf(t: Txn, balance: int): (row: Row)
    ensures row.credit.Some? <==> t.kind == "credit"
    ensures row.debit.Some? <==> t.kind != "credit"
    ensures row.credit.Some? ==> row.credit.value == Abs(t.amount)
    ensures row.debit.Some? ==> row.debit.value == Abs(t.amount)
    ensures row.reference == if t.reference != "" then t.reference else t.id
    ensures row.balance == balance
  {
    var isCredit := t.kind == "credit";
    Row(t.date, t.description, if t.reference != "" then t.reference else t.id,
        if !isCredit then Some(Abs(t.amount)) else None,
        if isCredit then Some(Abs(t.amount)) else None,
        balance)
  }

  /** The running-balance step as written: a credit row subtracts `|amount|`, every
      other row adds it. */
  function AsWrittenStep(t: Txn): int {
    if t.kind == "credit" then 0 - Abs(t.amount) else Abs(t.amount)
  }

  /** The running balance after each of the first k entries of rs, from `start`. */
  function RunningAfter(start: int, rs: seq<Txn>, k: nat, step: Txn -> int): int
    requires k <= |rs|
  {
    start + SumOf(rs[..k], step)
  }

  lemma {:induction false} RunningAfterNext(start: int, rs: seq<Txn>, k: nat, step: Txn -> int)
    requires k < |rs|
    ensures RunningAfter(start, rs, k + 1, step) == RunningAfter(start, rs, k, step) + step(rs[k])
  {
    assert rs[..k + 1] == rs[..k] + [rs[k]];
    SumOfAppend(rs[..k], rs[k], step);
  }

  /** The `forEach` over the reversed copy that builds the rows: row k shows entry
      `|ts| - 1 - k` with the running balance after k + 1 steps. */
  method Rows(balance: int, ts: seq<Txn>) returns (rows: seq<Row>)
    ensures |rows| == |ts|
    ensures forall k :: 0 <= k < |ts| ==>
      rows[k] == RowOf(ts[|ts| - 1 - k], RunningAfter(Opening(balance, ts), Reverse(ts), k + 1, AsWrittenStep))
  {
    var rs := Reverse(ts);
    var running := Opening(balance, ts);
    rows := [];
    var k := 0;
    while k < |rs|
      invariant 0 <= k <= |rs|
      invariant |rows| == k
      invariant running == RunningAfter(Opening(balance, ts), rs, k, AsWrittenStep)
      invariant forall m :: 0 <= m < k ==>
        rows[m] == RowOf(rs[m], RunningAfter(Opening(balance, ts), rs, m + 1, AsWrittenStep))
    {
      var t := rs[k];
      if t.kind == "credit" {
        running := running - Abs(t.amount);
      } else {
        running := running + Abs(t.amount);
      }
      RunningAfterNext(Opening(balance, ts), rs, k, AsWrittenStep);
      rows := rows + [RowOf(t, running)];
      k := k + 1;
    }
  }

  /** As written the last row does not show the closing balance: it ends at
      `balance - 2 * credits + 2 * debits + others`. */
  lemma {:induction false} AsWrittenLastRow(balance: int, ts: seq<Txn>)
    requires ts != []
    ensures RunningAfter(Opening(balance, ts), Reverse(ts), |ts|, AsWrittenStep) ==
      balance - 2 * Credits(ts) + 2 * Debits(ts) + SumOf(ts, OtherPart)
  {
    var rs := Reverse(ts);
    assert rs[..|ts|] == rs;
    SumOfReverse(ts, AsWrittenStep);
    SumOfSplit(ts, AsWrittenStep, CreditPart, DebitPart, OtherPart, -1, 1, 1);
  }

  /** One credit of 100 on an account holding 100: the opening balance is 0 and the
      only row shows -100 where the closing balance is 100. */
  lemma {:induction false} AsWrittenCounterexample()
    ensures
      var t := Txn("1", 0, "Salary", 100, "credit", "completed", "Income", "TXN1", "1234567890");
      Opening(100, [t]) == 0 &&
      RunningAfter(Opening(100, [t]), Reverse([t]), 1, AsWrittenStep) == -100
  {
    var t := Txn("1", 0, "Salary", 100, "credit", "completed", "Income", "TXN1", "1234567890");
    assert Reverse([t]) == [t];
    assert [t][..1] == [t];
  }

  /** The evidently intended step, walking from the opening balance towards the
      closing one: a credit adds `|amount|`, a debit subtracts it, and an entry of
      another type, which is in neither total, leaves the balance alone. */
  function IntendedStep(t: Txn): int {
    if t.kind == "credit" then Abs(t.amount) else if t.kind == "debit" then 0 - Abs(t.amount) else 0
  }

  /** The rows with the intended running balance. */
  function IntendedRows(balance: int, ts: seq<Txn>): (rows: seq<Row>)
    ensures |rows| == |ts|
  {
    seq(|ts|, k requires 0 <= k < |ts| =>
      RowOf(ts[|ts| - 1 - k], RunningAfter(Opening(balance, ts), Reverse(ts), k + 1, IntendedStep)))
  }

  /** With the intended step the last row shows the closing balance. */
  lemma {:induction false} IntendedLastRow(balance: int, ts: seq<Txn>)
    requires ts != []
    ensures IntendedRows(balance, ts)[|ts| - 1].balance == balance
  {
    var rs := Reverse(ts);
    assert IntendedRows(balance, ts)[|ts| - 1] == RowOf(ts[0], RunningAfter(Opening(balance, ts), rs, |ts|, IntendedStep));
    assert rs[..|ts|] == rs;
    SumOfReverse(ts, IntendedStep);
    SumOfSplit(ts, IntendedStep, CreditPart, DebitPart, OtherPart, 1, -1, 0);
  }
}
