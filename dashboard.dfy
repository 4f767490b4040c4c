/** The dashboard's figures: the total held, the five most recent transactions and
    the entries handed to a statement. */
module Dashboard {
  import opened Common
  import opened Seqs
  import opened BankingContext

  function TxnDate(t: Txn): int {
    t.date
  }

  /** `[...transactions].sort(newest first).slice(0, 5)` */
  function Recent(ts: seq<Txn>): (r: seq<Txn>)
    ensures |r| == if |ts| < 5 then |ts| else 5
    ensures SortedDesc(r, TxnDate)
    ensures multiset(r) <= multiset(ts)
    ensures |ts| <= 5 ==> multiset(r) == multiset(ts)
  {
    var sorted := SortDesc(ts, TxnDate);
    var r := Take(sorted, 5);
    assert sorted == r + sorted[|r|..];
    r
  }

  /** No entry left out of the recent list is newer than the last one shown. */
  lemma {:induction false} RecentIsNewest(ts: seq<Txn>, t: Txn)
    requires multiset(ts)[t] > multiset(Recent(ts))[t]
    ensures |Recent(ts)| == 5 && t.date <= Recent(ts)[4].date
  {
    var sorted := SortDesc(ts, TxnDate);
    var n := |Recent(ts)|;
    assert Recent(ts) == sorted[..n];
    var j := BeyondPrefix(sorted, n, t);
    assert TxnDate(sorted[4]) >= TxnDate(sorted[j]);
  }

  /** `handleDownloadStatement(accountId)`: the account whose id prints as the given
      text, with exactly the entries whose account column is that account's number,
      in stored order; no statement for an unknown id. */
  function StatementInput(accs: seq<Account>, ts: seq<Txn>, accountId: string): (r: Option<(Account, seq<Txn>)>)
    ensures r.None? <==> forall k :: 0 <= k < |accs| ==> IntToString(accs[k].id) != accountId
    ensures r.Some? ==> IntToString(r.value.0.id) == accountId
    ensures r.Some? ==>
      exists i :: 0 <= i < |accs| && r.value.0 == accs[i] && forall k :: 0 <= k < i ==> IntToString(accs[k].id) != accountId
    ensures r.Some? ==> forall t :: multiset(r.value.1)[t] ==
                          if t.account == r.value.0.number then multiset(ts)[t] else 0
    ensures r.Some? ==> IsSubseq(r.value.1, ts)
  {
    match FindFirst(accs, (a: Account) => IntToString(a.id) == accountId)
    case None => None
    case Some(i) =>
      var number := accs[i].number;
      FilterIsSubseq(ts, (t: Txn) => t.account == number);
      Some((accs[i], Filter(ts, (t: Txn) => t.account == number)))
  }
}

/** The fixed-deposit list page: a status filter, totals and counts over all
    deposits, and the per-deposit maturity countdown. */
module FixedDepositList {
  import opened Common
  import opened Seqs

  /** A deposit as the page uses it; amounts in paise, dates as timestamps. */
  datatype Deposit = Deposit(
    id: string, fdNumber: string, amount: int, maturityDate: int, status: string, nominee: string)

  predicate Shown(selected: string, fd: Deposit) {
    selected == "all" || fd.status == selected
  }

  /** `filteredFDs` */
  function Filtered(fds: seq<Deposit>, selected: string): (r: seq<Deposit>)
    ensures forall x :: multiset(r)[x] == if Shown(selected, x) then multiset(fds)[x] else 0
    ensures selected == "all" ==> r == fds
  {
    if selected == "all" then
      FilterTrue(fds, fd => Shown(selected, fd));
      Filter(fds, fd => Shown(selected, fd))
    else Filter(fds, fd => Shown(selected, fd))
  }

  /** `totalFDValue`: the sum over all deposits, whatever the filter. */
  function TotalValue(fds: seq<Deposit>): int {
    if fds == [] then 0 else fds[0].amount + TotalValue(fds[1..])
  }

  /** Filtering by a status and by its complement splits the total value in two. */
  lemma {:induction false} TotalSplits(fds: seq<Deposit>, status: string)
    ensures TotalValue(fds) ==
      TotalValue(Filter(fds, (fd: Deposit) => fd.status == status)) + TotalValue(Filter(fds, (fd: Deposit) => fd.status != status))
  {
    if fds != [] {
      TotalSplits(fds[1..], status);
    }
  }

  predicate IsActive(fd: Deposit) {
    fd.status == "active"
  }

  predicate IsMaturedStatus(fd: Deposit) {
    fd.status == "matured"
  }

  /** The active and the matured deposits are different ones, so the two counts sum
      to at most the number of deposits. */
  lemma {:induction false} CountsBounded(fds: seq<Deposit>)
    ensures |Filter(fds, IsActive)| + |Filter(fds, IsMaturedStatus)| <= |fds|
    ensures forall x :: !(x in Filter(fds, IsActive) && x in Filter(fds, IsMaturedStatus))
  {
    FilterDisjoint(fds, IsActive, IsMaturedStatus);
    FilterAll(fds, IsActive);
    FilterAll(fds, IsMaturedStatus);
  }

  /** `Math.ceil(d / 86400000)` for a whole number of milliseconds d. */
  function CeilDays(d: int): (days: int)
    ensures (days - 1) * DayMillis < d <= days * DayMillis
  {
    -((-d) / DayMillis)
  }

  /** `daysToMaturity` */
  function DaysToMaturity(fd: Deposit, now: int): int {
    CeilDays(fd.maturityDate - now)
  }

  /** `isMatured`: holds exactly when the maturity date is not after now, whatever the
      stored status says. */
  function IsMatured(fd: Deposit, now: int): (m: bool)
    ensures m <==> fd.maturityDate <= now
  {
    DaysToMaturity(fd, now) <= 0
  }

  /** What a deposit card offers: the countdown (with its day count) or the renew button. */
  datatype Card = Card(countdown: Option<int>, renew: bool)

  function CardOf(fd: Deposit, now: int): (c: Card)
    ensures c.renew <==> fd.maturityDate <= now
    ensures c.countdown.Some? <==> !c.renew
    ensures c.countdown.Some? ==> c.countdown.value >= 1
    ensures c.countdown.Some? ==>
      (c.countdown.value - 1) * DayMillis < fd.maturityDate - now <= c.countdown.value * DayMillis
  {
    var days := DaysToMaturity(fd, now);
    var matured := IsMatured(fd, now);
    Card(if !matured && days > 0 then Some(days) else None, matured)
  }

  datatype Color = Blue | Green | Gray

  /** `getStatusColor`; an unknown status is drawn like 'closed'. */
  function StatusColor(status: string): (c: Color)
    ensures c == Blue <==> status == "active"
    ensures c == Green <==> status == "matured"
    ensures status == "closed" ==> c == Gray
    ensures status != "active" && status != "matured" ==> c == Gray
  {
    match status
    case "active" => Blue
    case "matured" => Green
    case "closed" => Gray
    case _ => Gray
  }
}
