/** The transaction history page (TypeScript): the entries of the shared store that
    match the search box and the filters, shown newest first. */
module TransactionHistory {
  import opened Common
  import opened Seqs
  import opened BankingContext

  /** The filter state. An empty date input is None; a date is the timestamp of the
      start of that day. */
  datatype Filters = Filters(
    searchTerm: string, account: string, kind: string, startDate: Option<int>, endDate: Option<int>)

  function DefaultFilters(): Filters {
    Filters("", "all", "all", None, None)
  }

  /** Case-insensitive substring test on the description or on the reference. */
  predicate MatchesSearch(f: Filters, t: Txn) {
    Contains(ToLower(t.description), ToLower(f.searchTerm)) ||
    Contains(ToLower(t.reference), ToLower(f.searchTerm))
  }

  predicate MatchesAccount(f: Filters, t: Txn) {
    f.account == "all" || t.account == f.account
  }

  /** 'all' keeps every type; 'credit' and 'debit' keep their own; any other value keeps none. */
  predicate MatchesType(f: Filters, t: Txn) {
    f.kind == "all" || (f.kind == "credit" && t.kind == "credit") || (f.kind == "debit" && t.kind == "debit")
  }

  /** From the start of the start day through 23:59:59.999 of the end day. */
  predicate MatchesDate(f: Filters, t: Txn) {
    (f.startDate.Some? ==> t.date >= f.startDate.value) &&
    (f.endDate.Some? ==> t.date <= f.endDate.value + DayMillis - 1)
  }

  predicate Matches(f: Filters, t: Txn) {
    MatchesSearch(f, t) && MatchesAccount(f, t) && MatchesType(f, t) && MatchesDate(f, t)
  }

  function TxnDate(t: Txn): int {
    t.date
  }

  /** `filteredTransactions`: the matching entries, in their stored order; this is
      also the list handed to the PDF export. */
  function Filtered(all: seq<Txn>, f: Filters): (r: seq<Txn>)
    ensures forall t :: multiset(r)[t] == if Matches(f, t) then multiset(all)[t] else 0
    ensures IsSubseq(r, all)
  {
    FilterIsSubseq(all, t => Matches(f, t));
    Filter(all, t => Matches(f, t))
  }

  /** `sortedTransactions`: a copy of the filtered list, newest first. */
  function Sorted(filtered: seq<Txn>): (r: seq<Txn>)
    ensures multiset(r) == multiset(filtered)
    ensures SortedDesc(r, TxnDate)
  {
    SortDesc(filtered, TxnDate)
  }

  /** An empty search term matches every entry. */
  lemma {:induction false} EmptySearchMatches(f: Filters, t: Txn)
    requires f.searchTerm == ""
    ensures MatchesSearch(f, t)
  {
    assert ToLower(f.searchTerm) == "";
    ContainsEmpty(ToLower(t.description));
  }

  /** Searching for an entry's own description or reference, in any letter case,
      finds that entry. */
  lemma {:induction false} SearchFindsOwnText(f: Filters, t: Txn)
    requires ToLower(f.searchTerm) == ToLower(t.description) || ToLower(f.searchTerm) == ToLower(t.reference)
    ensures MatchesSearch(f, t)
  {
    if ToLower(f.searchTerm) == ToLower(t.description) {
      ContainsSelf(ToLower(t.description));
    } else {
      ContainsSelf(ToLower(t.reference));
    }
  }

  /** The default filters keep every stored entry, in order. */
  lemma {:induction false} DefaultsKeepAll(all: seq<Txn>)
    ensures Filtered(all, DefaultFilters()) == all
  {
    forall t ensures Matches(DefaultFilters(), t) {
      EmptySearchMatches(DefaultFilters(), t);
    }
    FilterTrue(all, t => Matches(DefaultFilters(), t));
  }

  /** The end date is inclusive through the last millisecond of its day and no further. */
  lemma {:induction false} EndOfDayInclusive(f: Filters, t: Txn)
    requires f.startDate.None? && f.endDate.Some?
    ensures t.date == f.endDate.value + DayMillis - 1 ==> MatchesDate(f, t)
    ensures t.date == f.endDate.value + DayMillis ==> !MatchesDate(f, t)
  {
  }

  class HistoryPage {
    var searchTerm: string
    var selectedAccount: string
    var selectedType: string
    var startDate: Option<int>
    var endDate: Option<int>

    constructor ()
      ensures Current() == DefaultFilters()
    {
      searchTerm, selectedAccount, selectedType := "", "all", "all";
      startDate, endDate := None, None;
    }

    function Current(): Filters
      reads this
    {
      Filters(searchTerm, selectedAccount, selectedType, startDate, endDate)
    }

    /** `resetFilters` */
    method ResetFilters()
      modifies this
      ensures Current() == DefaultFilters()
    {
      searchTerm := "";
      selectedAccount := "all";
      selectedType := "all";
      startDate := None;
      endDate := None;
    }
  }
}

/** The recent-transactions page (JavaScript): three equality filters over a list of
    entries, a CSV download and one expandable row. */
module RecentTransactions {
  import opened Common
  import opened Seqs

  /** A demo entry; the date is the page's `YYYY-MM-DD` string and amounts carry a sign. */
  datatype Item = Item(
    id: int, date: string, amount: int, kind: string, status: string, description: string, account: string)

  /** The filter: 'All' and the empty date impose nothing; otherwise equality. */
  predicate Keep(typeFilter: string, statusFilter: string, dateFilter: string, t: Item) {
    (typeFilter == "All" || t.kind == typeFilter) &&
    (statusFilter == "All" || t.status == statusFilter) &&
    (dateFilter == "" || t.date == dateFilter)
  }

  function Filtered(items: seq<Item>, typeFilter: string, statusFilter: string, dateFilter: string): (r: seq<Item>)
    ensures forall t :: multiset(r)[t] == if Keep(typeFilter, statusFilter, dateFilter, t) then multiset(items)[t] else 0
    ensures IsSubseq(r, items)
  {
    FilterIsSubseq(items, t => Keep(typeFilter, statusFilter, dateFilter, t));
    Filter(items, t => Keep(typeFilter, statusFilter, dateFilter, t))
  }

  /** The initial filters ('All', 'All', no date) keep every entry. */
  lemma {:induction false} DefaultsKeepAll(items: seq<Item>)
    ensures Filtered(items, "All", "All", "") == items
  {
    FilterTrue(items, t => Keep("All", "All", "", t));
  }

  // ---------------------------------------------------------------------
  // CSV

  const Header: string := "Date,Account,Type,Amount,Status,Description\n"

  /** `s.replace(/\"/g, '"')` exactly as written: every quote becomes a quote. */
  function ReplaceQuotesAsWritten(s: string): (r: string) {
    if s == [] then [] else (if s[0] == '"' then ['"'] else [s[0]]) + ReplaceQuotesAsWritten(s[1..])
  }

  /** The replacement as written changes nothing. */
  lemma {:induction false} ReplaceIsIdentity(s: string)
    ensures ReplaceQuotesAsWritten(s) == s
  {
    if s != [] {
      ReplaceIsIdentity(s[1..]);
      assert s == [s[0]] + s[1..];
    }
  }

  /** One CSV line: five bare fields and the quoted description. */
  function CsvRow(t: Item): string {
    t.date + "," + t.account + "," + t.kind + "," + IntToString(t.amount) + "," + t.status + "," +
    "\"" + ReplaceQuotesAsWritten(t.description) + "\""
  }

  function CsvRows(items: seq<Item>): (r: seq<string>)
    ensures |r| == |items| && forall k :: 0 <= k < |items| ==> r[k] == CsvRow(items[k])
  {
    if items == [] then [] else [CsvRow(items[0])] + CsvRows(items[1..])
  }

  /** `lines.join("\n")` */
  function Join(lines: seq<string>): string {
    if lines == [] then "" else if |lines| == 1 then lines[0] else lines[0] + "\n" + Join(lines[1..])
  }

  /** The downloaded text: the header line, then one line per entry in order. */
  function Csv(items: seq<Item>): string {
    Header + Join(CsvRows(items))
  }

  /** Joining puts exactly one newline between consecutive lines and none after the
      last: the joined text of ls + [l] is that of ls, a newline, and l. */
  lemma {:induction false} JoinSnoc(ls: seq<string>, l: string)
    requires ls != []
    ensures Join(ls + [l]) == Join(ls) + "\n" + l
  {
    if |ls| == 1 {
      assert (ls + [l])[1..] == [l];
    } else {
      assert (ls + [l])[1..] == ls[1..] + [l];
      JoinSnoc(ls[1..], l);
    }
  }

  lemma {:induction false} CsvRowsSnoc(items: seq<Item>, t: Item)
    ensures CsvRows(items + [t]) == CsvRows(items) + [CsvRow(t)]
  {
    var a, b := CsvRows(items + [t]), CsvRows(items) + [CsvRow(t)];
    forall k | 0 <= k < |a| ensures a[k] == b[k] {
      if k < |items| {
        assert (items + [t])[k] == items[k];
      }
    }
  }

  /** The CSV of no entries is the header alone; of one more entry, the previous
      CSV, a newline and the entry's line (the header's own newline for the first). */
  lemma {:induction false} CsvSnoc(items: seq<Item>, t: Item)
    ensures Csv([]) == Header
    ensures Csv(items + [t]) == Csv(items) + (if items == [] then "" else "\n") + CsvRow(t)
  {
    var sep := if items == [] then "" else "\n";
    JoinRowsSnoc(items, t);
    AppendAssoc(Header, Join(CsvRows(items)), sep, CsvRow(t));
  }

  lemma {:induction false} JoinRowsSnoc(items: seq<Item>, t: Item)
    ensures Join(CsvRows(items + [t])) == Join(CsvRows(items)) + (if items == [] then "" else "\n") + CsvRow(t)
  {
    CsvRowsSnoc(items, t);
    if items != [] {
      JoinSnoc(CsvRows(items), CsvRow(t));
    }
  }

  lemma {:induction false} AppendAssoc(a: string, b: string, c: string, d: string)
    ensures a + (b + c + d) == a + b + c + d
  {
  }

  /** Reading one quoted field as section 2 of RFC 4180 defines it, given the text after
      the opening quote: a doubled quote stands for one quote, and a single quote ends
      the field, which must then end the text. */
  function ReadQuoted(s: string): Option<string> {
    if s == [] then None
    else if s[0] == '"' then
      if |s| == 1 then Some([])
      else if s[1] == '"' then
        match ReadQuoted(s[2..])
        case None => None
        case Some(rest) => Some("\"" + rest)
      else None
    else
      match ReadQuoted(s[1..])
      case None => None
      case Some(rest) => Some([s[0]] + rest)
  }

  /** As written, a description holding a quote produces a field that does not read
      back: `a"b` is written as `"a"b"`. */
  lemma {:induction false} QuoteBreaksField()
    ensures ReadQuoted(ReplaceQuotesAsWritten("a\"b") + "\"") == None
  {
    ReplaceIsIdentity("a\"b");
    assert ReplaceQuotesAsWritten("a\"b") + "\"" == "a\"b\"";
    assert "a\"b\""[1..] == "\"b\"";
  }

  /** Rule 7 of section 2 of RFC 4180: a quote inside a quoted field is doubled. */
  function EscapeQuotes(s: string): (r: string)
    ensures |r| >= |s|
  {
    if s == [] then [] else (if s[0] == '"' then "\"\"" else [s[0]]) + EscapeQuotes(s[1..])
  }

  /** With quotes doubled every description reads back unchanged. */
  lemma {:induction false} EscapeRoundTrip(s: string)
    ensures ReadQuoted(EscapeQuotes(s) + "\"") == Some(s)
  {
    if s == [] {
      assert EscapeQuotes(s) + "\"" == "\"";
    } else {
      EscapeRoundTrip(s[1..]);
      var tail := EscapeQuotes(s[1..]) + "\"";
      if s[0] == '"' {
        assert EscapeQuotes(s) + "\"" == "\"\"" + tail;
        assert ("\"\"" + tail)[2..] == tail;
      } else {
        assert EscapeQuotes(s) + "\"" == [s[0]] + tail;
        assert ([s[0]] + tail)[1..] == tail;
      }
      assert s == [s[0]] + s[1..];
    }
  }

  predicate NoQuote(s: string) {
    forall i :: 0 <= i < |s| ==> s[i] != '"'
  }

  /** Doubling quotes changes nothing in a text without a quote. */
  lemma {:induction false} EscapeWithoutQuotes(s: string)
    ensures NoQuote(s) ==> EscapeQuotes(s) == s
  {
    if s != [] && NoQuote(s) {
      assert NoQuote(s[1..]) by {
        forall i | 0 <= i < |s[1..]| ensures s[1..][i] != '"' {
          assert s[1..][i] == s[i + 1];
        }
      }
      EscapeWithoutQuotes(s[1..]);
      assert s == [s[0]] + s[1..];
    }
  }

  /** The CSV line with the description escaped as the standard asks. For a
      description without a quote it is the line the page writes, so the correction
      only changes the lines that as written do not read back. */
  function CsvRowEscaped(t: Item): (line: string)
    ensures NoQuote(t.description) ==> line == CsvRow(t)
  {
    ReplaceIsIdentity(t.description);
    EscapeWithoutQuotes(t.description);
    t.date + "," + t.account + "," + t.kind + "," + IntToString(t.amount) + "," + t.status + "," +
    "\"" + EscapeQuotes(t.description) + "\""
  }

  /** The description field of the escaped line is read back as the description. */
  lemma {:induction false} EscapedRowReadsBack(t: Item)
    ensures
      var prefix := t.date + "," + t.account + "," + t.kind + "," + IntToString(t.amount) + "," + t.status + ",\"";
      CsvRowEscaped(t)[..|prefix|] == prefix &&
      ReadQuoted(CsvRowEscaped(t)[|prefix|..]) == Some(t.description)
  {
    var prefix := t.date + "," + t.account + "," + t.kind + "," + IntToString(t.amount) + "," + t.status + ",\"";
    assert CsvRowEscaped(t) == prefix + (EscapeQuotes(t.description) + "\"");
    EscapeRoundTrip(t.description);
  }

  // ---------------------------------------------------------------------
  // Amounts and the expandable row

  /** The amount cell: "-" for a negative amount and "+" otherwise, then `|amount|`. */
  datatype AmountLabel = AmountLabel(sign: char, magnitude: nat)

  function Label(amount: int): (l: AmountLabel)
    ensures l.sign == '-' <==> amount < 0
    ensures l.sign == '-' || l.sign == '+'
    ensures (if l.sign == '-' then -(l.magnitude as int) else l.magnitude as int) == amount
  {
    AmountLabel(if amount < 0 then '-' else '+', Abs(amount))
  }

  /** Clicking the row that is open closes it; clicking any other row opens that one. */
  function Toggled(expanded: Option<int>, id: int): (r: Option<int>)
    ensures expanded == Some(id) ==> r.None?
    ensures expanded != Some(id) ==> r == Some(id)
  {
    if expanded == Some(id) then None else Some(id)
  }

  class ListPage {
    var expanded: Option<int>

    constructor ()
      ensures expanded.None?
    {
      expanded := None;
    }

    method Toggle(id: int)
      modifies this
      ensures expanded == Toggled(old(expanded), id)
    {
      expanded := if expanded == Some(id) then None else Some(id);
    }
  }

  /** Two clicks on the same row from a closed page, or from that row open, restore the page. */
  lemma {:induction false} ToggleTwice(expanded: Option<int>, id: int)
    requires expanded.None? || expanded == Some(id)
    ensures Toggled(Toggled(expanded, id), id) == expanded
  {
  }
}
