# First Choice Banking: a verified model of its decision logic

First Choice Banking is a Next.js demo bank. Its server routes keep accounts, a
transaction log, fixed deposits, credit cards and users in hosted tables. Its pages keep
a client-side store of accounts and transactions and run small forms and wizards over
it. This project models what those routes and pages decide, and proves properties of
that model:

- the money-moving routes and the client store, on an in-memory ledger;
- the account statement's totals and running balance;
- the filters, orderings and CSV rows of the transaction and deposit lists;
- the form checks and step machines of the deposit, transfer, card and login pages;
- the login and registration routes on the users table.

Modelling conventions:

- **Tables.** The tables are the class `Ledger.Store`. Each route is a method that
  makes the route's checks in order, then its writes in order.
- **Write failures.** Every write takes a `succeeds`/`...Ok` flag, so partial failures
  are stated, not hidden.
- **Inputs from outside.** The clock, random draws, ids the database assigns and the
  results of calls into code outside the model are parameters.
- **Money.** Money is an `int` in minor units (paise) in the ledger, the client store and
  the statement. The deposit and transfer wizards parse typed amounts to `real` rupees.
  A JavaScript `NaN` is modelled as `None`.
- **Lookups.** A `.single()` lookup finds a row only when exactly one row matches,
  because the hosted API answers an error for none or for several.

| module (file) | source |
|---|---|
| `Common`, `Seqs` (common.dfy, seqs.dfy) | values, numerals, `filter`/`find`/sort/`slice` shared by all |
| `Ledger` (ledger.dfy) | the hosted tables and their `eq`/`single`/`update`/`insert` operations |
| `AccountsRoute`, `CreditCardsRoute`, `TransferRoute`, `LegacyTransferRoute`, `TransactionsRoute`, `TransactionsQuery`, `FixedDepositsRoute`, `LoginRoute`, `RegisterRoute` | the API routes |
| `BankingContext` (banking_context.dfy) | the client store `BankingProvider` |
| `Statement` (statement.dfy) | `generateStatement` |
| `TransactionHistory`, `RecentTransactions` (transaction_pages.dfy) | the two transaction pages |
| `Dashboard`, `FixedDepositList` (dashboard.dfy) | the dashboard and the deposit list |
| `FixedDepositWizard`, `TransferWizard`, `LegacyTransferPage`, `CardApplication` | the deposit, transfer and card forms |
| `EmailCheck`, `LandingLogin`, `ForgotPassword`, `LockoutLogin` (login_pages.dfy) | the email check and the three sign-in pages |

## Model

| member | source | states |
|---|---|---|
| Ledger.Single | src/app/api/transfer/route.ts:36-40 | `.eq(c, v).single()` gives a row exactly when it is the one and only row whose column c is v; otherwise no row is the only match |
| Ledger.FirstFrom | src/app/api/transfer/route.ts:36-40 | finds the first row at or after a position whose column equals the value, and no earlier one |
| Ledger.SingleUser | src/app/api/auth/login/route.js:10-14 | `.from('users').eq(..).single()` gives the only user matching the key, or none when zero or several match |
| Ledger.FirstUserFrom | src/app/api/auth/register/route.ts:13-17 | finds the first user at or after a position matching the key, and no earlier one |
| Ledger.WithBalanceAt | src/app/api/transfer/route.ts:52-53 | after `update({balance: b}).eq(c, v)` each matching row has balance b; every other row is untouched; ids and numbers never change |
| Ledger.TotalBalanceAppend | src/app/api/accounts/route.ts:17-27 | inserting an account adds its balance to the total held |
| Ledger.TotalAfterWithBalance | src/app/api/transfer/route.ts:52-53 | setting the balance of the only matching row moves the total by the difference |
| Ledger.NoMatchUnchanged | src/app/api/transfer/route.js:23-24 | an update whose filter matches no row changes nothing |
| Ledger.OnlyMatchOwnId | src/app/api/transfer/route.ts:52 | with unique ids, an account is the only match for its own id |
| Ledger.UniqueIdsAppend | src/app/api/accounts/route.ts:17-27 | inserting a row with a fresh id keeps the primary key unique |
| Ledger.OnlyMatchAfterWithBalance | src/app/api/transfer/route.ts:52-53 | a balance update does not change which row a lookup finds |
| Ledger.WithBalanceKeepsIds | src/app/api/transfer/route.ts:52-53 | a balance update keeps ids unique |
| Ledger.LoggedForPair | src/app/api/transfer/route.ts:54-77 | the signed sum of a two-entry insert for an account, leg by leg |
| Ledger.SinglePostingReconciles | src/app/api/transactions/route.ts:40-75 | one entry for an existing account, with the balance moved by the entry's signed amount, reconciles: every account's change equals the signed sum of its new entries |
| Ledger.SharedNumberNotFound | src/app/api/transfer/route.js:8-13 | two accounts sharing a number make that number unusable for `.single()` lookups |
| Ledger.Store.UpdateBalance | src/app/api/transfer/route.ts:52-53 | the accounts table becomes the updated one when the write succeeds, stays as it was otherwise, and keeps unique ids |
| Ledger.Store.InsertEntries | src/app/api/transfer/route.ts:54-77 | a multi-row insert appends all entries or none |
| Ledger.Store.InsertAccount | src/app/api/accounts/route.ts:17-27 | appends the account on success; ids stay unique |
| Ledger.Store.InsertFixedDeposit | src/app/api/fixed-deposits/route.ts:52-68 | appends the deposit row on success, nothing otherwise |
| Ledger.Store.InsertCard | src/app/api/credit-cards/route.ts:18-31 | appends the card row on success, nothing otherwise |
| Ledger.Store.InsertUser | src/app/api/auth/register/route.ts:30-38 | appends the user row on success, nothing otherwise |
| Common.Reference | src/app/api/transfer/route.ts:47 | a reference is "TXN" followed by one or more decimal digits |
| Common.LastN | src/app/api/fixed-deposits/route.ts:51 | `slice(-n)` is the last n characters, or the whole string when it is shorter |
| Common.ToLower | src/app/transactions/page.tsx:202-204 | lower-casing keeps the length and maps each character |
| Common.ParseNatToString | src/app/api/accounts/route.ts:15 | the decimal numeral of n reads back as n |
| Common.NatToStringLength | src/app/api/accounts/route.ts:15 | a number with k digits has a numeral of exactly k characters |
| Common.ContainsEmpty | src/app/transactions/page.tsx:202-204 | every string includes the empty string |
| AccountsRoute.AccountNumberShape | src/app/api/accounts/route.ts:15 | every generated account number is ten digits, reading back as 1000000000 plus the draw |
| AccountsRoute.AccountNumbersCollide | src/app/api/accounts/route.ts:15 | two openings get the same number exactly when they drew the same value |
| AccountsRoute.NewAccount | src/app/api/accounts/route.ts:19-25 | the row carries the body's user, name and type, the generated number and `initialDeposit` (default 0) as balance |
| AccountsRoute.Opening | src/app/api/accounts/route.ts:34-46 | an 'Initial deposit' credit of exactly the balance is logged if and only if the balance is positive and its insert succeeds |
| AccountsRoute.Post | src/app/api/accounts/route.ts:6-53 | missing fields give 400 and a bad body gives 500, both with nothing written; otherwise the account is inserted and the opening entry logged; an insert error gives 500 with no entry; the entry's result is ignored and 201 comes back |
| AccountsRoute.OpeningReconciled | src/app/api/accounts/route.ts:24-34 | an opening reconciles exactly when the deposit is 0, or positive with its entry written; a negative deposit leaves a negative balance no entry explains |
| CreditCardsRoute.MaskedNumberShape | src/app/api/credit-cards/route.ts:16 | the masked number is "•••• " and four digits reading back as 1000 plus the draw |
| CreditCardsRoute.MaskedNumbersCollide | src/app/api/credit-cards/route.ts:16 | two cards share a masked number exactly when they drew the same value |
| CreditCardsRoute.NewCard | src/app/api/credit-cards/route.ts:18-31 | the card starts with balance 0, the whole limit available, and the masked number |
| CreditCardsRoute.Companion | src/app/api/credit-cards/route.ts:37-46 | the companion account shares the card's number and has type 'Credit Card', balance 0 and the card's limit |
| CreditCardsRoute.Post | src/app/api/credit-cards/route.ts:7-57 | missing fields give 400 with nothing written; a failed card insert gives 500 and creates no account; a failed account insert gives 500 and keeps the card; otherwise 201 with the card |
| CreditCardsRoute.CollisionHidesAccount | src/app/api/credit-cards/route.ts:16-42 | a card whose masked number an account already has makes both unreachable by number lookups |
| TransferRoute.Check | src/app/api/transfer/route.ts:18-41 | a request goes ahead only with both fields, a positive amount, the only account with that id as source holding at least the amount, and the only account with that number as destination |
| TransferRoute.CheckOutcomes | src/app/api/transfer/route.ts:18-41 | each refusal with its status and message: bad fields 400, unknown source 404, short balance 400 (decided before the destination lookup), unknown destination 404 |
| TransferRoute.Legs | src/app/api/transfer/route.ts:47-77 | exactly two entries: a debit on the source and a credit on the destination, of the same amount and with the same reference |
| TransferRoute.Post | src/app/api/transfer/route.ts:13-90 | a refusal answers the check's status and message with nothing written; otherwise each balance write and the insert take effect independently, and any failure gives 500; success gives 201 with the reference and both new balances |
| TransferRoute.Book | src/app/api/transfer/route.ts:44-85 | the writes after the checks: both balances come from the pre-write rows, and the table, log and response are as in `Post` |
| TransferRoute.AfterTransferAt | src/app/api/transfer/route.ts:44-53 | between two different accounts the source ends at balance − amount, the destination at balance + amount, and every other account is untouched |
| TransferRoute.TotalAfterTransfer | src/app/api/transfer/route.ts:51-53 | between two different accounts the total is conserved when both writes succeed and off by the amount when one fails |
| TransferRoute.SelfTransferGains | src/app/api/transfer/route.ts:44-53 | with source = destination the second write wins: the account gains the amount and so does the total |
| TransferRoute.TransferReconciles | src/app/api/transfer/route.ts:44-77 | a completed transfer between two accounts reconciles: each change equals the signed sum of its entries |
| TransferRoute.SelfTransferUnreconciled | src/app/api/transfer/route.ts:44-77 | a self-transfer never reconciles |
| LegacyTransferRoute.Check | src/app/api/transfer/route.js:8-21 | a request goes ahead only with a unique sender holding at least the amount and a unique recipient; all refusals are 400 |
| LegacyTransferRoute.CheckOutcomes | src/app/api/transfer/route.js:8-21 | unknown sender, then short balance (before the recipient lookup), then unknown recipient, each with its message; any amount passes otherwise |
| LegacyTransferRoute.Legs | src/app/api/transfer/route.js:26-29 | exactly two entries: −amount on the sender's number and +amount on the recipient's, neither with an account id |
| LegacyTransferRoute.Post | src/app/api/transfer/route.js:3-34 | a refusal is 400 with nothing written; otherwise sender then recipient balances are written from the stale reads, the entries are inserted, and 200 success comes back whatever the writes did |
| LegacyTransferRoute.AfterTransferAt | src/app/api/transfer/route.js:23-24 | between two different accounts the sender loses and the recipient gains the amount, and nothing else changes |
| LegacyTransferRoute.LegacyReconciles | src/app/api/transfer/route.js:23-29 | read by account number and signed amount, each change equals the sum of that account's logged amounts |
| LegacyTransferRoute.RawLoggedForPair | src/app/api/transfer/route.js:26-29 | the raw sum of the two legs for an account number, leg by leg |
| LegacyTransferRoute.NegativeAmountReverses | src/app/api/transfer/route.js:6-24 | a negative amount passes the check and moves money from the recipient to the sender |
| LegacyTransferRoute.SelfTransferGains | src/app/api/transfer/route.js:23-24 | sending to one's own number leaves the original balance plus the amount |
| LegacyTransferRoute.LegsInvisibleById | src/app/api/transfer/route.js:26-29 | the legacy entries carry no account id, so a log read by id sees nothing of them |
| TransactionsRoute.Check | src/app/api/transactions/route.ts:21-37 | goes ahead exactly when id, amount (non-zero) and type are given and one account has the id; no funds check |
| TransactionsRoute.CheckOutcomes | src/app/api/transactions/route.ts:21-37 | a missing field (amount 0 included) gives 400, an unknown account 404 |
| TransactionsRoute.NewEntry | src/app/api/transactions/route.ts:16-62 | the entry carries the body's fields with defaults 'General', 'completed' and now, the account's number and a "TXN" reference |
| TransactionsRoute.NewBalance | src/app/api/transactions/route.ts:40-41 | 'credit' adds the amount and every other type subtracts it; the status plays no part |
| TransactionsRoute.Post | src/app/api/transactions/route.ts:8-89 | refusals write nothing; the entry is inserted first; a failed insert gives 500 with the balance unchanged; a failed update gives 500 with the entry kept; success gives 201 with the entry |
| TransactionsRoute.PostingReconciles | src/app/api/transactions/route.ts:40-75 | with both writes done the posting reconciles |
| TransactionsRoute.HalfPostingUnreconciled | src/app/api/transactions/route.ts:72-82 | an entry whose balance update failed is left unexplained |
| TransactionsQuery.Get | src/app/api/transactions/route.js:3-26 | a query error is 500; otherwise 200 with exactly the stored entries matching every given filter, each as often as stored, newest first |
| TransactionsQuery.NoFilterReturnsAll | src/app/api/transactions/route.js:10-15 | with no parameters every stored entry comes back |
| TransactionsQuery.AllIsNoFilter | src/app/api/transactions/route.js:12-13 | a type or status of 'All' filters the same as leaving it out |
| FixedDepositsRoute.Check | src/app/api/fixed-deposits/route.ts:26-48 | goes ahead only with the three fields, a unique account with that number, and a balance not below the amount |
| FixedDepositsRoute.CheckOutcomes | src/app/api/fixed-deposits/route.ts:26-48 | missing field 400, unknown number 404, balance below the amount 400; a balance equal to the amount passes |
| FixedDepositsRoute.FdNumberShape | src/app/api/fixed-deposits/route.ts:51 | a deposit number is "FD" and six digits |
| FixedDepositsRoute.FdNumbersRepeat | src/app/api/fixed-deposits/route.ts:51 | any two bookings at multiples of 10^6 ms get the same number "FD000000" |
| FixedDepositsRoute.NewDeposit | src/app/api/fixed-deposits/route.ts:52-68 | the row copies the request, is 'active', has the FD number, and the body's user or else the account owner |
| FixedDepositsRoute.Funding | src/app/api/fixed-deposits/route.ts:86-98 | the funding entry is a debit of the amount on the account, category 'Fixed Deposit', description naming the FD number |
| FixedDepositsRoute.Post | src/app/api/fixed-deposits/route.ts:8-113 | refusals write nothing; a failed deposit insert gives 500 with no balance change and no entry; otherwise balance and entry are written independently, a failure of either gives 500 with the deposit kept, and success gives 201 |
| FixedDepositsRoute.Book | src/app/api/fixed-deposits/route.ts:50-108 | the writes after the checks, with the tables and response as in `Post` |
| FixedDepositsRoute.FundingReconciles | src/app/api/fixed-deposits/route.ts:78-99 | a fully booked deposit reconciles, leaves the funded account non-negative and turns no non-negative balance negative |
| FixedDepositsRoute.NegativeDepositCredits | src/app/api/fixed-deposits/route.ts:26-78 | a negative amount passes the checks and booking it raises the balance |
| LoginRoute.Public | src/app/api/auth/login/route.js:35 | the answer is the user record with every field but the password |
| LoginRoute.Lookup | src/app/api/auth/login/route.js:10-14 | the user is the only one holding the account number, or there is none |
| LoginRoute.Login | src/app/api/auth/login/route.js:4-48 | 200 with the public record exactly when a unique holder's password matches; every other failure is the same 401; a bad body is 500 |
| LoginRoute.LoginSucceedsIff | src/app/api/auth/login/route.js:10-39 | login succeeds exactly when one and only one user has the number and that user's password is the one given |
| LoginRoute.SharedAccountNumberLocksOut | src/app/api/auth/login/route.js:10-23 | two users with the same account number can never sign in |
| RegisterRoute.Existing | src/app/api/auth/register/route.ts:13-27 | the duplicate check reports a user exactly when one row has the email; a lookup fault other than "no row" is reported as such |
| RegisterRoute.NewRow | src/app/api/auth/register/route.ts:30-38 | the new user stores the email, the plain-text password and the name, with no account number |
| RegisterRoute.Post | src/app/api/auth/register/route.ts:4-50 | missing fields 400, a known email 409, a lookup fault 500, all without writing; otherwise one insert, success answering only id, email, name and creation time, failure 500 |
| RegisterRoute.RegisterKeepsEmailsUnique | src/app/api/auth/register/route.ts:13-38 | while emails are unique, an accepted registration keeps them unique |
| RegisterRoute.DuplicatesSlipThrough | src/app/api/auth/register/route.ts:13-21 | once two users share an email the check lets a third registration through |
| BankingContext.WithNewBalanceAt | src/context/BankingContext.tsx:153-161 | `updateAccount` gives the matching accounts the balance and `available` = balance − (credit limit or 0), and leaves every other account unchanged |
| BankingContext.WithNewBalanceKeepsIds | src/context/BankingContext.tsx:153-161 | the update keeps ids unique |
| BankingContext.AccountById | src/context/BankingContext.tsx:185-187 | the first account with the id, or none |
| BankingContext.AccountByNumber | src/context/BankingContext.tsx:173 | the first account with the number, or none |
| BankingContext.Stamped | src/context/BankingContext.tsx:164-168 | the stored entry is the input with id = clock and reference "TXN" + clock |
| BankingContext.Banking.constructor | src/context/BankingContext.tsx:47-59 | the store starts with the three demo accounts and the restored transactions, with no id shared by two accounts |
| BankingContext.Banking.UpdateAccount | src/context/BankingContext.tsx:153-161 | the accounts become the mapped list; ids stay unique |
| BankingContext.Banking.AddTransaction | src/context/BankingContext.tsx:163-183 | the stamped entry is returned and put in front of the existing ones, and the balances are posted; ids stay unique |
| BankingContext.Banking.GetAccountById | src/context/BankingContext.tsx:185-187 | an account comes back exactly when one has the id, and it is the first stored account with that id |
| BankingContext.PostingMovesOneAccount | src/context/BankingContext.tsx:173-179 | with unique ids, a credit raises and any other type lowers the first account with the entry's number by exactly the amount, with no funds check; no other account changes |
| BankingContext.PostingUnknownNumber | src/context/BankingContext.tsx:170-180 | an entry naming no account's number changes no balance |
| BankingContext.PostingTotal | src/context/BankingContext.tsx:173-179 | the total of all balances moves by the entry's signed amount, or not at all for an unknown number |
| BankingContext.TotalDiffersAt | src/app/dashboard/page.tsx:63 | lists differing in one balance differ in total by that difference |
| BankingContext.TotalSame | src/app/dashboard/page.tsx:63 | lists with the same balances have the same total |
| Statement.SummaryCloses | src/utils/generateStatement.ts:11-58 | credits and debits are non-negative, and opening + credits − debits = the current balance |
| Statement.SumOfNonNegative | src/utils/generateStatement.ts:11-17 | a sum of absolute amounts is non-negative |
| Statement.Reverse | src/utils/generateStatement.ts:80 | the copy is the entries in reverse order |
| Statement.SumOfReverse | src/utils/generateStatement.ts:80 | reversing does not change a sum |
| Statement.RowOf | src/utils/generateStatement.ts:88-97 | exactly one amount column is filled, the credit one iff the type is 'credit', with the absolute amount; the reference falls back to the id |
| Statement.Rows | src/utils/generateStatement.ts:77-98 | row k shows entry `n − 1 − k` with the running balance of the loop as written after k + 1 steps |
| Statement.AsWrittenLastRow | src/utils/generateStatement.ts:77-86 | as written the last row shows balance − 2·credits + 2·debits + others, not the closing balance |
| Statement.AsWrittenCounterexample | src/utils/generateStatement.ts:77-86 | one credit of 100 on a balance of 100: opening 0, and the row shows −100 |
| Statement.IntendedLastRow | src/utils/generateStatement.ts:55-86 | with the corrected step the last row shows the closing balance |
| TransactionHistory.Filtered | src/app/transactions/page.tsx:200-230 | exactly the entries matching search, account, type and date range, each as often as stored, as an order-keeping subsequence |
| TransactionHistory.Sorted | src/app/transactions/page.tsx:233-235 | a permutation of the filtered list, newest first |
| Seqs.SortDescStable | src/app/transactions/page.tsx:233-235 | the newest-first copy is stable: entries with equal dates keep their stored order, as `Array.prototype.sort` does (the dashboard's recent list uses the same sort) |
| TransactionHistory.EmptySearchMatches | src/app/transactions/page.tsx:202-204 | an empty search term matches every entry |
| TransactionHistory.SearchFindsOwnText | src/app/transactions/page.tsx:202-204 | searching for an entry's own description or reference, in any letter case, finds that entry |
| TransactionHistory.DefaultsKeepAll | src/app/transactions/page.tsx:177-230 | the initial filters keep every entry in order |
| TransactionHistory.EndOfDayInclusive | src/app/transactions/page.tsx:218-227 | the end date admits the last millisecond of its day and nothing after |
| TransactionHistory.HistoryPage.constructor | src/app/transactions/page.tsx:177-181 | the page starts with the default filters: empty search, 'all' accounts and types, no dates |
| TransactionHistory.HistoryPage.ResetFilters | src/app/transactions/page.tsx:238-244 | the filters return to '', 'all', 'all', no dates |
| RecentTransactions.Filtered | src/app/transactions/page.js:79-85 | exactly the entries passing the type, status and date filters, in order |
| RecentTransactions.DefaultsKeepAll | src/app/transactions/page.js:74-85 | 'All', 'All' and no date keep every entry |
| RecentTransactions.ReplaceIsIdentity | src/app/transactions/page.js:60 | the quote replacement as written changes nothing |
| RecentTransactions.QuoteBreaksField | src/app/transactions/page.js:60 | a description with a quote then yields a field that does not read back under section 2 of RFC 4180 |
| RecentTransactions.CsvRows | src/app/transactions/page.js:57-61 | one row per entry, in order |
| RecentTransactions.CsvSnoc | src/app/transactions/page.js:56-63 | the CSV of no entries is the header and newline; each further entry adds one line, with "\n" between lines and none after the last |
| RecentTransactions.JoinSnoc | src/app/transactions/page.js:62 | `join("\n")` puts exactly one newline between consecutive lines |
| RecentTransactions.EscapeRoundTrip | src/app/transactions/page.js:60 | with quotes doubled, every description reads back unchanged as a quoted field |
| RecentTransactions.CsvRowEscaped | src/app/transactions/page.js:57-61 | for a description without a double quote the corrected line is exactly the as-written line; otherwise the quotes are doubled inside the quoted field |
| RecentTransactions.EscapeWithoutQuotes | src/app/transactions/page.js:60-60 | doubling quotes leaves a text without a double quote unchanged |
| RecentTransactions.EscapedRowReadsBack | src/app/transactions/page.js:60 | the corrected row's description field reads back as the description |
| RecentTransactions.Label | src/app/transactions/page.js:148-149 | the sign is "-" exactly for a negative amount, and sign with magnitude gives the amount back |
| RecentTransactions.Toggled | src/app/transactions/page.js:155 | clicking the open row closes it; clicking another opens that one |
| RecentTransactions.ListPage.constructor | src/app/transactions/page.js:77 | no row is expanded at first |
| RecentTransactions.ListPage.Toggle | src/app/transactions/page.js:155 | the `expanded` state is replaced by the toggled value |
| RecentTransactions.ToggleTwice | src/app/transactions/page.js:155 | two clicks on the same row restore the page |
| Dashboard.Recent | src/app/dashboard/page.tsx:64-66 | at most five entries, newest first, drawn from the list; all of them when there are at most five |
| Dashboard.RecentIsNewest | src/app/dashboard/page.tsx:64-66 | no entry left out is newer than the last one shown |
| Dashboard.StatementInput | src/app/dashboard/page.tsx:68-74 | no statement for an unknown id; otherwise the first account whose id prints as the text, and exactly its entries by number, in order |
| FixedDepositList.Filtered | src/app/fixed-deposits/page.tsx:78-80 | 'all' keeps every deposit; otherwise exactly the deposits with that status |
| FixedDepositList.TotalSplits | src/app/fixed-deposits/page.tsx:82 | the total over all deposits splits into the totals over one status and over the rest |
| FixedDepositList.CountsBounded | src/app/fixed-deposits/page.tsx:83-84 | the active and matured deposits are disjoint and their counts sum to at most the number of deposits |
| FixedDepositList.CeilDays | src/app/fixed-deposits/page.tsx:194 | the ceiling of a millisecond span in days |
| FixedDepositList.IsMatured | src/app/fixed-deposits/page.tsx:194-195 | matured exactly when the maturity date is not after now, whatever the stored status |
| FixedDepositList.CardOf | src/app/fixed-deposits/page.tsx:242-270 | renew is offered exactly when matured, and the countdown, at least a day, exactly otherwise |
| FixedDepositList.StatusColor | src/app/fixed-deposits/page.tsx:52-62 | 'active' and 'matured' have their own colours; every other status looks like 'closed' |
| FixedDepositWizard.RateTable | src/app/fixed-deposits/new/page.tsx:28-114 | a listed tenure gets its rate, any other tenure 6.5, and every rate lies in [5.5, 8.25] |
| FixedDepositWizard.RatesRiseWithTenure | src/app/fixed-deposits/new/page.tsx:28-40 | a longer listed tenure never earns less |
| FixedDepositWizard.MaturityAmount | src/app/fixed-deposits/new/page.tsx:83-91 | principal × (1 + rate/100 × tenure/12), 0 for an unreadable principal, never below the principal |
| FixedDepositWizard.MonthlyInterest | src/app/fixed-deposits/new/page.tsx:93-100 | a number exactly when the tenure is not 0 |
| FixedDepositWizard.MonthlyTimesTenure | src/app/fixed-deposits/new/page.tsx:83-100 | monthly interest × tenure = the maturity amount less the principal |
| FixedDepositWizard.Step1Accepts | src/app/fixed-deposits/new/page.tsx:124-137 | step 1 passes exactly with a source, an amount not below 10,000 and, for a known account, within its balance; the messages come in that order; an unknown source skips the balance check |
| FixedDepositWizard.UnreadableAmountPasses | src/app/fixed-deposits/new/page.tsx:129-134 | an amount `parseFloat` cannot read loses both comparisons and passes step 1 |
| FixedDepositWizard.Step2Accepts | src/app/fixed-deposits/new/page.tsx:139-151 | step 2 passes exactly with a nominee, a relation and a ten-character mobile number |
| FixedDepositWizard.Wizard.constructor | src/app/fixed-deposits/new/page.tsx:46-63 | step 1, twelve months at 6.5 percent, everything else empty |
| FixedDepositWizard.Wizard.ChooseTenure | src/app/fixed-deposits/new/page.tsx:111-119 | the tenure is set and the rate follows the table |
| FixedDepositWizard.Wizard.Next | src/app/fixed-deposits/new/page.tsx:123-155 | all checks passed: error cleared and step + 1; otherwise the step stays and the first failing message shows |
| FixedDepositWizard.Wizard.Back | src/app/fixed-deposits/new/page.tsx:157-164 | one step back with the error cleared, or leaving the page from step 1; never below 1 |
| FixedDepositWizard.Wizard.Submit | src/app/fixed-deposits/new/page.tsx:166-197 | success records the number and shows step 4; failure keeps the step and shows the error; submitting ends either way |
| TransferWizard.Step1Accepts | src/app/transfer/page.tsx:59-66 | step 1 passes exactly with a source and an amount that is typed and not ≤ 0; a missing source is reported first |
| TransferWizard.NonPositiveAmountBlocksEveryStep | src/app/transfer/page.tsx:63-66 | by the grouping of the condition, a non-positive amount blocks Next at every step |
| TransferWizard.Step2Accepts | src/app/transfer/page.tsx:67-74 | step 2 needs the recipient account, then the recipient name |
| TransferWizard.FailureMessage | src/app/transfer/page.tsx:105-112 | the shown failure is the server's error, or the thrown message, never empty |
| TransferWizard.Wizard.constructor | src/app/transfer/page.tsx:34-48 | step 1, empty fields, no outcome yet |
| TransferWizard.Wizard.Next | src/app/transfer/page.tsx:58-77 | all checks passed: error cleared and step + 1; otherwise step kept and the first failing message shown |
| TransferWizard.Wizard.Back | src/app/transfer/page.tsx:79-86 | back one step with the error cleared, or leave from step 1 |
| TransferWizard.Wizard.Submit | src/app/transfer/page.tsx:88-117 | success: step 4 with the server's reference; failure: step kept, error set, `transferSuccess` false; submitting ends |
| LegacyTransferPage.GeneratedNumbersPass | src/app/transfer/page.js:54 | numbers made by the account route pass the recipient check; masked card numbers do not |
| LegacyTransferPage.IfscExamples | src/app/transfer/page.js:58 | a well-formed code passes; lower case, a non-zero fifth character or a short code fail |
| LegacyTransferPage.SubmitAccepts | src/app/transfer/page.js:54-66 | the form goes on exactly when recipient, IFSC and amount pass, reported in that order |
| LegacyTransferPage.Page.constructor | src/app/transfer/page.js:7-18 | loading, step 1, everything empty |
| LegacyTransferPage.Page.Load | src/app/transfer/page.js:20-45 | no stored account gives "Not logged in"; a failed request gives "Failed to load accounts"; otherwise the accounts are shown and the source defaults to the first; loading ends |
| LegacyTransferPage.Page.Submit | src/app/transfer/page.js:51-67 | clears the error, then shows the first failing check or moves to step 2; on a loaded page a failed check leaves only its message on screen |
| LegacyTransferPage.Page.Confirm | src/app/transfer/page.js:69-73 | step 3 with a reference "TXN" and at most nine digits reading back as the draw |
| LegacyTransferPage.Page.BackToForm | src/app/transfer/page.js:163-172 | back to the form |
| LegacyTransferPage.ScreenIntended | src/app/transfer/page.js:75-77 | a loaded page with accounts always shows the form, with any message inside it |
| LegacyTransferPage.ValidationErrorHidesForm | src/app/transfer/page.js:76 | as written, a failed check on a loaded page replaces the form with the bare message |
| LegacyTransferPage.IntendedKeepsForm | src/app/transfer/page.js:75-77 | corrected, a failed check keeps the form and the loading errors still take the page |
| CardApplication.LimitOf | src/app/credit-cards/apply/page.tsx:38 | an unreadable limit becomes 0; a readable one is kept |
| CardApplication.LimitError | src/app/credit-cards/apply/page.tsx:46-49 | refused exactly below 10,000 |
| CardApplication.UnreadableLimitRefused | src/app/credit-cards/apply/page.tsx:38-46 | an unreadable limit is refused |
| CardApplication.Application.constructor | src/app/credit-cards/apply/page.tsx:16-24 | empty name, 'Standard', limit 50,000, nothing submitted |
| CardApplication.Application.Prefill | src/app/credit-cards/apply/page.tsx:26-30 | the holder name becomes the user's full name when it is set |
| CardApplication.Application.EditLimit | src/app/credit-cards/apply/page.tsx:32-40 | the limit field takes the parsed value or 0 |
| CardApplication.Application.Submit | src/app/credit-cards/apply/page.tsx:42-71 | below 10,000: error shown and nothing else touched; otherwise a card records its number and success, no card or an exception shows its error, and submitting ends |
| EmailCheck.LooksLikeEmailIff | src/app/page.tsx:39 | the position-based check holds exactly when some substring matches `\S+@\S+\.\S+` (the pattern is unanchored) |
| EmailCheck.PositionsGivePattern | src/app/page.tsx:39 | an '@' and a later '.' with non-space around them give a match |
| EmailCheck.PatternGivesPositions | src/app/page.tsx:39 | a match gives such positions |
| EmailCheck.EmailExamplesPass | src/app/forgot-password/page.tsx:25 | a plain address and one embedded in text pass |
| EmailCheck.EmailExamplesFail | src/app/forgot-password/page.tsx:25 | no dot after the '@', or a space before it, fails |
| LandingLogin.FindUser | src/app/page.tsx:53-55 | a user is found exactly when some demo user has this email and password |
| LandingLogin.LoginSucceedsIff | src/app/page.tsx:28-66 | sign-in succeeds exactly with both fields, a well-formed email, a valid CAPTCHA and matching credentials; empty fields are reported first |
| LandingLogin.DemoUserSignsIn | src/app/page.tsx:10-57 | the first demo user signs in; a wrong password does not |
| LandingLogin.Page.constructor | src/app/page.tsx:16-19 | empty fields, no session |
| LandingLogin.Page.Login | src/app/page.tsx:28-66 | success stores the whole matched record (password included) as the session; failure shows the first failing message and clears the CAPTCHA text after a CAPTCHA or credential failure |
| ForgotPassword.Page.constructor | src/app/forgot-password/page.tsx:9-12 | empty email, no message, not loading |
| ForgotPassword.Page.Submit | src/app/forgot-password/page.tsx:14-52 | an empty or malformed email shows its error; a valid one gets the same neutral message and clears the field; loading ends |
| LockoutLogin.Text | src/app/login/page.js:38-61 | only the absence of a notice shows nothing |
| LockoutLogin.CaptchaAnswer | src/app/login/page.js:27-32 | the expected answer is the numeral of a + b, from 2 to 20 |
| LockoutLogin.Classify | src/app/login/page.js:37-51 | the right branch needs the valid account, password and CAPTCHA; a credential branch is reached exactly when not locked, the account has ten digits and the CAPTCHA is right |
| LockoutLogin.Page.constructor | src/app/login/page.js:6-19 | no failures, not locked, a fresh CAPTCHA |
| LockoutLogin.Page.Login | src/app/login/page.js:34-66 | while locked nothing counts; a bad account or CAPTCHA counts no failure (a wrong CAPTCHA is regenerated); right credentials open 2FA; wrong ones add one failure, lock at three and show 3 − count attempts left; the lock follows the count |
| LockoutLogin.Page.Reset | src/app/login/page.js:68-82 | a non-empty email unlocks and zeroes the count; an empty one changes nothing |
| LockoutLogin.Page.Verify | src/app/login/page.js:84-97 | signs in with the account exactly when the typed code is the issued one; otherwise shows the OTP error |

## Left out

- Writes run in parallel through `Promise.all` in the transfer and fixed-deposit routes. They are modelled as sequential writes in the source's order, each with its own success flag. Interleavings with other requests are not modelled.
- JavaScript numbers are doubles. Ledger amounts are integers in minor units, and the wizards' interest figures are `real`. The `real` model has no rounding.
- The following are not modelled: `Intl.NumberFormat` and `toLocaleString` formatting, date parsing and formatting, time zones, and month arithmetic for maturity dates. Dates are integer millisecond timestamps passed in.
- The following are parameters: `Date.now`, `Math.random`, ids the database assigns, the `react-simple-captcha` verdict, `parseFloat`/`parseInt` results, and the results of `addFixedDeposit`/`addCreditCard`. Those two context members are not part of the shown `BankingContextType`.
- FixedDepositList, CardApplication.Application.Prefill, CardApplication.Application.Submit: the deposit list and the signed-in user are parameters. The deposit-list page reads `fixedDeposits` from the shared context, and the card page reads `user`. The shown `BankingContextType` and its provider value (src/context/BankingContext.tsx:27-33 and 188-198) supply neither. As written, `fixedDeposits` is `undefined`, so `fixedDeposits.filter` at src/app/fixed-deposits/page.tsx:78 throws before anything renders. `user` is `undefined` too, so the card page stays on its loading screen (src/app/credit-cards/apply/page.tsx:73). The model covers the pages as they would behave if the context supplied these values.
- TransactionsRoute.Post, FixedDepositsRoute.Post: the amount is an integer, so the model does not cover a JSON string amount. In JavaScript the string `"0"` would pass `!amount` at src/app/api/transactions/route.ts:21, and the model refuses 0. A credit would concatenate a string amount onto the balance at route.ts:40-41. In the fixed-deposit route, a non-numeric string makes `balance < amount` false at src/app/api/fixed-deposits/route.ts:46, and the subtraction then writes NaN.
- LegacyTransferRoute.Post, TransferRoute.Post: the amount (and, in the legacy route, `from` and `to`) is taken as present and numeric. In JavaScript a missing amount or one sent as a string would make the balance check compare with NaN or the updates concatenate strings; the model's amount is an integer because the transfer pages send the result of `parseFloat`/`Number`.
- One clock value `now` stands for every `Date.now()`/`new Date()` read within one call. The fixed-deposit route reads the clock separately for the deposit number, the entry date and the entry reference, and `addTransaction` reads it for the id and the reference. Readings a millisecond apart are not modelled.
- TransactionHistory: dates are millisecond timestamps, and the filter's start and end days are given as the first millisecond of each day. The page parses the start date as UTC midnight but moves the end date to 23:59:59.999 local time. The two agree only when local time is UTC, and the model follows that case.
- A `catch` is taken only for a body that is not JSON. Other exceptions inside the routes are not modelled.
- JSX rendering, routing, `fetch`, `localStorage` persistence, the HTML/PDF/print output and `window.open` are not modelled. The restored transactions are a constructor parameter of `BankingContext.Banking`.
- Common.ToLower: lower-cases ASCII letters only, not the full Unicode case mapping of `toLowerCase`.
- Dashboard: `totalBalance` counts a missing balance as 0. Balances in the model are never missing, so the total is `BankingContext.Total` and its lemmas.
- `getFromAccount` in the transfer wizard compares a numeric id with a string using `===`. It only affects what is displayed, so it is not modelled.
- The legacy route reads `method` and `ifsc` but never uses them, so the model's request leaves them out.
- LockoutLogin.Page.Reset: the two-second timer is collapsed into one step. The intermediate `resetSent` screen is not modelled.
- FixedDepositWizard: the maturity date computed at submit and a tenure that is `NaN` are not modelled.
- The statement builds its HTML string step by step. Only the row values it interpolates are modelled.
- Statement.IntendedRows: states only the row count. The corrected running balance is stated by Statement.IntendedLastRow.
- Seqs.InsertDesc states only its length and first element. Its permutation and ordering are the lemmas beside it.
- TransactionHistory: the PDF export gets `Filtered` in stored order. That is the function itself; the export is not modelled.

## Findings

| source | as written | input that shows it | evidently intended | confidence | as-written member | corrected member |
|---|---|---|---|---|---|---|
| src/utils/generateStatement.ts:77-86 | the running balance starts at the opening balance and subtracts each credit while walking forward | one credit of 100 on an account holding 100: opening 0, and the row shows −100 instead of 100 | walking from the opening balance, add credits and subtract debits so the last row shows the current balance | not executed | Statement.AsWrittenCounterexample | Statement.IntendedLastRow |
| src/app/transactions/page.js:60 | `replace(/\"/g, '"')` replaces a quote with a quote | the description `a"b` gives the field `"a"b"`, which does not read back | double each embedded quote, as rule 7 of section 2 of RFC 4180 requires | not executed | RecentTransactions.QuoteBreaksField | RecentTransactions.EscapedRowReadsBack |
| src/app/transfer/page.js:76 | any error, a validation error included, replaces the whole page | a loaded page with a 9-digit recipient shows only "Recipient Account Number must be 10 digits." with no form to correct | only loading errors replace the page; a validation error is shown with the form | not executed | LegacyTransferPage.ValidationErrorHidesForm | LegacyTransferPage.IntendedKeepsForm |
