# MyKewangan ledger and period report, in Dafny

MyKewangan is a personal-finance bot. Users record inflows (`masuk`) and
outflows (`keluar`) with an optional category (`kategori`) and note (`nota`),
and ask for daily (`harian`), weekly (`mingguan`) or monthly (`bulanan`) reports.
This project models the two parts of the bot that hold logic:

- **The ledger store** (`database.py`). A table of users and a table of
  transactions behind a small set of operations: lazy user upsert, insert,
  delete scoped to the owner, period listing newest first, all-time balance,
  distinct categories, full listing and count. `Ledger.Store` is a class
  holding the two tables as sequences of row values, plus the next value of
  each auto-increment key. The three writing operations are methods with
  `modifies`. The five read-only queries are functions that read the store.
- **The period report** (`laporan.py`). `Report.GenerateReport` maps the
  period keyword to a start day and reads the period's rows and the all-time
  balance. It then runs the accumulation loop (`Report.Tally`): inflow total,
  outflow total, and per-category outflow subtotals in an insertion-ordered
  dictionary. It ranks the categories with a stable descending sort and
  assembles the report lines, the last ones in a loop
  (`Report.AppendCategoryLines`).

Supporting modules:

- `Calendar` numbers dates the way Python's `date.toordinal()` does. It
  defines `weekday()` (0 = Monday) and the first day of each period. Time
  stamps are whole microseconds on the local clock, as `datetime.now` keeps
  them, and day ordinal `d` starts at microsecond `d * 86_400_000_000`.
- `Sorting` holds the stable descending insertion sort. It stands for
  `ORDER BY tarikh DESC` and for Python's `sorted(..., reverse=True)`.
- `Wrappers` holds `Option`, used for nullable columns and missing rows.

"Today" and "now" are parameters. Amounts are exact integers (for example sen)
instead of floats. The report is a sequence of `ReportLine` values, not text.

## Model

| member | source | states |
|---|---|---|
| `Calendar.PeriodStartDefinedIff` | database.py:79-86 | A period start exists exactly for the three keywords `harian`, `mingguan`, `bulanan`. |
| `Calendar.PeriodStartBounds` | database.py:79-84 | Daily starts today. Weekly starts on a Monday at most six days back. Monthly starts `day - 1` days back, on day 1. Every period contains today. |
| `Calendar.MondayOfWeek` | database.py:82 | `today - weekday()` is a Monday, zero to six days before today. |
| `Calendar.AfterMidnightIff` | database.py:88-92 | A time stamp is at or after local midnight of the start day exactly when it falls on that day or later. |
| `Calendar.FirstOrdinalIsMonday` | database.py:82 | The day numbering behind `weekday()` starts at 1 January of year 1, a Monday. |
| `Calendar.LeapDayOrdinal` | database.py:84 | The numbering counts leap days: 29 February 2024 is day 738945, a Thursday. |
| `Sorting.SortDesc` | database.py:93 | The result is a permutation of the input, ordered by non-increasing key. |
| `Sorting.InsertDesc` | database.py:93 | Inserting into a descending list keeps it descending and adds exactly the one element. |
| `Sorting.SortDescStable` | laporan.py:54 | For every key value, items with that key keep their input order (stable sort, even with `reverse=True`). |
| `Ledger.Owned` | database.py:91 | `user_id == uid` keeps exactly the rows of that user. |
| `Ledger.Since` | database.py:92 | `tarikh >= start` keeps exactly the rows stamped at or after the start. |
| `Ledger.CountOwned` | database.py:130-132 | The count equals the number of the user's rows. |
| `Ledger.Categories` | database.py:120-124 | A category is listed exactly when some row of that user has it as a non-NULL `kategori`. |
| `Ledger.FindUser` | database.py:51 | The lookup finds a user with that `telegram_id`, or finds none exactly when no such user exists. |
| `Ledger.FindOwned` | database.py:109-112 | The lookup finds the first row with both that `id` and that owner, or finds none exactly when no row matches both. |
| `Ledger.TotalPermutation` | database.py:96-104 | A `jenis` sum does not depend on row order. |
| `Ledger.BalanceIsNet` | database.py:95-106 | Inflow sum minus outflow sum equals a one-pass running balance: plus `masuk`, minus `keluar`, nothing for other `jenis` or other users. |
| `Ledger.BalanceOfNoRows` | database.py:96-106 | A user with no rows has balance 0, because an empty sum reads as 0. |
| `Ledger.BalanceAfterAdd` | database.py:60-73 | Inserting a row changes its owner's balance by the row's signed amount and no other user's balance. |
| `Ledger.BalanceAfterRemove` | database.py:108-118 | Deleting a row takes its signed amount back out of its owner's balance. |
| `Ledger.OwnedAfterAppend` | database.py:70-71 | An inserted row joins its owner's rows, at the end, and no one else's. |
| `Ledger.OwnedAfterRemove` | database.py:114-116 | Deleting a row leaves every other user's rows unchanged. The owner's rows lose exactly that row: one fewer, and the same rows otherwise. |
| `Ledger.FindUserAfterAppend` | database.py:50-57 | After a user is appended, lookup by an existing `telegram_id` still finds the old row. A new id finds the appended row. |
| `Ledger.RemoveAtKeys` | database.py:114-116 | Deleting a row keeps transaction ids increasing, and the deleted id no longer appears. |
| `Ledger.Store.constructor` | database.py:39-40 | A new store has empty tables and valid keys. |
| `Ledger.Store.GetOrCreateUser` | database.py:50-57 | Returns the existing row for the Telegram id and changes nothing. Otherwise it appends one row with status `free`, `auto_laporan` `off`, no subscription and the next id. Either way a later lookup finds that row, so a second call is a no-op. |
| `Ledger.Store.AddTransaction` | database.py:60-73 | Appends exactly one row with the given fields, the next id and `tarikh = now`. The owner's count grows by one and their balance moves by the signed amount. Every other user's rows are unchanged. |
| `Ledger.Store.DeleteTransaction` | database.py:108-118 | If a row has both the id and the owner, it is removed and returned, and the owner's count and balance drop accordingly. Otherwise nothing changes and None is returned. Other users' rows never change. |
| `Ledger.Store.GetTransactions` | database.py:75-93 | Unknown period: `[]`. Otherwise: exactly the user's rows dated on or after the period's first day, each as often as in the table, newest first. |
| `Ledger.Store.GetBalance` | database.py:95-106 | The user's all-time running balance: inflows minus outflows, other `jenis` ignored. |
| `Ledger.Store.GetKategori` | database.py:120-124 | The distinct non-NULL categories of that user's rows only. |
| `Ledger.Store.GetAllTransactionsByUser` | database.py:126-128 | All and only the user's rows, newest first. The length equals `count_transactions`. |
| `Ledger.Store.CountTransactions` | database.py:130-132 | The number of the user's rows. |
| `Report.ReportTitle` | laporan.py:12-23 | A title exists exactly for the three keywords. The weekly title ends six days after it starts. |
| `Report.WeeklyTitleSpan` | laporan.py:15-18 | The weekly title spans Monday to Sunday and contains today. |
| `Report.Accumulate` | laporan.py:42 | `kategori_totals[k] += amt`: the keys stay as they were, or the new key is appended last. The sum of values grows by `amt`. |
| `Report.AccumulateLookup` | laporan.py:42 | Only key `k`'s amount changes, by `amt`. A missing key starts from 0 (`defaultdict(float)`). |
| `Report.CategoryNamesDistinct` | laporan.py:34-42 | Each category appears once in the breakdown. |
| `Report.CategoryNamesIff` | laporan.py:39-42 | A category appears exactly when some `keluar` row carries it as a non-empty category. Inflows and uncategorised rows add none. |
| `Report.CategorySubtotal` | laporan.py:39-42 | Each category's subtotal is the outflow recorded under that category. |
| `Report.CategorySumIsCategorisedOutflow` | laporan.py:36-42 | The subtotals add up to `total_keluar` minus the uncategorised outflow. |
| `Report.CategoryOrderIsFirstSeen` | laporan.py:34-42 | The breakdown lists categories in the order they are first seen in the period's rows. |
| `Report.CategoryRanking` | laporan.py:51-54 | The ranked list is a permutation of the subtotals, in non-increasing order. Equal subtotals keep first-seen order. |
| `Report.ExampleMonthTotals` | laporan.py:32-48 | For the worked month (in 100.00; out 30.00, 20.00 and 10.00), the totals are 100.00 in, 60.00 out, balance 40.00. |
| `Report.ExampleMonthCategories` | laporan.py:51-56 | In the same month transport is seen first, yet food 50.00 ranks above transport 10.00. |
| `Report.AllTimeTotalsMatchBalance` | laporan.py:27 | Summing all of a user's rows the way the report does gives `get_balance`. |
| `Report.Tally` | laporan.py:32-42 | The loop computes the `masuk` sum, the `keluar` sum and the category dictionary of the period's rows. |
| `Report.AppendCategoryLines` | laporan.py:55-56 | Appends one line per ranked category, in ranking order, after the existing lines. |
| `Report.Summarise` | laporan.py:32-56 | Builds title, inflow, outflow and balance lines, then a header and one line per ranked category when any exist. |
| `Report.GenerateReport` | laporan.py:8-58 | Unknown period: only the invalid-period message, whatever the store holds. No rows: the title and the "no transactions" line, with no totals and no balance. Otherwise: 4 lines (title, period inflow, period outflow, all-time balance), plus a header and one line per category, ranked, when any outflow has a category. |

## Notes on the source

- The category breakdown and `get_kategori` filter differently. The report
  skips a category that is NULL or empty (`if t.kategori:`).
  `get_kategori` drops only NULL, so an empty string is listed. The model
  keeps both behaviours (`Report.Truthy`, `Ledger.Categories`).
- `add_transaction` does not check that the user exists, and nothing in
  `database.py` or `laporan.py` checks that an amount is positive. The model
  adds neither check.
- `get_or_create_user` does not update the name of an existing user. The
  model returns the stored row unchanged.
- The balance line is the all-time balance. It is not the period's
  `total_masuk - total_keluar`.
- The subscription engine (premium activation, access check, expiry sweep,
  free-tier quota) and the payment webhook are not part of this model. In
  `main.py` their handlers are placeholders whose bodies are `pass`.

## Left out

- Subscription, payment and quota logic: `premium_only`, `toyyibpay_callback`
  and `downgrade_users_cron` have no visible body (main.py:48-66). Only the
  constant `FREE_TRANSACTION_LIMIT = 100` is visible. User rows carry the
  subscription columns, but no modelled operation changes them.
- The ToyyibPay HTTP client (`toyyibpay.py`), the Telegram and Starlette
  wiring (`main.py`) and the scheduled report loop (`scheduler.py`) are I/O
  and are not modelled.
- Engine, session, commit and refresh (`init_db`, `get_db`): the store is
  one in-memory object, and every operation is atomic.
- Float arithmetic: amounts are exact integers, so float rounding in sums is
  not modelled.
- Time zones and clocks: `datetime.now(tz)` becomes the parameters `today` and
  `now`. Time stamps are microseconds on one local clock, so `pytz` localisation and
  DST are not modelled. `get_transactions` and `generate_report_text` each
  read the clock. The model gives both the same `today`, so a call that spans
  midnight is not modelled.
- Text rendering: the report is structured lines. The following are not
  modelled: `strftime` titles, emoji, `:.2f` amounts, blank separator lines,
  `str.capitalize` of category names (which can show two distinct categories
  with the same label), and the final `"\n".join`.
- `Ledger.Store.GetTransactions` and `Ledger.Store.GetAllTransactionsByUser`: SQL leaves the order
  of rows with equal `tarikh` unspecified. The model picks one such order:
  table order among equal stamps. Stamps are kept to the microsecond, so only
  rows written within the same microsecond can tie.
- Report.ReportTitle: the weekly title's end `start_date + timedelta(days=6)`
  raises `OverflowError` when today is 27 to 31 December 9999, because the
  Sunday would fall after `date.max`. The model gives that week a title ending
  on ordinal 3652061 and builds the report; the error is not modelled.
