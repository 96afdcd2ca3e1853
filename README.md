# Egg farm dashboard — record-keeping core in Dafny

The egg farm app is a Streamlit dashboard over a Google spreadsheet with three
append-only tables: Daily_Log, Sales and Flock. Three forms each append one
positional row. The dashboard re-reads every table and derives its figures from
scratch. The figures are the current flock size (a fold over the Flock ledger),
the total of eggs collected, the total revenue and a per-date sales series.
The sidebar also builds Google Calendar reminder links.

This project models that logic and proves what it promises:

- `records.dfy` (`Records`): the three table rows as datatypes, plus the flock
  form's two actions with their labels. Dates are day numbers and money is cents.
  It also holds the part of each row that the dashboard reads: a date and its
  eggs, a date and its price, an action and its quantity.
- `seqs.dfy` (`Seqs`): a generic sum, filter and stable sort by key. It proves
  that a sum does not depend on the order of its terms.
- `text.dfy` (`Text`): Python's substring test `sub in s` and
  `str.replace` for a one-character pattern.
- `calendar.dfy` (`Calendar`): `make_google_cal_link`.
- `flock.dfy` (`Flock`): the dashboard's flock-size loop, written as a `while`
  loop with an accumulator. It is proved equal to a fold and to
  "birds added minus birds removed".
- `dashboard.dfy` (`Dashboard`): date-ordered loading of a table, the egg and
  revenue totals, and the `groupby("Date")` sales series.
- `forms.dfy` (`Forms`): a worksheet class whose rows the forms append to. It
  also holds the rows each form writes, reading them back by column, and the
  link from a saved form row to the dashboard figure it moves.

Modelling choices:

- A sheet row is a sequence of cells in the order the form writes them. The
  dashboard reads columns by header name (`get_all_records`). The model assumes
  the sheet's header row lists the columns in the forms' order.
- Each reader demands only the columns the dashboard uses. For Daily_Log these
  are a date and a number of eggs. For Sales they are a date and a number in
  Total_Price. For Flock it is the Action, plus a number in Quantity when the
  action mentions "Add" or "Remove". Missing trailing cells read as empty text,
  the way the store pads short rows. Other columns may hold anything.
- A table with a row the dashboard cannot compute with gives no figure. In the
  source those rows raise an exception and stop the page: `"Add" in` a number,
  adding text to the flock count, summing text with numbers, or a date column
  that holds no date.
- A row the flock loop does not count never has its Quantity read. If that cell
  is not a number, the model records 0, which the fold never uses.
- A date cell in the Action column reaches the loop as formatted date text. That
  text mentions no action, so the model reads it as empty text.
- Prices are whole cents. The source keeps them as floats.
- `pd.to_datetime` is replaced by dates that are already day numbers.
- The flock fold follows the code. A row whose action mentions neither "Add"
  nor "Remove" is skipped. A row that mentions both counts as an addition.
  Rejecting unknown actions when a row is written would be a reasonable
  alternative. The code skips them when it reads, and the model follows the code.

## Model

| member | source | states |
|---|---|---|
| Flock.CurrentFlockSize | app.py:127-137 | the loop over the Flock rows ends with the fold of the rows' effects, which is the birds added minus the birds removed; an empty ledger gives 0 |
| Flock.FlockSizeIsAddedMinusRemoved | app.py:133-137 | the flock size equals the summed quantities of rows whose action contains "Add" minus those of rows that contain "Remove" and not "Add" |
| Flock.UncountedRowsIgnored | app.py:134-137 | dropping the rows that mention neither "Add" nor "Remove" leaves the flock size unchanged |
| Flock.FlockSizeIgnoresOrder | app.py:133 | two ledgers holding the same rows in any order give the same flock size |
| Flock.AppendedRowEffect | app.py:134-137 | appending one row changes the flock size by that row's effect alone |
| Flock.AddTakesPriority | app.py:134-136 | a row whose action mentions both "Add" and "Remove" raises the flock size by its quantity |
| Flock.ActionLabelsRecognised | app.py:283 | "Add Birds (+)" contains "Add"; "Remove Birds (-)" contains "Remove" and not "Add" |
| Flock.FormChangeCounted | app.py:283-293 | a row the flock form can write (either action, quantity at least 1) is counted, moves the size by +quantity or -quantity, and always changes it |
| Flock.FlockSizeNotClamped | app.py:135-137 | removing more birds than the ledger holds makes the flock size negative |
| Flock.ExampleLedger | app.py:128-137 | adding 10, adding 5 and removing 3 gives 12 |
| Flock.ExampleSkippedRow | app.py:133-137 | adding 5 and then a "Moved to new coop" row with any quantity gives 5 |
| Flock.MovedNotCounted | app.py:134-136 | "Moved to new coop" mentions neither "Add" nor "Remove", so the loop skips it |
| Text.ContainsIff | app.py:134 | the recursive substring test holds exactly when the pattern occurs at some index |
| Text.ReplaceChar | app.py:84-86 | replacement keeps the length and changes exactly the occurrences of the replaced character |
| Calendar.CalendarLink | app.py:81-87 | the link starts with the calendar template base URL and contains no space |
| Calendar.CalendarLinkEncodesWholeUrl | app.py:84-87 | replacing spaces in each field equals replacing spaces in the whole unencoded URL |
| Calendar.CalendarLinkDefaults | app.py:81 | with location and details omitted the link ends in "&location=Coop&details=" |
| Calendar.TitleRecoverable | app.py:84 | a title without '+' is recovered from the link's text by turning '+' back into spaces |
| Dashboard.LoadTable | app.py:118-124 | a loaded table is sorted ascending by date and is a permutation of the fetched rows; an empty table is returned as it is |
| Dashboard.LoadSortedTable | app.py:120 | loading a table already in date order leaves it unchanged |
| Dashboard.EggMetrics | app.py:143-151 | an empty log gives "no data"; otherwise the total eggs and the positive number of days they are averaged over |
| Dashboard.TotalsIgnoreLoadOrder | app.py:143-158 | the egg total, the egg figures and the revenue do not change when loading reorders the rows |
| Dashboard.LoggedDayAddsEggs | app.py:145 | one more logged day raises the egg total by exactly its eggs |
| Dashboard.RecordedSaleAddsRevenue | app.py:155 | one more sale raises the revenue by exactly its price |
| Dashboard.TotalEggsNonNegative | app.py:145 | egg counts that are all at least 0, as the form allows, give a total of at least 0 |
| Dashboard.GroupRuns | app.py:197 | over a date-ordered table, the grouped series has strictly increasing dates and starts at the table's first date |
| Dashboard.GroupRunsDates | app.py:197 | the grouped series holds exactly the dates that occur in the table |
| Dashboard.GroupRunsTotals | app.py:197 | each grouped entry holds the summed price of the sales of its date |
| Dashboard.GroupRunsSum | app.py:197 | the grouped entries sum to the table's revenue |
| Dashboard.DailySales | app.py:193-198 | the sales series has one entry per distinct sale date in ascending order, each entry holds that date's revenue, and the entries sum to the total revenue |
| Dashboard.DailySalesOfSorted | app.py:122-124 | for a sales table already in date order, the series is the grouping of the table as it stands |
| Dashboard.ExampleSalesSeries | app.py:155-197 | date-ordered sales of 15.00 and 5.00 on one day and 20.00 on the next group into [(day 1, 20.00), (day 2, 20.00)], and the revenue is 40.00 |
| Dashboard.ExampleEggMetrics | app.py:143-146 | logged days of 10, 12 and 8 eggs give a total of 30 over 3 days |
| Forms.Worksheet.AppendRow | app.py:232 | an accepted append adds the row at the end of the sheet; a rejected one leaves the sheet as it was |
| Forms.ParseTable | app.py:127 | a fetched sheet reads as a table exactly when every row is readable, with one record per row in order |
| Forms.ParseTableAppend | app.py:296 | appending a readable row to a readable sheet appends its record to the table |
| Forms.ParseDailyRow | app.py:118-145 | a Daily_Log row is readable exactly when its Date cell holds a date and its Eggs_Collected cell a number, and it reads as those two |
| Forms.ParseSaleRow | app.py:122-155 | a Sales row is readable exactly when its Date cell holds a date and its Total_Price cell a number, and it reads as those two |
| Forms.ParseFlockRow | app.py:133-137 | a Flock row is readable exactly when its Action is not a number and, if the action mentions "Add" or "Remove", its Quantity is a number; a counted row reads as its action and that number, and a row that is not counted has no effect |
| Forms.DailyRow | app.py:229 | the daily-log row is [date, eggs, feed, notes] and reads back as its date and eggs |
| Forms.SaleRow | app.py:258 | the sales row is [date, customer, dozens, price, status] and reads back as its date and price |
| Forms.FlockRow | app.py:293 | the flock row is [date, action, quantity, reason] and reads back as its action and quantity |
| Forms.FormEntry | app.py:283-293 | the saved flock record carries the chosen action's label and the quantity, as well as the date and reason |
| Forms.SubmitDailyLog | app.py:226-237 | a submitted daily log appends its row if the store accepts it, else nothing |
| Forms.SubmitSale | app.py:256-271 | a submitted sale appends its row if the store accepts it, else nothing |
| Forms.SubmitFlockChange | app.py:291-306 | a submitted flock change appends its row if the store accepts it, else nothing |
| Forms.DashboardFlockSize | app.py:127-137 | the dashboard's flock size is the fold over the fetched Flock sheet; there is no figure exactly when some row has a number as its Action or a counted row lacks a number in Quantity |
| Forms.FlockSubmissionMovesFlockSize | app.py:293-296 | a saved flock-form row moves the dashboard's flock size by exactly +quantity (add) or -quantity (remove) |
| Forms.DailySubmissionAddsEggs | app.py:229-232 | a saved daily-log row raises the dashboard's egg total by exactly its eggs |
| Forms.SaleSubmissionAddsRevenue | app.py:258-262 | a saved sale raises the dashboard's revenue by exactly its price |
| Forms.ExampleSheetWithSkippedRow | app.py:127-137 | a sheet with an added 5 and a "Moved to new coop" row whose Quantity is blank reads as two rows and shows a flock of 5 |
| Forms.ExampleBlankAddQuantity | app.py:134-135 | an "Add Birds (+)" row with a blank Quantity is unreadable, so the sheet gives no figure |

## Left out

- Google Sheets connection and authentication (app.py:13-38): external I/O. Fetched sheets are the rows of a `Worksheet`, and the store's verdict on an append is the `accepted` parameter.
- Streamlit rendering: page setup, navigation, metrics, charts, tables, the `rain` animation. This is presentation only.
- The random joke picker (app.py:51-73): nondeterministic and holds no logic.
- Market Watch and Settings (app.py:166-180, 312-324): session state and float arithmetic for display.
- The average eggs per day (app.py:146) and all number formatting: float division. `EggMetrics` gives the total and the day count it is divided by.
- `pd.to_datetime` and `str(date)`: dates are already day numbers on both the writing and the reading side.
- Dashboard.LoadTable: pandas' default `sort_values` is not stable. The model sorts stably, and its contract promises only what any sort promises (ordered, a permutation). `LoadSortedTable` holds for this stable sort. With pandas it holds only up to the order of rows that share a date.
- Floating-point prices: Total_Price is whole cents, so float rounding in the sums is not modelled.
- Type coercion by `get_all_records` (numeric-looking text becomes a number): cells carry their kind as fetched.
- Forms.ParseDailyRow: a blank Date cell or a number there is unreadable. `pd.to_datetime` would turn a blank into NaT and a number into an offset from 1970-01-01. Such rows are never written by the form.
- Forms.ParseSaleRow: a blank Date cell or a number there is unreadable, for the same reason as the Daily_Log reader.
- Forms.SubmitDailyLog, Forms.SubmitSale, Forms.SubmitFlockChange: the widgets' bounds (`min_value`) are preconditions. The form's success and error messages are not modelled.
