# ZM-Dashboard business rules in Dafny

ZM-Dashboard is a Next.js dashboard over a Supabase database. It serves a
trades business: staff log daily work entries against clients and jobs. The
dashboard prices that labour and settles wages with the staff. Clients are
invoiced for each billing period. Jobs move through a small status life cycle.

This project models the deterministic rules behind those screens. It covers:

- the labour-cost and margin calculator;
- the daily allocation summary;
- building an invoice and its line items;
- the invoice and job status rules;
- wage settlement;
- the calendar ranges and the grouping of entries by date.

Each rule is stated in Dafny, and its properties are proved.

Every `await supabase…` read becomes a sequence of input records. The
selection a query makes becomes a predicate over that sequence. Every write
becomes the record it would store. The modules follow the source files:

- `Records`: the rows of `lib/database.types.ts` and the `a || b` fallbacks over them.
- `Money`, `Text`, `CivilDate`: `Math.round`, `toFixed(2)`, `padStart`, `toLowerCase`, `includes`, and civil calendar dates with their day count, order and weeks.
- `JsDates`: JavaScript `Date` arithmetic (`setDate`, `setMonth`, `new Date(y, m0, d)`) and the mutable `Date` object the pages step through the calendar with.
- `StaffService`, `Utils`: `lib/services/staff.ts`, `lib/utils.ts`.
- `DailyWork`: `lib/services/daily-work.ts`.
- `Payments`: `lib/services/payments.ts`.
- `InvoiceService`: `lib/services/invoices.ts`.
- `NewInvoicePage`, `InvoiceFormComponent`, `InvoiceAdditionalCosts`, `InvoiceWorkEntries`, `InvoiceTable`, `InvoicesPage`: the invoice pages and components.
- `StaffWagesPage`, `DailySummaryPanel`, `DailyWorkPage`, `CalendarViewComponent`, `ListViewComponent`: the wages and daily-work screens.
- `JobService`, `JobTable`: `lib/services/jobs.ts`, `components/jobs/job-table.tsx`.
- `ClientService`: `lib/services/clients.ts`.
- `StaffForm`, `StaffPage`, `WorkEntryForm`: the staff form, the staff page and the work-entry form.

`Lists` and `Sorting` are generic helpers: sums, counts, filters, and a stable
insertion sort standing in for `Array.prototype.sort`.

Conventions:

- Money is an exact `real`. `Round2(x)` is `floor(100·x + 1/2) / 100`, which is
  `Math.round(x * 100) / 100` without floating point.
- JavaScript truthiness of a nullable number is `Truthy` (`null` and `0` are
  falsy). `Pick(o, fallback)` is `o || fallback`.
- Dates are civil `(year, month, day)` values. `Before` is the order of their
  ISO `YYYY-MM-DD` strings.
- The clock and the random number are parameters: `today`, `now` and
  `random`.
- Where the source keeps state that it changes step by step, the model does
  too:
  - maps filled in loops (`getDailySummary`, `getWagesSummary`, the
    `list-view` grouping);
  - a mutable `Date` stepped with `setDate`/`setMonth` (`JsDate`);
  - the additional-costs panel and the delete confirmation of the invoice
    table (classes);
  - `validate`'s error dictionary (`InvoiceForm`).

  Each such method is proved equal to a function that states its result, and the
  properties are proved as lemmas about that function.

The model follows the code as written; in particular:

- `getWagesSummary` counts wages from `calculated_cost` only, while invoice
  lines and client statistics prefer `override_cost`.
- The invoice form reports an inverted period under `period_end`.
- Staff rows carry the three payment types `daily_rate`, `hourly_rate` and
  `monthly_salary`, even though the database type lists two.
- `isOverdue` compares the target date's UTC midnight with the current
  instant. A job is therefore overdue from the first millisecond of its
  target day (`JobService.OverdueByCalendar`).

## Model

| member | source | states |
|---|---|---|
| Money.Round2 | lib/services/staff.ts:124 | `Math.round(x*100)/100` is a whole number of pence within half a penny of `x` |
| Money.JsRound | components/daily-work/daily-summary.tsx:90 | `Math.round` is an integer in `(x - 1/2, x + 1/2]` |
| Money.Round2OfCents | lib/services/daily-work.ts:244-245 | rounding an amount already in pence changes nothing |
| Money.Round2Monotonic | lib/services/staff.ts:124 | rounding to the penny preserves order |
| Records.EntryRevenue | lib/services/daily-work.ts:156 | `client_cost \|\| override_cost \|\| calculated_cost`: each fallback taken exactly when the earlier ones are null or zero |
| Records.EntryLabour | app/invoices/new/page.tsx:93 | `override_cost \|\| calculated_cost` |
| Records.NullIfEmpty | components/staff/staff-form.tsx:84-85 | an empty field becomes null, any other text is kept |
| Records.OrEmpty | components/staff/staff-form.tsx:61-63 | a null column opens as an empty field, otherwise as its text |
| Records.OrNone | components/staff/staff-form.tsx:86-88 | `amount \|\| null` is present exactly when the amount is truthy, and then unchanged |
| Text.NatToString | lib/services/invoices.ts:157 | `${n}` is a non-empty digit string |
| Text.NatToStringRoundTrip | lib/services/invoices.ts:157 | the numeral reads back as the number and has no leading zero |
| Text.NatToStringLength | lib/services/invoices.ts:156-157 | a number below `10^k` prints in at most `k` digits |
| Text.IntToString | lib/utils.ts:74-77 | a `-` exactly for a negative value, and digits that read back as its magnitude |
| Text.PadStart | lib/services/invoices.ts:157 | `padStart` gives the longer of the two lengths, ends in the original text, and fills the front with the pad character |
| Text.LeadingZerosParse | lib/services/invoices.ts:157 | zero padding does not change the number read back |
| Text.Fixed2Magnitude | lib/services/staff.ts:129 | `toFixed(2)` of a non-negative value is digits, a point and two digits that read back as its hundredths |
| Text.HundredthsNumeral | lib/services/staff.ts:129-131 | the `n`-hundredths numeral has two decimals and reads back as `n` |
| Text.ToFixed2 | lib/services/staff.ts:128-130 | `toFixed(2)`: a `-` exactly for a negative value, digits, a point and two digits reading back as the magnitude's hundredths rounded half up |
| Text.ToLower | app/invoices/page.tsx:55-58 | `toLowerCase` keeps the length and lowers each character |
| Text.Includes | app/invoices/page.tsx:57-58 | only a needle no longer than the text is found, and every text includes itself |
| Text.IncludesIff | app/invoices/page.tsx:57-58 | `includes` holds exactly when the needle occurs at some position |
| Text.IncludesEmpty | app/invoices/page.tsx:54 | every text includes the empty string |
| Text.LexLeTotal | lib/services/daily-work.ts:170 | the name order used for the sorts is total |
| Text.LexLeTransitive | lib/services/clients.ts:170 | the name order is transitive |
| CivilDate.DaysInMonth | app/daily-work/page.tsx:46-48 | every Gregorian month has 28 to 31 days |
| CivilDate.DayNumberOrder | app/daily-work/page.tsx:29-49 | the day count tells dates apart and orders them as the calendar (and the ISO strings) do |
| CivilDate.NextDay | components/daily-work/calendar-view.tsx:34 | the next calendar day, one day number later |
| CivilDate.PrevDay | app/daily-work/page.tsx:48 | the previous calendar day, one day number earlier |
| CivilDate.AddDays | components/daily-work/calendar-view.tsx:34 | `k` days on is exactly `k` day numbers later |
| CivilDate.AddDaysCompose | components/daily-work/calendar-view.tsx:32-35 | moving by `j` and then `k` days is moving by `j + k` |
| CivilDate.Weekday | components/daily-work/calendar-view.tsx:27 | `getDay()` lies in 0..6 |
| CivilDate.WeekdayAddDays | components/daily-work/calendar-view.tsx:32-35 | `k` days on, the weekday has advanced by `k` modulo 7 |
| CivilDate.FirstOfMonth | app/daily-work/page.tsx:43 | day 1 of the same month |
| CivilDate.LastOfMonth | app/daily-work/page.tsx:46-48 | the last day of the same month |
| CivilDate.MondayOnOrBefore | app/daily-work/page.tsx:34-36 | a Monday, at most six days before the date |
| CivilDate.MondayOffset | app/daily-work/page.tsx:35 | `dayOfWeek === 0 ? -6 : 1 - dayOfWeek` lies in -6..0 and lands on weekday 1 |
| JsDates.JsSetDate | app/daily-work/page.tsx:36 | `setDate(n)` is `n - 1` days after the first of the month |
| JsDates.JsNewDateDayNumber | app/staff-wages/page.tsx:27-28 | `new Date(y, m0, d)` is the day `d - 1` days after the first of month `m0` normalised into the year, whatever the range of `m0` and `d` |
| JsDates.JsSetMonthDayNumber | app/daily-work/page.tsx:85 | `setMonth(m0)` keeps the day of the month, counted on from the first of the normalised month |
| JsDates.JsSetDateInMonth | app/daily-work/page.tsx:43 | a day of the month is reached as written |
| JsDates.JsSetDateZero | app/daily-work/page.tsx:48 | `setDate(0)` is the last day of the previous month |
| JsDates.JsSetDateRelative | app/daily-work/page.tsx:83 | `setDate(getDate() + k)` moves the date by `k` days |
| JsDates.JsSetMonthKeepsDay | app/daily-work/page.tsx:95 | `setMonth` lands in the normalised month, on the same day when that month has it |
| JsDates.JsNewDateInMonth | app/staff-wages/page.tsx:27 | `new Date(y, m0, n)` with a day that fits is that very day |
| JsDates.JsNewDateLast | app/staff-wages/page.tsx:28 | `new Date(y, m0 + 1, 0)` is the last day of month `m0` |
| JsDates.CurrentMonthBounds | app/staff-wages/page.tsx:26-28 | `new Date(y, m, 1)` and `new Date(y, m + 1, 0)` are the first and last day of today's month |
| JsDates.PreviousMonthBounds | app/staff-wages/page.tsx:101-103 | `new Date(y, m - 1, 1)` and `new Date(y, m, 0)` are the first and last day of the previous month |
| JsDates.NextMonthDayZero | app/daily-work/page.tsx:46-48 | from the first of a month, `setMonth(getMonth() + 1)` then `setDate(0)` is that month's last day |
| JsDates.JsSetMonthOverflow | app/daily-work/page.tsx:95 | from a day the target month lacks, `setMonth` runs over into the month after it |
| CivilDate.MondayShiftsByWeeks | app/daily-work/page.tsx:83 | moving a date by whole weeks moves its week's Monday by as many days |
| JsDates.WeekStartStep | app/daily-work/page.tsx:34-36 | `setDate(getDate() + diff)` reaches the week's Monday |
| CivilDate.WeekBounds | app/daily-work/page.tsx:34-40 | the Monday-to-Sunday week holds the date and ends on a Sunday |
| CivilDate.SameMonthYearsApart | components/daily-work/calendar-view.tsx:70-72 | the same month of two different years lies more than 300 days apart |
| JsDates.JsDate.constructor | components/daily-work/calendar-view.tsx:23 | `new Date(d)` is an independent copy holding `d` |
| JsDates.JsDate.GetDay | components/daily-work/calendar-view.tsx:27 | `getDay()` lies in 0..6 |
| JsDates.JsDate.SetDate | components/daily-work/calendar-view.tsx:34 | the date becomes `setDate(n)` of its old value, and nothing else changes |
| JsDates.JsDate.SetMonth | app/daily-work/page.tsx:47 | the date becomes `setMonth(m0)` of its old value, and nothing else changes |
| StaffService.CalculateHourlyRate | lib/services/staff.ts:103-110 | for a day-rate member with a truthy day rate, that rate spread over the allocated hours; for an hourly member, the truthy hourly rate; otherwise 0 (monthly salaries included) |
| StaffService.CalculateTaskCost | lib/services/staff.ts:112-125 | the override amount exactly when asked for, enabled and non-zero; otherwise hours × rate to the nearest penny |
| StaffService.RatedCost | lib/services/staff.ts:121-124 | hours × rate, rounded to a whole number of pence within half a penny |
| StaffService.RatedCostMonotonic | lib/services/staff.ts:121-124 | at a non-negative rate, more hours never cost less |
| StaffService.TwoArgumentCallIgnoresOverride | lib/services/staff.ts:115 | a call without `useOverride` never applies the override |
| StaffService.TaskCostZero | lib/services/staff.ts:121-124 | without the override, zero hours or a zero rate costs 0 |
| StaffService.TaskCostMonotonic | lib/services/staff.ts:121-124 | without the override, cost is non-decreasing in hours |
| StaffService.GetPaymentDisplayText | lib/services/staff.ts:127-134 | `£<rate>/day` for a day-rate member with a truthy day rate, `£<rate>/hour` for an hourly member with a truthy hourly rate |
| StaffService.PaymentDisplayTextMeaning | lib/services/staff.ts:127-134 | `Not set` exactly when no rate of the type is present; otherwise `£`, the rate to two decimals (a `-` exactly for a negative rate, digits reading back as its pence rounded half up) and `/day` or `/hour` by the branch taken |
| StaffService.NotSetIsNotPrice | lib/services/staff.ts:133 | no price text equals `Not set` |
| StaffService.ToggleActiveStatus | lib/services/staff.ts:92-101 | a missing id fails with "Staff member not found"; otherwise the row with only its active flag negated |
| StaffService.ReplaceStaff | lib/services/staff.ts:100 | the write-back replaces exactly the rows with the same id |
| StaffService.ToggleTwiceRestores | lib/services/staff.ts:92-101 | toggling twice, writing back each time, restores the row |
| Utils.WholeHours | lib/utils.ts:70 | `Math.floor(hours)` |
| Utils.Minutes | lib/utils.ts:71 | the rounded minutes of the fraction lie in 0..60, within half a minute of it |
| Utils.FormatTime | lib/utils.ts:69-78 | `<h>h` when the minutes round to 0, else `<h>h <m>m` |
| Utils.FormatTimeShape | lib/utils.ts:73-77 | the text ends in `m` exactly when minutes are shown; a whole number of hours shows none |
| Utils.FormatTimeReadsBack | lib/utils.ts:69-78 | the numeral before the first `h` reads back as the whole hours (after `-` when negative), the one before the closing `m` as the minutes |
| Utils.SixtyMinutesShown | lib/utils.ts:71-77 | 1.995 hours rounds to 60 minutes, so it prints as `1h 60m` |
| Utils.HourlyRate | lib/utils.ts:80-82 | the rate times the hours per day is the day rate |
| Utils.TaskCost | lib/utils.ts:84-92 | hours × rate × (1 + margin / 100) |
| Utils.TaskCostMargins | lib/utils.ts:87-91 | the default margin gives 1.2 × the base cost; a margin of 0 gives the base cost |
| Utils.TaskCostMarginMonotonic | lib/utils.ts:89-91 | for non-negative work, a larger margin never lowers the cost |
| Utils.FullDayAtHourlyRate | lib/utils.ts:80-92 | a day's hours at the derived hourly rate, with no margin, cost the day rate |
| DailyWork.Summaries | lib/services/daily-work.ts:134-168 | one summary per fetched active staff member, in order, each holding that member's own totals and alerts |
| DailyWork.NameLeTotal | lib/services/daily-work.ts:170 | the staff-name order is total |
| DailyWork.InitialSummaries | lib/services/daily-work.ts:131-147 | the map has exactly the active staff ids, each starting from zero totals |
| DailyWork.AddEntries | lib/services/daily-work.ts:150-159 | after the loop each member's summary holds the totals of that member's entries |
| DailyWork.GetDailySummary | lib/services/daily-work.ts:127-171 | the summaries sorted by staff name: one per active member, a permutation of the unsorted list |
| DailyWork.AlertsExclusive | lib/services/daily-work.ts:164-165 | never over- and under-allocated at once; no hours is never under-allocated |
| DailyWork.AlertsMeaning | lib/services/daily-work.ts:163-165 | variance = hours − allocation; over exactly above allocation + 0.1; under exactly for positive hours below allocation − 0.1 |
| DailyWork.NoEntriesSummary | lib/services/daily-work.ts:134-147 | a member with no counted entries has zero totals, variance −allocation, no under-allocation alert, and an over-allocation alert only for an allocation below −0.1 |
| DailyWork.OtherEntryIgnored | lib/services/daily-work.ts:151-153 | an entry without its staff relation, or of someone else, changes nothing |
| DailyWork.OwnEntryAdded | lib/services/daily-work.ts:154-156 | an own entry adds one task, its hours (no overtime) and its billed cost |
| DailyWork.CalculateMargin | lib/services/daily-work.ts:239-247 | amount is client − labour to the penny; percentage is the rounded share of the client price when it is positive, else 0 |
| DailyWork.Share | lib/services/daily-work.ts:241 | `part / whole * 100` times the whole is 100 × the part |
| DailyWork.ShareBounds | lib/services/daily-work.ts:241 | the share lies in 0..100 exactly when the part lies in 0..whole |
| DailyWork.MarginBounds | lib/services/daily-work.ts:239-247 | labour between 0 and the client price gives a non-negative margin of at most 100% |
| DailyWork.NoMarginAtCost | lib/services/daily-work.ts:239-247 | billing at cost leaves a margin of 0 and 0% |
| Payments.Summaries | lib/services/payments.ts:117-161 | one summary per staff member with grouped entries |
| Payments.SummaryNameLeTotal | lib/services/payments.ts:163-165 | the staff-name order is total |
| Payments.UngroupedIsEmpty | lib/services/payments.ts:119-142 | a staff id without grouped entries has no hours, wages or entries |
| Payments.GroupEntries | lib/services/payments.ts:117-142 | the first loop's map holds, for each staff id of the window in first-seen order, Σ(hours + overtime), Σ calculated cost and the count |
| Payments.JoinPayments | lib/services/payments.ts:145-156 | the second loop adds, for each grouped staff id, the paid amounts and the latest payment date of its fetched records |
| Payments.GetWagesSummary | lib/services/payments.ts:88-166 | the summaries sorted by staff name, a permutation of the unsorted ones |
| Payments.StaffOrderDistinct | lib/services/payments.ts:122-135 | each staff id gets one summary |
| Payments.AppendFreshDistinct | lib/services/payments.ts:122-123 | adding an id not yet in the map keeps the ids distinct |
| Payments.StaffOrderMembers | lib/services/payments.ts:119-122 | the summaries are for exactly the staff ids of entries with their staff relation in the window |
| Payments.OutstandingIsDueLessPaid | lib/services/payments.ts:159-161 | every summary's outstanding is due − paid, not clamped, and carries the queried period |
| Payments.LastPaymentIsLatest | lib/services/payments.ts:150-154 | the last payment date is null exactly when no counted record has a date; otherwise it is one of them and none is later |
| Payments.BeforeTransitive | lib/services/payments.ts:151 | the ISO date order is transitive |
| Payments.BeforeTotal | lib/services/payments.ts:151 | of two dates, one is on or before the other |
| Payments.GroupEntryIds | lib/services/payments.ts:293-299 | each staff id's list holds that member's entry ids of the window, in row order |
| Payments.PlannedPayments | lib/services/payments.ts:302-312 | at most one insert per summary |
| Payments.Created | lib/services/payments.ts:314-322 | at most one record per insert |
| Payments.PlanPayments | lib/services/payments.ts:302-312 | the filtered and mapped inserts, with `[]` for a staff id the map lacks |
| Payments.CreateAll | lib/services/payments.ts:314-324 | the loop keeps the successful creates, in order |
| Payments.GeneratePaymentsForPeriod | lib/services/payments.ts:274-325 | the created records for the plan built from the sorted wages summary |
| Payments.PlannedPaymentsSpec | lib/services/payments.ts:302-312 | every insert pending with nothing paid, a positive due amount and its entry ids; the inserts in order are those of the summaries with wages due > 0, one each, and every such summary gets its own |
| Payments.PlannedIsFilterMap | lib/services/payments.ts:302-312 | position by position, the inserts are the pending inserts of `summary.filter(s => s.totalWagesDue > 0)` |
| Payments.CreatedWithoutFailures | lib/services/payments.ts:314-322 | when no create fails, every insert yields its record, in order |
| Payments.CreatedSkipsFailure | lib/services/payments.ts:316-321 | a failed create drops only that record |
| Payments.MarkAsPaid | lib/services/payments.ts:223-241 | a missing record fails; otherwise status `paid`, amount paid = amount due, the date and method set, the reference kept when absent, nothing else changed |
| Payments.RecordPartialPayment | lib/services/payments.ts:246-268 | a missing record fails; otherwise paid += amount, status `paid` exactly when that covers the amount due, else `partially_paid`, nothing else changed |
| Payments.MarkAsPaidIsPayingBalance | lib/services/payments.ts:234-263 | marking paid is recording a payment of exactly the remaining balance |
| Payments.ShortPaymentIsPartial | lib/services/payments.ts:259 | a payment short of the balance leaves the record partially paid |
| Payments.GetTotalOutstanding | lib/services/payments.ts:330-344 | 0 when the query fails |
| Payments.OutstandingIsDueLessPaidTotal | lib/services/payments.ts:341-343 | the outstanding total is the open records' amounts due less their amounts paid, and not negative when no open record is overpaid |
| Payments.GetStats | lib/services/payments.ts:349-385 | open records give the pending total, the outstanding total and the pending count; paid records give the paid total and count; other statuses count nowhere |
| InvoiceService.RandomSerial | lib/services/invoices.ts:156 | `Math.floor(random * 99999) + 1` lies in 1..99999 |
| InvoiceService.FallbackNumber | lib/services/invoices.ts:157 | `INV-<year>-` followed by exactly five digits that read back as `n` |
| InvoiceService.GetNextInvoiceNumber | lib/services/invoices.ts:145-161 | the database number unchanged when the call succeeds; the fallback only on error |
| InvoiceService.CreateErrorMessage | lib/services/invoices.ts:182-191 | `42P01`, `23505` and `23503` get their own messages; any other code the generic message with "Unknown error" for an empty one |
| InvoiceService.CreateInvoice | lib/services/invoices.ts:166-195 | the stored row on success, the mapped message on error |
| InvoiceService.SelectForInvoice | lib/services/invoices.ts:250-252 | exactly the client's entries dated within the period |
| InvoiceService.DateLeTotal | lib/services/invoices.ts:253 | the date order is total |
| InvoiceService.GetWorkEntriesForInvoice | lib/services/invoices.ts:234-264 | exactly the client's entries of the period, each once, in ascending date order |
| InvoiceService.UpdateStatus | lib/services/invoices.ts:351-353 | a missing id fails; otherwise only the status changes |
| InvoiceService.MarkAsPaid | lib/services/invoices.ts:358-372 | status `paid` with the date and amount stored whatever the total; omitted reference and method left unchanged |
| InvoiceService.UpdateStatusLastWins | lib/services/invoices.ts:351-353 | two status updates in a row are the second one alone |
| InvoiceService.CountStatuses | lib/services/invoices.ts:402-419 | the counters are the number of invoices of each status |
| InvoiceService.GetStatistics | lib/services/invoices.ts:389-430 | the counts per status, Σ total, Σ(paid \|\| 0), and Σ(total − paid) over invoices neither paid nor cancelled |
| InvoiceService.StatusCountsPartition | lib/services/invoices.ts:414-419 | the five counts and the unknown statuses add up to the total; the five alone do when every status is known |
| InvoiceService.NoOtherStatusCount | lib/services/invoices.ts:414-419 | with only known statuses none is unknown |
| InvoiceService.OutstandingIsTotalLessPaid | lib/services/invoices.ts:424-426 | outstanding is the unsettled totals less what was paid on them |
| NewInvoicePage.SubmitError | app/invoices/new/page.tsx:45-62 | accepted exactly with a client, both period dates and start ≤ end; otherwise the first failed check's message |
| NewInvoicePage.BuildInvoice | app/invoices/new/page.tsx:68-78 | the insert carries the form's fields, VAT `\|\| 0`, empty notes as null and status `\|\| 'draft'` |
| NewInvoicePage.EmptyOptionalFieldsDefault | app/invoices/new/page.tsx:74-77 | empty optional fields give a draft with no VAT, due date or notes |
| NewInvoicePage.LineItem | app/invoices/new/page.tsx:89-95 | the line points at the entry and the invoice, with hours + overtime, `override \|\| calculated` and `client \|\| override \|\| calculated` |
| NewInvoicePage.LineItems | app/invoices/new/page.tsx:88-98 | one line per entry, in order |
| NewInvoicePage.LineItemTotals | app/invoices/new/page.tsx:89-95 | the lines' sums are the entries' hours with overtime, labour and client price |
| NewInvoicePage.HandleFormSubmit | app/invoices/new/page.tsx:39-111 | a failed check or a failed create is reported with nothing else done; otherwise the invoice, the lines of the selected entries, and the success message |
| NewInvoicePage.LineItemsCoverEntries | app/invoices/new/page.tsx:89-91 | every entry has a line pointing back at it |
| NewInvoicePage.LinesMatchSelection | app/invoices/new/page.tsx:81-98 | exactly one line per selected entry, each on the new invoice |
| InvoiceFormComponent.DefaultFormData | components/invoices/invoice-form.tsx:16-29 | the initial values, or this month's first and last day, today, VAT 0 and `draft` |
| InvoiceFormComponent.DefaultPeriodOrdered | components/invoices/invoice-form.tsx:17-28 | the default period is ordered and holds today; status `draft`, VAT 0 |
| InvoiceFormComponent.ClientOptions | components/invoices/invoice-form.tsx:87 | exactly the active clients, in order |
| InvoiceFormComponent.FormValidAgreesWithSubmit | components/invoices/invoice-form.tsx:42-62 | a form `validate` accepts passes the page's checks; those differ only in the issue date |
| InvoiceFormComponent.InvoiceForm.constructor | components/invoices/invoice-form.tsx:20-31 | the form opens on its defaults with no errors |
| InvoiceFormComponent.InvoiceForm.Validate | components/invoices/invoice-form.tsx:42-63 | true exactly when no error was recorded; one message per failed field; an inverted period is reported under `period_end`; the due date is never checked |
| InvoiceAdditionalCosts.EmptyForm | components/invoices/invoice-additional-costs.tsx:34-53 | the initial and reset form: no description, the unparsed-input amount 0, type `misc`, dated today; it never passes the add guard |
| InvoiceAdditionalCosts.Emitted | components/invoices/invoice-additional-costs.tsx:43-46 | the emitted cost carries the panel's invoice id and the entered fields |
| InvoiceAdditionalCosts.AmountInput | components/invoices/invoice-additional-costs.tsx:193 | unparseable input becomes 0, otherwise the parsed value |
| InvoiceAdditionalCosts.AddedCostRaisesTotal | components/invoices/invoice-additional-costs.tsx:42-57 | an accepted cost raises the total by its amount, strictly |
| InvoiceAdditionalCosts.CanAdd | components/invoices/invoice-additional-costs.tsx:42 | an accepted form's amount is above the 0 that unparseable input becomes |
| InvoiceAdditionalCosts.TotalCosts | components/invoices/invoice-additional-costs.tsx:57 | no costs total 0; non-negative costs never total less than 0 |
| InvoiceAdditionalCosts.AdditionalCostsPanel.constructor | components/invoices/invoice-additional-costs.tsx:33-39 | closed, with the empty form |
| InvoiceAdditionalCosts.AdditionalCostsPanel.OpenForm | components/invoices/invoice-additional-costs.tsx:135 | opens the form and keeps its fields |
| InvoiceAdditionalCosts.AdditionalCostsPanel.SetAmount | components/invoices/invoice-additional-costs.tsx:193 | only the amount changes, to the parsed input or 0 |
| InvoiceAdditionalCosts.AdditionalCostsPanel.HandleAdd | components/invoices/invoice-additional-costs.tsx:41-55 | under the guard, emits the cost, resets the form and closes it; otherwise nothing changes |
| InvoiceAdditionalCosts.AdditionalCostsPanel.Cancel | components/invoices/invoice-additional-costs.tsx:202-205 | closes and resets the form |
| InvoiceAdditionalCosts.ResetFormCannotAdd | components/invoices/invoice-additional-costs.tsx:47-52 | the reset form fails the guard, so a repeated click emits nothing |
| InvoiceWorkEntries.Totals | components/invoices/invoice-work-entries.tsx:14-24 | none for an empty list; otherwise Σ hours, Σ labour and Σ client cost |
| InvoiceWorkEntries.StoredTotals | components/invoices/invoice-work-entries.tsx:22-24 | the totals of stored line items are the totals of the entries they snapshot |
| InvoiceWorkEntries.RemoveAction | components/invoices/invoice-work-entries.tsx:78-81 | shown exactly when editable with a callback, passing the line's `work_entry_id` |
| InvoiceTable.StatusLabel | components/invoices/invoice-table.tsx:22-28 | each of the five statuses has a label, no other |
| InvoiceTable.StatusColor | components/invoices/invoice-table.tsx:14-20 | each of the five statuses has a colour, no other |
| InvoiceTable.StatusLabelsDistinct | components/invoices/invoice-table.tsx:14-28 | different known statuses have different labels |
| InvoiceTable.RowActions | components/invoices/invoice-table.tsx:122-150 | View always; Edit and Delete exactly for drafts |
| InvoiceTable.DeleteClick | components/invoices/invoice-table.tsx:33-41 | a click on the armed id deletes it and disarms; any other click arms its id and deletes nothing |
| InvoiceTable.DoubleClickDeletes | components/invoices/invoice-table.tsx:33-41 | two clicks on one row delete it, whatever was armed |
| InvoiceTable.OtherRowRearms | components/invoices/invoice-table.tsx:34-38 | a click on another row moves the confirmation and deletes nothing |
| InvoiceTable.DeleteConfirmation.constructor | components/invoices/invoice-table.tsx:31 | nothing armed |
| InvoiceTable.DeleteConfirmation.HandleDelete | components/invoices/invoice-table.tsx:33-41 | the new armed id and the deletion are those of `DeleteClick` |
| InvoicesPage.ApplyFilters | app/invoices/page.tsx:45-63 | exactly the invoices with the filtered status (any under `all`) whose number or client name contains the term, ignoring ASCII case (all of them for an empty term), in order |
| InvoicesPage.MatchesSearch | app/invoices/page.tsx:55-58 | the full number or client name, in any case, matches; a term longer than both matches nothing |
| InvoicesPage.EmptyTermMatchesAll | app/invoices/page.tsx:54-59 | the empty term would match every invoice |
| InvoicesPage.Stats | app/invoices/page.tsx:89-97 | the four counts, with cancelled and unknown statuses, add up to the total |
| InvoicesPage.StatsAgreeWithService | app/invoices/page.tsx:89-97 | the page's figures equal the service's `getStatistics()` figures, field by field |
| StaffWagesPage.ShouldFetch | app/staff-wages/page.tsx:35 | the data is fetched exactly when both period bounds are set |
| StaffWagesPage.DefaultPeriodFetched | app/staff-wages/page.tsx:25-35 | the empty first period fetches nothing; this month's default period is fetched and holds today |
| StaffWagesPage.ThisMonth | app/staff-wages/page.tsx:109-116 | the first to the last day of today's month, holding today |
| StaffWagesPage.LastMonth | app/staff-wages/page.tsx:100-107 | the previous month, from its first to its last day, ending before this month starts |
| StaffWagesPage.Totals | app/staff-wages/page.tsx:119-122 | period outstanding = total due − total paid |
| StaffWagesPage.PeriodOutstandingIsSumOfOutstanding | app/staff-wages/page.tsx:119-122 | when each summary owes due − paid, the period's outstanding is their sum |
| StaffWagesPage.WagesSummaryPeriodOutstanding | app/staff-wages/page.tsx:119-122 | for the wages summary the period's outstanding is the sum of the summaries' |
| StaffWagesPage.FilteredPayments | app/staff-wages/page.tsx:125-130 | exactly the records the filter shows, in order |
| StaffWagesPage.FilterCoverage | app/staff-wages/page.tsx:125-130 | cancelled records show only under `all`; `pending` shows exactly the open records |
| StaffWagesPage.CanMarkPaid | app/staff-wages/page.tsx:415-423 | Mark Paid only on records listed as open; the open record without it is `partially_paid` |
| StaffWagesPage.MarkPaidFromPage | app/staff-wages/page.tsx:73-78 | `markAsPaid(id, today, 'bank_transfer')` settles the full amount due |
| StaffWagesPage.MarkPaidClosesRecord | app/staff-wages/page.tsx:415 | a settled record leaves the `pending` list and owes nothing |
| DailySummaryPanel.Totals | components/daily-work/daily-summary.tsx:15-18 | the day shows no tasks exactly when no staff member has one |
| DailySummaryPanel.TotalsAppend | components/daily-work/daily-summary.tsx:15-18 | the four figures add up over two lists of summaries |
| DailySummaryPanel.TotalsOfSummaries | components/daily-work/daily-summary.tsx:18 | over the service's summaries, the allocated figure is the staff's Σ `allocated_daily_hours` |
| DailySummaryPanel.Efficiency | components/daily-work/daily-summary.tsx:90 | the whole percentage nearest to hours/allocated, or 0 without allocation |
| DailySummaryPanel.RoundedRatioBounds | components/daily-work/daily-summary.tsx:90 | a rounded ratio brackets the target within half a unit of the whole |
| DailySummaryPanel.EfficiencyLandmarks | components/daily-work/daily-summary.tsx:90 | the allocation worked exactly is 100%; no hours is 0% |
| DailySummaryPanel.OverAllocatedStaff | components/daily-work/daily-summary.tsx:20 | exactly the over-allocated summaries, in order |
| DailySummaryPanel.UnderAllocatedStaff | components/daily-work/daily-summary.tsx:21 | exactly the under-allocated summaries, in order |
| DailySummaryPanel.AlertListsDisjoint | components/daily-work/daily-summary.tsx:20-21 | nobody the service summarises is on both lists |
| DailySummaryPanel.StatusIcon | components/daily-work/daily-summary.tsx:159-165 | warning exactly when over-allocated, check exactly for other logged hours, clock otherwise |
| DailySummaryPanel.VarianceText | components/daily-work/daily-summary.tsx:190-198 | nothing for a zero variance; a leading `+` exactly for a positive one |
| DailySummaryPanel.FormatTimeNoSign | components/daily-work/daily-summary.tsx:198 | a formatted magnitude starts with a digit |
| DailyWorkPage.GetDateRange | app/daily-work/page.tsx:28-57 | week: the Monday on or before the date to six days later, a Sunday; month: the first to the last day of the month; both hold the date |
| DailyWorkPage.WeekRange | app/daily-work/page.tsx:33-40 | the Monday on or before the date and six days later |
| DailyWorkPage.MonthRange | app/daily-work/page.tsx:42-48 | the first and the last day of the month |
| DailyWorkPage.NeighbourMonth | app/daily-work/page.tsx:85 | the month one step away, with the year carried |
| DailyWorkPage.Navigate | app/daily-work/page.tsx:80-98 | ±7 days in week view; in month view `setMonth(getMonth() ± 1)` |
| DailyWorkPage.MonthStepLands | app/daily-work/page.tsx:85-95 | the month step reaches the neighbouring month exactly when that month has the day |
| DailyWorkPage.WeekNavigation | app/daily-work/page.tsx:83-93 | a week forward and back is the same day, and moves the fetched week by seven days |
| DailyWorkPage.MonthNavigationOverflows | app/daily-work/page.tsx:95 | 31 January 2025 goes forward to 3 March, which goes back to 3 February |
| DailyWorkPage.CalculateStats | app/daily-work/page.tsx:125-140 | the number of entries; margin = revenue − cost; margin percentage its share of positive revenue, else 0 |
| DailyWorkPage.StatsAdditive | app/daily-work/page.tsx:126-131 | the figures of two batches add up to the figures of both |
| DailyWorkPage.MarginBounded | app/daily-work/page.tsx:131-132 | with no entry billed below cost, the margin is non-negative and at most 100% of positive revenue |
| CalendarViewComponent.GridStart | components/daily-work/calendar-view.tsx:25-43 | a Monday |
| CalendarViewComponent.GetDaysInView | components/daily-work/calendar-view.tsx:21-53 | 7 or 42 consecutive days from the grid's Monday |
| CalendarViewComponent.MoveToGridStart | components/daily-work/calendar-view.tsx:23-43 | a fresh date on the grid's first cell |
| CalendarViewComponent.FillGrid | components/daily-work/calendar-view.tsx:32-35 | `count` consecutive days, the date left one past the last |
| CalendarViewComponent.AddDaysStep | components/daily-work/calendar-view.tsx:34 | one more day after `i` days is `i + 1` days |
| CalendarViewComponent.GridColumns | components/daily-work/calendar-view.tsx:75 | cell `i` falls on the weekday of its `Mon`…`Sun` column |
| CalendarViewComponent.WeekGridHoldsStart | components/daily-work/calendar-view.tsx:25-35 | the week grid holds the start date |
| CalendarViewComponent.MonthGridCoversMonth | components/daily-work/calendar-view.tsx:36-50 | every day of the month has a cell in the 42-day grid |
| CalendarViewComponent.EntriesForDate | components/daily-work/calendar-view.tsx:56-59 | exactly the entries dated that day, in order |
| CalendarViewComponent.IsToday | components/daily-work/calendar-view.tsx:62-67 | agreeing day, month and year is exactly date equality |
| CalendarViewComponent.Dimmed | components/daily-work/calendar-view.tsx:97 | never in the week view; a dimmed cell's month differs from the start date's |
| CalendarViewComponent.DimmedCellsExact | components/daily-work/calendar-view.tsx:97 | in the 42-day month grid, exactly the cells outside the start date's month and year are dimmed |
| CalendarViewComponent.IsInCurrentMonth | components/daily-work/calendar-view.tsx:70-72 | within one year, the month-index test is the same-month test |
| CalendarViewComponent.CurrentMonthIgnoresYear | components/daily-work/calendar-view.tsx:70-72 | the same month a year later counts as current |
| CalendarViewComponent.MonthGridCurrentMonthExact | components/daily-work/calendar-view.tsx:70-72 | inside the month grid the month-only test is exact |
| ListViewComponent.EntriesOnSpec | components/daily-work/list-view.tsx:16-23 | a date's group is exactly its entries, in input order |
| ListViewComponent.EntriesOnStep | components/daily-work/list-view.tsx:18-21 | an entry extends only its own date's group |
| ListViewComponent.GroupByDate | components/daily-work/list-view.tsx:16-23 | one group per occurring date, holding that date's entries in order; the keys each once |
| ListViewComponent.DatesStep | components/daily-work/list-view.tsx:18-20 | an entry adds its date to the keys |
| ListViewComponent.SortedDates | components/daily-work/list-view.tsx:26 | the keys, newest first |
| ListViewComponent.GroupSumStep | components/daily-work/list-view.tsx:40-47 | an entry adds its figure once to the group totals when its date is a key |
| ListViewComponent.GroupSumEmpty | components/daily-work/list-view.tsx:40-47 | no entries total nothing |
| ListViewComponent.GroupSumsToTotal | components/daily-work/list-view.tsx:40-47 | the per-date totals add up to the period's total |
| ListViewComponent.GroupTotalCounts | components/daily-work/list-view.tsx:86 | the group sizes are the group sums of ones |
| ListViewComponent.GroupSizesSumToCount | components/daily-work/list-view.tsx:16-23 | the group sizes add up to the number of entries |
| ListViewComponent.EntryWord | components/daily-work/list-view.tsx:59 | `entry` exactly for one |
| ListViewComponent.GetDateTotals | components/daily-work/list-view.tsx:40-47 | margin = revenue − Σ calculated cost |
| ListViewComponent.DateTotalsAddUp | components/daily-work/list-view.tsx:40-47 | the per-date hours, revenue and margin add up to the page's period figures |
| JobService.Update | lib/services/jobs.ts:132-146 | a missing id fails with "Failed to update job"; otherwise only the given columns change |
| JobService.UpdateStatus | lib/services/jobs.ts:160-169 | the new status; the completion date set to today exactly when completed, otherwise unchanged |
| JobService.ReopenKeepsCompletedDate | lib/services/jobs.ts:160-169 | reopening a completed job keeps its completion date |
| JobService.JobTypeLabel | lib/services/jobs.ts:192-213 | a non-empty label; custom gives the custom name or "Custom"; an unknown type "Maintenance" |
| JobService.CustomNameOnlyForCustom | lib/services/jobs.ts:193-211 | the custom name matters only for a custom job |
| JobService.CalculateProgress | lib/services/jobs.ts:215-222 | without an estimate 100 exactly for a completed job, else 0; otherwise the rounded percentage capped at 100 |
| JobService.ProgressBounds | lib/services/jobs.ts:220-221 | with a positive estimate and non-negative hours, 0..100, and 100 once the estimate is used |
| JobService.IsOverBudget | lib/services/jobs.ts:224-227 | never without a non-zero estimate; against a positive estimate, exactly when more than 100% of it is spent |
| JobService.IsOverTime | lib/services/jobs.ts:229-232 | never without a non-zero estimate; against a positive estimate, exactly when more than 100% of the hours are worked |
| JobService.OverTimeShowsFullProgress | lib/services/jobs.ts:215-232 | a job over its hours shows 100% progress |
| JobService.OverdueByCalendar | lib/services/jobs.ts:234-237 | overdue exactly when not completed, with a target day before today, or today after midnight |
| JobService.IsOverdue | lib/services/jobs.ts:234-237 | never for a completed job or one without a target date |
| JobService.GetJobStats | lib/services/jobs.ts:255-263 | the total; draft-or-active, completed and overdue counts, the first two and the last two disjoint |
| JobService.TotalValueAdds | lib/services/jobs.ts:256-263 | the value and the status counts add up over two batches |
| JobTable.GetStatusAction | components/jobs/job-table.tsx:55-81 | draft → active, active → on hold, on hold → active; none for completed or cancelled |
| JobTable.HoldResumeCycle | components/jobs/job-table.tsx:64-77 | hold then resume returns to active |
| JobTable.ButtonTargets | components/jobs/job-table.tsx:55-81 | completion is offered exactly when not completed; never cancelled or draft |
| JobTable.CancelledCanOnlyComplete | components/jobs/job-table.tsx:240 | a cancelled job offers only Mark Complete |
| JobTable.ClicksStayInReach | components/jobs/job-table.tsx:55-81 | no sequence of clicks returns to draft or cancels; completed is final |
| JobTable.HandleStatusChange | components/jobs/job-table.tsx:41-53 | the service's update, and the error shown exactly when it fails |
| JobTable.MarkCompleteStampsToday | components/jobs/job-table.tsx:240-244 | Mark Complete on a listed job completes it today with no error |
| JobTable.GetFooter | components/jobs/job-table.tsx:274-279 | the job count, and active and completed counts that do not overlap |
| JobTable.FooterAgreesWithStats | components/jobs/job-table.tsx:277-279 | the footer agrees with the service's job statistics |
| JobTable.JobsWord | components/jobs/job-table.tsx:274 | `job` exactly for one |
| ClientService.ToggleActiveStatus | lib/services/clients.ts:110-117 | a missing client fails with "Client not found"; otherwise only the flag is negated |
| ClientService.ToggleTwiceRestores | lib/services/clients.ts:110-117 | toggling twice restores the row |
| ClientService.ClientJobs | lib/services/clients.ts:127-130 | exactly the client's jobs |
| ClientService.ClientEntries | lib/services/clients.ts:138-141 | exactly the client's entries, with or without a job |
| ClientService.GetClientStats | lib/services/clients.ts:148-161 | the job count; the open and completed counts within it; Σ hours; Σ(override \|\| calculated) |
| ClientService.ClientStatsAgreeWithJobStats | lib/services/clients.ts:148-150 | the job counts are the job statistics of the client's jobs |
| ClientService.ClientPriceIgnored | lib/services/clients.ts:153 | `client_cost` plays no part in the statistics |
| ClientService.SameClientSums | lib/services/clients.ts:152-153 | entries agreeing on client and figure give the same client total |
| ClientService.ClientNameLeOrders | lib/services/clients.ts:170 | the name order is total and transitive |
| ClientService.SearchClients | lib/services/clients.ts:164-171 | at most 10 active matching clients, sorted by name and drawn from the matches as a multiset; all matches when there are few; when more, every one left out sorts after the last shown |
| ClientService.SortedByName | lib/services/clients.ts:170 | the same clients, sorted by name |
| ClientService.PrefixSorted | lib/services/clients.ts:171 | the first ten of a sorted list are sorted |
| ClientService.LeftOutSortsAfter | lib/services/clients.ts:170-171 | a client cut by the limit sorts after the last one kept |
| ClientService.EmptyQueryMatchesActive | lib/services/clients.ts:168-169 | the empty query matches exactly the active clients |
| StaffForm.InvalidEnumMessage | components/staff/staff-form.tsx:19-21 | zod's invalid-enum text ends with the received value, quoted |
| StaffForm.IssueMessage | components/staff/staff-form.tsx:15-36 | every broken rule shows a non-empty message: the schema's own texts and zod's invalid-enum text |
| StaffForm.Issues | components/staff/staff-form.tsx:14-38 | one issue per broken field rule; an invalid payment type aborts the parse, so the rate rule is checked only for `daily_rate` and `monthly_salary` |
| StaffForm.Normalise | components/staff/staff-form.tsx:82-89 | empty text as null; only the chosen type's truthy rate kept; the override amount only while enabled |
| StaffForm.ValidFormStoresPayableStaff | components/staff/staff-form.tsx:24-35 | a valid form stores a well-formed row with a positive rate of its own type only |
| StaffForm.ValidFormHourlyRate | components/staff/staff-form.tsx:28-35 | a valid day-rate member has a positive hourly rate; a salaried one 0 |
| StaffForm.DefaultValues | components/staff/staff-form.tsx:59-71 | the member being edited, or empty text, a day rate, 8 hours, active and no override |
| StaffForm.EditShowsSaved | components/staff/staff-form.tsx:59-89 | saving a valid form and reopening it shows exactly what was saved |
| StaffForm.NewFormNeedsARate | components/staff/staff-form.tsx:28-35 | a new form fails the payment rule until a rate is entered |
| StaffForm.HourlyMemberBlocked | components/staff/staff-form.tsx:19-21 | an `hourly_rate` member opened for editing fails the enum, and the rate rule is never reached |
| StaffPage.ActiveStaff | app/staff/page.tsx:57 | exactly the active staff |
| StaffPage.TotalPayrollCost | app/staff/page.tsx:58-65 | a list without active members costs nothing |
| StaffPage.DailyCost | app/staff/page.tsx:59-64 | the day rate, a 22nd of the monthly salary, or 0 without a truthy rate of the type |
| StaffPage.PayrollStep | app/staff/page.tsx:57-65 | a member adds their daily cost when active, and nothing otherwise |
| StaffPage.PayrollNonNegative | app/staff/page.tsx:58-65 | with no negative rate, the payroll is not negative |
| StaffPage.AverageDailyHours | app/staff/page.tsx:139-141 | none without active staff; otherwise the average times the count is Σ hours |
| StaffPage.SumBetween | app/staff/page.tsx:140 | a sum of values within bounds lies within the bounds times the count |
| StaffPage.AverageWithinFormBounds | app/staff/page.tsx:139-141 | with every day in 0.1..24, the average is too |
| WorkEntryForm.IssueMessage | components/daily-work/work-entry-form.tsx:19-24 | every broken rule shows the schema's non-empty message |
| WorkEntryForm.Issues | components/daily-work/work-entry-form.tsx:18-27 | one issue per broken rule: date, staff, task ≥ 3 characters, client, hours 0.1..24 |
| WorkEntryForm.ValidFormHasPositiveHours | components/daily-work/work-entry-form.tsx:19-24 | a valid form has a date, staff, client and positive hours |
| WorkEntryForm.CalculatedCost | components/daily-work/work-entry-form.tsx:111-121 | 0 without a matching staff member or positive hours; otherwise hours × rate to the penny |
| WorkEntryForm.ClientCostAndMargin | components/daily-work/work-entry-form.tsx:124-140 | all 0 without staff or hours; otherwise a positive override or the labour cost, the unrounded margin, and its rounded share |
| WorkEntryForm.FormPreview | components/daily-work/work-entry-form.tsx:111-142 | all 0 without a matching staff member or positive hours; otherwise, when there is a client price, a margin percentage in whole hundredths |
| WorkEntryForm.NoOverrideNoMargin | components/daily-work/work-entry-form.tsx:130-133 | without a positive override there is no margin |
| WorkEntryForm.PreviewMatchesServiceMargin | components/daily-work/work-entry-form.tsx:130-138 | the preview's percentage is the service's, the amount agrees to the penny |
| WorkEntryForm.PreviewPercentageBounds | components/daily-work/work-entry-form.tsx:130-138 | an override of at least the labour cost gives 0..100% |
| WorkEntryForm.Normalise | components/daily-work/work-entry-form.tsx:149-155 | the fields kept; empty job and notes and a falsy override become null; the client's name or "Unknown Client" |
| WorkEntryForm.DefaultValues | components/daily-work/work-entry-form.tsx:56-65 | the edited entry's values, or an empty form on the given date or today |
| WorkEntryForm.NewFormIncomplete | components/daily-work/work-entry-form.tsx:18-27 | a new form lacks exactly staff, task, client and hours |
| WorkEntryForm.ResubmitKeepsEntry | components/daily-work/work-entry-form.tsx:56-155 | resubmitting an entry's edit form unchanged keeps its values |

## Left out

- Supabase I/O, RPCs and the database functions (`generate_invoice_number`, `update_overdue_invoices`, `get_daily_margin_summary`, `migrate_client_names`). Each is a foreign call: a query becomes an input sequence, and a write becomes a returned value.
- React state, hooks, effects, `Promise.all`, routing and redirects, and the timers. The 3-second auto-disarm of the delete confirmation and the 1-second redirect after creating an invoice are not modelled.
- Authentication and user management: plaintext credential look-up and browser sessions.
- `formatCurrency`, `formatDate`, `toLocaleDateString` labels, job and payment status colours, and `getStatusColor`/`getPriorityColor`/`formatPaymentMethod`. These are display only.
- Invoice subtotal, VAT and total recomputation. The source stores these as columns.
- The clock and randomness: `today`, `now` and the `Math.random()` value are parameters.
- The local-time versus `toISOString` UTC shift in the date ranges. All dates are civil UTC dates.
- IEEE-754 artefacts and `NaN`. Amounts are exact reals, so `x || 0` on a non-null number is the number itself.
- `localeCompare` and Postgres `order('name')`: modelled as code-point lexicographic order. `toLowerCase` and `ilike`: modelled as ASCII lower-casing.
- ClientService.SearchClients: the `%` and `_` wildcards that a query may carry into the `ilike` pattern are treated as literal characters.
- StaffForm.Issues: the zod e-mail pattern is the parameter `emailValid`, not a restated regular expression. The invalid payment type message is zod's default invalid-enum text for the one value outside the enum, `hourly_rate`; zod itself is not part of this model.
- StaffForm.DefaultValues: the staff record here does not carry e-mail, phone or address. Those columns are the `Contact` parameter.
- WorkEntryForm.Normalise: the submitted row has no `calculated_cost`, because the form never sends the previewed labour cost. The database's own computation of it is not part of this model.
- JobService.Update: only the two columns that `updateStatus` writes are modelled. The other columns of a generic job update are not.
- JobService.IsOverdue: an unparseable target date (an invalid civil date) is treated as not overdue. JavaScript would compare `NaN`, which is false.
- StaffService.CalculateHourlyRate, StaffService.CalculateTaskCost, StaffService.TwoArgumentCallIgnoresOverride, StaffService.TaskCostZero, StaffService.TaskCostMonotonic, WorkEntryForm.CalculatedCost, WorkEntryForm.FormPreview and WorkEntryForm.NoOverrideNoMargin: require a non-zero `allocated_daily_hours` (`WellFormedStaff`), the one row the day-rate division cannot take; JavaScript would give `Infinity` or `NaN`. The staff form stores at least 0.1 hours; a negative allocation is admitted and gives a negative rate.
- Utils.HourlyRate: requires non-zero hours per day. JavaScript would return `Infinity` or `NaN`.
- InvoiceService.RandomSerial: requires `random` in `[0, 1)`, the range of `Math.random()`.
- The error that `addWorkEntries` may raise after an invoice was created is not modelled. `HandleFormSubmit` treats the line insert as succeeding.
- Order of rows as returned by queries without an `order` clause: the model keeps the input order.
- app/page.tsx, app/jobs/page.tsx, app/clients/page.tsx, the client and job forms, the inline edit row, and the staff and client tables. They repeat sums and predicates modelled above, or only map empty strings to null.
