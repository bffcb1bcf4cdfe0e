# Logistics invoice extraction demo: a Dafny model of the pipeline simulation

The application is a single React component, `App`, in `app/page.tsx`. It
simulates an AI/OCR extraction run over logistics invoices. A click on the
upload area starts a run. The run resolves the records to reveal, either a
fixed sample list or records made from comma-separated ids the user typed.
It then schedules seven timed stages. Each stage writes one line to a
terminal-style log and moves a progress bar. The last stage reveals the
results and ends the run. Results can then be exported: an "export" shows a
spinner and, 1.5 s later, a toast `Saved as PDF!` / `Saved as CSV!`, which
disappears 4 s after that.

The model has four modules:

- `Text` (text.dfy): the JavaScript string operations the component relies on.
  These are `trim()`, `split(',')`, the decimal rendering of an integer inside
  a template literal, and `toUpperCase()`. Each comes with the lemmas that
  characterise it: trim cuts off exactly the surrounding whitespace, split and
  join are inverses, and a decimal rendering reads back as its number.
- `Invoices` (invoices.dfy): the invoice record, the fixed three-invoice
  sample list, and `Materialize`, which computes the run's `dataToProcess`
  from the input mode and the typed text.
- `Stages` (stages.dfy): the static seven-stage schedule (`simulationSteps`)
  as data, with its ordering facts proved.
- `Dashboard` (dashboard.dfy): the component's state as a class `App`. Its
  fields are the React state variables. Each event is a method: the user's
  clicks, and also every timer callback (`FireStage`, `SettleExport`,
  `ClearNotification`). The class also records the timers still pending.
  `RunInvariant` is the pure invariant of a run. Two lemmas prove that
  starting a run establishes it and that firing a stage preserves it. The
  methods' contracts tie each new state to the old one.

Timers become explicit events. This is sound for this component for three
reasons:

- A run's stage delays (500, 1000, …, 3500 ms) strictly increase, so its
  callbacks fire in index order. `FireStage` always fires the next unfired stage.
- A new run is refused while one is in progress. The in-progress flag clears
  only at the last stage. So no stage timer of an older run is still pending
  when a new run starts.
- Every export's settle timer has the same 1500 ms delay, so settles fire in
  request order (`pendingSaves` is a queue). Every clear timer has the same
  4000 ms delay, and each clears whatever toast is showing. The model keeps
  exactly that: `ClearNotification` sets the notification to none, whichever
  settle produced it.

Stage events and export events may interleave in any order, as they can in
the browser.

Environment inputs are parameters:

- `RunSimulation` takes `dateOf(i)` and `amountCents(i)`. `dateOf(i)` is the
  date part of `new Date().toISOString()`, read when custom record i is made.
  `amountCents(i)` is the random amount of custom record i. Each record reads
  the clock itself, so two records of one run may carry different dates.
- `FireStage` takes `time`, the `toLocaleTimeString()` of the moment the
  stage fires.

Line-item prices are held in euro cents. Amounts the records hold as display
strings stay strings.

Three facts about the code shape the model:

- `showHelp`, `selectedInvoice` and `showExportMenu` are independent flags;
  no exclusion between them is modelled.
- Every settle timer is 1500 ms, so acknowledgements come in request order.
- No last-format state exists; only the toast text carries the format.

## Model

| member | source | states |
|---|---|---|
| Text.Split | app/page.tsx:136 | `split(',')` never yields an empty list, even for the empty string |
| Text.SplitCount | app/page.tsx:136 | splitting gives exactly one piece more than there are commas, and no piece contains a comma |
| Text.JoinSplit | app/page.tsx:136 | joining the pieces with commas gives back the typed text, so nothing is lost or invented |
| Text.SplitJoin | app/page.tsx:136 | splitting the comma-join of comma-free pieces returns those pieces, so Split is the unique comma-free decomposition |
| Text.Trim | app/page.tsx:137 | the trimmed token is no longer than the token and neither starts nor ends with whitespace |
| Text.TrimShape | app/page.tsx:137 | `trim()` keeps one contiguous slice; everything removed on either side is whitespace; the slice neither starts nor ends with whitespace |
| Text.TrimEmptyIff | app/page.tsx:137 | a token trims to the empty string exactly when it is all whitespace |
| Text.TrimIdempotent | app/page.tsx:137 | trimming twice is trimming once |
| Text.NatToString | app/page.tsx:137 | the `${index + 1}` rendering is a non-empty digit string, with no leading zero unless the number is 0 |
| Text.ParseNatToString | app/page.tsx:137 | the decimal rendering reads back as the number rendered |
| Text.NatToStringInjective | app/page.tsx:137 | distinct positions get distinct placeholder numbers |
| Text.Upper | app/page.tsx:120 | upper-casing keeps the length and leaves no lower-case ASCII letter |
| Text.UpperShape | app/page.tsx:120 | upper-casing keeps the length, turns each lower-case ASCII letter into its capital, leaves every other character alone, and leaves no lower-case ASCII letter |
| Text.UpperIdempotent | app/page.tsx:120 | upper-casing twice is upper-casing once |
| Invoices.SampleDataFacts | app/page.tsx:22-85 | the sample list has exactly the three invoices INV-2023-001, -002 and -003, each verified and with at least one line item |
| Invoices.AmountDisplay | app/page.tsx:141 | a custom record's amount starts with `€`, has a point third from the end, and is at least five characters long |
| Invoices.AmountDisplayRoundTrip | app/page.tsx:141 | a custom record's amount is `€`, the whole euros, `.`, and exactly two digits, and it reads back as the amount drawn |
| Invoices.CustomId | app/page.tsx:137 | a custom id is never empty; it is the trimmed token unless the token is all whitespace, and `DATA-{index+1}` when it is |
| Invoices.CustomRecord | app/page.tsx:136-152 | a custom record has a non-empty id, the date and amount it was made with, status `Verified` and one line item |
| Invoices.CustomIdShape | app/page.tsx:137 | a custom id is the trimmed token, or `DATA-{index+1}` exactly when the token is blank; either way it is non-empty, comma-free and already trimmed |
| Invoices.Materialize | app/page.tsx:134-152 | standard mode yields the sample list verbatim, and either mode yields at least one record, even for empty custom text |
| Invoices.MaterializeStandard | app/page.tsx:134-135 | standard mode yields the sample list verbatim |
| Invoices.MaterializeCustom | app/page.tsx:136-152 | custom mode yields commas+1 records in token order. Record i has the trimmed i-th token as id, or `DATA-{i+1}` when that token is blank. It carries the date read when it was made, its own drawn amount and one line item |
| Invoices.MaterializeCustomByTokens | app/page.tsx:136-137 | for any comma-free tokens that join with commas to the typed text, there is one record per token, and record i carries the id made from token i |
| Invoices.MaterializeItemsNonEmpty | app/page.tsx:134-152 | in either mode every record has at least one line item |
| Invoices.MaterializeExampleTrimmed | app/page.tsx:136-137 | input `"A, B ,C"` yields exactly the ids A, B, C |
| Invoices.MaterializeExampleEmpty | app/page.tsx:136-137 | the empty input yields exactly one record, with id `DATA-1` |
| Stages.Schedule | app/page.tsx:154-162 | the schedule has seven stages; the second message embeds the record count in decimal; the last stage is `final` and sets progress to 100 |
| Stages.ScheduleDelays | app/page.tsx:154-162 | the schedule has 7 stages; stage i fires at 500(i+1) ms, so delays strictly increase and delay order is index order |
| Stages.ScheduleProgress | app/page.tsx:154-162 | progress values never decrease, lie in 1..100, and the last one is 100 |
| Stages.ScheduleFinal | app/page.tsx:154-166 | exactly the last stage is `final`, both as declared and as the type its log entry gets |
| Stages.ProgressAfterMonotone | app/page.tsx:154-167 | the progress after k fired stages does not decrease as k grows, is below 100 until all seven have fired, and is 100 then |
| Stages.DetectedMessage | app/page.tsx:156 | the second message is `Detected {n} records for processing...` with n in decimal digits that read back as the record count |
| Stages.ScheduleOnlyCountDiffers | app/page.tsx:154-162 | schedules for different record counts agree on every stage but the second message, which differs exactly when the counts do |
| Dashboard.DisplayFormat | app/page.tsx:120 | the shown format has the request's length and holds no lower-case ASCII letter |
| Dashboard.SavedMessage | app/page.tsx:120-121 | the toast is `Saved as `, the shown format, then `!`, ten characters longer than the format |
| Dashboard.DisplayFormatShape | app/page.tsx:120 | the shown format is the upper-cased request, or `CSV` when that is `CVS`; it has the request's length, holds no lower-case ASCII letter, and displaying it again changes nothing |
| Dashboard.SavedMessageExamples | app/page.tsx:120-121 | the toasts for `csv`, `pdf` and `cvs` read `Saved as CSV!`, `Saved as PDF!`, `Saved as CSV!` |
| Dashboard.RunInvariant | app/page.tsx:126-172 | under the run invariant a run in progress shows no results; once a scheduled run has ended, the results are the run's records, the log holds one entry per stage and progress is 100 |
| Dashboard.App.Valid | app/page.tsx:115-172 | a valid state shows no results while a run is in progress, and has a settle pending while the spinner shows |
| Dashboard.StartEstablishes | app/page.tsx:128-132 | a run started with cleared log, progress and results satisfies the run invariant, with 0 of 7 stages fired |
| Dashboard.FireStagePreserves | app/page.tsx:164-172 | firing the next stage keeps the run invariant. The fired stage is `final` exactly when none is left. Before that, results stay empty and the run stays in progress |
| Dashboard.App.constructor | app/page.tsx:88-97 | the initial state: nothing running or exporting, menu closed, no toast, empty log and results, progress 0, standard mode, custom text `INV-X1, INV-X2` |
| Dashboard.App.SetInputMode | app/page.tsx:434-435 | the mode switch sets the input mode and nothing else |
| Dashboard.App.SetCustomInput | app/page.tsx:443-444 | the text field sets the custom input and nothing else |
| Dashboard.App.AddLog | app/page.tsx:104-106 | appends exactly one entry at the end of the log, earlier entries unchanged, and changes nothing else |
| Dashboard.App.RunSimulation | app/page.tsx:126-162 | while a run is in progress nothing changes. Otherwise the run starts with empty log and results, progress 0 and no toast, and the records are materialised from the current mode and text. The 7-stage schedule for that record count is pending |
| Dashboard.App.FireStage | app/page.tsx:164-172 | appends one log entry with the stage's message and type (default `info`) and sets progress to the stage's value. Only the `final` stage publishes the records and ends the run; after earlier stages results are empty and the run is in progress |
| Dashboard.App.RequestExport | app/page.tsx:115-118 | the spinner shows, the export menu closes, and a settle timer for the format is pending |
| Dashboard.App.SettleExport | app/page.tsx:118-122 | the earliest pending settle turns the spinner off and shows `Saved as {FORMAT}!`, and a clear timer is pending |
| Dashboard.App.ClearNotification | app/page.tsx:122 | a clear timer removes whatever toast is showing |
| Dashboard.App.ToggleExportMenu | app/page.tsx:505-507 | the Export Data button flips the menu, but only when it is shown (results exist) and enabled (no export pending) |

## Left out

- JSX rendering, CSS and the `<style>` block: presentation only.
- The effect that scrolls the terminal to its last line: DOM I/O.
- Wall-clock time and the browser's timer queue: each timer callback is an event method, called only while its timer is pending.
- React's state batching and render cycle: each handler's state updates are applied as one atomic step.
- The `Math.random()` amount: it arrives as its rounded number of cents, supplied by the caller.
- The floating-point rounding of `toFixed(2)`: not modelled, for the same reason.
- Dates and times from `new Date()`: opaque strings supplied by the caller, one date per custom record.
- JavaScript strings are sequences of UTF-16 code units; the model's strings are sequences of Unicode scalar values, so a lone surrogate in the typed text cannot be represented.
- Line totals (`qty * price`) shown in the preview table: display arithmetic on floating-point numbers, not modelled.
- The help panel (`showHelp`) and the invoice preview (`selectedInvoice`): plain independent flags that no core logic reads, so they are not modelled.
- Text.UpperShape: describes `toUpperCase` on ASCII letters only; other characters are taken as unchanged, whereas JavaScript also upper-cases non-ASCII letters. Every format the buttons pass is ASCII.
- The LinkedIn link and the "Confirm and Sync to ERP" button: a plain link, and a button with no handler.
- next.config.ts: build flags only, no logic.
