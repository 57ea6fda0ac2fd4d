# Tempora, modelled in Dafny

Tempora is a time-tracking web application for teams. A user clocks in on a
project (and optionally a task), pauses and resumes, and clocks out. Each
session is a row of the `time_entries` table with the status `active`,
`paused` or `completed`, a start and end instant, and its hours. Around that
timer sit the organization and project administration, reports with CSV, PDF
and invoice exports, a dashboard, and a help centre.

This project models the client-side logic of the application and proves what
that logic guarantees. Instants are integer milliseconds. A session's hours
are integer hundredths of an hour in the timer and real numbers in the
reports. Every answer of the remote database, every write outcome and every
reading of the clock is a parameter, so each contract covers all of them.

## Modules

- `Common` holds the nullable values and `||` defaults (`Option`, `TextOr`,
  `NumOr`), the three-way answer of a query (`Answer`), and the JavaScript
  string and number primitives the code uses.
- `Grouping` groups entries by a text key the way every report reduce does:
  keys in first-appearance order, a sum per key, and the fact that the
  groups add up to the total.
- `TimeEntry` holds the entry, the `date-fns` differences (truncating toward
  zero), the zombie rule (twelve whole hours, not paused) and the rounding of
  hours to hundredths.
- `EntryStore` is the remote table of entries and pause records, written
  through operations that either succeed or change nothing.
- `TimeTracking` is the timer state machine. It covers fetching the current
  entry with the zombie check, clock-in with the sweep of orphaned open
  entries, clock-out, pause and resume, and keeping or fixing a zombie. It
  also covers the elapsed-time tick, the visibility change, the half-hour
  chime and the idle reminder.
- `TimeTrackingLegacy` is the older hook, with no sweep and no zombie check.
- `ZombieDialog`, `CurrentStatus`, `FloatingTimer` and `FocusMode` are the
  timer's screens: the suggested fix time and the `datetime-local` value, the
  two clock formats, the project and task pickers, and the finish buttons.
- `TableOfContents`, `ArticleViewer`, `ArticleMeta`, `HelpContent` and
  `HelpPage` make up the help centre. They cover heading extraction and slug
  ids, the plain text of rendered children, links and captions, reading time,
  the article tables with lookup and search, and the category filter.
- `ProjectMembers`, `Notifications`, `Tasks`, `OrgMembers`, `Projects` and
  `AuthContext` are the in-memory stores. Each updates its list after a
  write, and the rules they carry are:
  - `ProjectMembers`: the membership diff;
  - `Notifications`: the unread counter;
  - `OrgMembers`: the member/profile merge;
  - `Projects`: the project stats and the rule for which projects a user
    sees;
  - `AuthContext`: the choice of the active organization.
- `History` is the paginated history page.
- `ReportsData`, `ReportsPage`, `ReportCharts`, `ExportUtils` and
  `InvoiceDialog` make up the reports. They cover the filter semantics and
  row defaults, the page's figures and download prompt, the chart grouping
  and colours, the CSV and PDF rows, and the invoice lines and totals.
- `ProjectDetails` covers the project page's totals, its hours per task
  (most first) and its activity per day.
- `Dashboard` covers the seven-day chart, the recent entries and the energy
  label.

Where the source updates state in place, the model does too. React hooks and
components with state become classes, and their handlers and effects become
methods. Each tick of a timer, a visibility change and each await is one
method call. Loops in the source are `while` loops proved against functions
that specify them.

## Model

| member | source | states |
|---|---|---|
| Common.TextOr | src/hooks/use-reports-data.ts:83-89 | `s \|\| d` on a text: the default exactly when the text is missing or empty (or already the default), the text itself otherwise |
| Common.NumOr | src/lib/export-utils.ts:19-23 | `x \|\| d` on a number: a missing value or 0 gives the default, any other value is kept |
| Common.Filter | src/lib/help-content.ts:143-147 | `filter` keeps members that pass the test, each one a member of the input, and never adds any |
| Common.FilterIff | src/pages/Help.tsx:57-60 | a value is kept exactly when it is a member passing the test |
| Common.FilterAppend | src/hooks/use-notifications.ts:94-96 | filtering a concatenation filters each part: the kept members keep their order |
| Common.FilterAll | src/pages/Help.tsx:57-60 | a test every member passes keeps the whole sequence |
| Common.FilterStricter | src/pages/Help.tsx:57-60 | a stricter test keeps a subsequence of what the looser test keeps |
| Common.FindIndex | src/components/auth-context.tsx:49-56 | `find` stops at the first member passing the test, and finds none exactly when no member passes |
| Common.RoundHalfUp | src/hooks/use-projects.ts:47 | `Math.round` of a non-negative value: the nearest integer, ties up |
| Common.Round2 | src/components/reports/report-charts.tsx:26 | `Number(x.toFixed(2))` is within half a hundredth of `x` and keeps the sign of a non-negative value |
| Common.Round2OfCents | src/components/reports/report-charts.tsx:26 | a value that already has two decimals is left as it is |
| Common.DigitChar | src/components/time-tracking/current-status.tsx:49 | the character of a decimal digit is a digit of that value |
| Common.NatToString | src/components/time-tracking/current-status.tsx:49 | `n.toString()` is a non-empty string of decimal digits |
| Common.NatToStringRoundTrip | src/components/time-tracking/current-status.tsx:49 | reading the digits back gives `n` |
| Common.NatToStringLength | src/components/time-tracking/current-status.tsx:49 | one digit below 10, two from 10 to 99, three or more from 100 |
| Common.PadStart2 | src/components/dialogs/zombie-timer-recovery-dialog.tsx:128 | `padStart(2, '0')` adds zeros in front up to width 2 and never truncates |
| Common.Pad2Small | src/components/time-tracking/current-status.tsx:49 | a number below 100 pads to exactly its two digits |
| Common.Pad2Large | src/components/time-tracking/current-status.tsx:49 | a number from 100 is left unpadded |
| Common.Pad2Value | src/components/time-tracking/current-status.tsx:49 | padding keeps the value, gives digits only and at least two of them |
| Common.Fixed2 | src/lib/export-utils.ts:19-23 | `toFixed(2)` gives the integer part, a '.', and two decimals, with a '-' exactly for a negative value |
| Common.TrimStart | src/lib/help-content.ts:140 | `trimStart` drops exactly the leading white space |
| Common.TrimEnd | src/lib/help-content.ts:140 | `trimEnd` drops exactly the trailing white space |
| Common.TrimEmptyIffBlank | src/lib/help-content.ts:140 | a trimmed text is empty exactly when the text is all white space |
| Common.ToLower | src/lib/help-content.ts:142-146 | `toLowerCase` as restricted here: the ASCII and Latin-1 capitals are lowered one by one, every other character is kept, and the length is kept |
| Common.ContainsEmpty | src/lib/help-content.ts:142-147 | every text includes the empty text |
| Common.ContainsTransitive | src/pages/Help.tsx:57-60 | `includes` is transitive |
| Common.ContainsLower | src/pages/Help.tsx:57-60 | with the per-character lowering, lowering both texts keeps an inclusion |
| Common.JoinAvoids | src/lib/export-utils.ts:43-46 | a character in no part and not in the separator is not in the joined text |
| Common.FirstIndex | src/hooks/use-project-details.ts:70 | the first position of a character that occurs |
| Common.Split | src/hooks/use-project-details.ts:70 | `split(c)` gives at least one piece, and no piece holds `c` |
| Common.SplitJoin | src/lib/export-utils.ts:43-46 | splitting lines joined by a separator they do not hold gives the lines back |
| Common.DatePart | src/hooks/use-time-tracking.tsx:217 | `split("T")[0]`: the longest prefix of the text without a `T`, so it ends at the first `T` or at the end |
| Grouping.KeysFacts | src/components/reports/report-charts.tsx:13-25 | the buckets of a `reduce` keyed by name: each name once, and exactly the names of the members |
| Grouping.KeysCount | src/lib/export-utils.ts:80-87 | no more distinct names than entries, and at least one when there is an entry |
| Grouping.FirstIndexOf | src/components/reports/report-charts.tsx:14 | the position of the first member of a name: it has the name and none before it does |
| Grouping.FirstWith | src/lib/export-utils.ts:209-215 | the member that creates a name's bucket is a member of that name |
| Grouping.FirstIndexAppend | src/components/reports/report-charts.tsx:14-23 | a later member never changes the member that created an existing bucket; a new name's bucket starts at it |
| Grouping.KeysInFirstAppearanceOrder | src/components/reports/report-charts.tsx:13-25 | the buckets come in the order of their names' first members |
| Grouping.SumWhereAbsent | src/hooks/use-project-details.ts:65 | a name with no member sums to 0 |
| Grouping.GroupsSumToTotal | src/components/reports/report-charts.tsx:13-38 | the unrounded bucket sums add up to the sum over all members |
| Grouping.SumWhereNonNegative | src/components/reports/report-charts.tsx:15-17 | a bucket of non-negative values has a non-negative sum |
| TimeEntry.DiffSeconds | src/hooks/use-time-tracking.tsx:75-86 | `differenceInSeconds` is the whole seconds between two instants, truncated toward zero |
| TimeEntry.WholeHours | src/hooks/use-time-tracking.tsx:34-35 | `differenceInHours` is the whole hours between two instants, truncated toward zero |
| TimeEntry.ZombieThreshold | src/hooks/use-time-tracking.tsx:33-43 | an entry is a zombie exactly when at least 12 hours (43 200 000 ms) have passed since its start and it is not paused |
| TimeEntry.Round2Hours | src/hooks/use-time-tracking.tsx:236-244 | the stored `total_hours`, in hundredths of an hour, is within half a hundredth of seconds / 3600 and never negative for a forward stretch |
| TimeEntry.Round2HoursOdd | src/hooks/use-time-tracking.tsx:244 | the rounding is symmetric about zero, as `toFixed` is |
| TimeEntry.Round2HoursIsRound2 | src/hooks/use-time-tracking.tsx:244 | the hundredths agree with `Number((seconds / 3600).toFixed(2))` on reals |
| TimeEntry.NinetyMinutes | src/hooks/use-time-tracking.tsx:236-244 | 5400 s is stored as 1.50 |
| TimeEntry.Round2HoursMonotone | src/hooks/use-time-tracking.tsx:236-244 | a longer session never stores fewer hours |
| TimeEntry.IsZombie | src/hooks/use-time-tracking.tsx:33-43 | an open entry is a zombie when at least 12 whole hours have passed since clock-in and it is not paused; ZombieThreshold states the same rule in milliseconds |
| TimeTracking.ElapsedIgnoresStatus | src/hooks/use-time-tracking.tsx:75-86 | the elapsed time depends only on the clock-in instant, not on the status, and is non-negative exactly when the clock is less than a second behind the start |
| TimeTracking.AfterFetch | src/hooks/use-time-tracking.tsx:56-71 | after a fetch nothing is loading; no row clears the current entry and the time; a zombie row is parked in the zombie slot and the current entry is left alone; any other row becomes the current entry with its elapsed time |
| TimeTracking.OrNull | src/hooks/use-time-tracking.tsx:214-215 | an absent or empty project or task id is stored as no id, any other id as itself |
| TimeTracking.SweptOpen | src/hooks/use-time-tracking.tsx:192-204 | when no write fails, the first n steps of the sweep remove exactly the first n orphans from the user's open set |
| TimeTracking.SweepClosesAll | src/hooks/use-time-tracking.tsx:181-205 | a sweep over every open entry of the user in which no write fails leaves the user with no open entry |
| TimeTracking.SweptRow | src/hooks/use-time-tracking.tsx:196-203 | every orphan whose write succeeds ends up completed, with the shared `clock_out` and the hours measured at its own step |
| TimeTracking.ChimeStep | src/hooks/use-time-tracking.tsx:126-141 | the chime fires exactly in minute 0 or 30 when it has not already fired in that minute; it then remembers that minute, and any other minute clears the marker |
| TimeTracking.OneChimePerRun | src/hooks/use-time-tracking.tsx:131-141 | over consecutive ticks within minute 0 or 30 the chime fires once, or never when it already fired in that minute |
| TimeTracking.ChimeAgainAfterLeaving | src/hooks/use-time-tracking.tsx:138-141 | leaving the key minute and coming back makes it ring again |
| TimeTracking.SingleOpenRowIsOpen | src/hooks/use-time-tracking.tsx:49-54 | the row the single-row query returns is an open entry of the user asked for |
| TimeTracking.FixRejectsIff | src/hooks/use-time-tracking.tsx:295-300 | the fix is rejected exactly when the new end lies a full second or more before the start |
| TimeTracking.Tracker.constructor | src/hooks/use-time-tracking.tsx:26-30 | the hook starts with no current entry, no zombie, no elapsed time, loading, and no chime marker |
| TimeTracking.Tracker.FetchActive | src/hooks/use-time-tracking.tsx:45-73 | without a user nothing changes; otherwise the new state is the fetch outcome for the single open row of the user, or for no row when the query fails |
| TimeTracking.Tracker.ClockOut | src/hooks/use-time-tracking.tsx:231-255 | with no current entry nothing changes; otherwise that row is closed with the end instant and the rounded hours, and only a successful write clears the current entry and the elapsed time |
| TimeTracking.Tracker.ClockIn | src/hooks/use-time-tracking.tsx:167-229 | without a user or an organization nothing changes; otherwise the current entry is clocked out, the open entries found are swept, and a new active entry is inserted and becomes current; when no write fails, that entry is the user's only open entry |
| TimeTracking.Tracker.StartSession | src/hooks/use-time-tracking.tsx:181-228 | the sweep closes the rows the query listed, and a successful insert makes the new active entry current; when nothing fails it is the user's only open entry |
| TimeTracking.Tracker.CloseOrphans | src/hooks/use-time-tracking.tsx:192-204 | the table after the loop is the sweep of all the listed orphans, one write per orphan |
| TimeTracking.Tracker.TogglePause | src/hooks/use-time-tracking.tsx:257-279 | active and paused swap; a pause row is recorded only when pausing and only if its insert succeeds; the current entry becomes the updated row when the update succeeds |
| TimeTracking.Tracker.KeepZombie | src/hooks/use-time-tracking.tsx:282-288 | the parked entry becomes the current entry with its elapsed time and the zombie slot empties; with no zombie nothing changes |
| TimeTracking.Tracker.FixZombie | src/hooks/use-time-tracking.tsx:290-318 | with no zombie, a negative duration or a failed write nothing changes; otherwise the zombie row is closed at the new end, the slot empties, and the entry is fetched again |
| TimeTracking.Tracker.ElapsedTick | src/hooks/use-time-tracking.tsx:92-107 | while the current entry is active every tick sets the elapsed time from its start; otherwise the time stays |
| TimeTracking.Tracker.VisibilityChange | src/hooks/use-time-tracking.tsx:110-119 | becoming visible with a current entry recomputes the elapsed time; otherwise it stays |
| TimeTracking.Tracker.ChimeTick | src/hooks/use-time-tracking.tsx:124-144 | while the current entry is active a tick takes one chime step; otherwise it neither fires nor touches the marker |
| TimeTracking.Tracker.IdleTick | src/hooks/use-time-tracking.tsx:147-159 | the reminder sounds exactly when nothing is running and the tab is visible |
| TimeTracking.Elapsed | src/hooks/use-time-tracking.tsx:75-86 | `calculateElapsedTime`: the whole seconds since clock-in in both branches; ElapsedIgnoresStatus proves that the status makes no difference and when the result is non-negative |
| TimeTracking.Chimes | src/hooks/use-time-tracking.tsx:126-141 | the number of chimes over a run of ticks; OneChimePerRun proves that a run of ticks in minute 0 or 30 rings once, or not at all when it already rang in that minute, and ChimeAgainAfterLeaving that leaving the minute and coming back rings again |
| EntryStore.IdSetSize | src/hooks/use-time-tracking.tsx:181-186 | a list of rows with strictly increasing ids has as many distinct ids as rows |
| EntryStore.CloseRowCloses | src/hooks/use-time-tracking.tsx:239-246 | closing a stored row removes exactly its id from every user's set of open entries |
| EntryStore.SetStatusKeepsOpen | src/hooks/use-time-tracking.tsx:270-273 | switching an open row between active and paused leaves every open set unchanged |
| EntryStore.InsertOpen | src/hooks/use-time-tracking.tsx:209-219 | inserting an open row under a fresh id adds that id to its owner's open set and to no other |
| EntryStore.ScanDone | src/hooks/use-time-tracking.tsx:181-185 | once every stored id has been scanned, the list holds exactly the user's open rows |
| EntryStore.Store.constructor | src/hooks/use-time-tracking.tsx:50 | the table starts empty, with no pauses and the first id 0 |
| EntryStore.Store.SelectOpen | src/hooks/use-time-tracking.tsx:181-185 | the query fails exactly when it returns no data; otherwise it lists the user's open rows, each once |
| EntryStore.Store.SelectSingleOpen | src/hooks/use-time-tracking.tsx:49-54 | the query returns the user's open row when there is exactly one and it does not fail, and nothing otherwise |
| EntryStore.Store.Close | src/hooks/use-time-tracking.tsx:239-246 | a successful write marks the row completed with its `clock_out` and `total_hours`; a failed one changes nothing |
| EntryStore.Store.SetStatus | src/hooks/use-time-tracking.tsx:270-275 | a successful update sets the row's status and returns the updated row; a failed one or an unknown id returns nothing |
| EntryStore.Store.Insert | src/hooks/use-time-tracking.tsx:209-221 | a successful insert stores a new active row under a fresh id, with its date column, and returns it; a failed one changes nothing |
| EntryStore.Store.InsertPause | src/hooks/use-time-tracking.tsx:263-267 | a successful insert appends one break that starts at the given instant; a failed one changes nothing |
| TimeTrackingLegacy.LegacyTracker.constructor | src/hooks/use-time-tracking.ts:22-26 | the older hook starts with no current entry, no elapsed time, and loading |
| TimeTrackingLegacy.LegacyTracker.FetchActive | src/hooks/use-time-tracking.ts:28-51 | without a user nothing changes; otherwise any single open row becomes the current entry with its elapsed time, with no zombie check, and no row clears the entry and the time |
| TimeTrackingLegacy.LegacyTracker.ElapsedTick | src/hooks/use-time-tracking.ts:53-82 | the 1-second tick recomputes the elapsed time only while the current entry is active |
| TimeTrackingLegacy.LegacyTracker.ClockIn | src/hooks/use-time-tracking.ts:84-111 | clocking in inserts a new active entry and closes nothing first, so a user who already had an open entry ends with at least two |
| TimeTrackingLegacy.LegacyTracker.ClockOut | src/hooks/use-time-tracking.ts:113-137 | the current row is closed with the same rounded hours as the newer hook, and only a successful write clears the entry and the time |
| TimeTrackingLegacy.LegacyTracker.TogglePause | src/hooks/use-time-tracking.ts:139-161 | active and paused swap, a break is recorded when pausing, and the current entry becomes the updated row when the update succeeds |
| ZombieDialog.SuggestedFix | src/components/dialogs/zombie-timer-recovery-dialog.tsx:32 | the proposed end is exactly four whole hours (14 400 s) after the start |
| ZombieDialog.PadFacts | src/components/dialogs/zombie-timer-recovery-dialog.tsx:128 | `pad` prints the absolute value with at least two characters and truncates no digit |
| ZombieDialog.FormatForInput | src/components/dialogs/zombie-timer-recovery-dialog.tsx:35-37 | the input value is a prefix of the local ISO text, at most 16 characters long |
| ZombieDialog.InputValueShape | src/components/dialogs/zombie-timer-recovery-dialog.tsx:126-135 | for a four-digit year and two-digit fields the full text has 19 characters and the input value is exactly `YYYY-MM-DDTHH:mm` |
| ZombieDialog.Dialog.constructor | src/components/dialogs/zombie-timer-recovery-dialog.tsx:23-24 | the dialog opens on the first screen with an empty input |
| ZombieDialog.Dialog.FixClick | src/components/dialogs/zombie-timer-recovery-dialog.tsx:39-42 | the fix screen opens holding the suggested end, formatted for the input |
| ZombieDialog.Dialog.Edit | src/components/dialogs/zombie-timer-recovery-dialog.tsx:105 | editing replaces the input's text |
| ZombieDialog.Dialog.ConfirmFix | src/components/dialogs/zombie-timer-recovery-dialog.tsx:44-48 | the parsed input is passed on unchecked and the dialog returns to the first screen |
| ZombieDialog.Dialog.Back | src/components/dialogs/zombie-timer-recovery-dialog.tsx:112 | "Volver" returns to the first screen and sends nothing |
| ZombieDialog.Dialog.OpenChange | src/components/dialogs/zombie-timer-recovery-dialog.tsx:51-52 | requests to close the dialog are ignored |
| ZombieDialog.HoursRunning | src/components/dialogs/zombie-timer-recovery-dialog.tsx:29 | the hours the dialog reports are `differenceInHours(now, start)`, the whole hours truncated toward zero that TimeEntry.WholeHours states |
| ZombieDialog.Pad | src/components/dialogs/zombie-timer-recovery-dialog.tsx:128 | `pad`: the decimal text of the absolute value, padded to two characters; PadFacts proves that it keeps the value and never truncates |
| ZombieDialog.FormatLocalIso | src/components/dialogs/zombie-timer-recovery-dialog.tsx:126-135 | `YYYY-MM-DDTHH:mm:ss` from the local fields with the month made 1-based; InputValueShape states its layout and FormatForInput takes its first 16 characters |
| CurrentStatus.JsRem | src/components/time-tracking/current-status.tsx:47-48 | JavaScript's `%` agrees with the Euclidean remainder for a non-negative dividend and always lies strictly between -b and b |
| CurrentStatus.ClockFieldsSplit | src/components/time-tracking/current-status.tsx:45-50 | for a non-negative duration the minute and second fields lie below 60 and the three fields add back up to it |
| CurrentStatus.FormatTimeLength | src/components/time-tracking/current-status.tsx:45-50 | the clock has at least 8 characters, and exactly 8 exactly below 100 hours |
| CurrentStatus.ClockRoundTrip | src/components/time-tracking/current-status.tsx:45-50 | the printed clock reads back as the duration it was printed from |
| CurrentStatus.Badge | src/components/time-tracking/current-status.tsx:156-158 | the badge reads "Pausado" exactly for a paused entry |
| CurrentStatus.TaskQueryProject | src/components/time-tracking/current-status.tsx:39 | tasks are loaded only once a real project is chosen, and then for that project |
| CurrentStatus.PickerArg | src/components/time-tracking/current-status.tsx:108-111 | the picker value "none" means no id; any other value is passed on |
| CurrentStatus.PickerStoresId | src/components/time-tracking/current-status.tsx:108-111 | the stored id is absent exactly for "none" and for the untouched "" |
| CurrentStatus.Card.constructor | src/components/time-tracking/current-status.tsx:35-36 | the card starts with no project and no task chosen |
| CurrentStatus.Card.SelectProject | src/components/time-tracking/current-status.tsx:71 | choosing a project clears the chosen task |
| CurrentStatus.Card.SelectTask | src/components/time-tracking/current-status.tsx:89 | choosing a task keeps the project |
| CurrentStatus.Card.Start | src/components/time-tracking/current-status.tsx:108-111 | the start is the tracker's clock-in with the chosen ids: without a user or an organization nothing changes; otherwise the clock-out, the sweep, the insert and the new current entry and elapsed time are those of the clock-in, and a successful start makes the new entry current with the chosen project and task |
| CurrentStatus.Card.Finish | src/components/time-tracking/current-status.tsx:22-33 | the session is celebrated exactly when it ran more than 30 minutes, and the entry is always clocked out: without a session nothing changes; a successful close clears the session and the elapsed time, a failed one keeps both |
| CurrentStatus.FormatTime | src/components/time-tracking/current-status.tsx:45-50 | `formatTime`: hours, minutes and seconds, each padded to two digits and separated by ':'; ClockRoundTrip reads the duration back from it and FormatTimeLength fixes its length |
| FloatingTimer.Render | src/components/time-tracking/floating-timer.tsx:54-65 | nothing is drawn without a current entry; otherwise the clock is the card's `formatTime` of the elapsed time, and the paused label appears exactly for a paused entry |
| FloatingTimer.RenderedClock | src/components/time-tracking/floating-timer.tsx:16-21 | below 100 hours the drawn clock has 8 characters and reads back as the elapsed time |
| FocusMode.FocusUnderAnHour | src/pages/FocusMode.tsx:20-25 | under an hour the focus clock is `MM:SS`, five characters, and equals the last five characters of the card's clock |
| FocusMode.FocusFromAnHour | src/pages/FocusMode.tsx:20-25 | from one hour on the hours are printed unpadded in front of `MM:SS` |
| FocusMode.FocusRoundTrip | src/pages/FocusMode.tsx:20-25 | from one hour on the focus clock reads back as the elapsed time |
| FocusMode.FocusMatchesCardFromTenHours | src/pages/FocusMode.tsx:20-25 | from ten hours on the focus clock and the card's clock print the same text |
| FocusMode.Screen | src/pages/FocusMode.tsx:27-72 | nothing is shown without a current entry; otherwise the focus clock of the elapsed time |
| FocusMode.ExitEffect | src/pages/FocusMode.tsx:14-18 | the page goes home exactly when there is no current entry and the elapsed time is 0 |
| FocusMode.Finish | src/pages/FocusMode.tsx:29-40 | the session is celebrated exactly when it ran more than a minute; the entry is clocked out (nothing changes without a session, a successful close clears the session and the elapsed time, a failed one keeps both) and the page goes home |
| FocusMode.FormatFocus | src/pages/FocusMode.tsx:20-25 | the focus clock: `MM:SS`, preceded by the unpadded hours and ':' once an hour has passed; FocusUnderAnHour and FocusFromAnHour state its two forms, and FocusRoundTrip reads it back |
| TableOfContents.LineText | src/components/help/TableOfContents.tsx:28-29 | the text `.+` captures is the longest prefix without a line terminator |
| TableOfContents.HeadingMatch | src/components/help/TableOfContents.tsx:28-29 | a line matches exactly when it starts with the marker followed by at least one character that is not a line terminator; the capture is non-empty and follows the marker |
| TableOfContents.Collapse | src/components/help/TableOfContents.tsx:33 | every maximal run of characters outside `[a-z0-9]` becomes one '-': the result is empty only for empty text and starts with '-' exactly when the text starts outside the class |
| TableOfContents.SlugIsShaped | src/components/help/TableOfContents.tsx:33 | a slug has only `[a-z0-9-]` and never two '-' in a row |
| TableOfContents.SlugIdempotent | src/components/help/TableOfContents.tsx:33 | making a slug of a slug gives it back |
| TableOfContents.CollapseKeepsAlnums | src/components/help/TableOfContents.tsx:33 | collapsing keeps every letter and digit, in order, and replaces only the rest |
| TableOfContents.Classify | src/components/help/TableOfContents.tsx:28-39 | a line gives a level-2 heading exactly when `## ` matches and a level-3 one exactly when only `### ` matches; the id is the slug of the captured text |
| TableOfContents.ThreeHashesAreLevelThree | src/components/help/TableOfContents.tsx:28-39 | a `### ` line is never taken for a level-2 heading, because `## ` then fails on the third '#' |
| TableOfContents.HeadingsAppend | src/components/help/TableOfContents.tsx:27-40 | the headings of two blocks of lines are those of the first, then those of the second |
| TableOfContents.HeadingsFromLines | src/components/help/TableOfContents.tsx:27-40 | every extracted heading is the heading of one of the lines |
| TableOfContents.TocView.constructor | src/components/help/TableOfContents.tsx:18-20 | the card starts with no headings, expanded |
| TableOfContents.TocView.Load | src/components/help/TableOfContents.tsx:22-43 | the effect sets the headings to those of the content's lines split at '\n' |
| TableOfContents.TocView.Toggle | src/components/help/TableOfContents.tsx:85 | the button flips the expanded flag |
| TableOfContents.TocView.Renders | src/components/help/TableOfContents.tsx:76 | the card is drawn exactly when there is a heading to list |
| TableOfContents.Indented | src/components/help/TableOfContents.tsx:104 | exactly the level-3 entries are indented |
| TableOfContents.Slug | src/components/help/TableOfContents.tsx:33 | the anchor id: the lowered text with each run of characters outside `[a-z0-9]` replaced by one '-'; SlugIsShaped and SlugIdempotent state its shape and that a slug is its own slug |
| TableOfContents.Headings | src/components/help/TableOfContents.tsx:27-40 | the headings of the lines, in line order, never more than there are lines; HeadingsAppend and HeadingsFromLines tie them to the lines they come from |
| ArticleViewer.Texts | src/components/help/ArticleViewer.tsx:17 | the texts of an array's members, one per member, in order |
| ArticleViewer.ManyIsConcatenation | src/components/help/ArticleViewer.tsx:17 | an array's text is the in-order concatenation of its members' texts |
| ArticleViewer.ExtractAppend | src/components/help/ArticleViewer.tsx:14-22 | the text of two concatenated arrays is the first's text followed by the second's |
| ArticleViewer.ExtractNested | src/components/help/ArticleViewer.tsx:14-22 | nesting an array inside an array does not change the text |
| ArticleViewer.HeadingId | src/components/help/ArticleViewer.tsx:183-202 | the id of a rendered heading is shaped like a slug |
| ArticleViewer.HeadingIdMatchesToc | src/components/help/ArticleViewer.tsx:185-186 | a heading line rendered as plain text gets exactly the id its table-of-contents entry links to |
| ArticleViewer.EqualTextEqualId | src/components/help/ArticleViewer.tsx:185-186 | headings of equal text get equal ids, whatever children carry the text |
| ArticleViewer.Link | src/components/help/ArticleViewer.tsx:160-172 | a link opens in a new tab with `noopener noreferrer` exactly when its href starts with "http" |
| ArticleViewer.Image | src/components/help/ArticleViewer.tsx:142-157 | the alt text defaults to "", and a caption is shown exactly when the alt text is non-empty |
| ArticleViewer.ExtractText | src/components/help/ArticleViewer.tsx:14-22 | `extractText`: a string as it is, a number as its decimal text, an array as its members' texts joined without a separator, an element as its children's text, anything else as ""; ManyIsConcatenation, ExtractAppend and ExtractNested state its laws |
| ArticleMeta.SplitSpaces | src/components/help/ArticleMeta.tsx:9 | `split(/\s+/)` gives at least one piece and no piece holds white space; PiecesAreRunsPlusOne counts the pieces and PiecesHoldText gives their contents, both independently of the recursion |
| ArticleMeta.PiecesAreRunsPlusOne | src/components/help/ArticleMeta.tsx:9 | `split(/\s+/)` gives exactly one piece more than the text has maximal runs of white space, counted by an independent scan |
| ArticleMeta.PiecesHoldText | src/components/help/ArticleMeta.tsx:9 | the pieces, put back together, are exactly the text's characters other than white space, in order |
| ArticleMeta.WordCount | src/components/help/ArticleMeta.tsx:9 | the word count is one more than the number of runs of white space in the trimmed content, so never below 1 |
| ArticleMeta.ReadingTime | src/components/help/ArticleMeta.tsx:10 | the minutes are the ceiling of words over 200 |
| ArticleMeta.ArticleMinutes | src/components/help/ArticleMeta.tsx:9-10 | every article shows at least one minute |
| ArticleMeta.BlankIsOneWord | src/components/help/ArticleMeta.tsx:9-10 | blank content still splits into one empty word, and so shows one minute |
| ArticleMeta.WordsOfContent | src/components/help/ArticleMeta.tsx:9 | content that is not blank splits only into non-empty words |
| ArticleMeta.ReadingTimeMonotone | src/components/help/ArticleMeta.tsx:10 | more words never take less time |
| ArticleMeta.ReadingTimeBoundary | src/components/help/ArticleMeta.tsx:10 | 200 words take one minute and 201 take two |
| HelpContent.TablesShareKeys | src/lib/help-content.ts:27-125 | the article table and the category metadata list the same keys in the same order |
| HelpContent.Lookup | src/lib/help-content.ts:128-129 | the lookup gives nothing exactly for a key outside the table, and otherwise articles stored under the key |
| HelpContent.FindById | src/lib/help-content.ts:130 | the search gives nothing exactly when no article has the id, and otherwise the first that does |
| HelpContent.GetIn | src/lib/help-content.ts:127-131 | an unknown category gives nothing, and a found article has the id asked for and belongs to that category |
| HelpContent.LookupEntry | src/lib/help-content.ts:128-129 | in a table with distinct keys the lookup of an entry's key gives that entry |
| HelpContent.FindMember | src/lib/help-content.ts:130 | among articles with distinct ids the search for a member's id finds that member |
| HelpContent.FindsEachIn | src/lib/help-content.ts:127-131 | in a well-formed table every article is found under its own category by its own id |
| HelpContent.GetArticleFindsEach | src/lib/help-content.ts:127-131 | every bundled article is found under its own category by its own id |
| HelpContent.BundledTableWellFormed | src/lib/help-content.ts:27-97 | the bundled table files each article under its own category, with distinct keys and distinct ids per category |
| HelpContent.SevenArticles | src/lib/help-content.ts:134-136 | all articles come category by category in key order, seven in all |
| HelpContent.Search | src/lib/help-content.ts:139-147 | a blank query finds nothing; otherwise exactly the articles whose lower-cased title, description or content contains the lower-cased query |
| HelpContent.SearchIsFilter | src/lib/help-content.ts:143-147 | the search keeps the articles in order, as a filter of them |
| HelpContent.GetArticle | src/lib/help-content.ts:127-131 | `getArticle` on the bundled table; GetArticleFindsEach proves that every bundled article is found under its own category by its own id |
| HelpContent.AllArticles | src/lib/help-content.ts:134-136 | `getAllArticles`: the bundled articles, category by category in key order; SevenArticles counts seven |
| HelpContent.SearchArticles | src/lib/help-content.ts:139-147 | `searchArticles` over all the bundled articles; Search states which articles it keeps and SearchIsFilter that it keeps their order |
| HelpPage.Filtered | src/pages/Help.tsx:57-60 | exactly the cards whose lower-cased title or description contains the lower-cased query are kept |
| HelpPage.EmptyQueryKeepsAll | src/pages/Help.tsx:57-60 | the empty query keeps every card, in order |
| HelpPage.SixCategories | src/pages/Help.tsx:12-55 | with no query all six category cards are shown |
| HelpPage.LongerQueryNarrows | src/pages/Help.tsx:57-60 | with the per-character lowering, typing more narrows the result: the cards kept for a longer query are those kept for the shorter one, filtered again |
| HelpPage.CardsMatchCategoryTable | src/pages/Help.tsx:12-55 | the cards show the titles and descriptions of the category metadata, in its order |
| HelpPage.Matches | src/pages/Help.tsx:57-60 | a card matches when its lowered title or its lowered description contains the lowered query; Filtered keeps exactly the matching cards |
| ProjectMembers.ToggleFlipsOnlyThatId | src/components/dialogs/project-members-dialog.tsx:55-63 | toggling flips the membership of that id and of no other |
| ProjectMembers.ToggleTwice | src/components/dialogs/project-members-dialog.tsx:55-63 | toggling the same id twice restores the set |
| ProjectMembers.ToAdd | src/components/dialogs/project-members-dialog.tsx:75 | the ids to insert are exactly those chosen but not stored |
| ProjectMembers.ToRemove | src/components/dialogs/project-members-dialog.tsx:76 | the ids to delete are exactly those stored but no longer chosen |
| ProjectMembers.DiffDisjoint | src/components/dialogs/project-members-dialog.tsx:75-76 | no id is both inserted and deleted |
| ProjectMembers.DiffApplies | src/components/dialogs/project-members-dialog.tsx:75-82 | inserting the additions and deleting the removals turns the stored set into the chosen one |
| ProjectMembers.NoChangeNoCalls | src/components/dialogs/project-members-dialog.tsx:75-76 | when nothing changed there is nothing to insert or delete |
| ProjectMembers.Succeeded | src/components/dialogs/project-members-dialog.tsx:79-84 | the ids whose call succeeds: exactly the members of the batch whose call does not fail |
| ProjectMembers.MemberStore.constructor | src/lib/project-members.ts:42-54 | the membership table starts empty |
| ProjectMembers.MemberStore.Get | src/lib/project-members.ts:42-54 | the stored ids of the project, or none at all when the query fails |
| ProjectMembers.MemberStore.Assign | src/lib/project-members.ts:3-25 | success exactly when the insert does not fail, counting an id already assigned as a success; only that project gains the id |
| ProjectMembers.MemberStore.Remove | src/lib/project-members.ts:27-40 | success exactly when the delete does not fail; only that project loses the id |
| ProjectMembers.MemberStore.AssignEach | src/components/dialogs/project-members-dialog.tsx:80 | one insert per id: the project gains exactly the ids whose insert succeeds, and no other project changes |
| ProjectMembers.MemberStore.RemoveEach | src/components/dialogs/project-members-dialog.tsx:81 | one delete per id: the project loses exactly the ids whose delete succeeds, and no other project changes |
| ProjectMembers.MembersDialog.constructor | src/components/dialogs/project-members-dialog.tsx:23 | the dialog starts with no id chosen |
| ProjectMembers.MembersDialog.OpenChanged | src/components/dialogs/project-members-dialog.tsx:27-53 | opening with a project loads the stored ids, none when the query fails; anything else clears the set |
| ProjectMembers.MembersDialog.Toggle | src/components/dialogs/project-members-dialog.tsx:55-63 | the chosen set becomes the toggled one |
| ProjectMembers.MembersDialog.Save | src/components/dialogs/project-members-dialog.tsx:65-91 | without a project or organization nothing happens; otherwise the difference against a fresh read is applied, the successful calls change only that project, and the dialog closes |
| ProjectMembers.SaveStoresChoice | src/components/dialogs/project-members-dialog.tsx:65-91 | when every call succeeds a save stores exactly the chosen ids |
| ProjectMembers.FailedReadKeepsStored | src/components/dialogs/project-members-dialog.tsx:71-76 | when the re-read fails nothing is deleted and the stored ids only grow |
| Notifications.CountUnread | src/hooks/use-notifications.ts:35 | the unread number never exceeds the list's length |
| Notifications.CountUnreadAppend | src/hooks/use-notifications.ts:35 | the unread number of two lists is the sum of theirs |
| Notifications.MarkRead | src/hooks/use-notifications.ts:42-44 | the notifications with that id become read and the others stay as they were |
| Notifications.MarkAll | src/hooks/use-notifications.ts:57 | every notification becomes read and nothing else changes |
| Notifications.MarkAllLeavesNoUnread | src/hooks/use-notifications.ts:57-58 | after marking everything read nothing is unread, agreeing with the counter set to 0 |
| Notifications.ClearReadKeepsUnread | src/hooks/use-notifications.ts:96 | clearing keeps exactly the unread notifications, so the unread number is unchanged |
| Notifications.MarkUnreadOnce | src/hooks/use-notifications.ts:40-45 | marking an unread notification whose id occurs once lowers the unread number by exactly one |
| Notifications.MarkReadOfReadUnchanged | src/hooks/use-notifications.ts:42-44 | marking a notification that is already read changes no notification |
| Notifications.MarkReadAgainDrifts | src/hooks/use-notifications.ts:42-45 | the counter drops even for an already-read notification, so it then falls below the true unread number |
| Notifications.NotificationList.constructor | src/hooks/use-notifications.ts:17-19 | the list starts empty, with counter 0, loading |
| Notifications.NotificationList.Fetch | src/hooks/use-notifications.ts:21-38 | without a user nothing changes; an answer replaces the list and sets the counter to its unread number; an error keeps both; loading ends |
| Notifications.NotificationList.MarkAsRead | src/hooks/use-notifications.ts:40-51 | that id becomes read and the counter drops by one, never below 0 |
| Notifications.NotificationList.MarkAllAsRead | src/hooks/use-notifications.ts:53-65 | nothing happens while the counter is 0; otherwise all notifications become read, the counter is 0, and the write is issued |
| Notifications.NotificationList.ClearReadItems | src/hooks/use-notifications.ts:94-103 | the read notifications go, the counter stays, and a counter that was right stays right |
| Notifications.NotificationList.Inserted | src/hooks/use-notifications.ts:81-85 | the new notification goes first and the counter grows by one; an unread insert keeps a right counter right |
| Notifications.NotificationTable.MarkRead | src/hooks/use-notifications.ts:47-50 | the update marks read exactly the stored rows with that id |
| Notifications.NotificationTable.MarkAllRead | src/hooks/use-notifications.ts:60-64 | the update marks read exactly the user's unread rows |
| Notifications.NotificationTable.DeleteRead | src/hooks/use-notifications.ts:98-102 | the delete removes exactly the user's read rows, or nothing when it fails |
| Notifications.ClearRead | src/hooks/use-notifications.ts:96 | the local update of `clearRead`: the unread notifications in their order; ClearReadKeepsUnread proves that exactly the unread ones stay and the unread number is unchanged |
| Tasks.Ids | src/hooks/use-tasks.ts:4-12 | the ids of a list, one per task, in order |
| Tasks.WithStatus | src/hooks/use-tasks.ts:67 | the tasks with that id get the new status and the others stay as they were |
| Tasks.Replaced | src/hooks/use-tasks.ts:84 | the tasks with that id are replaced by the returned row and the others stay as they were |
| Tasks.StatusChangeKeepsShape | src/hooks/use-tasks.ts:67 | a status change keeps the ids, their order and everything but the status of the matching tasks |
| Tasks.DeleteRemovesOnlyThatId | src/hooks/use-tasks.ts:99 | deleting removes exactly the tasks with that id and keeps the others |
| Tasks.DeleteMissingId | src/hooks/use-tasks.ts:99 | deleting an id that is not listed changes nothing |
| Tasks.TaskList.constructor | src/hooks/use-tasks.ts:15-16 | the hook starts with no tasks, not loading |
| Tasks.TaskList.Load | src/hooks/use-tasks.ts:18-38 | with no project id or the empty one nothing is fetched; otherwise an answer replaces the list, an error keeps it, and loading ends |
| Tasks.TaskList.Create | src/hooks/use-tasks.ts:40-54 | the stored row goes first and is returned; on an error nothing changes and nothing is returned |
| Tasks.TaskList.UpdateStatus | src/hooks/use-tasks.ts:56-69 | success exactly without an error, and then the status change; otherwise no change |
| Tasks.TaskList.Update | src/hooks/use-tasks.ts:71-86 | the returned row replaces the matching task and is returned; on an error nothing changes |
| Tasks.TaskList.Delete | src/hooks/use-tasks.ts:88-101 | success exactly without an error, and then the task is gone; otherwise no change |
| Tasks.Without | src/hooks/use-tasks.ts:99 | `filter(t => t.id !== id)`; DeleteRemovesOnlyThatId and DeleteMissingId prove that exactly the tasks with that id go and that an unknown id changes nothing |
| OrgMembers.FindProfile | src/hooks/use-organization-members.ts:51 | nothing exactly when no profile has the id; otherwise a listed profile with that id |
| OrgMembers.DisplayName | src/hooks/use-organization-members.ts:54 | the placeholder "Usuario Desconocido" exactly when the profile is missing or its name is empty; otherwise the name |
| OrgMembers.Merge | src/hooks/use-organization-members.ts:50-57 | one member per membership row, in order, with the row's id and role and the name taken from the profile with that id |
| OrgMembers.MergeNames | src/hooks/use-organization-members.ts:50-57 | a member with no profile shows the placeholder, and one whose first matching profile has a name shows it |
| OrgMembers.WithRole | src/hooks/use-organization-members.ts:82 | the member with that id gets the new role and the others stay as they were |
| OrgMembers.RemoveOnlyThatId | src/hooks/use-organization-members.ts:101 | removal keeps exactly the members with another id |
| OrgMembers.MemberList.constructor | src/hooks/use-organization-members.ts:13-14 | the list starts empty, loading |
| OrgMembers.MemberList.Load | src/hooks/use-organization-members.ts:16-65 | no organization empties the list; otherwise the merge of the membership rows and profiles replaces it when both queries answer, and the list stays otherwise; loading ends |
| OrgMembers.MemberList.UpdateRole | src/hooks/use-organization-members.ts:67-84 | without an organization no result and no change; otherwise success exactly without an error, and then the role change |
| OrgMembers.MemberList.Remove | src/hooks/use-organization-members.ts:86-103 | without an organization no result and no change; otherwise success exactly without an error, and then the member is gone |
| Projects.CountCompleted | src/hooks/use-projects.ts:46 | the completed count never exceeds the task count; it is 0 exactly when no task is completed and the full count exactly when all are |
| Projects.SumEstimatedAppend | src/hooks/use-projects.ts:48 | the estimate sum of two lists of tasks is the sum of theirs |
| Projects.MissingEstimateIsZero | src/hooks/use-projects.ts:48 | a task without an estimate adds exactly what a task estimated at 0 adds |
| Projects.SumEstimatedNonNegative | src/hooks/use-projects.ts:48 | estimates that are never negative give a non-negative sum |
| Projects.Progress | src/hooks/use-projects.ts:47 | the progress lies in 0..100, within half a point of the completed share in percent, and is 0 for a project without tasks |
| Projects.ProgressEnds | src/hooks/use-projects.ts:47 | all tasks done is 100 % and none done is 0 % |
| Projects.ProgressMonotone | src/hooks/use-projects.ts:47 | completing one more task never lowers the progress |
| Projects.ProgressExact | src/hooks/use-projects.ts:47 | below 200 tasks the progress is 100 % only when every task is done, and up to 200 tasks it is 0 % only when none is |
| Projects.StatsOf | src/hooks/use-projects.ts:43-61 | the stats of a project row: its task count, completed count, progress and estimate sum, a missing task list counting as empty |
| Projects.NewProjectStats | src/hooks/use-projects.ts:173-181 | a new project's stats are those of a project without tasks |
| Projects.WithStats | src/hooks/use-projects.ts:83-102 | one project per row, in order, each with its own stats |
| Projects.Visible | src/hooks/use-projects.ts:32-140 | owners and admins get the organization's active projects; others get their assigned projects, an error when that query fails, and the organization's active projects when they have no assignment |
| Projects.MemberSeesAssignedOrAll | src/hooks/use-projects.ts:64-140 | every project a member is shown was assigned to them, or they have no assignment and it is an active project of the organization |
| Projects.DeleteRemovesOnlyThatId | src/hooks/use-projects.ts:198 | deleting removes exactly the projects with that id and keeps the others in order |
| Projects.ProjectList.constructor | src/hooks/use-projects.ts:17-18 | the list starts empty, loading |
| Projects.ProjectList.Fetch | src/hooks/use-projects.ts:20-150 | without an organization or a user the list is empty; otherwise a failed query empties it, no data keeps it, and rows replace it with their stats; loading ends |
| Projects.ProjectList.Create | src/hooks/use-projects.ts:152-185 | a project is returned exactly when there is an organization and the insert succeeds; it is appended with zero stats; otherwise nothing changes |
| Projects.ProjectList.Delete | src/hooks/use-projects.ts:187-200 | success exactly without an error, and then the project leaves the list; otherwise nothing changes |
| Projects.SumEstimated | src/hooks/use-projects.ts:48 | the estimate reduce with `|| 0`; SumEstimatedAppend, MissingEstimateIsZero and SumEstimatedNonNegative state its laws |
| Projects.SeesAll | src/hooks/use-projects.ts:32 | owners and admins see the organization's projects; Visible and MemberSeesAssignedOrAll build on it |
| AuthContext.ActiveMember | src/components/auth-context.tsx:47-59 | the active membership is one of the rows: that of the remembered organization when it is listed, else the first business organization, else the first row |
| AuthContext.FirstBusinessWins | src/components/auth-context.tsx:52-54 | without a listed remembered organization, the first business organization listed wins |
| AuthContext.Orgs | src/components/auth-context.tsx:44 | the organizations of the rows, one per row, in order |
| AuthContext.WorkspaceSlug | src/components/auth-context.tsx:108 | the slug is `w-`, the first 8 characters of the user id (all of a shorter id), `-` and the clock reading |
| AuthContext.PersonalWorkspace | src/components/auth-context.tsx:104-113 | the inserted organization is a personal one named "Personal Workspace", owned by the user, with the slug above |
| AuthContext.Remembered | src/components/auth-context.tsx:48 | the remembered organization is present exactly when one was stored for the user, and is that one |
| AuthContext.SwitchIsRestored | src/components/auth-context.tsx:86-87 | once an organization has been switched to, the next load of the same memberships picks it again |
| AuthContext.Auth.constructor | src/components/auth-context.tsx:29-34 | the provider starts with no user, session, organization or role, no organizations, and loading |
| AuthContext.Auth.FetchOrganization | src/components/auth-context.tsx:36-69 | memberships set the list to their organizations and the active one and its role by the rule above; without any, a created workspace becomes the only organization with the role owner, and a failed creation changes nothing |
| AuthContext.Auth.CreatePersonalWorkspace | src/components/auth-context.tsx:102-132 | on success the new workspace is the only organization and the active one, with the role owner; on failure nothing changes |
| AuthContext.Auth.SwitchOrganization | src/components/auth-context.tsx:71-100 | without a user or for an unlisted id nothing changes; otherwise that organization becomes active and remembered, and the role changes only when the query returns one |
| AuthContext.Auth.SignOut | src/components/auth-context.tsx:163-183 | the session, user, organizations and role are cleared, and so is the stored organization memory |
| AuthContext.Auth.AuthChange | src/components/auth-context.tsx:144-158 | the session and user follow the event and loading ends; without a session the organization state is cleared; with one the organizations are fetched |
| AuthContext.Auth.InitialSession | src/components/auth-context.tsx:136-141 | the session and user are copied; without a user loading ends and nothing else changes; with one the organizations are fetched |
| History.Range | src/pages/History.tsx:62-64 | page p asks for rows (p-1)*50 to p*50-1: exactly 50 rows, counted from 0 |
| History.PagesTile | src/pages/History.tsx:62-64 | consecutive pages tile the rows: each page starts right after the one before, and later pages lie after earlier ones |
| History.HasMoreIffNextPageStarts | src/pages/History.tsx:85 | there are more entries exactly when the count is known and non-zero and the next page starts at a row that exists |
| History.DaysBack | src/pages/History.tsx:55-59 | the date filter reaches back 7, 30 or 90 days, and not at all for the whole history |
| History.Formatted | src/pages/History.tsx:71-75 | one entry per row, in order, with the project name or "Sin Proyecto" and the task name or "Sin Tarea" |
| History.FormattedAppend | src/pages/History.tsx:81 | appending formatted pages is formatting the concatenated rows |
| History.StatusLabel | src/pages/History.tsx:195 | the badge reads "En Vivo" exactly for an active entry |
| History.HoursText | src/pages/History.tsx:198 | the hours show as "--" exactly when they are missing or zero, and otherwise with two decimals and an "h" |
| History.HistoryPage.constructor | src/pages/History.tsx:29-33 | the page starts with no entries, loading, the 30-day filter, page 1 and no more pages |
| History.HistoryPage.FetchPage | src/pages/History.tsx:36-92 | without a user or organization nothing happens; otherwise the page's range is requested under the date filter; an answer replaces the list on a reset or on page 1 and is appended otherwise, and sets the "more" flag; an error or no data change neither; loading ends |
| History.HistoryPage.FetchEntries | src/pages/History.tsx:36-40 | a reset fetches page 1 and sets the page back to 1; otherwise the current page is fetched |
| History.HistoryPage.ChangeFilter | src/pages/History.tsx:94-96 | choosing a date filter refetches from page 1 under the new filter |
| History.HistoryPage.LoadMore | src/pages/History.tsx:98-101 | the page number goes up by one, but the fetch that follows still sees the earlier page number, so it requests that page again; on page 1 the answer replaces the list, and on a later page it is appended a second time |
| History.HasMore | src/pages/History.tsx:85 | `count ? page * 50 < count : false`; HasMoreIffNextPageStarts proves it holds exactly when the next page starts at a row that exists |
| History.FilterLabel | src/pages/History.tsx:102-110 | the label of each of the four date filters, as `getFilterLabel` gives it |
| ExportUtils.FixedZero | src/lib/export-utils.ts:19 | zero prints as "0.00" |
| ExportUtils.FixedIsPlain | src/lib/export-utils.ts:19-23 | a number printed with two decimals holds no comma, newline or double quote |
| ExportUtils.NumberCell | src/lib/export-utils.ts:19-20 | a missing or zero number prints as zero with two decimals, and any other number as itself |
| ExportUtils.RevenueCell | src/lib/export-utils.ts:21-23 | the revenue cell prints the entry's amount, the same one the summary adds up, and "0.00" when the hours are missing or the rate is zero |
| ExportUtils.CsvHeaders | src/lib/export-utils.ts:10-12 | 10 headers for an admin and 8 otherwise, the last one "Estado" |
| ExportUtils.CsvStatus | src/lib/export-utils.ts:36-39 | the status reads "Completado" exactly for a completed entry, and "En Progreso" otherwise |
| ExportUtils.CsvRow | src/lib/export-utils.ts:15-40 | one cell per header: date, user, project, task, start, end or "-", hours, and for an admin the rate and revenue, then the status |
| ExportUtils.Quote | src/lib/export-utils.ts:45 | a data cell is wrapped in double quotes and nothing else is changed |
| ExportUtils.CsvHasOneLinePerEntry | src/lib/export-utils.ts:43-46 | when no name or formatted instant holds a newline, splitting the file at newlines gives back the header line and one line per entry, in order |
| ExportUtils.HeaderFields | src/lib/export-utils.ts:44 | the header line splits at commas into its 10 or 8 headers |
| ExportUtils.LineFieldsMatchHeader | src/lib/export-utils.ts:45 | when no name or formatted instant holds a comma, a data line splits at commas into its quoted cells, as many as the header has |
| ExportUtils.QuoteIsNotEscaped | src/lib/export-utils.ts:45 | a double quote inside a cell reaches the file as it is, not doubled |
| ExportUtils.PdfColumns | src/lib/export-utils.ts:100-102 | 8 columns for an admin and 6 otherwise, the last one "Estado" |
| ExportUtils.PdfStatus | src/lib/export-utils.ts:118-121 | the status reads "Completado" exactly for a completed entry, and "Activo" otherwise |
| ExportUtils.PdfRow | src/lib/export-utils.ts:104-122 | one cell per column: date, user, project, task and hours, and for an admin the rate and revenue in euros, then the status |
| ExportUtils.SummaryFacts | src/lib/export-utils.ts:80-87 | the project and user counts are those of distinct names, never more than the entries and at least one when there is an entry; the revenue and hours are the sums of the per-project ones |
| ExportUtils.TasksOf | src/lib/export-utils.ts:218-223 | a project's task list has at most one item per entry |
| ExportUtils.TasksAreListed | src/lib/export-utils.ts:218-223 | every listed task comes from an entry of that project with a real task name, and carries that entry's hours |
| ExportUtils.SpecLineStep | src/lib/export-utils.ts:205-225 | one more entry leaves the other projects' lines alone, adds to its project's line, or opens a new one at its rate |
| ExportUtils.FoldEntry | src/lib/export-utils.ts:206-224 | the reduce step creates the entry's line when its project is new, then adds the entry to it |
| ExportUtils.SummarizeByProject | src/lib/export-utils.ts:205-225 | the dictionary holds exactly the projects of the entries, in first-appearance order, each line the sum of that project's entries |
| ExportUtils.SubtotalIsRevenue | src/lib/export-utils.ts:269 | the invoice subtotal is the revenue of all entries, the same as the PDF summary's |
| ExportUtils.AmountAtOneRate | src/lib/export-utils.ts:210-217 | when all entries of a project share the first one's rate, its amount is its hours at that rate |
| ExportUtils.TableRow | src/lib/export-utils.ts:229-236 | an invoice row is the project name, its hours, and its rate and amount in euros |
| ExportUtils.TaxRate | src/lib/export-utils.ts:159 | the tax rate is 21 when none is given, and a given rate, 0 included, is kept |
| ExportUtils.TaxName | src/lib/export-utils.ts:159 | the tax name is "IVA" when none is given, and otherwise the given one |
| ExportUtils.InvoiceTable | src/lib/export-utils.ts:205-271 | one row per project, in first-appearance order, and a subtotal equal to the revenue of all entries |
| ExportUtils.InvoiceTotals | src/lib/export-utils.ts:269-271 | the tax is the subtotal at the percentage rate and the total adds it; with no rate given the total is 1.21 times the subtotal; a 0 rate adds nothing; a non-negative rate never lowers the total |
| ExportUtils.CsvLine | src/lib/export-utils.ts:45 | one entry's cells, each wrapped in quotes, joined by commas; LineFieldsMatchHeader proves it has as many fields as the header when no cell holds a comma or a quote |
| ExportUtils.CsvContent | src/lib/export-utils.ts:43-46 | the header line, then one line per entry, joined by newlines; CsvHasOneLinePerEntry proves that the file splits back into the header and exactly one line per entry |
| ExportUtils.Summary | src/lib/export-utils.ts:79-86 | the PDF summary: the hour and revenue totals and the numbers of distinct project and user names; SummaryFacts and ReportsPage.FiguresMatchExport state its properties |
| ReportsData.HoldsAllAppend | src/hooks/use-reports-data.ts:53-67 | a row satisfies a query with one more condition exactly when it satisfies the query and the new condition |
| ReportsData.NoFilterSelectsOrganization | src/hooks/use-reports-data.ts:51-67 | with every filter off, every row of the organization is selected |
| ReportsData.Format | src/hooks/use-reports-data.ts:73-90 | the row's own columns are copied unchanged |
| ReportsData.FormatDefaults | src/hooks/use-reports-data.ts:83-89 | the user and project names are never empty and the colour is always set; a missing profile gives "Desconocido" and no avatar; a missing task gives an empty name and no estimate; a zero estimate becomes none |
| ReportsData.Formatted | src/hooks/use-reports-data.ts:73 | one formatted entry per row, in order |
| ReportsData.FormattedKeepsOrder | src/hooks/use-reports-data.ts:69-73 | formatting keeps the newest-first order the query asks for |
| ReportsData.ReportSource.constructor | src/hooks/use-reports-data.ts:35-36 | the hook starts with no data, not loading |
| ReportsData.ReportSource.BuildQuery | src/hooks/use-reports-data.ts:43-67 | the query starts with the organization condition, has at most six conditions, and a row satisfies it exactly when the filters select it |
| ReportsData.ReportSource.FetchReport | src/hooks/use-reports-data.ts:38-99 | without an organization nothing happens; otherwise an answer replaces the data with its formatted rows, no data gives none, an error keeps the data, and loading ends |
| ReportsData.Selected | src/hooks/use-reports-data.ts:51-67 | a row is selected when it belongs to the organization, starts within the date bounds and matches each project, user and task filter that is set; BuildQuery proves the query keeps exactly the selected rows |
| ReportsData.Hours | src/lib/export-utils.ts:81 | `total_hours || 0`: a missing or zero total counts as 0 |
| ReportsData.Amount | src/lib/export-utils.ts:80-84 | an entry's revenue, its hours (`|| 0`) times its project's rate; SubtotalIsRevenue and AmountAtOneRate build on it |
| InvoiceDialog.StripAdd | src/components/dialogs/invoice-dialog.tsx:39-52 | the preview line follows the invoice line: adding an entry adds the same hours and amount, and a new line opens at the entry's rate |
| InvoiceDialog.FoldEntry | src/components/dialogs/invoice-dialog.tsx:40-51 | the reduce step creates the entry's line when its project is new, then adds the entry's hours and amount to it |
| InvoiceDialog.ProjectSummary | src/components/dialogs/invoice-dialog.tsx:39-52 | the preview holds exactly the projects of the entries, in first-appearance order, each line equal to the invoice's line without its task list |
| InvoiceDialog.LinesSumToSubtotal | src/components/dialogs/invoice-dialog.tsx:30-52 | the amounts of the preview's lines add up to its subtotal, the revenue of all entries |
| InvoiceDialog.InvoiceForm.constructor | src/components/dialogs/invoice-dialog.tsx:21-26 | the form opens with the number `INV-<today>-001`, a 21 % IVA and every other field empty |
| InvoiceDialog.InvoiceForm.SetClientName | src/components/dialogs/invoice-dialog.tsx:219 | the download button is enabled exactly when the client name is non-empty |
| InvoiceDialog.InvoiceForm.SetTaxRate | src/components/dialogs/invoice-dialog.tsx:122 | an input that is not a number gives the rate 0, and any number is kept |
| InvoiceDialog.InvoiceForm.Totals | src/components/dialogs/invoice-dialog.tsx:29-36 | the preview's hours and subtotal are those of the PDF summary, and the tax and total are the subtotal at the form's rate |
| InvoiceDialog.InvoiceForm.Generate | src/components/dialogs/invoice-dialog.tsx:54-67 | the form's fields go to the export, which applies the rate and tax name exactly as given, and the dialog closes |
| InvoiceDialog.InvoiceMatchesPreview | src/components/dialogs/invoice-dialog.tsx:54-67 | the exported invoice's subtotal and tax are the ones the dialog previewed |
| ReportCharts.FoundIsKey | src/components/reports/report-charts.tsx:14 | the slice `find` returns for an entry is its key's slice, while the slices are grouped |
| ReportCharts.GroupStep | src/components/reports/report-charts.tsx:14-23 | one step of either reduce keeps the slices grouped: one per key in first-appearance order, each holding its key's hours |
| ReportCharts.ColorStep | src/components/reports/report-charts.tsx:19-23 | a project step keeps every slice's colour: a found slice keeps its own, and a new one gets its entry's colour or the palette's at its position |
| ReportCharts.GroupProjects | src/components/reports/report-charts.tsx:13-25 | the project reduce gives one slice per distinct project name, in first-appearance order, with that project's hours and colour |
| ReportCharts.GroupUsers | src/components/reports/report-charts.tsx:29-37 | the user reduce gives one uncoloured slice per distinct user name, in first-appearance order, with that user's hours |
| ReportCharts.Rounded | src/components/reports/report-charts.tsx:26 | each slice's value is rounded to hundredths and nothing else changes |
| ReportCharts.ProjectData | src/components/reports/report-charts.tsx:13-26 | the project chart has one slice per distinct project name, in first-appearance order, with its rounded hours and its colour |
| ReportCharts.UserData | src/components/reports/report-charts.tsx:29-38 | the user chart has one slice per distinct user name, in first-appearance order, with its rounded hours |
| ReportCharts.SlicesSumToTotal | src/components/reports/report-charts.tsx:13-38 | the unrounded slices of either chart add up to the total hours of the data |
| ReportCharts.RoundingError | src/components/reports/report-charts.tsx:26 | rounding moves the sum of the slices by at most half a hundredth per slice |
| ReportCharts.ChartNearTotal | src/components/reports/report-charts.tsx:13-38 | the rounded chart lies within half a hundredth per slice of the total hours |
| ReportCharts.FetchedSlicesUseProjectColor | src/components/reports/report-charts.tsx:22 | for fetched rows the palette is never used: each slice takes its project's first colour |
| ProjectDetails.TaskOf | src/hooks/use-project-details.ts:55 | an entry has a task exactly when its task id is present and non-empty, and the task is that id |
| ProjectDetails.DateOf | src/hooks/use-project-details.ts:70 | the date part of the start is the text before its first 'T', so it holds no 'T' |
| ProjectDetails.TaskHoursAbsent | src/hooks/use-project-details.ts:64 | a task no entry is logged against has 0 hours, in particular a task with an empty id |
| ProjectDetails.TaskMap | src/hooks/use-project-details.ts:53-58 | the map's keys are exactly the tasks logged against, each holding the sum of those entries' hours |
| ProjectDetails.StatHours | src/hooks/use-project-details.ts:60-65 | every task's row holds the hours logged against it, 0 when there are none |
| ProjectDetails.InsertByHours | src/hooks/use-project-details.ts:65 | inserting into rows sorted most hours first keeps them sorted and adds exactly that row |
| ProjectDetails.SortByHours | src/hooks/use-project-details.ts:65 | the sort puts the most hours first and is a permutation of its input |
| ProjectDetails.ChartMap | src/hooks/use-project-details.ts:68-72 | the map's keys are exactly the entries' dates, in first-appearance order, each holding the sum of that day's hours |
| ProjectDetails.Points | src/hooks/use-project-details.ts:74-75 | one point per key of the map, in the map's order, holding its value |
| ProjectDetails.InsertByDate | src/hooks/use-project-details.ts:76 | inserting a point of a new date into points sorted by date keeps them sorted and adds exactly that point |
| ProjectDetails.SortByDate | src/hooks/use-project-details.ts:76 | the sort puts the earliest date first and is a permutation of its input |
| ProjectDetails.PointsDistinct | src/hooks/use-project-details.ts:68-75 | a map's points have distinct dates |
| ProjectDetails.RankTasks | src/hooks/use-project-details.ts:53-65 | the task stats hold every task of the project with its hours, exactly once, most worked first |
| ProjectDetails.ActivityChart | src/hooks/use-project-details.ts:67-76 | the chart has one point per day with entries, holding that day's hours, earliest day first |
| ProjectDetails.Condense | src/hooks/use-project-details.ts:48-84 | the details keep the project, its total hours and its revenue at its rate (0 when none), the ranked task stats, and the activity chart |
| ProjectDetails.ChartContents | src/hooks/use-project-details.ts:68-76 | any reordering of the map's points holds exactly the days with entries, each with its hours |
| ProjectDetails.ProjectDetailsHook.constructor | src/hooks/use-project-details.ts:20-22 | the hook starts with no project, loading, and no error |
| ProjectDetails.ProjectDetailsHook.Fetch | src/hooks/use-project-details.ts:24-95 | with no id nothing happens; an error of either query sets the message and keeps the project; two answers replace the project by the condensed details (one stat per task with its summed hours, most worked first; one chart point per date), a missing entry list counting as empty; loading ends |
| ProjectDetails.UntaskedCountOnlyInTotal | src/hooks/use-project-details.ts:49-58 | an entry without a task adds its hours to the total and to no task |
| ProjectDetails.Revenue | src/hooks/use-project-details.ts:50 | the total hours times the project's rate, 0 when the rate is missing; Condense and Fetch state the project's revenue with it |
| ProjectDetails.TaskHours | src/hooks/use-project-details.ts:53-58 | the reference sum of the hours of the entries of one task; TaskMap proves the task map holds it for every task with entries, StatHours that each task's stat carries it, and TaskHoursAbsent that it is 0 for a task without entries |
| ProjectDetails.Stats | src/hooks/use-project-details.ts:60-65 | one stat per task, in task order, with its id, name and status and the task map's hours or 0 |
| Dashboard.DateOf | src/pages/Dashboard.tsx:72 | the date part of a timestamp, everything before its first `T`, holds no `T` |
| Dashboard.Recent | src/pages/Dashboard.tsx:48 | at most five entries, all completed and all from the answer; when fewer than five, every completed entry of the answer is in the list |
| Dashboard.RecentKeepsFirstFive | src/pages/Dashboard.tsx:48 | once five completed entries have been seen, later entries do not change the recent list |
| Dashboard.RecentInOrder | src/pages/Dashboard.tsx:48 | the recent list keeps the answer's order: the completed entries of a prefix with fewer than five of them start the list |
| Dashboard.Weekly | src/pages/Dashboard.tsx:49 | an entry is in the week's history exactly when it is in the answer and starts on or after the cut-off |
| Dashboard.Week | src/pages/Dashboard.tsx:60-68 | seven day labels (dates or weekday names), oldest first: the day `k` days ago sits at position `6 - k` |
| Dashboard.TodayIsLast | src/pages/Dashboard.tsx:107 | the chart's last day is today and its first is six days ago, so the "today" card reads the last bar |
| Dashboard.SlotFound | src/pages/Dashboard.tsx:73 | the day search finds a day exactly when the date is one of the keys, the day it finds has that date, and no earlier day has it |
| Dashboard.SlotOfDistinct | src/pages/Dashboard.tsx:73 | on days of distinct dates a date finds day `j` exactly when it is day `j`'s date |
| Dashboard.Tally | src/pages/Dashboard.tsx:71-77 | after the loop over the week's entries, each day carries its name, its date and the bucket of hours of the entries that first match its date |
| Dashboard.AddActive | src/pages/Dashboard.tsx:80-86 | each day's total grows by the running session's share and nothing else changes |
| Dashboard.Rounded | src/pages/Dashboard.tsx:88 | the same days in the same order, each total rounded to two decimals and the name and date kept |
| Dashboard.ChartData | src/pages/Dashboard.tsx:59-89 | seven days, each with the name and date of its day and the rounded sum of its bucket and the running session's share |
| Dashboard.BucketIsDateSum | src/pages/Dashboard.tsx:71-77 | on distinct dates a day's bucket is exactly the sum of the hours of the entries of that date |
| Dashboard.BucketsHoldMatchedHours | src/pages/Dashboard.tsx:71-77 | the buckets add up to the hours of the entries dated on one of the chart's days: only entries of no day are lost |
| Dashboard.ActiveShareOnce | src/pages/Dashboard.tsx:80-86 | the running session adds to at most one day, to nothing before it has run a second or without a session, and on distinct days its elapsed hours go to its own start day |
| Dashboard.EnergyLabel | src/pages/Dashboard.tsx:135-137 | "Exhausto" exactly above nine hours, "En Racha" above six up to nine, "Calentando" above zero up to six, "Fresco" otherwise |
| Dashboard.EnergyAdvice | src/pages/Dashboard.tsx:140 | the break advice appears exactly when the label is "Exhausto" |
| Dashboard.EnergyLabelMonotone | src/pages/Dashboard.tsx:135-137 | more hours today never give a lower label |
| Dashboard.FocusLevel | src/pages/Dashboard.tsx:119-121 | the focus card says "Alto" exactly while the current session is active |
| Dashboard.DashboardPage.constructor | src/pages/Dashboard.tsx:27-29 | the page starts with no entries and loading |
| Dashboard.DashboardPage.FetchDashboardData | src/pages/Dashboard.tsx:31-52 | without a user nothing changes; with rows both lists are derived from the answer; on an error or an empty answer the lists are kept; with a user loading ends |
| Dashboard.Slot | src/pages/Dashboard.tsx:73 | `days.find(d => d.dateStr === date)` as an index; SlotFound proves it is the first day of that date and found exactly when one exists, and SlotOfDistinct that on distinct dates it is the day of that date |
| Dashboard.Bucket | src/pages/Dashboard.tsx:71-77 | the hours the week's entries add to day `j`; BucketIsDateSum and BucketsHoldMatchedHours state what a bucket holds |
| Dashboard.ActiveShare | src/pages/Dashboard.tsx:80-86 | what the running session adds to day `j`: its elapsed hours, on the day it started, once it has run a second; ActiveShareOnce proves it is added to one day at most |
| Dashboard.TodayHours | src/pages/Dashboard.tsx:107 | the "Hoy" card: the last chart day's total, 0 with no chart; TodayIsLast proves that the last chart day is today |
| ReportsPage.FiguresMatchExport | src/pages/Reports.tsx:67-72 | the page's total hours and revenue are the totals of the PDF export's summary |
| ReportsPage.ActiveSessions | src/pages/Reports.tsx:73 | the number of running sessions is at most the number of entries |
| ReportsPage.ActiveSessionsStep | src/pages/Reports.tsx:73 | one more entry adds one to the count exactly when its status is active |
| ReportsPage.PositiveHours | src/pages/Reports.tsx:78-81 | the entries kept for the efficiency have a positive hour total, so the division is defined |
| ReportsPage.Efficiency | src/pages/Reports.tsx:78-82 | at most 100; 92 when no entry has an estimate and positive hours; otherwise the estimated hours as a percentage of the worked hours of those entries, capped at 100 |
| ReportsPage.EfficiencyFull | src/pages/Reports.tsx:78-82 | the efficiency is 100 exactly when the estimates reach the hours worked |
| ReportsPage.SelectProject | src/pages/Reports.tsx:134 | choosing a project sets it and resets the task filter to "all", the dates and user kept |
| ReportsPage.SelectTask | src/pages/Reports.tsx:155 | choosing a task changes the task filter and nothing else |
| ReportsPage.ProjectChangeDropsTask | src/pages/Reports.tsx:134 | after a project change the task of a row does not affect its selection, and a selected row belongs to the chosen project unless it is "all" |
| ReportsPage.TaskProject | src/pages/Reports.tsx:61 | tasks are loaded for no project exactly when the project filter is "all", otherwise for the chosen one |
| ReportsPage.DownloadClick | src/pages/Reports.tsx:46-49 | a download click opens the prompt and remembers the kind |
| ReportsPage.ConfirmDownload | src/pages/Reports.tsx:51-58 | the prompt closes in every case; no export without a remembered kind; a CSV export named `reporte-` and the organization's name or "tiempo", or a PDF export titled "Reporte de" and the name or "Tiempos", both with the admin columns for administrators and owners |
| ReportsPage.ClickThenConfirm | src/pages/Reports.tsx:46-58 | a click then a confirmation exports exactly the clicked kind with the role's columns, names it `reporte-tiempo` without an organization, and leaves the prompt closed |
| ReportsPage.TotalHours | src/pages/Reports.tsx:67 | the hours reduce with `|| 0`; FiguresMatchExport proves it equals the export summary's total |
| ReportsPage.TotalRevenue | src/pages/Reports.tsx:68-72 | the revenue reduce, hours times rate, both with `|| 0`; FiguresMatchExport proves it equals the export summary's revenue |
| ReportsPage.IsAdminOrOwner | src/pages/Reports.tsx:75 | the admin columns and the invoice are for the admin and owner roles only |
| ReportsPage.FileName | src/pages/Reports.tsx:53 | `reporte-` followed by the organization's name, or `tiempo` without one |
| ReportsPage.DownloadEnabled | src/pages/Reports.tsx:109 | the download buttons are enabled exactly when the report is not loading and has rows |
| ReportsPage.InvoiceShown | src/pages/Reports.tsx:92 | the invoice button is shown exactly to admins and owners when the report has rows |

## Left out

- The remote database, the auth SDK and the realtime channel are not modelled as services. Every answer is a parameter (`Answer`: failed, no data, or data), and every write takes a flag for its outcome. The query builders themselves, row-level security, ordering and `limit` are not modelled; where a query filters, the model applies the filter to the rows it is given.
- Concurrency is out of scope: interleaving between awaits, stale closures, re-renders, cross-tab races and real interval timing. Events and awaits are sequential method calls.
- Binary floating point: `toFixed(2)` is modelled on reals as rounding half away from zero (`Round2`), and money and hours are reals. The timer's hours are integer hundredths.
- Date parsing, time zones and locales: `date-fns` formatting, `toISOString` and local calendar fields are parameters. This covers the dashboard's day keys and names and its one-week cut-off, the history's day bounds, the report's start and end of day, and the invoice's date text. The clock-in's ISO text, whose part before `T` fills the entry's `date` column, is a parameter beside the instant, and the model does not tie the two together.
- Browser side effects are left out: audio, toasts, confetti, navigation, the Picture-in-Picture canvas and stream, scrolling, and the IntersectionObserver that marks the active heading. Where a handler triggers one of them, the model returns a flag or the call instead.
- The PDF and invoice layouts (jspdf, autoTable) are left out, and so is the download. Only the rows, summary, lines and totals that are printed are modelled.
- Markdown parsing belongs to the rendering library. The article viewer's rules are stated over an abstract tree of rendered children.
- JavaScript object keys: the reduces that key a dictionary by name are modelled in first-appearance order. A JavaScript object lists integer-like keys first, and prototype names such as `constructor` are not modelled.
- `localeCompare` is approximated by code-point order. The date sort in `ProjectDetails` is stated as sorted and a permutation, not as stable (the dates it sorts are distinct).
- ProjectDetails.SortByHours: stated as sorted by hours and a permutation, not as stable. Tasks with equal hours (several at 0, say) keep their input order in the insertion sort as written, but no contract says so; ProjectDetails.RankTasks, which sorts with it, is stated the same way.
- src/lib/project-members.ts is a wrapper over the store; a duplicate assignment counts as a success, as the wrapper makes it.
- task-form-dialog validation is delegated to the zod library and is not part of this model. The same goes for the chat client and the pages that only wrap the auth SDK.
- Common.ToLower: only the ASCII and Latin-1 capitals are lowered, one character at a time. JavaScript's `toLowerCase` lowers every cased letter (Greek, Cyrillic, Latin Extended, the Kelvin sign), can lengthen the text (U+0130 becomes two code units) and depends on context (a word-final capital sigma becomes a final sigma). Common.ContainsLower and HelpPage.LongerQueryNarrows rest on this restriction. With JavaScript's mapping a longer query does not always narrow: "ΑΣ" matches a title "ΑΣ" (both lower to "ας") while its prefix "Σ" ("σ") does not.
- Both timer hooks are resolved under one import name in the application. Which one the bundler picks is not part of this model, so both are modelled separately.
- ExportUtils.QuoteIsNotEscaped: the CSV cells are wrapped in quotes without doubling embedded quotes, as section 2, item 7 of RFC 4180 would require. The lemma states this as the code does it.
- ReportCharts: the palette fallback cannot occur for fetched entries, because every entry carries a colour after the report's defaults. It is modelled but unreachable from the report source.
- ExportUtils.InvoiceTable: the displayed rate of a line is its first entry's, while the line's amount adds each entry's own hours times its own rate. Both are modelled as written. The per-project task list is built but never printed.
- AuthContext.Auth.FetchOrganization: a failed membership query is treated like an empty one and creates a personal workspace, as written.
- ProjectDetails: a successful fetch does not clear an earlier error message, as written.
- InvoiceDialog.InvoiceForm: the invoice number, tax name, client address and notes inputs only replace their fields. Only the client name (it enables the download) and the tax rate (its parsing) have methods.
- History.HistoryPage.LoadMore: the page counter goes up, but the request uses the page from before the increment, as written. So the first load-more requests page 1 again and replaces the list with it. The model states that request, not the next page.
- TimeTracking.FixRejectsIff: the guard compares truncated whole seconds. So an end less than one second before `clock_in` is accepted, as written.
