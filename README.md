# Framework-agreement deadline alerts, modelled in Dafny

This project models the alert analysis engine of a tool that reads "framework agreement"
procurement records and writes a reminder report. The engine does four things:

- it keeps the records whose responsible department is `运营业务开发科`;
- it writes an urgency level from 1 to 5 into each of those records, in place;
- it builds the four reminder name lists: gather material, approval (事财权), purchasing and sealing;
- it orders the records for the report table, unfinished first, then by level.

The project also models the small decision rules of the HTML report and of the console
summary, and the spreadsheet column-name encoder of the workbook inspector.

Modules, one per source file:

- `Model` (model.dfy): the record and the output bundle.
  `FrameworkAgreement` is a class. The fields the analyzer only reads are `const`.
  `alertLevel` and `referenceDate` are `var`, because the source updates records in place.
- `AlertAnalyzer` (alert_analyzer.dfy): the engine. `CalculateUrgencyLevel` keeps the source's levelling loop,
  and `CollectNames` holds the one record loop that the four name-list methods of the source
  repeat. Each of the four `Generate…Alert` methods calls `CollectNames` with its own category.
  Both loops are proved against a specification function (`UrgencyLevel`, `InAlert`).
  `SortAgreements` is a stable insertion sort, written as a function.
- `EmailGenerator` (email_generator.dfy): the reminder block, one reminder section, the
  urgency text, the row class, the level class and the footer counts.
- `Summary` (summary.dfy): `formatList`, `repeatString` and the distinct-name count.
- `DebugExcel` (debug_excel.dfy): `getColumnLetter`, with its bijective base-26 reading.
- `Text` and `Options`: set-to-list, joining, counting, substring containment, and `Option`.

Time is an integer number of milliseconds (`Instant`), as `Date.getTime()` gives it.
The source reads the clock several times. The model reads it once: `now` is a parameter of
the analysis, and `nowText` is its text form for the subject line.
`Calendar.add(MONTH, k)` is the function parameter `addMonths`. The fourteen-day seal window
is a literal `14 * 86400000` ms. Where a lemma needs more of the calendar, it assumes
`MonthsReachBack15Days`: going back one month or more lands at least fifteen days earlier.
A calendar month back is at least 28 days less a daylight-saving hour, so this holds in any time zone.

Consequences of the code that a reader might not expect:

- A record due in ten days with empty progress is on the seal list as well as the other three,
  because ten days lie inside the fourteen-day window (`TenDaysAheadExample`).
- The reminder lists come from a `HashSet`, so their order is whatever the set gives, not
  first-seen order. The model leaves the order open (`ListOfSet` picks elements with `:|`)
  and states each list's contents and that it has no duplicates.
- The analyzer does the department filter itself, and it never assigns the record's
  `referenceDate` field. The reference date is only a local value (`ReferenceDate`).
  `AnalyzeAlerts` states that the field is unchanged.

Two things follow from the contracts:

- Running the analysis twice at the same instant gives the same table and the same people
  on each list. `AnalyzeAlerts` fixes the table and each list's contents as functions of the
  records' input fields and `now`.
- The sort tests for exactly `已完成`, but the row colouring tests whether the progress
  *contains* it. So a record whose progress is, say, `部分已完成` is drawn green but is not
  sorted last.

## Model

| member | source | states |
|---|---|---|
| `Model.FrameworkAgreement.constructor` | src/main/java/com/framework/alert/model/FrameworkAgreement.java:7-34 | a new record carries the given input fields and no level and no reference date yet |
| `AlertAnalyzer.TargetAgreements` | src/main/java/com/framework/alert/service/AlertAnalyzer.java:16-18 | every kept record is an input record of department 运营业务开发科, and every such input record is kept |
| `AlertAnalyzer.TargetAgreementsOccurrences` | src/main/java/com/framework/alert/service/AlertAnalyzer.java:16-18 | the filter keeps every occurrence of a target-department record and none of any other |
| `AlertAnalyzer.ReferenceDate` | src/main/java/com/framework/alert/service/AlertAnalyzer.java:65-71 | the previous-agreement expiry when present, else the planned approval date; absent exactly when both are |
| `AlertAnalyzer.DiffDays` | src/main/java/com/framework/alert/service/AlertAnalyzer.java:49 | the whole days between the reference date and now, truncated toward zero for spans either side of zero |
| `AlertAnalyzer.LevelForDays` | src/main/java/com/framework/alert/service/AlertAnalyzer.java:51-61 | the tier for a day count is between 1 and 5 |
| `AlertAnalyzer.UrgencyLevel` | src/main/java/com/framework/alert/service/AlertAnalyzer.java:43-61 | the level is in 1..5, and 5 when there is no reference date |
| `AlertAnalyzer.UrgencyLevelByMillis` | src/main/java/com/framework/alert/service/AlertAnalyzer.java:49-61 | each tier as a millisecond range (under 7 days, 7–14, 14–30, 30–90, 90 and more), so every overdue span is tier 1 |
| `AlertAnalyzer.UrgencyLevelMonotone` | src/main/java/com/framework/alert/service/AlertAnalyzer.java:49-61 | a later reference date never gives a more urgent level |
| `AlertAnalyzer.UrgencyLevelExamples` | src/main/java/com/framework/alert/service/AlertAnalyzer.java:49-61 | 5, 10, 20, 60 and 200 days ahead give levels 1 to 5; one day overdue gives 1 |
| `AlertAnalyzer.CalculateUrgencyLevel` | src/main/java/com/framework/alert/service/AlertAnalyzer.java:39-63 | afterwards every record holds the level its reference date gives at now; the reference-date field is untouched |
| `AlertAnalyzer.WindowStart` | src/main/java/com/framework/alert/service/AlertAnalyzer.java:82-84 | the window start of each list (three, two, one months back, as here and at lines 106-108 and 132-134; fourteen days back at lines 159-161): the seal window opens exactly fourteen days before the reference date, and under the calendar assumption every window opens at least that early |
| `AlertAnalyzer.PendingFor` | src/main/java/com/framework/alert/service/AlertAnalyzer.java:88-89 | null, empty and 资料整理中 progress is pending for every list, and 已完成 is pending for none |
| `AlertAnalyzer.InAlert` | src/main/java/com/framework/alert/service/AlertAnalyzer.java:79-91 | a record is in an alert only with a reference date still ahead of now, and never with progress 已完成 |
| `AlertAnalyzer.PendingLabels` | src/main/java/com/framework/alert/service/AlertAnalyzer.java:89-170 | every list accepts the empty label and 资料整理中, and none accepts 已完成 |
| `AlertAnalyzer.PendingLabelsNested` | src/main/java/com/framework/alert/service/AlertAnalyzer.java:89-170 | the accepted labels strictly grow from the data list to the approval, purchase and seal lists |
| `AlertAnalyzer.NoAlertPastSealing` | src/main/java/com/framework/alert/service/AlertAnalyzer.java:164-171 | a record whose progress is 已完成 or any label the seal list rejects is on no list |
| `AlertAnalyzer.CollectNames` | src/main/java/com/framework/alert/service/AlertAnalyzer.java:73-95 | a person is on the list iff some record of theirs has a reference date, has now strictly inside the window, and has pending progress; nobody is listed twice |
| `AlertAnalyzer.GenerateNeedDataAlert` | src/main/java/com/framework/alert/service/AlertAnalyzer.java:73-95 | the same, for a three-month window and the labels empty, null and 资料整理中 |
| `AlertAnalyzer.GenerateNeedApprovalAlert` | src/main/java/com/framework/alert/service/AlertAnalyzer.java:97-121 | the same, for a two-month window, adding 发起事财权阶段 |
| `AlertAnalyzer.GenerateNeedPurchaseAlert` | src/main/java/com/framework/alert/service/AlertAnalyzer.java:123-148 | the same, for a one-month window, adding 合同采购阶段 |
| `AlertAnalyzer.GenerateNeedSealAlert` | src/main/java/com/framework/alert/service/AlertAnalyzer.java:150-176 | the same, for a fourteen-day window, adding 合同用印阶段 |
| `AlertAnalyzer.TenDaysAheadExample` | src/main/java/com/framework/alert/service/AlertAnalyzer.java:78-92 | an unstarted record due in ten days is on all four lists |
| `AlertAnalyzer.SealStageExample` | src/main/java/com/framework/alert/service/AlertAnalyzer.java:164-171 | a record at 合同用印阶段 due in five days is on the seal list and on no other |
| `AlertAnalyzer.SealWindowWithEarlyLabel` | src/main/java/com/framework/alert/service/AlertAnalyzer.java:78-176 | a record on the seal list whose label the data list accepts is on all four lists |
| `AlertAnalyzer.CompletedRank` | src/main/java/com/framework/alert/service/AlertAnalyzer.java:181 | the first sort key is 1 exactly for progress equal to 已完成, else 0 |
| `AlertAnalyzer.Precedes` | src/main/java/com/framework/alert/service/AlertAnalyzer.java:180-182 | the comparator puts a strictly before b exactly when b may not stand before a |
| `AlertAnalyzer.NotAfter` | src/main/java/com/framework/alert/service/AlertAnalyzer.java:180-182 | every record may stand next to an equal one, and a completed record never stands before an unfinished one |
| `AlertAnalyzer.InsertForDisplay` | src/main/java/com/framework/alert/service/AlertAnalyzer.java:178-184 | inserting adds exactly the one record to the multiset of records |
| `AlertAnalyzer.InsertKeepsSorted` | src/main/java/com/framework/alert/service/AlertAnalyzer.java:178-184 | inserting into a display-ordered list keeps it display-ordered |
| `AlertAnalyzer.SortAgreements` | src/main/java/com/framework/alert/service/AlertAnalyzer.java:178-184 | the output is a permutation of the input with unfinished records first and levels non-decreasing within each group |
| `AlertAnalyzer.SortIsStable` | src/main/java/com/framework/alert/service/AlertAnalyzer.java:178-184 | records with equal keys appear in the output in their input order |
| `AlertAnalyzer.SortExample` | src/main/java/com/framework/alert/service/AlertAnalyzer.java:180-182 | [completed level 2, level 1, level 3] sorts to [level 1, level 3, completed level 2] |
| `AlertAnalyzer.AnalyzeAlerts` | src/main/java/com/framework/alert/service/AlertAnalyzer.java:14-37 | the target records all get their levels, each list holds the people its category selects, and the table is the sorted target records; other records and reference dates are untouched |
| `Text.ListOfSet` | src/main/java/com/framework/alert/service/AlertAnalyzer.java:94 | the list holds each element of the set exactly once |
| `Text.Elements` | src/main/java/com/framework/alert/Main.java:88-92 | the set of a list's elements is no larger than the list, and exactly as large when it has no duplicates |
| `Text.JoinLength` | src/main/java/com/framework/alert/service/EmailGenerator.java:146-151 | joining n items adds exactly n−1 separators |
| `Text.JoinFront` | src/main/java/com/framework/alert/Main.java:105-110 | a join is the first item, then a separator and the join of the rest |
| `Text.Contains` | src/main/java/com/framework/alert/service/EmailGenerator.java:91 | a contained piece is no longer than the string, and the empty piece is always contained |
| `Text.ContainsIffOccurs` | src/main/java/com/framework/alert/service/EmailGenerator.java:115 | `contains` holds exactly when the piece starts at some position of the string |
| `EmailGenerator.PersonSpans` | src/main/java/com/framework/alert/service/EmailGenerator.java:147 | one mention per name, in order |
| `EmailGenerator.AddAlertSection` | src/main/java/com/framework/alert/service/EmailGenerator.java:141-155 | nothing is appended for an empty list; otherwise the title and the names' mentions joined by ", " |
| `EmailGenerator.AppendMentions` | src/main/java/com/framework/alert/service/EmailGenerator.java:146-151 | the loop appends exactly the join of the mentions |
| `EmailGenerator.AlertSectionLength` | src/main/java/com/framework/alert/service/EmailGenerator.java:141-155 | a section for n names holds exactly n−1 separators besides its mentions and markup |
| `EmailGenerator.AddReminders` | src/main/java/com/framework/alert/service/EmailGenerator.java:57-70 | the all-normal block is emitted iff all four lists are empty; otherwise the heading and the four sections |
| `EmailGenerator.UrgencyText` | src/main/java/com/framework/alert/service/EmailGenerator.java:161-171 | 1→非常紧急, 2→紧急, 3→中等, 4→一般, and 较低 for 5, null and any other value |
| `EmailGenerator.RowClass` | src/main/java/com/framework/alert/service/EmailGenerator.java:88-95 | "completed" iff progress contains 已完成; otherwise "urgent" iff the level is at most 2; otherwise empty |
| `EmailGenerator.RowClasses` | src/main/java/com/framework/alert/service/EmailGenerator.java:87-97 | one row class per table record, by the row-class rule |
| `EmailGenerator.CssLevel` | src/main/java/com/framework/alert/service/EmailGenerator.java:105-106 | the level-class number is the level, or 5 without one |
| `EmailGenerator.CssLevelMatchesText` | src/main/java/com/framework/alert/service/EmailGenerator.java:105-107 | the level class and the urgency text always name the same tier |
| `EmailGenerator.CompletedCount` | src/main/java/com/framework/alert/service/EmailGenerator.java:114-116 | the completed count is at most the table size |
| `EmailGenerator.UrgentCount` | src/main/java/com/framework/alert/service/EmailGenerator.java:117-119 | the urgent count is at most the table size |
| `EmailGenerator.CountsMatchRowClasses` | src/main/java/com/framework/alert/service/EmailGenerator.java:88-119 | the completed count is the number of green rows; the urgent count is at least the number of red rows |
| `Summary.Mentions` | src/main/java/com/framework/alert/Main.java:106 | one `@name` per name, in order |
| `Summary.FormatList` | src/main/java/com/framework/alert/Main.java:100-112 | the loop builds 无 for an empty list and the mentions joined by ", " otherwise |
| `Summary.FormattedListShape` | src/main/java/com/framework/alert/Main.java:104-111 | a non-empty list prints as "@" + first name, then ", @" + each later name, in order |
| `Summary.FormattedListNoneIffEmpty` | src/main/java/com/framework/alert/Main.java:101-103 | the text is 无 exactly for the empty list |
| `Summary.RepeatString` | src/main/java/com/framework/alert/Main.java:115-121 | the loop builds count copies of the string |
| `Summary.RepeatLength` | src/main/java/com/framework/alert/Main.java:115-121 | count copies have length count·\|s\|, and are empty for count ≤ 0 |
| `Summary.RepeatAt` | src/main/java/com/framework/alert/Main.java:115-121 | character q·\|s\|+r of the copies is character r of the string |
| `Summary.TotalReminderCount` | src/main/java/com/framework/alert/Main.java:88-95 | the number of distinct people on the four lists; at most the sum of their sizes and at least each duplicate-free list's size |
| `DebugExcel.Letter` | src/main/java/com/framework/alert/DebugExcel.java:143 | a digit 0..25 becomes a letter A..Z |
| `DebugExcel.ColumnLetters` | src/main/java/com/framework/alert/DebugExcel.java:140-147 | empty exactly for a negative index; otherwise non-empty and only letters A..Z |
| `DebugExcel.GetColumnLetter` | src/main/java/com/framework/alert/DebugExcel.java:140-147 | the prepend loop builds the column name |
| `DebugExcel.ColumnLettersRoundTrip` | src/main/java/com/framework/alert/DebugExcel.java:142-145 | reading the name as bijective base-26 digits (A=1..Z=26) gives index + 1 |
| `DebugExcel.ColumnLettersInjective` | src/main/java/com/framework/alert/DebugExcel.java:142-145 | distinct columns have distinct names |
| `DebugExcel.ColumnLettersLength` | src/main/java/com/framework/alert/DebugExcel.java:142-145 | the name is one letter exactly for 0..25 and two letters exactly for 26..701 |
| `DebugExcel.ColumnLettersExamples` | src/main/java/com/framework/alert/DebugExcel.java:142-145 | 0→A, 25→Z, 26→AA, 27→AB, 701→ZZ, 702→AAA |

## Left out

- Spreadsheet reading (ExcelReader.java): Apache POI cell types, date-string parsing and file I/O. Records arrive as an already-built sequence. The reader turns empty cells into empty strings, so names, departments and system names are plain strings here.
- Record fields the core never reads: business department, agreement name, duration, approval form number, workload, amount, signed and central-purchase flags, planned purchase and contract dates, risk fields, remarks.
- The wall clock. Every `new Date()` becomes the single `now` parameter, and `Date.toString()` in the subject becomes `nowText`.
- `java.util.Calendar` month arithmetic, time zones and daylight saving. Month arithmetic is the `addMonths` parameter. The fourteen-day window is exact milliseconds, whereas `Calendar.add(DAY_OF_MONTH, -14)` can differ across a daylight-saving change.
- `long` overflow in `referenceDate.getTime() - now.getTime()`: integers are unbounded here. Dates near the ends of the `long` range cannot occur in a spreadsheet.
- The order of the reminder lists. It is whatever `HashSet` iteration gives, so it is left unspecified.
- `AlertAnalyzer.SortAgreements`: requires every record to carry a level. Java's comparator would throw on a null `Integer`, and the analyzer only sorts after levelling.
- Null lists. `formatList(null)` prints 无, but `MailContent` lists and the table are never null here.
- The rest of `generateHtmlContent`: the style sheet, the header with its timestamp, the table header and cell markup, date formatting through `SimpleDateFormat`, the integer-to-text conversions, the "no records" block, and the footer legend text. Of this code the model keeps the row-class rule, the level class, the urgency text and the two counts.
- `printSummary`'s console output and `main` (file checks, writing the HTML file, timestamped names, logging), as well as `main` and `findColumn` of DebugExcel.java: console and file I/O.
- Idempotence of the analysis is a consequence of `AnalyzeAlerts`' contract and is not a separate member. A method that runs the pass twice cannot relate the two heaps' sort results.
- Logging and Lombok-generated accessors: logging has no effect on the results, and the accessors are plain field reads and writes.
