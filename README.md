# Morning briefing: checklist reconciliation and export

A Dafny model of the core of a daily-briefing viewer, the `app.js` of the
morning-briefing repository. The viewer loads one JSON document per day. Each
document holds sections of items: news, messages, calendar events and tasks.
The viewer shows them as a checklist and keeps a completion map from item id
to `true`. It also writes a plain-text export over a range of days. The model
covers:

- **Completion store** (`completion.dfy`). The `checks` map is modelled as the
  set of ticked ids, inside a class whose `SetDone` method is the checkbox
  handler: it adds the key or deletes it, then saves the whole set. `Toggled`
  specifies the new set. Completion is keyed by item id alone, so one id in
  two day documents is one completion entry.
- **Reconciler** (`reconcile.dfy`). These are renderStats' `total`, `done`,
  `high` and `pending`, and renderBriefing's per-section `done/count` and empty
  marker. They are pure functions of a document and the completion set, and a
  document missing or without `sections` gives "no data". `ComputeStats` is
  renderStats' nested counting loop, proved equal to `StatsOf`.
- **Item decisions** (`briefing.dfy`). renderItem picks the priority badge, the
  type badge, the source link with its default label "Source", the prep block
  and the checked state. Each decision is a function that returns a datatype
  instead of HTML.
- **Date selection** (`dates.dfy`). `LexLe` is JavaScript's `<=` on strings,
  proved to be a total order. `SelectDates` is `index.filter(d => d >= start
  && d <= end)`.
- **Export composer** (`export.dfy`). generateExport is modelled twice.
  `ExportAsWritten` is the code as written: a loaded document without
  `sections` makes the export throw, which the model reports as `Aborted`.
  `Export` is the corrected report, in which such a document contributes
  nothing, like one that failed to load (see Findings). `ComposeExport` builds
  the corrected string with append loops shaped like the source's; its date
  loop (`AppendDates`) has one step the source lacks, skipping a document
  without `sections`. The inputs shared by all three are the locale date
  formatter (`fmt`), the generation timestamp (`generated`) and the loader's
  results (a map from date to document; a date missing from the map failed to
  load).

Optional JSON fields are `Option<string>`. The JavaScript truthiness test
`item.source_url ? … : …` becomes `Truthy`: present and not the empty string.

Two behaviours of the code that are easy to miss:

- `!data.sections` is false for an empty `sections` array. So a document
  with zero sections is shown with zero counts, not as "no data". Only a
  missing `sections` field, or a missing document, gives "no data".
- renderStats and renderBriefing test `data.sections`, but generateExport
  does not (app.js:270). `ExportAsWritten` keeps that behaviour; `Export`,
  `ComposeExport` and `AppendDates` model the corrected export (see Findings).

## Model

| member | source | states |
|---|---|---|
| `Briefing.PriorityBadgeOf` | app.js:169-173 | the badge is "high" exactly for priority "high", "low" exactly for priority "low", otherwise none |
| `Briefing.TypeBadgeOf` | app.js:174-176 | a type badge exists exactly when the type is present, non-empty and not "status", and it shows that type |
| `Briefing.SourceViewOf` | app.js:177-179 | a link exactly when a url is present, labelled by the item's label or else "Source"; a plain label exactly when only a label is present; otherwise nothing |
| `Briefing.ItemViewOf` | app.js:166-186 | an item is shown ticked exactly when its id is in the completion set; its badges and source follow the decisions above; the prep block shows exactly when prep text is present, and then shows that text |
| `Briefing.SharedIdSharesCompletion` | app.js:167 | two items with the same id are always shown in the same checked state |
| `Briefing.SectionIcon` | app.js:111 | a section's own icon name when present, otherwise "info" |
| `Completion.Toggled` | app.js:138-144 | after a toggle, the id is a member exactly when the box was ticked, and every other id keeps its membership |
| `Completion.CheckThenUncheckRestores` | app.js:138-144 | ticking then unticking an id that was absent restores the original set |
| `Completion.ToggleIdempotent` | app.js:138-144 | reporting the same checkbox state twice equals reporting it once |
| `Completion.CompletionStore.constructor` | app.js:29 | the store starts from the persisted set, and the saved snapshot equals it (`Synced`) |
| `Completion.CompletionStore.SetDone` | app.js:135-145 | the handler changes the set as `Toggled` says, then the saved snapshot equals the new set |
| `Completion.CompletionStore.Check` | app.js:138-140 | ticking makes the id a member, leaves every other id as it was, and saves |
| `Completion.CompletionStore.Uncheck` | app.js:141-143 | unticking removes the id, leaves every other id as it was, and saves |
| `Completion.CompletionStore.Save` | app.js:33-35 | the saved snapshot becomes the whole current set |
| `Completion.CheckThenUncheck` | app.js:138-145 | on a store whose snapshot matches its set, checking then unchecking an absent id leaves both the set and the snapshot unchanged |
| `Reconcile.CountDone` | app.js:81 | the number of done items never exceeds the number of items |
| `Reconcile.CountHigh` | app.js:82 | the number of high-priority items never exceeds the number of items |
| `Reconcile.StatsOf` | app.js:73-85 | "no data" exactly for a missing document or one without sections; otherwise done + pending = total, done <= total, high <= total |
| `Reconcile.ComputeStats` | app.js:77-85 | renderStats' nested counting loops give exactly `StatsOf` for the store's current set |
| `Reconcile.HighIgnoresChecks` | app.js:82 | the high-priority count and the total do not depend on the completion set |
| `Reconcile.CountDoneMonotone` | app.js:81 | a larger completion set never gives a smaller done count |
| `Reconcile.CheckingNeverLowersDone` | app.js:138-146 | after ticking a box the recomputed done count is no lower and pending is no higher |
| `Reconcile.CountDoneAppend` | app.js:78-81 | the done count of two item lists together is the sum of their done counts |
| `Reconcile.ItemViews` | app.js:118 | one item view per item, in item order |
| `Reconcile.SectionViewOf` | app.js:106-117 | a section shows done/count with count = its item count and done = the number of its items whose id is ticked (so done <= count); it is marked empty exactly when it has no items, and then shows 0/0 |
| `Reconcile.CheckedCount` | app.js:204-210 | the number of ticked checkboxes never exceeds the number of checkboxes |
| `Reconcile.CheckedItemViews` | app.js:204-210 | the ticked checkboxes of a list of item views number exactly the done items |
| `Reconcile.CheckedBoxesMatchDone` | app.js:204-210 | in a section rendered from the current completion set, the ticked checkboxes number exactly the section's done count |
| `Reconcile.SectionViews` | app.js:101-122 | one section view per section, in document order, empty sections included |
| `Reconcile.BriefingViewOf` | app.js:94-122 | "no data" exactly for a missing document or one without sections; otherwise every section is shown |
| `Reconcile.SectionSums` | app.js:106-107 | the per-section counts sum to the item total and the per-section done counts sum to the aggregate done |
| `Reconcile.BriefingAgreesWithStats` | app.js:75-107 | the live view and the statistics report "no data" together, and the section counts add up to total and done |
| `Reconcile.SharedIdAcrossDocuments` | app.js:107 | once an id is ticked, every item with that id in any document shows as done |
| `Dates.LexLe` | app.js:259 | JavaScript's string `<=`: a key is <= every key it is a prefix of |
| `Dates.LexLeReflexive` | app.js:259 | every key is <= itself |
| `Dates.LexLeAntisymmetric` | app.js:259 | two keys that are each <= the other are equal |
| `Dates.LexLeTransitive` | app.js:259 | the string order is transitive |
| `Dates.LexLeTotal` | app.js:259 | any two keys are comparable |
| `Dates.LexLeCommonPrefix` | app.js:259 | keys with a common prefix compare as their remainders do |
| `Dates.LexLeFirstDifference` | app.js:259 | the first differing character decides, whatever the lengths: the key with the smaller character there is strictly before the other |
| `Dates.SelectDates` | app.js:259 | a date is selected exactly when it is in the index and start <= date <= end |
| `Dates.SelectDatesAppend` | app.js:259 | selection distributes over concatenation, so it keeps the index's order and does not re-sort |
| `Dates.SelectDatesSingle` | app.js:259 | a single index entry is kept exactly when it is in range |
| `Dates.EmptyRangeSelectsNothing` | app.js:259 | when start is after end no date is selected |
| `Export.Header` | app.js:261-263 | the header opens with "# Impact Review Export" and the range line "# <start> to <end>" of the two formatted bounds, ends with the "# Generated: <timestamp>" line and a blank line |
| `Export.HeaderFilterLine` | app.js:261-263 | the "# Filtered: <filter>" line appears exactly when the filter is not "all"; otherwise the header is the unfiltered one |
| `Export.ItemLine` | app.js:276-278 | an item line starts with "- ", ends with a newline and is longer than its marker and summary together |
| `Export.ItemLineShape` | app.js:275-278 | an item line starts with "- [x] " exactly when its id is done and with "- [ ] " otherwise, then carries the summary; the url follows in parentheses exactly when a source url is present |
| `Export.MarkerMatchesCheckbox` | app.js:276 | the export's marker and the live checkbox agree on every item |
| `Export.Export` | app.js:251-282 | no output exactly when the start or end bound is empty; never an aborted export |
| `Export.ItemsText` | app.js:275-279 | a section's item lines are empty exactly when it has no items, and each item adds at least a seven-character line |
| `Export.ItemsTextAppend` | app.js:275-279 | the item lines of two item lists together are the first list's lines followed by the second's |
| `Export.ItemsTextCons` | app.js:275-279 | a section's lines are its first item's line followed by the rest, in item order |
| `Export.Included` | app.js:271-272 | an empty section is never written, whatever the filter; under "all" every non-empty section is written; under another filter a section is written exactly when it has that id and at least one item |
| `Export.SectionsText` | app.js:270-281 | the sections of one document write nothing exactly when none of them passes the filter with at least one item |
| `Export.SectionsTextAppend` | app.js:270-281 | the sections' text of two section lists together is the first list's text followed by the second's |
| `Export.SectionsTextSingle` | app.js:270-280 | one section contributes its block exactly when the filter admits it and it has items, and nothing otherwise |
| `Export.UnmatchedFilterWritesNoSections` | app.js:271 | a filter other than "all" that names no section writes nothing for those sections |
| `Export.EmptySectionViewVersusExport` | app.js:272 | an empty section shows as 0/0 with the empty marker in the live view and is omitted from the export |
| `Export.DateText` | app.js:266-281 | one date writes nothing exactly when its document is missing or lacks sections (the corrected skip), and otherwise begins with its date heading |
| `Export.DatesText` | app.js:265-282 | the dates write nothing exactly when none of their documents loaded with sections |
| `Export.DatesTextAppend` | app.js:265-282 | the text of two date lists together is the first list's text followed by the second's, in index order |
| `Export.DatesTextSingle` | app.js:265-269 | one date writes exactly its own block |
| `Export.UnloadedDateSkipped` | app.js:266-267 | a date whose document failed to load contributes nothing, and the later dates are written as if it were absent |
| `Export.EmptyRangeHeaderOnly` | app.js:259-263 | with non-empty bounds and start after end the export is the header alone |
| `Export.UnmatchedFilterHeadingsOnly` | app.js:269-273 | a filter naming no section of any selected document leaves only date headings |
| `Export.JanuaryKeys` | app.js:259 | "2024-01-01" <= "2024-01-02" and "2024-01-03" is not <= "2024-01-02" |
| `Export.ThreeDayExample` | app.js:259 | given the index of the first three days of 2024, the range from day 1 to day 2 selects exactly days 1 and 2 |
| `Export.AppendItemLines` | app.js:275-279 | the item loop appends exactly the items' lines |
| `Export.AppendSections` | app.js:270-281 | the section loop appends exactly the blocks of the admitted non-empty sections |
| `Export.AppendDates` | app.js:265-282 | the corrected date loop appends exactly the blocks of the selected dates, and skips dates that did not load or have no sections |
| `Export.ExportHeader` | app.js:261-263 | the header lines built step by step are exactly `Header` |
| `Export.ComposeExport` | app.js:251-282 | the corrected generateExport string is exactly `Export`; it reads the completion store and modifies nothing |
| `Export.DateTextAsWritten` | app.js:266-270 | as written, one date fails exactly when its document loaded without sections, and otherwise writes the corrected block |
| `Export.DatesTextAsWritten` | app.js:265-282 | as written, the date loop fails only when some date's document lacks sections, and whatever it writes is the corrected text |
| `Export.ExportAsWritten` | app.js:251-282 | as written: no output exactly when a bound is empty; an aborted export has a selected sectionless document; a finished export equals the corrected one |
| `Export.SectionlessAborts` | app.js:270 | as written, a date whose document has no sections makes the whole date loop fail |
| `Export.AsWrittenAbortsOnSectionless` | app.js:265-270 | as written, one selected date whose document lacks sections aborts the export |
| `Export.AsWrittenAgreesDates` | app.js:265-282 | as written, the date loop produces the corrected text when no selected document lacks sections |
| `Export.AsWrittenAgreesWhenSectionsPresent` | app.js:265-282 | the corrected export differs from the code as written only when a selected document lacks sections |
| `Export.WitnessSelectsBoth` | app.js:259 | the witness range selects both of its days |
| `Export.WitnessAbortsAsWritten` | app.js:270 | as written, the witness export throws |
| `Export.WitnessSecondDay` | app.js:268-281 | the witness's second day writes its heading and its one section |
| `Export.WitnessDatesText` | app.js:265-282 | the witness's dates write only the second day's block |
| `Export.WitnessReportsSecondDay` | app.js:265-270 | corrected, the witness export skips the first day and reports the second |

`ComposeExport` has no `modifies` clause. It therefore cannot change the
completion store, and the export only reads `checks`. It is proved equal to
the function `Export`, so the same inputs and timestamp always give the same
string.

## Findings

| source | as written | input that shows it | evidently intended | confidence | as-written member | corrected member |
|---|---|---|---|---|---|---|
| app.js:270 | `for (const section of data.sections)` runs for any document that loaded; for a document without `sections` it throws a TypeError and the whole export is abandoned | index `["2024-01-01", "2024-01-02"]`, range 2024-01-01 to 2024-01-02, filter "all"; the first day's document has no `sections`, the second has one section with one item | a document without sections contributes nothing, like a document that failed to load (renderStats and renderBriefing treat both as no data), and later dates are still reported | not executed; medium: it needs a malformed document | `Export.ExportAsWritten`, `Export.DatesTextAsWritten` (shown by `Export.WitnessAbortsAsWritten`, `Export.AsWrittenAbortsOnSectionless`) | `Export.Export` and `Export.ComposeExport` (shown by `Export.WitnessReportsSecondDay`, `Export.UnloadedDateSkipped`) |

## Left out

- DOM work: `innerHTML`, element creation, listeners, section collapse,
  prep toggles and the `ICONS` table with `icon()`. The model returns the
  decision data that feeds the markup.
- Theme handling, navigation, the history list, clipboard copy and `setTimeout`.
  These are browser UI.
- `loadJSON` and `loadDataIndex`: network I/O. The index is a `seq<string>`
  parameter and the loaded documents are a `map<string, Document>`; an absent
  key is a failed load. `dataIndex || await loadDataIndex()` is modelled only as
  the index parameter.
- `localStorage` and the JSON encoding of `checks`. The constructor takes the
  persisted set and `saved` stands for the stored snapshot. `JSON.parse`
  throwing on corrupt stored data at start-up is not modelled.
- `Completion.Toggled` models `checks` as the set of its own keys. In the
  source `checks` is a plain object, so an id naming an `Object.prototype`
  member (`constructor`, `toString`, `valueOf`, `hasOwnProperty`,
  `__proto__`) reads as ticked at app.js:81, 107, 167 and 276 without being
  stored, and `delete` cannot untick it. Ids changed by HTML attribute
  decoding on the way through `data-id="${item.id}"` (app.js:190, app.js:136)
  are not modelled either; the model takes the id read back to be the item's
  id.
- Map values other than `true` in the stored `checks`. The handler only ever
  writes `true`, so the model keeps the set of keys.
- `formatDate`, `todayStr`, `new Date().toISOString()` and the `generated_at`
  time display depend on the locale or the clock. They become the function
  parameter `fmt` and the string parameter `generated`.
- `init`'s choice between today's document and the sample document. This is
  load orchestration.
- renderStats showing the high and pending counts only when they are non-zero.
  That choice is presentation only; the counts themselves are modelled.
- `Reconcile.CheckedBoxesMatchDone` covers only a section freshly rendered from
  the current set. updateSectionCount (app.js:204-210) recounts the live DOM
  boxes, and a toggle updates only the one box that changed. So when a
  section holds two items with one id, or an id is ticked in another view,
  the count shown after a toggle can be out of date; that staleness is not
  modelled.
- Documents whose sections lack `items`, or whose items lack `summary`, or whose
  sections lack `title`, are not modelled. JavaScript would throw or print
  "undefined" for them, and the model's datatypes require these fields.
- `LexLe` compares characters by Unicode scalar value, while JavaScript compares
  UTF-16 code units. The two orders differ only between characters above
  U+FFFF and those in U+E000–U+FFFF; date keys are ASCII.
- `Export.ComposeExport` reads one snapshot of the store for the whole
  export. The source re-reads `checks` after each `await loadJSON`
  (app.js:266, app.js:276), so a checkbox toggled while an export is running
  shows only in later dates. The `await` suspension points are not modelled;
  the loads are taken in index order, as the source awaits them.
