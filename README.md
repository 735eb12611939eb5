# Middlesex budget site: a Dafny model of its data transforms

The town of Middlesex's budget-transparency website draws three waterfall charts, turns article
headings into anchors, shortens posts to excerpts and joins posts with their authors. A Python
script converts the FY2027 budget sheet into the site's CSV format. This project models those
transforms in Dafny and proves what they promise.

- **Waterfall charts** (`BudgetWaterfallChart`, `ProposedBudgetWaterfall`,
  `BudgetOptionsComparison`). Each chart computes `departmentChanges`: one entry per department
  of the later fiscal year, with its change from the earlier year, sorted by change, largest first.
  `buildWaterfallData` then draws a leading total bar, one floating bar per moving department and
  a trailing total bar. Each floating bar starts at the current running total (or below it for a
  decrease), and the running total then moves by the bar's change.
  - The proposed-budget chart marks a department that is new in FY2027 and keeps the operands of
    each bar's percentage change.
  - The options chart leaves the two staffing options out of the department loop. It appends an
    Office Expansion bar and a Town Admin bar (TEST A's cost beyond TEST B) before the FY2027
    total.
  - Each builder is an imperative `BuildWaterfallData` method with a loop over `departmentChanges`.
    It is proved equal to a declarative `Waterfall` function, and the bar-by-bar properties, the
    sums and the closing totals are proved about that function.
  - The chart constants of each component are stated as concrete lemmas: the sorted order, the
    number of bars, and the running total ending at the later total.
- **Heading anchors** (`BudgetAnalysis`, `DataDownloads`). `slugify` returns a slug: lower-case
  letters, digits and single hyphens, with no hyphen at either end. It keeps exactly the input's
  letters and digits, in order. A slug is a fixed point of `slugify`, so `slugify` is idempotent.
  Every link in the sidebar's table of contents is `#` followed by such a fixed point.
- **Excerpts** (`PostCard`). `getExcerpt` removes the Markdown characters `#*_-[]` and trims the
  text. A text longer than the limit is cut, trimmed again and ends with `"..."`.
- **Authors** (`Data`). `getAuthor` finds the first author with the id. `getPostsWithAuthors`
  pairs each post with that author.
- **FY2027 sheet converter** (`ParseFy2027`).
  - `parse_currency` reads a cell as an exact decimal.
  - `main`'s row loop is an imperative `ProcessRows` method over a `ProcessRow` method. Its inner
    `for key … break` search over `SECTION_MAPPING` is the `FindHeader` method. Both are proved
    equal to a row-by-row fold, `Run`, whose rules are proved as lemmas: which rows emit, the
    flood-debt move to General Government, one record per year with an amount, and nothing
    emitted before the first section header.
  - The subsection branch (lines 90-98 of the script) can never change the section. Every label
    in it that is also a mapping key has already matched the case-insensitive header test above
    it. `SubsectionRowKeepsSection` proves this.

Shared modules: `Wrappers` (Option), `Seqs` (`filter`, `find`, a sum, and a stable descending
insertion sort standing for `Array.prototype.sort`), `Text` (ASCII case mapping, trimming,
prefix/suffix/substring tests) and `Budget` (a fiscal year's departments as an ordered list of
name–amount pairs in object-key order, plus the bar geometry the three charts share).

Three behaviours of the code worth knowing:

- Special categories are not always appended after the department bars. In the proposed-budget
  chart, the new Town Admin position is sorted among the departments and only flagged `isNew`.
  Only the options chart appends its two option bars.
- Only the historical chart counts a department missing from the earlier year as zero (`|| 0`).
  The other two read the earlier amount directly. The model requires every FY2027 key to exist in
  FY2026 (`KeysCovered`), which the shipped data satisfies.
- The bars add up to the later total only when the departments themselves add up to it. The
  waterfall builders never compare the two. `WaterfallSum` proves that the bars move the earlier
  total by the sum of the changes, and the concrete lemmas show that this sum reaches the later
  total for the shipped figures.

## Model

| member | source | states |
|---|---|---|
| Seqs.SortDesc | components/BudgetWaterfallChart.tsx:45 | definition (a stable insertion sort, largest key first); its properties are `SortDescSpec` and `SortDescStable` |
| Seqs.Find | lib/data.ts:108 | definition of `Array.prototype.find`; its property is `FindSpec` |
| Seqs.Filter | components/PostCard.tsx:19 | definition of keeping the elements that pass a test, which `replace` with a character class does to a string; its properties are `FilterMembers` and `SumOfDropsZeros` |
| Seqs.SortDescSpec | components/BudgetWaterfallChart.tsx:45 | `sort((a, b) => b.change - a.change)` puts changes in descending order and is a permutation of its input (same multiset, same length) |
| Seqs.SortDescStable | components/BudgetWaterfallChart.tsx:45 | the sort is stable: entries with equal change keep their input (object-key) order |
| Seqs.FindSpec | lib/data.ts:108 | `find` yields an element satisfying the test with none before it, and yields nothing exactly when no element satisfies it |
| Seqs.FilterMembers | components/PostCard.tsx:19 | filtering keeps exactly the elements that pass the test |
| Seqs.SumOfDropsZeros | components/BudgetWaterfallChart.tsx:73 | skipping entries whose change is zero does not change the total change |
| Text.Trim | components/PostCard.tsx:19 | `trim()`/`strip()` removes exactly the white space at the two ends: the result is the part of the input between a leading and a trailing run of white space, and starts and ends with a non-space |
| Text.TrimEmpty | scripts/parse_fy2027.py:47 | a string trims to empty exactly when it is all white space |
| Budget.Amount | components/BudgetWaterfallChart.tsx:43-44 | definition of `departments[name]`; its property is `AmountSpec` |
| Budget.Bars | components/BudgetWaterfallChart.tsx:72-83 | definition of the floating bars a waterfall loop pushes, each drawn from the running total before it; its properties are `BarsStep`, `BarsSum` and `KeptBarsSum` |
| Budget.AmountSpec | components/BudgetWaterfallChart.tsx:43-44 | `departments[name]` fails exactly for a missing key, otherwise yields an amount filed under the name, and the one such amount when names are distinct |
| Budget.BarStart | components/BudgetWaterfallChart.tsx:78 | a bar starting at `change >= 0 ? runningTotal : runningTotal + change` with height `|change|` spans exactly from the lower to the higher of the running totals before and after the change |
| Budget.KeptBarsSum | components/BudgetWaterfallChart.tsx:72-83 | drawing bars only for the entries that move, when the others change by zero, still moves the running total by the whole change |
| Budget.BarsSum | components/BudgetWaterfallChart.tsx:72-83 | when each bar shows its own change, the bars' shown values add up to the sum of the changes |
| Budget.BarsStep | components/BudgetWaterfallChart.tsx:72-83 | one loop turn: a kept entry appends its bar drawn from the current running total and moves the total by its change; any other entry leaves both unchanged |
| BudgetWaterfallChart.Deltas | components/BudgetWaterfallChart.tsx:41-44 | one delta per FY2024 key, in key order: entry `i` is named after key `i` and its change is the FY2024 amount minus the FY2020 amount, 0 when FY2020 lacks the key |
| BudgetWaterfallChart.DepartmentChanges | components/BudgetWaterfallChart.tsx:41-45 | definition of `departmentChanges`; its property is `DepartmentChangesSpec` |
| BudgetWaterfallChart.StepItem | components/BudgetWaterfallChart.tsx:74-80 | definition of one department bar; its properties are `WaterfallSteps` and `BarStart` |
| BudgetWaterfallChart.DepartmentChangesSpec | components/BudgetWaterfallChart.tsx:41-45 | `departmentChanges` has one entry per FY2024 department, each its FY2024 amount minus its FY2020 amount (0 when absent), sorted descending and stable, and a permutation of the deltas |
| BudgetWaterfallChart.Waterfall | components/BudgetWaterfallChart.tsx:57-95 | the chart has one bar per nonzero change plus two; the first and last are FY2020 and FY2024 totals standing on zero, flagged as totals and never as positive |
| BudgetWaterfallChart.BuildWaterfallData | components/BudgetWaterfallChart.tsx:57-95 | the loop builds exactly the chart `Waterfall` describes |
| BudgetWaterfallChart.WaterfallSteps | components/BudgetWaterfallChart.tsx:72-83 | every middle bar is, in order, a department whose change is not zero, with height `|change|` > 0, signed display value, positive flag exactly for an increase, and spanning from the running total before the change to the one after it |
| BudgetWaterfallChart.WaterfallSum | components/BudgetWaterfallChart.tsx:70-83 | the middle bars move the FY2020 total by exactly the sum of all department changes, omitted zero changes included |
| BudgetWaterfallChart.ShippedSort | components/BudgetWaterfallChart.tsx:17-45 | with the shipped data `departmentChanges` is Public Works, Administration, Other, Fire Dept, Public Safety with their changes |
| BudgetWaterfallChart.ShippedAllMoved | components/BudgetWaterfallChart.tsx:72-73 | every shipped department changed, so every one is drawn |
| BudgetWaterfallChart.ShippedSum | components/BudgetWaterfallChart.tsx:17-45 | the shipped changes add up to 579,000 |
| BudgetWaterfallChart.ShippedWaterfall | components/BudgetWaterfallChart.tsx:17-97 | the shipped chart has 7 bars, its middle bars add up to 579,000 and the running total ends at the FY2024 total 1,662,000 |
| ProposedBudgetWaterfall.Deltas | components/ProposedBudgetWaterfall.tsx:51-56 | one delta per FY2027 key, in key order: entry `i` is named after key `i`, carries its FY2027 amount and the FY2026 amount filed under that name, and their difference as its change |
| ProposedBudgetWaterfall.DepartmentChanges | components/ProposedBudgetWaterfall.tsx:51-57 | definition of `departmentChanges`; its property is `DepartmentChangesSpec` |
| ProposedBudgetWaterfall.StepItem | components/ProposedBudgetWaterfall.tsx:88-97 | definition of one department bar with its `isNew` flag and percentage operands; its properties are `WaterfallSteps` and `PercentBaseNonZero` |
| ProposedBudgetWaterfall.DepartmentChangesSpec | components/ProposedBudgetWaterfall.tsx:51-57 | `departmentChanges` has one entry per FY2027 department carrying both years' amounts and their difference, sorted descending and stable, a permutation of the deltas |
| ProposedBudgetWaterfall.Waterfall | components/ProposedBudgetWaterfall.tsx:71-112 | one bar per nonzero change plus two; the first and last are FY2026 and FY2027 totals standing on zero, with no positive, new or percentage annotation |
| ProposedBudgetWaterfall.BuildWaterfallData | components/ProposedBudgetWaterfall.tsx:71-112 | the loop builds exactly the chart `Waterfall` describes |
| ProposedBudgetWaterfall.WaterfallSteps | components/ProposedBudgetWaterfall.tsx:86-100 | every middle bar is a moving department with the geometry of the historical chart, flagged new exactly when FY2026 is 0 and FY2027 is positive, and carrying the percentage operands (change, FY2026 amount) exactly when it is not new |
| ProposedBudgetWaterfall.PercentBaseNonZero | components/ProposedBudgetWaterfall.tsx:96 | with non-negative amounts, every percentage present divides by a nonzero FY2026 amount |
| ProposedBudgetWaterfall.WaterfallSum | components/ProposedBudgetWaterfall.tsx:84-100 | the middle bars move the FY2026 total by exactly the sum of the changes |
| ProposedBudgetWaterfall.ShippedSort | components/ProposedBudgetWaterfall.tsx:19-57 | with the shipped data `departmentChanges` is Administration, Public Works, Town Admin, Other, CIP, Public Safety, Fire Dept |
| ProposedBudgetWaterfall.ShippedNonZero | components/ProposedBudgetWaterfall.tsx:87 | only the flat Public Safety entry is left undrawn |
| ProposedBudgetWaterfall.ShippedSum | components/ProposedBudgetWaterfall.tsx:19-57 | the shipped changes add up to 267,000 |
| ProposedBudgetWaterfall.ShippedWaterfall | components/ProposedBudgetWaterfall.tsx:19-114 | the shipped chart has 8 bars, its running total ends at the FY2027 total 2,294,000, and the fourth bar is Town Admin, new and without a percentage |
| BudgetOptionsComparison.TownAdminAdditional | components/BudgetOptionsComparison.tsx:58 | TEST B's total plus `townAdminAdditional` is TEST A's total |
| BudgetOptionsComparison.OfficeExpansionChange | components/BudgetOptionsComparison.tsx:116-126 | definition of how far the Office Expansion bar moves the running total; its properties are `OfficeExpansionChangeSpec` and `OfficeExpansionSum` |
| BudgetOptionsComparison.StepItem | components/BudgetOptionsComparison.tsx:103-110 | definition of one ordinary department bar; its property is `WaterfallSteps` |
| BudgetOptionsComparison.OfficeExpansionChangeSpec | components/BudgetOptionsComparison.tsx:116-126 | the Office Expansion bar is drawn exactly when the first "Office Expansion" entry grew, and it then moves the total by the change of that first entry |
| BudgetOptionsComparison.Waterfall | components/BudgetOptionsComparison.tsx:86-150 | the chart has one bar per drawn department, one per drawn option, plus two totals: FY2026 first and the TEST A total last |
| BudgetOptionsComparison.BuildWaterfallData | components/BudgetOptionsComparison.tsx:86-150 | the loop and the two option steps build exactly the chart `Waterfall` describes |
| BudgetOptionsComparison.WaterfallSteps | components/BudgetOptionsComparison.tsx:101-113 | every department bar is a moving department other than the two options, with the shared geometry, and carries a percentage exactly when its FY2026 amount is positive |
| BudgetOptionsComparison.WaterfallOptions | components/BudgetOptionsComparison.tsx:115-138 | the Office Expansion bar follows the departments, starting at their running total; the Town Admin bar follows it, starting where it ended; each is flagged and shows its amount |
| BudgetOptionsComparison.WaterfallSum | components/BudgetOptionsComparison.tsx:99-138 | the bars between the totals move the FY2026 total to the running total the builder ends with |
| BudgetOptionsComparison.SumSplit | components/BudgetOptionsComparison.tsx:102 | with no Town Admin change, the total change is the drawn departments' changes plus the Office Expansion entries' changes |
| BudgetOptionsComparison.OfficeExpansionSum | components/BudgetOptionsComparison.tsx:116-117 | with one Office Expansion entry that did not shrink, its change is what the Office Expansion bar adds |
| BudgetOptionsComparison.WaterfallCloses | components/BudgetOptionsComparison.tsx:55-138 | when the departments add up to the TEST B total, the running total ends at the larger of the TEST A and TEST B totals, so at TEST A's whenever TEST A costs at least as much |
| BudgetOptionsComparison.ShippedSort | components/BudgetOptionsComparison.tsx:18-72 | with the shipped data `departmentChanges` is Office Expansion, Public Works, Other, CIP, Administration, Public Safety, Town Admin, Fire Dept |
| BudgetOptionsComparison.ShippedOrdinary | components/BudgetOptionsComparison.tsx:102 | Office Expansion, Public Safety and Town Admin get no department bar |
| BudgetOptionsComparison.ShippedSum | components/BudgetOptionsComparison.tsx:18-72 | the shipped TEST B changes add up to 261,000, the gap between the FY2026 and TEST B totals |
| BudgetOptionsComparison.ShippedOfficeExpansion | components/BudgetOptionsComparison.tsx:116-117 | the shipped data has one Office Expansion entry, grown by 100,000, and Town Admin has no change |
| BudgetOptionsComparison.ShippedCloses | components/BudgetOptionsComparison.tsx:55-138 | the shipped chart's running total ends at the TEST A total |
| BudgetOptionsComparison.ShippedWaterfall | components/BudgetOptionsComparison.tsx:18-152 | the shipped chart has 9 bars, with Office Expansion (100,000) and Town Admin (6,000) before the TEST A total, where the running total ends |
| BudgetAnalysis.Slugify | components/BudgetAnalysis.tsx:9-14 | definition of `slugify`; its properties are `SlugifyIsSlug`, `SlugifyKeepsLettersAndDigits`, `SlugifySlug`, `SlugifyIdempotent` and `SlugifyEmpty` |
| BudgetAnalysis.TrimHyphen | components/BudgetAnalysis.tsx:13 | definition of the last `replace`, which drops one hyphen from each end; its properties are `TrimHyphenSlug`, `TrimHyphenFilter` and `TrimHyphenKeeps` |
| BudgetAnalysis.DropRun | components/BudgetAnalysis.tsx:12 | the skipped run consists of characters other than `[a-z0-9]`, and what remains is empty or starts with one |
| BudgetAnalysis.Collapse | components/BudgetAnalysis.tsx:12 | `replace(/[^a-z0-9]+/g, "-")` yields only `[a-z0-9-]`, never a hyphen not followed by a letter or digit, is empty exactly for empty input, and keeps a leading letter or digit |
| BudgetAnalysis.SlugifyIsSlug | components/BudgetAnalysis.tsx:9-14 | `slugify` yields only lower-case letters, digits and hyphens, never two hyphens in a row, and no hyphen at either end |
| BudgetAnalysis.SlugifyKeepsLettersAndDigits | components/BudgetAnalysis.tsx:9-14 | removing the hyphens from the output leaves exactly the input's ASCII letters and digits, lower-cased, in order |
| BudgetAnalysis.SlugifySlug | components/BudgetAnalysis.tsx:9-14 | a slug is left unchanged |
| BudgetAnalysis.SlugifyIdempotent | components/BudgetAnalysis.tsx:9-14 | slugifying twice gives the same as slugifying once |
| BudgetAnalysis.SlugifyEmpty | components/BudgetAnalysis.tsx:9-14 | the output is empty exactly when the input has no ASCII letter or digit |
| BudgetAnalysis.HeadingAnchor | components/BudgetAnalysis.tsx:19-23 | a heading's `id` is a slug and its link is `#` + `id`, whose fragment names the same heading when slugified again |
| DataDownloads.AnchorLinkFixed | components/DataDownloads.tsx:9-21 | a `#fragment` link whose fragment is a slug points at the heading whose text slugifies to that fragment |
| DataDownloads.TocAnchorsAreSlugs | components/DataDownloads.tsx:9-21 | every table-of-contents link is `#` followed by a fixed point of `slugify` |
| PostCard.GetExcerpt | components/PostCard.tsx:18-22 | definition of `getExcerpt`; its properties are `ShortExcerpt`, `LongExcerpt` and `ExcerptHasNoMarkup` |
| PostCard.PlainText | components/PostCard.tsx:19 | definition of the stripped, trimmed plain text; its properties are `PlainTextChars` and `Text.Trim` |
| PostCard.PlainTextChars | components/PostCard.tsx:19 | the plain text contains only characters of the content and none of `#*_-[]` |
| PostCard.ShortExcerpt | components/PostCard.tsx:20 | a plain text no longer than the limit is the excerpt itself |
| PostCard.LongExcerpt | components/PostCard.tsx:21 | a longer text yields a prefix of the plain text of at most the limit, with no white space at its ends and only white space between it and the cut, followed by `"..."` |
| PostCard.ExcerptHasNoMarkup | components/PostCard.tsx:18-22 | the excerpt is the plain text or a prefix of it followed by `"..."`, and the plain text has no markup character |
| Data.GetAuthor | lib/data.ts:107-109 | a found author has the requested id and comes from the author list |
| Data.GetAuthorSpec | lib/data.ts:107-109 | the author found is the first with the id, and none is found exactly when no author has it |
| Data.PostsWithAuthors | lib/data.ts:111-116 | one entry per post, in order, each with its post and the author `getAuthor` returns for the post's `authorId`: the first in the list with that id |
| Data.JoinedAuthorUnique | lib/data.ts:111-116 | with distinct author ids, each post is joined with the one author carrying its id |
| Data.ShippedData | lib/data.ts:18-105 | the shipped ids are distinct, every post's author exists, and the two posts are by Mark and Martha Harris and by Zara Vincent |
| ParseFy2027.ParseCurrency | scripts/parse_fy2027.py:45-59 | definition of `parse_currency`; its properties are `BlankIsNone`, `DashIsZero`, `ParenthesesNegate`, `ParseDollars`, `ParseBracketed` and `ParsePointed` |
| ParseFy2027.Clean | scripts/parse_fy2027.py:50 | definition of removing `$`, commas and white space; its properties are `KeepsDigits`, `DashIsZero` and `ParseDollars` |
| ParseFy2027.ParseFloat | scripts/parse_fy2027.py:56-59 | definition of `float()` on a signed decimal literal, no amount for anything else; its properties are `ParenthesesNegate` and `ParsePointed` |
| ParseFy2027.IndexOf | scripts/parse_fy2027.py:57 | the position found holds the character with none before it; nothing is found exactly when the character is absent |
| ParseFy2027.BlankIsNone | scripts/parse_fy2027.py:47-48 | a missing, empty or all-white-space cell reads as no amount |
| ParseFy2027.DashIsZero | scripts/parse_fy2027.py:50-52 | a non-blank cell that is empty or `-` once `$`, commas and white space are removed reads as zero |
| ParseFy2027.ParenthesesNegate | scripts/parse_fy2027.py:54-59 | a cell bracketed in parentheses reads as the minus-signed inner text: the negated amount when the inner text is an unsigned number, no amount otherwise |
| ParseFy2027.ParseDollars | scripts/parse_fy2027.py:45-59 | `"$" + str(n)` reads as exactly `n` |
| ParseFy2027.ParseBracketed | scripts/parse_fy2027.py:45-59 | `"(" + str(n) + ")"` reads as exactly `-n` |
| ParseFy2027.ParsePointed | scripts/parse_fy2027.py:57 | cleaned text `whole.fraction` reads as exactly `whole * 10^len(fraction) + fraction` at that scale |
| ParseFy2027.FormatNatValue | scripts/parse_fy2027.py:57 | the digits of `str(n)` denote `n` |
| ParseFy2027.SectionHeader | scripts/parse_fy2027.py:81-87 | definition of the case-insensitive section-header lookup; its properties are `FindHeader`, `SectionsMapped`, `HeaderIgnoresCase` and `ExactKeyIsHeader` |
| ParseFy2027.IsTotalLine | scripts/parse_fy2027.py:105-112 | definition of the total and subtotal test, with Python's `and`-before-`or` grouping of the last clause; its property is `EmittingRow` |
| ParseFy2027.RowStep | scripts/parse_fy2027.py:69-145 | definition of one turn of the row loop; its properties are `ProcessRow`, `SkippedRowKeepsSection`, `HeaderRowSetsSection`, `SubsectionRowKeepsSection`, `EmittingRow`, `RowStepSection` and `RowStepWellFormed` |
| ParseFy2027.Run | scripts/parse_fy2027.py:61-145 | definition of the whole loop as a fold of `RowStep` from no section; its properties are `ProcessRows` and `RunInvariant` |
| ParseFy2027.DataRecords | scripts/parse_fy2027.py:126-145 | definition of the records of a data line; its properties are `DataRecordsSpec` and `DataRecordsWellFormed` |
| ParseFy2027.FloodRecords | scripts/parse_fy2027.py:132-137 | definition of the three General Government flood-debt records; its properties are `DataRecordsSpec` and `FloodRecordsWellFormed` |
| ParseFy2027.YearRecords | scripts/parse_fy2027.py:139-145 | definition of a line's yearly records; its properties are `YearRecordsOrder` and `YearRecordsCover` |
| ParseFy2027.FindHeader | scripts/parse_fy2027.py:81-87 | the header test and the `for key … break` loop find the first mapping key equal to the line up to case |
| ParseFy2027.ProcessRow | scripts/parse_fy2027.py:69-145 | one turn of the row loop yields the new section and the records `RowStep` prescribes |
| ParseFy2027.ProcessRows | scripts/parse_fy2027.py:62-145 | the row loop collects exactly the records of the fold `Run` over all rows |
| ParseFy2027.SectionsMapped | scripts/parse_fy2027.py:84-97 | both section lookups yield values of `SECTION_MAPPING` |
| ParseFy2027.HeaderIgnoresCase | scripts/parse_fy2027.py:81-82 | two lines equal up to case are the same section header |
| ParseFy2027.ExactKeyIsHeader | scripts/parse_fy2027.py:82-96 | a line that is exactly a mapping key is also a header up to case |
| ParseFy2027.SubsectionRowKeepsSection | scripts/parse_fy2027.py:90-98 | a subsection label that is not a header leaves the section unchanged and emits nothing |
| ParseFy2027.YearRecordsOrder | scripts/parse_fy2027.py:139-145 | an ordinary line's records carry its section and name, come in year order and have an actual amount only for 2025 |
| ParseFy2027.YearRecordsCover | scripts/parse_fy2027.py:139-145 | there is a record for a year exactly when that year has an amount, carrying that year's amounts, and no other record |
| ParseFy2027.DataRecordsSpec | scripts/parse_fy2027.py:126-145 | a data line emits nothing exactly when all four amounts are missing or zero; the flood line becomes the three General Government flood-debt records; any other line gets its own yearly records |
| ParseFy2027.DataRecordsWellFormed | scripts/parse_fy2027.py:126-145 | under a standard section every record is in a standard section, a fiscal year from 2025 to 2027, with an actual amount only for 2025 |
| ParseFy2027.EmittingRow | scripts/parse_fy2027.py:69-113 | only a row with five cells, under a current section, that is not a header, blank, date, subsection or total line emits, and it keeps the section |
| ParseFy2027.SkippedRowKeepsSection | scripts/parse_fy2027.py:69-78 | a row with fewer than five cells, a blank line item, the `2026/2027Budget` title and the `July 1` date line keep the current section and emit nothing |
| ParseFy2027.HeaderRowSetsSection | scripts/parse_fy2027.py:81-88 | a section-header row that is not skipped sets the section to its mapped standard section, whatever the section was, and emits nothing |
| ParseFy2027.RowStepSection | scripts/parse_fy2027.py:69-102 | a section once set stays set and standard, and no row emits before a section is set |
| ParseFy2027.RowStepWellFormed | scripts/parse_fy2027.py:115-145 | under a standard section every record a row emits is well formed |
| ParseFy2027.RunInvariant | scripts/parse_fy2027.py:61-145 | over the whole sheet the current section is standard once set, nothing is emitted before the first section header, and every record is well formed |

## Left out

- Rendering: the JSX, the chart library, colours, tooltips, `formatCurrency`, `formatTooltipValue`, `formatDate` and the table-of-contents `indent` flag only lay out what the model computes.
- Floating point: a percentage change is kept as its operands `Percent(change, base)`. The quotient `(change / base) * 100` and its rounding are not modelled.
- Amounts are unbounded integers. The JavaScript doubles are exact for the whole-dollar figures in the source.
- The `BUDGET_DATA` objects are ordered name–amount lists in object-key order. The figures are parameters of the builders, and the shipped constants are given as values.
- BudgetOptionsComparison: `townAdminNet` is unused in the source. `totalTownBudget` feeds only the rendered headline percentages `testBPct` and `testAPct` (lines 61-63 and 225-226), which are display and are not modelled.
- ProposedBudgetWaterfall.Deltas: requires every FY2027 key to exist in FY2026 (`KeysCovered`), because with a missing key the source computes with `undefined`. The same holds for the options chart.
- Text.Lower, Text.Upper, Text.Trim: ASCII only. `toLowerCase`/`upper()`/`lower()` map only `A`–`Z`/`a`–`z`, and the white space is space, tab, line feed, vertical tab, form feed and carriage return. JavaScript's Unicode case mapping and trimming, and Python's `str.isspace` extras, are not modelled.
- BudgetAnalysis.SlugifyEmpty: states emptiness in terms of ASCII letters and digits. This is the model's ASCII `toLowerCase`: non-ASCII capitals that JavaScript lower-cases into `a`–`z` are not modelled.
- BudgetAnalysis.HeadingAnchor: takes the heading's text directly. React's `String(children)` of non-string children is not modelled.
- PostCard.GetExcerpt: `maxLength` is a natural number, and lengths count characters rather than UTF-16 code units.
- Data: the two post bodies are cut to their opening line, since no operation depends on their text. `getAuthor` and `getPostsWithAuthors` take the author and post lists as parameters.
- Data.PostsWithAuthors: requires every post's author to exist (`AuthorsResolve`), the condition the source's non-null assertion `!` takes for granted. The joined entry is a pair of post and author rather than an object spread.
- ParseFy2027.ParseFloat: reads a decimal literal with an optional sign and returns no amount for anything else. Python's `float()` also accepts exponents, `inf`, `nan`, digit underscores and non-ASCII decimal digits. It also rounds a decimal too small for a double to `0.0`, so the script would skip such a line as zero, while the model keeps its exact nonzero value.
- ParseFy2027.ExactKeyIsHeader: states that an exact key is a header, not that both lookups return the same section. The shipped keys are distinct up to case, so they do.
- ParseFy2027: reading and writing files, the CSV reader and writer, the final `print` and the per-section summary totals are I/O and are not modelled. The rows are given as lists of cells.
- ParseFy2027.FindHeader: the source first tests membership in the upper-cased key list and then searches for the first matching key. Both scan the same keys, so the model does it in one search.
- ParseFy2027.ProcessRow: the `len(row) > k` guards are always true after the `len(row) < 5` test, and the model reads the four amount cells directly.
