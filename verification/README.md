# Finance and disclosure PDF text to tables — a Dafny model

This project models the parsing core of a set of scripts. They turn the text of
campaign-finance reports and financial-disclosure forms into tables. Dafny then
proves what that core promises.

- **Federal financial disclosures** (`disclosure_parser/split_schedules.py`).
  A page is a list of positioned words `(text, x0, top)`.
  - A header finder locates the row of column headings of Schedule A to F. It
    reads off where each column starts.
  - A page segmenter walks the words below the header, top to bottom. It puts
    each word into the column under which it stands. A classifier can move a
    Schedule A or B word to the column its text belongs to. Rows open and
    close by vertical distance, and the walk stops at the next schedule's
    heading.
  - A consolidator folds continuation rows into the record they continue.
  - Header rows of extracted tables are recognised by `identify_schedule`.
  - Modules: `DisclosureTokens` (cleaning and token classifiers),
    `DisclosureLayout` (sorting, header finders, column assignment),
    `DisclosurePages` (segmenters), `DisclosureConsolidation` (consolidators).
- **Arizona campaign-finance reports** (`az_report_parser.py`).
  - `AzReport` holds the line tests, the decimal parser, the currency
    formatter and the name and label splitters.
  - `AzEntries` holds the two regex searches and `_build_entry`. It also holds
    `parse_contributions`, which groups lines into contributor blocks, and
    `_split_vendor_entries`, which cuts an expenditure schedule into vendor
    entries.
- **Compiled PDF text** (`finance_pipeline/compile_pdf_to_csv.py`).
  - `CompilePdf` holds the small line splitters: amount, date, city/state/zip,
    employer, and name collection.
  - `DocumentParsing.DocumentParser` is the line-walking state machine. It has
    a cursor, the current page, schedule and part, and a result list per
    kind of entry. Its part readers build one contribution or expenditure
    entry each.
- **Alaska POFD reports** (`alaska_project/process_pofd_reports.py`).
  `AlaskaPofd` covers cell cleaning, the amount-bounds parser, the rental
  appendix extractor and the default header lookup.
- **CSV to workbook** (`finance_pipeline/csv_to_workbook.py`). `CsvWorkbook`
  covers sheet-name sanitising and the choice of a unique sheet name.
- **Pennsylvania TXT export** (`pa_txt_parser.py`). `PaText` covers dropping
  blank rows and padding ragged rows.
- **Shared pieces.** `Text` holds ASCII character classes, strip, split on
  whitespace, join, substring search and decimal digits. `Optional` holds
  `Option`.

Strings are sequences of characters. Whitespace is the ASCII set that
Python's `str.isspace` accepts. Word positions and decimal amounts are exact
`real`s. Each regular expression of the core is a hand-written matcher, and
its comment explains why backtracking finds nothing else.

## Model

| member | source | states |
|---|---|---|
| DisclosureTokens.Clean | disclosure_parser/split_schedules.py:251-257 | the cleaned cell is stripped, has single spaces only and holds no NUL or NBSP; its words are the words of the input once NUL and NBSP are spaces |
| DisclosureTokens.CleanCell | disclosure_parser/split_schedules.py:251-257 | a missing cell cleans to "" and any cell cleans to a stripped single-spaced string |
| DisclosureTokens.CleanIdempotent | disclosure_parser/split_schedules.py:251-257 | cleaning a cleaned cell changes nothing |
| DisclosureTokens.NormaliseWordText | disclosure_parser/split_schedules.py:260-261 | the normalised text has no surrounding whitespace; NUL becoming a space is the only other change |
| DisclosureTokens.SlashDateIsDateToken | disclosure_parser/split_schedules.py:363-377 | every m/d/yy..yyyy date, with or without a trailing comma or period, is a date token |
| DisclosureTokens.IsoDateIsDateToken | disclosure_parser/split_schedules.py:363-377 | every yyyy-m-d date is a date token |
| DisclosureTokens.DollarFigureIsAmount | disclosure_parser/split_schedules.py:198-243 | a `$` followed by digits is a value token and an income amount token, and by the definition of `is_transaction_amount_token` at lines 638-667 also a transaction amount token |
| DisclosureTokens.RangeIndicatorIsValue | disclosure_parser/split_schedules.py:172-243 | every range indicator (connector, over/under/between phrase) is a value token |
| DisclosureTokens.ClassifiersIgnorePadding | disclosure_parser/split_schedules.py:198-243 | the value and income amount tests, and the transaction amount, transaction type and date tests at lines 638-682 and 363-377, give the same answer on a word and on the word stripped |
| DisclosureTokens.ValueIsIncomeAmount | disclosure_parser/split_schedules.py:198-210 | every value token is an income amount token |
| DisclosureTokens.NotApplicableIncomeOnly | disclosure_parser/split_schedules.py:169 | "not applicable" is an income amount token but no value token |
| DisclosureTokens.CapitalGainFlagAnyCase | disclosure_parser/split_schedules.py:380-385 | a stripped word whose lower-case form is yes, no, n/a, na or none is a capital-gain flag in any letter case; `is_capital_gain_flag` is defined but never called in the source |
| DisclosureTokens.OwnerCodeAnyCase | disclosure_parser/split_schedules.py:213-220 | a word whose upper-case form is an owner code is an owner token, and so is its lower-case form |
| DisclosureTokens.IncomeKeywordAnyCase | disclosure_parser/split_schedules.py:246-248 | any text holding an income keyword, in any letter case, is an income type token |
| DisclosureTokens.TxKeywordAnyCase | disclosure_parser/split_schedules.py:670-682 | any stripped text holding a transaction keyword, in any letter case, is a transaction type token |
| DisclosureTokens.ScheduleAFragmentIsScheduleB | disclosure_parser/split_schedules.py:410-417 | every Schedule A description fragment is also a Schedule B description fragment, whose test at lines 628-635 accepts a superset of the labels |
| DisclosureTokens.NoiseRowIff | disclosure_parser/split_schedules.py:388-406 | a Schedule B row is noise exactly when its cleaned asset cell is non-empty and holds no run of three letters |
| DisclosureTokens.NormaliseHeader | disclosure_parser/split_schedules.py:1774-1777 | the normalised header keeps only non-empty labels, each already clean, and is no longer than the row |
| DisclosureTokens.NormaliseCleanLabels | disclosure_parser/split_schedules.py:1774-1777 | a row of non-empty clean labels normalises to itself |
| DisclosureTokens.NormaliseHeaderIdempotent | disclosure_parser/split_schedules.py:1774-1777 | normalising a normalised header changes nothing |
| DisclosureTokens.IdentifiesOwnColumns | disclosure_parser/split_schedules.py:1779-1802 | every schedule's own column headings identify that schedule, although the tests run in the order A, B, C, D, E, F, H, G, I |
| DisclosureTokens.IdentifyIgnoresCase | disclosure_parser/split_schedules.py:1779-1802 | the schedule identified does not change when the headings are lower-cased first |
| DisclosureTokens.IdentifiesA | disclosure_parser/split_schedules.py:1783-1784 | Schedule A's headings contain asset, value of asset and income type(s) |
| DisclosureTokens.IdentifiesB | disclosure_parser/split_schedules.py:1785-1786 | Schedule B's headings pass no earlier test and contain tx. type |
| DisclosureTokens.IdentifiesC | disclosure_parser/split_schedules.py:1787-1788 | Schedule C's headings pass no earlier test and are exactly source, type and amount |
| DisclosureTokens.IdentifiesD | disclosure_parser/split_schedules.py:1789-1790 | Schedule D's headings pass no earlier test and contain amount of liability |
| DisclosureTokens.IdentifiesE | disclosure_parser/split_schedules.py:1791-1792 | Schedule E's headings pass no earlier test and contain name of organization |
| DisclosureTokens.IdentifiesF | disclosure_parser/split_schedules.py:1793-1794 | Schedule F's headings pass no earlier test and contain terms of agreement |
| DisclosureTokens.IdentifiesH | disclosure_parser/split_schedules.py:1795-1796 | Schedule H's headings pass no earlier test and contain the H keywords |
| DisclosureTokens.IdentifiesG | disclosure_parser/split_schedules.py:1797-1798 | Schedule G's headings pass no earlier test, including H's, and contain description, value and source |
| DisclosureTokens.IdentifiesI | disclosure_parser/split_schedules.py:1799-1800 | Schedule I's headings pass no earlier test and contain payee and date(s) |
| DisclosureLayout.ColumnNames | disclosure_parser/split_schedules.py:24-34 | each schedule kind has exactly as many column names as its segmenter fills |
| DisclosureLayout.SortWordsSorted | disclosure_parser/split_schedules.py:552-553 | sorting words by top, or by top then x0, gives a sorted permutation of the words |
| DisclosureLayout.ColumnLimits | disclosure_parser/split_schedules.py:524-541 | one limit per column boundary, each a column start less its margin |
| DisclosureLayout.AssignColumn | disclosure_parser/split_schedules.py:524-541 | a word goes to the first column whose limit lies to its right, or the last column; every earlier limit is at or left of it |
| DisclosureLayout.AssignColumnMonotone | disclosure_parser/split_schedules.py:524-541 | a word further right never lands in an earlier column |
| DisclosureLayout.MinX | disclosure_parser/split_schedules.py:473-487 | the least left edge of the header-line words passing a test exists exactly when such a word exists |
| DisclosureLayout.MinXAttained | disclosure_parser/split_schedules.py:473-487 | that least left edge belongs to a matching word |
| DisclosureLayout.MinXLeast | disclosure_parser/split_schedules.py:473-487 | no matching word lies left of that least left edge |
| DisclosureLayout.MatchingXs | disclosure_parser/split_schedules.py:488-495 | the left edges of the income headings are empty exactly when no heading matches |
| DisclosureLayout.SortReals | disclosure_parser/split_schedules.py:488-495 | sorting the income headings' left edges gives them in ascending order, as a permutation |
| DisclosureLayout.InsertReal | disclosure_parser/split_schedules.py:488-495 | inserting a number adds exactly one copy of it and nothing else |
| DisclosureLayout.InsertRealAscending | disclosure_parser/split_schedules.py:488-495 | inserting into an ascending sequence keeps it ascending |
| DisclosureLayout.HeaderAt | disclosure_parser/split_schedules.py:470-519 | a header found on a qualifying line has that line's top and one start per column; Schedules C, E and F always find one |
| DisclosureLayout.FirstAnchor | disclosure_parser/split_schedules.py:460-469 | the index of the first word, in top order, that is an anchor with every required heading on its line |
| DisclosureLayout.FindHeader | disclosure_parser/split_schedules.py:459-521 | a found header has one start per column |
| DisclosureLayout.FindHeaderTopmost | disclosure_parser/split_schedules.py:459-521 | no qualifying anchor gives no header; a found header lies on the topmost qualifying anchor's line; Schedules C, E and F always find it |
| DisclosurePages.Least | disclosure_parser/split_schedules.py:545-550 | the cutoff is absent only for no marker, and otherwise is a marker top no greater than any other |
| DisclosurePages.MarkerTopsExactly | disclosure_parser/split_schedules.py:545-549 | a top edge is collected exactly when some marker word has it |
| DisclosurePages.CutoffIsHighestMarker | disclosure_parser/split_schedules.py:545-550 | there is a cutoff exactly when some word is a marker of the next schedule, and it is the top of a marker word with no marker word above it |
| DisclosurePages.WordActionLinksAndStops | disclosure_parser/split_schedules.py:567-575 | a word starting with https:// is skipped on every schedule, and only Schedule A ever stops at a word |
| DisclosurePages.DataWords | disclosure_parser/split_schedules.py:552 | every word kept lies below the given line, the header's top plus the schedule's margin |
| DisclosurePages.RouteA | disclosure_parser/split_schedules.py:577-587 | a Schedule A word keeps its column or goes to the asset column; it lands in owner, value, income type, income or tx only if its text is that kind of token |
| DisclosurePages.RouteB | disclosure_parser/split_schedules.py:925-964 | a Schedule B word lands in owner, date, type or amount only if its text is that kind of token, and in the gains column only if it stood there |
| DisclosurePages.Route | disclosure_parser/split_schedules.py:925-964 | a Schedule B description fragment goes to the asset column; Schedules C to F route by position alone |
| DisclosurePages.TurnOf | disclosure_parser/split_schedules.py:561-587 | a word at or below the cutoff less one halts the walk; a placed word keeps its top and its non-empty normalised text |
| DisclosurePages.Turns | disclosure_parser/split_schedules.py:559-596 | the walk decides each word independently, and every placement names a real column |
| DisclosurePages.PlaceJoins | disclosure_parser/split_schedules.py:588-596 | a word within tolerance of the open row's top joins that row's cell; otherwise the open row is closed and a fresh row opens at the word's top |
| DisclosurePages.PageRowsShape | disclosure_parser/split_schedules.py:598-601 | every segmented row has one cell per column |
| DisclosurePages.BuildRows | disclosure_parser/split_schedules.py:555-601 | the loop yields the rows the fold of the turns closes |
| DisclosurePages.SegmentPage | disclosure_parser/split_schedules.py:544-601 | the segmented rows of a page, and whether the next schedule's marker was reached |
| DisclosurePages.CutByMarker | disclosure_parser/split_schedules.py:561-562 | with the words in reading order, cutting at the marker equals segmenting only the words above cutoff less one |
| DisclosurePages.WindowDecides | disclosure_parser/split_schedules.py:552-562 | the rows of a page with a marker depend only on the data words above the marker line |
| DisclosurePages.KeepFilled | disclosure_parser/split_schedules.py:610 | only rows with a non-empty cell are kept, each one of the input rows |
| DisclosurePages.MergeStepJoins | disclosure_parser/split_schedules.py:603-608 | folding a row into the previous one extends the asset text by a new line holding the row's asset |
| DisclosurePages.MergeKeepsAssetText | disclosure_parser/split_schedules.py:603-608 | merging label rows loses no asset text and adds no row |
| DisclosurePages.MergeLabelRows | disclosure_parser/split_schedules.py:603-608 | the loop yields the merged rows the fold defines |
| DisclosurePages.FilterScheduleB | disclosure_parser/split_schedules.py:981-995 | every kept Schedule B row is one of the input rows, has six cells and passes the keep test |
| DisclosurePages.TidyShape | disclosure_parser/split_schedules.py:603-610 | tidied rows keep the column count and are all filled |
| DisclosurePages.ParseSchedulePage | disclosure_parser/split_schedules.py:544-611 | the page's rows are the tidied segmented rows, each with one cell per column and filled; the marker counts as reached exactly when a non-zero cutoff exists |
| DisclosureConsolidation.Fit | disclosure_parser/split_schedules.py:1007 | a row padded or cut to the column count keeps its first cells and fills the rest with "" |
| DisclosureConsolidation.AppendKeeps | disclosure_parser/split_schedules.py:1022-1041 | appending a piece to a cell keeps the old text as a prefix, keeps every substring, and contains the piece |
| DisclosureConsolidation.MergeCovers | disclosure_parser/split_schedules.py:1022-1041 | merging a continuation row keeps the record covering its opener's cells |
| DisclosureConsolidation.ReplayTracks | disclosure_parser/split_schedules.py:999-1046 | the replayed records correspond one to one to the opening rows and cover them |
| DisclosureConsolidation.ReplayKeepsCells | disclosure_parser/split_schedules.py:999-1046 | every cell the role of its row carries ends up in some record's same column |
| DisclosureConsolidation.Joints | disclosure_parser/split_schedules.py:1022-1041 | how each schedule joins a continuation cell; Schedule A's value column is kept from the opener |
| DisclosureConsolidation.OpensRecordIff | disclosure_parser/split_schedules.py:1403-1410 | a Schedule D row opens a record exactly when owner, creditor or date is filled, or no record is open |
| DisclosureConsolidation.RoleOf | disclosure_parser/split_schedules.py:1010-1020 | a row joins a record only when one is open |
| DisclosureConsolidation.RolesJoinAfterOpen | disclosure_parser/split_schedules.py:999-1046 | no row joins before the first opener |
| DisclosureConsolidation.DropNoise | disclosure_parser/split_schedules.py:1107 | every record kept is one of the records and is not a noise row |
| DisclosureConsolidation.Consolidate | disclosure_parser/split_schedules.py:999-1046 | the loop yields the records the replay of the roles defines |
| DisclosureConsolidation.Absorb | disclosure_parser/split_schedules.py:1010-1041 | one row is applied to the open record under the role it has |
| DisclosureConsolidation.ConsolidatedShape | disclosure_parser/split_schedules.py:999-1046 | every consolidated record has one cell per column |
| DisclosureConsolidation.RecordsFollowOpeners | disclosure_parser/split_schedules.py:999-1046 | there is one record per opening row, and each covers its opener's cells |
| DisclosureConsolidation.RecordsKeepCells | disclosure_parser/split_schedules.py:1022-1041 | every carried cell appears in a record's same column |
| DisclosureConsolidation.NothingLost | disclosure_parser/split_schedules.py:1392-1439 | in Schedules D, E and F every non-empty cell of every row appears in some record's same column |
| DisclosureConsolidation.OpensExactly | disclosure_parser/split_schedules.py:1392-1439 | a Schedule D row opens a record exactly when it is the first row or owner, creditor or date is filled; a Schedule E or F row exactly when it is first or filled |
| DisclosureConsolidation.RecordsHaveValues | disclosure_parser/split_schedules.py:1010-1017 | every Schedule A record has a value of asset |
| DisclosureConsolidation.LeadingRowsDropped | disclosure_parser/split_schedules.py:1010-1020 | every Schedule A row before the first row with a value is dropped and that row opens the first record, so the records equal those of the rows from it on; a table with no value gives none |
| DisclosureConsolidation.RecordsSkipDropped | disclosure_parser/split_schedules.py:1006-1020 | leading rows that are dropped (`if not current: continue`) leave the records unchanged |
| DisclosureConsolidation.DropNoiseKeeps | disclosure_parser/split_schedules.py:1107 | no record that is not noise is dropped |
| DisclosureConsolidation.ScheduleBClean | disclosure_parser/split_schedules.py:1049-1107 | a record is in Schedule B's output exactly when it is consolidated and its asset cell is blank or holds a letter run |
| AzReport.NameLineTwoPieces | az_report_parser.py:63-70 | a line is a contributor name line exactly when it has no colon and no digit and a comma cuts it into two pieces |
| AzReport.ParseBlank | az_report_parser.py:73-91 | a blank amount parses to nothing |
| AzReport.ParsePlain | az_report_parser.py:73-91 | a stripped amount without `$` or comma is read as it stands, sign and parentheses included |
| AzReport.RoundHalfEven | az_report_parser.py:94-101 | rounding stays within a half and keeps whole numbers |
| AzReport.TwoDigits | az_report_parser.py:94-101 | the cents are written as exactly two digits of their value |
| AzReport.FormatCurrency | az_report_parser.py:94-101 | the formatted amount is stripped and holds no `$` or comma |
| AzReport.FormatThenParse | az_report_parser.py:73-101 | parsing the formatted amount gives back the amount rounded half-even to a cent, with its sign |
| AzReport.CurrencyRoundTrip | az_report_parser.py:73-101 | an amount in whole cents survives formatting and parsing unchanged |
| AzReport.FormatWithinHalfCent | az_report_parser.py:73-101 | the formatted amount parses to within half a cent of the amount |
| AzReport.CentsParse | az_report_parser.py:73-101 | a count of cents written with two decimals parses to its value |
| AzReport.NegativeCentsParse | az_report_parser.py:73-101 | the parenthesised form of a cents count parses to its negation |
| AzReport.NegativeForms | az_report_parser.py:77-91 | parentheses and a leading minus both negate the parsed literal |
| AzReport.ParenthesisedForm | az_report_parser.py:78-80 | a parenthesised literal parses to the negated literal |
| AzReport.MinusForm | az_report_parser.py:81-83 | a literal after a minus parses to the negated literal |
| AzReport.SplitName | az_report_parser.py:104-108 | each side is absent or non-empty and stripped; without a comma the whole stripped value is the first part; the first part holds no comma |
| AzReport.SplitNameOfJoined | az_report_parser.py:104-108 | "Last, First" splits back into Last and First |
| AzReport.SplitOccupationEmployer | az_report_parser.py:111-117 | an empty value splits into two absent parts |
| AzReport.OccupationSplitIsNameSplit | az_report_parser.py:104-117 | the occupation and employer split is the name split |
| AzReport.ExtractLabelValue | az_report_parser.py:120-132 | a line without the label gives nothing; a value found is non-empty and stripped |
| AzReport.LabelValueAbsent | az_report_parser.py:120-132 | with the label present, there is no value exactly when both sides of it are blank |
| AzReport.LabelValueWords | az_report_parser.py:120-132 | the value's words are the words before the label followed by the words after it |
| AzReport.VendorLineWithoutDateTest | az_report_parser.py:135-142 | a line looks like a vendor line exactly when it is non-empty, has no colon and does not start with `$`; the date test never decides |
| AzReport.DateNameLineHasColon | az_report_parser.py:26 | every line the date and name pattern matches contains a colon |
| AzEntries.DollarFrom | az_report_parser.py:24 | the lazy search finds the first `$` and amount from a position, before any line break |
| AzEntries.DateAmountAt | az_report_parser.py:24 | a match starting at a date exists exactly when a `$` and amount follow on the same line; it yields that date and an amount |
| AzEntries.DateAmountSearch | az_report_parser.py:24 | a found date and amount are a dd/dd/dddd date and an amount text |
| AzEntries.DateAmountSearchComplete | az_report_parser.py:24 | the search finds something exactly when a match starts somewhere in the line |
| AzEntries.DateAmountFromLeftmost | az_report_parser.py:24 | the search returns the leftmost match |
| AzEntries.ZipAt | az_report_parser.py:25 | a zip found at a position is a prefix of the text and has 3 to 5 digits, optionally with a dash and 4 digits |
| AzEntries.StateZipAt | az_report_parser.py:25 | a match is a two-letter state code and a zip |
| AzEntries.StateZipSearch | az_report_parser.py:25 | the search finds a state code and zip, or no position matches |
| AzEntries.ZFill5 | az_report_parser.py:651-657 | padding to five ends with the original text and is five long unless already longer |
| AzEntries.PadZipOfZip | az_report_parser.py:651-657 | a padded zip has five leading digits of the same value and keeps its `-dddd` suffix |
| AzEntries.PadHyphenatedZip | az_report_parser.py:651-657 | a hyphenated zip is padded on its digit part and keeps its four-digit suffix |
| AzEntries.PadDigits | az_report_parser.py:651-657 | a plain 3-to-5-digit zip is zero-filled to five digits of the same value |
| AzEntries.FirstDateLine | az_report_parser.py:631-638 | the first line from a position on which the date and amount search succeeds, or none when no line does |
| AzEntries.FindDateLine | az_report_parser.py:631-638 | the loop finds that first line |
| AzEntries.ReadAddress | az_report_parser.py:640-657 | no address lines give no address; otherwise line 1 is the first part of the first line, the full address joins all lines, and state and zip come from the search |
| AzEntries.ReadDetails | az_report_parser.py:670-684 | the loop collects the details the scan defines |
| AzEntries.BuildEntry | az_report_parser.py:622-712 | the entry built from a block is the one the block defines |
| AzEntries.BuildEntryAt | az_report_parser.py:640-709 | the entry built around a date line is the one the block defines there |
| AzEntries.EntryPresence | az_report_parser.py:622-638 | a block yields an entry exactly when one of its lines has a date and an amount |
| AzEntries.EntryZipPadded | az_report_parser.py:651-657 | an entry's zip code always has five leading digits |
| AzEntries.TotalIsFirst | az_report_parser.py:670-674 | the total to date is the amount of the first total line |
| AzEntries.NoTypeLine | az_report_parser.py:670-684 | without a "Trans. Type:" line the entry has no transaction type |
| AzEntries.DisplayWithoutType | az_report_parser.py:686-693 | without a type line a negative amount is a "Refunded Contribution" and anything else a "Contribution" |
| AzEntries.StopIndex | az_report_parser.py:346-350 | the schedule ends at the first line starting with a total marker, or at the end |
| AzEntries.ParseContributions | az_report_parser.py:340-364 | the entries are those built from the contributor groups of the lines before the schedule end |
| AzEntries.AddEntry | az_report_parser.py:352-362 | a group adds its entry when it has one |
| AzEntries.GroupingStep | az_report_parser.py:352-357 | a name line closes a non-empty open group and opens a new one; any other line joins the open group |
| AzEntries.EntriesOfAppend | az_report_parser.py:352-362 | one more group adds at most its own entry, at the end |
| AzEntries.GroupingShape | az_report_parser.py:352-362 | the running grouping keeps every line in order, with name lines only at group heads |
| AzEntries.GroupsShape | az_report_parser.py:352-362 | the groups concatenate back to the lines; each group is non-empty; every group after the first starts with a name line; no name line lies inside a group |
| AzEntries.SplitVendorEntries | az_report_parser.py:366-417 | the entries' lines are a prefix of the lines, and the split stops right after it: at the end, at a total line, or at a name whose address is not followed by a date line; each entry is a name, the address lines up to its date line, the date line and the details, which run up to a total line or the start of the next entry |
| AzEntries.ReadVendorEntry | az_report_parser.py:369-412 | an entry is read exactly when the line is not a total and a date line follows the address; the entry is well formed and ends at a total or the next entry |
| AzEntries.AddressEnd | az_report_parser.py:377-385 | the address ends at a date line, a total or a detail label, or the end |
| AzEntries.ReadVendorAddress | az_report_parser.py:376-385 | the address lines are the lines up to that end, and none is a date line, a total or a detail label |
| AzEntries.ReadVendorDetails | az_report_parser.py:393-410 | the details run to the first total line or the start of the next entry |
| AzEntries.EndsDetails | az_report_parser.py:396-408 | the details stop at a total line or where the lookahead finds the next entry |
| AzEntries.LookaheadFrom | az_report_parser.py:399-406 | the lookahead stops at the first date line, total line or line with a colon |
| AzEntries.Lookahead | az_report_parser.py:399-406 | the loop finds that stopping point |
| AzEntries.EntryWellFormed | az_report_parser.py:372-417 | an entry read this way, whose details stop at a total line or the start of the next entry, is well formed at its start |
| AzEntries.AppendEntryLines | az_report_parser.py:366-417 | appending a well-formed entry keeps the entries a contiguous prefix of the lines |
| CompilePdf.AmountAt | finance_pipeline/compile_pdf_to_csv.py:35-37 | an amount matched at a position follows `$ ` there and has digits or commas, a point and two digits |
| CompilePdf.AmountFrom | finance_pipeline/compile_pdf_to_csv.py:35-37 | the leftmost position from which an amount matches, or none |
| CompilePdf.ParseAmount | finance_pipeline/compile_pdf_to_csv.py:35-37 | the result is "" or an amount text, and "" exactly when no position matches |
| CompilePdf.AmountAfterDollar | finance_pipeline/compile_pdf_to_csv.py:35-37 | text with no earlier `$` parses to the amount after its first `$ ` |
| CompilePdf.AmountRightAfterDollar | finance_pipeline/compile_pdf_to_csv.py:35-37 | an amount written after `$ ` matches there |
| CompilePdf.DateAt | finance_pipeline/compile_pdf_to_csv.py:45 | a date matched at a position has 1-2 digit month and day and a 4-digit year |
| CompilePdf.DateFrom | finance_pipeline/compile_pdf_to_csv.py:45 | the leftmost position at which a date matches, or none |
| CompilePdf.ParseDateTokens | finance_pipeline/compile_pdf_to_csv.py:40-49 | the result is three empty strings or a well-shaped month, day and year |
| CompilePdf.ParseDateTokensNone | finance_pipeline/compile_pdf_to_csv.py:40-49 | the result is empty exactly when no position matches |
| CompilePdf.DateTokensOfWritten | finance_pipeline/compile_pdf_to_csv.py:40-49 | "m d yyyy" parses back to m, d and yyyy |
| CompilePdf.FullDate | finance_pipeline/compile_pdf_to_csv.py:332 | a line that is a whole date yields a well-shaped date ending at the end of the line |
| CompilePdf.FullDateWords | finance_pipeline/compile_pdf_to_csv.py:332-333 | such a line splits into exactly month, day and year |
| CompilePdf.PageTimestampOfWritten | finance_pipeline/compile_pdf_to_csv.py:21-23 | every "m/d/yyyy h:mm:ss AM" or "PM" stamp, with one- or two-digit month, day and hour, is a page timestamp |
| CompilePdf.LastStateLabel | finance_pipeline/compile_pdf_to_csv.py:70 | the last `State` label before a position, with whitespace around it |
| CompilePdf.CityStateMatch | finance_pipeline/compile_pdf_to_csv.py:70-72 | a match needs a line starting with City and a State label, and gives a stripped city and rest |
| CompilePdf.CityStateOfWritten | finance_pipeline/compile_pdf_to_csv.py:70-72 | "City c State r", with one-word c and r, gives back c and r |
| CompilePdf.ZipScanIsFirstZip | finance_pipeline/compile_pdf_to_csv.py:93-105 | the token loop keeps the first zip code, skips placeholders before it and keeps every other token stripped, in order |
| CompilePdf.FirstZipAppend | finance_pipeline/compile_pdf_to_csv.py:93-105 | one more token is skipped, taken as the zip or kept, by the loop's three cases |
| CompilePdf.CityStateZipOf | finance_pipeline/compile_pdf_to_csv.py:52-109 | a line not starting with City is all trailing text; a state value is a two-letter code, a zip value a zip code, a state label `State` |
| CompilePdf.ScanZipTokens | finance_pipeline/compile_pdf_to_csv.py:93-105 | the loop computes the zip scan |
| CompilePdf.SplitCityStateZip | finance_pipeline/compile_pdf_to_csv.py:52-109 | the method computes the split the specification function defines |
| CompilePdf.ParseStateZipLine | finance_pipeline/compile_pdf_to_csv.py:112-122 | no tokens give two empties; otherwise the first token is the state and the rest, joined, the zip |
| CompilePdf.StateZipTokens | finance_pipeline/compile_pdf_to_csv.py:112-122 | state and zip together hold exactly the tokens of the line |
| CompilePdf.FirstStateToken | finance_pipeline/compile_pdf_to_csv.py:141-144 | the first two-capital-letter token, or none |
| CompilePdf.ParseEmployerAddressLine | finance_pipeline/compile_pdf_to_csv.py:134-154 | without a usable state token the whole text is the description; otherwise city, state, zip and description are the tokens before, at, after and beyond it |
| CompilePdf.ParseStateZipDescriptionLine | finance_pipeline/compile_pdf_to_csv.py:157-167 | a line without tokens gives three empties |
| CompilePdf.StateZipDescriptionTokens | finance_pipeline/compile_pdf_to_csv.py:157-167 | state, zip and description together hold exactly the tokens of the line, the state first |
| CompilePdf.EmployerPrefix | finance_pipeline/compile_pdf_to_csv.py:127 | the employer heading is absent, `Employer Name` or `Employer of Contributor` |
| CompilePdf.FirstOccupation | finance_pipeline/compile_pdf_to_csv.py:127 | the lazy group ends at the first whitespace-Occupation-whitespace |
| CompilePdf.ParseEmployerLine | finance_pipeline/compile_pdf_to_csv.py:125-131 | both parts are stripped; a line without the heading gives two empties |
| CompilePdf.EmployerLineRoundTrip | finance_pipeline/compile_pdf_to_csv.py:125-131 | a line written from an employer without the word Occupation and an occupation parses back to both |
| CompilePdf.NameEnd | finance_pipeline/compile_pdf_to_csv.py:170-184 | the name stops at the first non-blank line starting with a stop token, or the end |
| CompilePdf.NameParts | finance_pipeline/compile_pdf_to_csv.py:170-184 | the name parts are non-empty, stripped and start with no stop token |
| CompilePdf.NamePartsBeforeStop | finance_pipeline/compile_pdf_to_csv.py:170-184 | the name parts are exactly the non-blank cleaned lines before the stop |
| CompilePdf.CollectName | finance_pipeline/compile_pdf_to_csv.py:170-184 | the loop joins those parts with spaces and stops at that line |
| CompilePdf.PythonIntOfNat | finance_pipeline/compile_pdf_to_csv.py:251-252 | `int` reads back every number written in decimal |
| CompilePdf.PageNumber | finance_pipeline/compile_pdf_to_csv.py:249-255 | a PAGE line without a second token, or whose second token is not an integer, gives page 0 |
| CompilePdf.PageNumberOfHeader | finance_pipeline/compile_pdf_to_csv.py:249-255 | "PAGE n" gives page n |
| CompilePdf.PartNameOfHeader | finance_pipeline/compile_pdf_to_csv.py:262-270 | a PART line's part is its second word |
| DocumentParsing.SkipLabel | finance_pipeline/compile_pdf_to_csv.py:435-436 | a label line is skipped only when it starts with that label |
| DocumentParsing.BucketNotHeader | finance_pipeline/compile_pdf_to_csv.py:241-311 | a line that opens a record is never a blank, PAGE, SCHEDULE or PART line, so the header tests never hide a record; Schedule III records open exactly on a To Whom Paid line under SCHEDULE III, and Part G records only under SCHEDULE II and PART G |
| DocumentParsing.LineDate | finance_pipeline/compile_pdf_to_csv.py:330-334 | a line gives a date exactly when it is a whole date |
| DocumentParsing.Merge | finance_pipeline/compile_pdf_to_csv.py:490-495 | a date already known is kept, otherwise the line's date is taken |
| DocumentParsing.FillDate | finance_pipeline/compile_pdf_to_csv.py:338-342 | a known date is kept, an unknown one is read from the text |
| DocumentParsing.ReceiptDescription | finance_pipeline/compile_pdf_to_csv.py:573-575 | the description is the stripped text after the `Receipt Description` label |
| DocumentParsing.FirstNonBlank | finance_pipeline/compile_pdf_to_csv.py:738-741 | the first non-blank line from a position, or the end |
| DocumentParsing.FirstNonBlankUnique | finance_pipeline/compile_pdf_to_csv.py:738-741 | any position with only blank lines before it and a non-blank line or the end there is that first line |
| DocumentParsing.DescriptionEnd | finance_pipeline/compile_pdf_to_csv.py:700-719 | the description's continuation stops at the first non-blank line that opens the next field or page |
| DocumentParsing.Continuations | finance_pipeline/compile_pdf_to_csv.py:700-719 | every continuation is non-empty, stripped and does not end the description |
| DocumentParsing.ContinuationsBeforeEnd | finance_pipeline/compile_pdf_to_csv.py:700-719 | the continuations are exactly the non-blank cleaned lines before that stop |
| DocumentParsing.ExtendAllJoins | finance_pipeline/compile_pdf_to_csv.py:700-719 | extending a description line by line equals joining it and the continuations with spaces |
| DocumentParsing.DocumentParser.constructor | finance_pipeline/compile_pdf_to_csv.py:225-239 | a new parser is at line 0, page 0, no schedule or part, with every result list empty |
| DocumentParsing.DocumentParser.SkipBlankLines | finance_pipeline/compile_pdf_to_csv.py:738-741 | the loop stops at the first non-blank line |
| DocumentParsing.DocumentParser.ReadDescription | finance_pipeline/compile_pdf_to_csv.py:700-719 | the description is the first text joined with all continuation lines, stopping where the description ends |
| DocumentParsing.DocumentParser.DescriptionStep | finance_pipeline/compile_pdf_to_csv.py:701-719 | one line either ends the description or moves on while keeping the final description the same |
| DocumentParsing.DocumentParser.ReadName | finance_pipeline/compile_pdf_to_csv.py:321-323 | the name is the collected name after the heading, and the cursor moves forward |
| DocumentParsing.DocumentParser.ReadCityAndState | finance_pipeline/compile_pdf_to_csv.py:336-347 | the place is the city of the city line with the state and zip of the next line; a missing date is read from the city line's trailing text, a known one is kept, and the date stays well shaped |
| DocumentParsing.DocumentParser.ReadPlace | finance_pipeline/compile_pdf_to_csv.py:496-503 | the place is the city of the city line with the state and zip of the next line |
| DocumentParsing.DocumentParser.ReadEmployer | finance_pipeline/compile_pdf_to_csv.py:506-516 | employer name and occupation are what the employer line parses to, and stripped; the address is the parsed line after an optional "Employer Mailing Address" label; two or three lines are consumed |
| DocumentParsing.DocumentParser.ReadWholeDate | finance_pipeline/compile_pdf_to_csv.py:330-334 | a whole-date line replaces the date and is consumed; otherwise the date is kept; the result is well shaped |
| DocumentParsing.DocumentParser.ReadAmount | finance_pipeline/compile_pdf_to_csv.py:430-433 | the amount is what the line parses to, and the line is consumed only when it held one; the amount is empty or well shaped |
| DocumentParsing.DocumentParser.ReadMailingDate | finance_pipeline/compile_pdf_to_csv.py:613-620 | a Mailing Address line is consumed and its date kept when it has a month; the date is empty or well shaped |
| DocumentParsing.DocumentParser.ParseScheduleIPartA | finance_pipeline/compile_pdf_to_csv.py:315-365 | a Part A entry is a political-committee contribution of Schedule I on the current page: the name collected after the heading, the amount of the line that stopped it, a whole-date line after it or else the date in the city line's trailing text, the place of the city and state lines, no employer or description; next is the first non-blank line after the state line; the entry and the next line are, as a pair, the record RecordAB with part "A" and kind "Political Committee" reads at the same line |
| DocumentParsing.DocumentParser.ParseScheduleIPartB | finance_pipeline/compile_pdf_to_csv.py:367-417 | a Part B entry is an "Other" contribution of Schedule I with every field read as in Part A: name, amount, whole or trailing date, place, no employer or description; next is the first non-blank line after the state line; the entry and the next line are, as a pair, the record RecordAB with part "B" and kind "Other" reads at the same line |
| DocumentParsing.DocumentParser.ParseScheduleIPartC | finance_pipeline/compile_pdf_to_csv.py:419-473 | a Part C entry is a political-committee contribution whose name stops at an amount or address line; the amount line is consumed when it held an amount, then an optional Mailing Address label, then the date and place as in Part A; no employer or description; next is the first non-blank line after the state line; the entry and the next line are, as a pair, the record RecordC reads at the same line |
| DocumentParsing.DocumentParser.ReadDatedName | finance_pipeline/compile_pdf_to_csv.py:476-495 | the first date and the amount come from the line after the heading, the name is collected up to Mailing Address, and a whole-date line after the optional label completes the date |
| DocumentParsing.DocumentParser.CompleteDate | finance_pipeline/compile_pdf_to_csv.py:490-495 | a whole-date line completes the date and is consumed; otherwise nothing changes |
| DocumentParsing.DocumentParser.ParseScheduleIPartD | finance_pipeline/compile_pdf_to_csv.py:475-539 | a Part D entry is an "Other" contribution: date and amount from the line after the heading, completed by a whole-date line; the place of the city and state lines; employer and occupation from the next line, stripped; employer city, state and zip from the address line after an optional label; no description; next is the first non-blank line after it; the entry and the next line are, as a pair, the record RecordD reads at the same line |
| DocumentParsing.DocumentParser.ParseScheduleIPartE | finance_pipeline/compile_pdf_to_csv.py:541-595 | a Part E entry is a receipt: the amount of an optional MO DAY YEAR line, the name collected after it, the date of a whole-date line after the optional Mailing Address label, the place, the stripped text of an optional Receipt Description line, no employer; next is the first non-blank line after that; the entry and the next line are, as a pair, the record RecordE reads at the same line |
| DocumentParsing.DocumentParser.ParseScheduleIIPartG | finance_pipeline/compile_pdf_to_csv.py:597-671 | a Part G entry is an in-kind contribution of Schedule II: name up to an amount or address line, the amount, a date from a whole-date line or else from the Mailing Address line, the place, employer and occupation stripped, and the employer's city, state, zip and description from the address line after an optional label; next is the first non-blank line after it; the entry and the next line are, as a pair, the record RecordG reads at the same line |
| DocumentParsing.DocumentParser.ParseScheduleIII | finance_pipeline/compile_pdf_to_csv.py:673-736 | a Schedule III entry is an expenditure on the current page: the payee collected after the heading, date and amount from the line that stopped it, the city of an optional City line, state and zip of the next line, and a stripped description joining that line's remainder with the continuation lines; next is the first non-blank line after the description; the entry and the next line are, as a pair, the record RecordIII reads at the same line |
| DocumentParsing.DocumentParser.ReadDateLine | finance_pipeline/compile_pdf_to_csv.py:684-685 | the date and amount are what the line parses to, each empty or well shaped |
| DocumentParsing.DocumentParser.Store | finance_pipeline/compile_pdf_to_csv.py:272-311 | the entry is appended to its own result list only, and the cursor moves to the reader's next line |
| DocumentParsing.DocumentParser.ReadHeader | finance_pipeline/compile_pdf_to_csv.py:245-270 | a blank line changes nothing; PAGE sets the page; SCHEDULE sets the schedule and keeps page and part; PART sets the part; the cursor advances by one and the results stay; the new state is one Step of the old |
| DocumentParsing.DocumentParser.ReadRecord | finance_pipeline/compile_pdf_to_csv.py:272-313 | a line whose schedule, part and text claim no list is skipped by one line; a claimed line appends to the list of its key, and to no other, exactly the entry RecordAt reads for that key at that line, and the cursor moves to that record's next line; the new state is one Step of the old |
| DocumentParsing.DocumentParser.ReadEntry | finance_pipeline/compile_pdf_to_csv.py:272-311 | the entry and the next line are exactly the record RecordAt reads for the key, i.e. the result of the reader the key dispatches to, at the current line and page |
| DocumentParsing.DocumentParser.Parse | finance_pipeline/compile_pdf_to_csv.py:241-313 | the final state is Walk of the initial state: every line from the cursor to the end is handled by one Step, header or record, in order |
| DocumentParsing.RecordAB | finance_pipeline/compile_pdf_to_csv.py:315-417 | a Part A or B record starts after its heading line and is a Schedule I contribution of that part on the given page, with a well shaped amount and date |
| DocumentParsing.RecordC | finance_pipeline/compile_pdf_to_csv.py:419-473 | a Part C record starts after its heading line and is a Schedule I Part C contribution on the given page, with a well shaped amount and date |
| DocumentParsing.RecordD | finance_pipeline/compile_pdf_to_csv.py:475-539 | a Part D record starts after its heading line and is a Schedule I Part D contribution on the given page, with a well shaped amount and date |
| DocumentParsing.RecordE | finance_pipeline/compile_pdf_to_csv.py:541-595 | a Part E record starts after its heading line and is a Schedule I Part E contribution on the given page, with a well shaped amount and date |
| DocumentParsing.RecordG | finance_pipeline/compile_pdf_to_csv.py:597-671 | a Part G record starts after its heading line and is a Schedule II Part G contribution on the given page, with a well shaped amount and date |
| DocumentParsing.RecordIII | finance_pipeline/compile_pdf_to_csv.py:673-736 | a Schedule III record starts after its heading line and is an expenditure on the given page, with a well shaped amount and date |
| DocumentParsing.RecordAt | finance_pipeline/compile_pdf_to_csv.py:272-311 | the record read for a key moves past its heading line and is an entry of the kind that key's list holds, well shaped, on the given page |
| DocumentParsing.Step | finance_pipeline/compile_pdf_to_csv.py:245-313 | one step of the loop moves the cursor forward, keeps every list, and either leaves all lists alone or appends, to the one list the line's key names, the record read there |
| DocumentParsing.Walk | finance_pipeline/compile_pdf_to_csv.py:241-313 | the loop ends with the cursor at or past the last line, still holding every list |
| DocumentParsing.WalkAppendsRecords | finance_pipeline/compile_pdf_to_csv.py:241-313 | the walk only appends to each list, and every appended entry is the record that list's reader read from some line at or after the start whose key is that list |
| DocumentParsing.DocumentParser.ReadPrelimAmount | finance_pipeline/compile_pdf_to_csv.py:544-549 | the amount is what PrelimAmount computes from the line (parsed when it starts with MO DAY YEAR, else empty), and the line is consumed only in that case |
| DocumentParsing.DocumentParser.ReadReceipt | finance_pipeline/compile_pdf_to_csv.py:572-576 | the description is what ReceiptAt computes from the line (the stripped text after a Receipt Description label, else empty), and the line is consumed only in that case |
| DocumentParsing.DocumentParser.ReadCityInfo | finance_pipeline/compile_pdf_to_csv.py:687-692 | the city is what CityInfo computes from the line (the city of a line starting with City, else empty), and the line is consumed only in that case |
| AlaskaPofd.CleanCell | alaska_project/process_pofd_reports.py:47-52 | a missing cell is ""; a cell's words are kept, single-spaced |
| AlaskaPofd.FlattenValues | alaska_project/process_pofd_reports.py:60-67 | the result is the lower-cased words of all cells, single-spaced |
| AlaskaPofd.LowerJoin | alaska_project/process_pofd_reports.py:60-67 | lower-casing after joining equals joining the lower-cased pieces |
| AlaskaPofd.FlattenWords | alaska_project/process_pofd_reports.py:60-67 | the flattened string splits back into exactly its lower-cased words |
| AlaskaPofd.AmountRunLen | alaska_project/process_pofd_reports.py:70 | the number group is the maximal run of digits and commas |
| AlaskaPofd.Bounds | alaska_project/process_pofd_reports.py:119-142 | each bound is the first or the last number of the text, and a single number always gives at least one bound |
| AlaskaPofd.AmountNumbersEmpty | alaska_project/process_pofd_reports.py:86-91 | the text has no numbers exactly when it has no digit |
| AlaskaPofd.NoBounds | alaska_project/process_pofd_reports.py:77-91 | a missing amount has no bounds, an integer is both bounds, a blank or digitless text has none |
| AlaskaPofd.TextBounds | alaska_project/process_pofd_reports.py:86-142 | a text with a digit has numbers, and its bounds come from them and its phrases |
| AlaskaPofd.SingleNumberBounds | alaska_project/process_pofd_reports.py:138-140 | a lone number without range words is both bounds |
| AlaskaPofd.OrMoreBounds | alaska_project/process_pofd_reports.py:132-136 | "or more" makes the last number the lower bound with no upper bound |
| AlaskaPofd.UpperOnlyBounds | alaska_project/process_pofd_reports.py:127-130 | an upper-only phrase with one number makes it the upper bound |
| AlaskaPofd.LowerOnlyBounds | alaska_project/process_pofd_reports.py:132-136 | a lower-only phrase with one number makes it the lower bound |
| AlaskaPofd.RangeBounds | alaska_project/process_pofd_reports.py:122-125 | a range with two or more numbers runs from the first to the last |
| AlaskaPofd.UnrelatedNumbersBounds | alaska_project/process_pofd_reports.py:119-142 | several numbers without any range phrase give no bounds |
| AlaskaPofd.ExtractRentalAppendixRows | alaska_project/process_pofd_reports.py:145-189 | no rows when the table is empty, has no marker and fewer than three rental totals, or nothing to extract; otherwise the extracted rows |
| AlaskaPofd.CollectPairs | alaska_project/process_pofd_reports.py:147-155 | the loop yields exactly the cleaned (detail, amount) pairs of the table, dropping empty rows and rows whose two cells are both empty |
| AlaskaPofd.CollectAppendixRows | alaska_project/process_pofd_reports.py:170-187 | the loop yields exactly the Filer rental rows of the pairs with both cells set, other than the section title and date-range rows, in order |
| AlaskaPofd.AppendixRowsShape | alaska_project/process_pofd_reports.py:168-187 | every extracted row is a Filer rental row with non-empty detail and amount, an empty description, and a detail other than the section title |
| AlaskaPofd.AppendixRowsNonEmpty | alaska_project/process_pofd_reports.py:168-189 | one extractable pair makes the extraction non-empty |
| AlaskaPofd.NoHeaderFor | alaska_project/process_pofd_reports.py:215-218 | a schedule name no header maps to has no mapped header |
| AlaskaPofd.DefaultHeaderRoundTrip | alaska_project/process_pofd_reports.py:215-220 | a known schedule's default header maps back to that schedule; an unknown one has an empty header |
| CsvWorkbook.Substituted | finance_pipeline/csv_to_workbook.py:27-32 | no invalid character is left, and every valid character stays in place |
| CsvWorkbook.SafeSheetName | finance_pipeline/csv_to_workbook.py:30-38 | the sheet name is 1 to 31 valid characters: "Sheet" for a blank name, otherwise a prefix of the stripped substituted name, all of it when it fits |
| CsvWorkbook.SafeSheetNameFixed | finance_pipeline/csv_to_workbook.py:30-38 | a name is left unchanged exactly when it already is a safe sheet name |
| CsvWorkbook.Candidate | finance_pipeline/csv_to_workbook.py:47 | for every counter below 10 the candidate, as written, has at most 31 characters |
| CsvWorkbook.CandidateOverLong | finance_pipeline/csv_to_workbook.py:47 | the tenth candidate for a 31-character name has 32 characters |
| CsvWorkbook.BoundedCandidate | finance_pipeline/csv_to_workbook.py:47 | the corrected candidate always fits in 31 characters |
| CsvWorkbook.BoundedCandidateAgrees | finance_pipeline/csv_to_workbook.py:47 | for counters 1 to 9 the corrected candidate is the one written |
| CsvWorkbook.CandidateInjective | finance_pipeline/csv_to_workbook.py:46-50 | different counters give different candidates, so the loop ends |
| CsvWorkbook.CandidateCounter | finance_pipeline/csv_to_workbook.py:46-50 | the counter can be read back from the candidate's trailing digits |
| CsvWorkbook.ChooseSheetName | finance_pipeline/csv_to_workbook.py:43-51 | the name chosen is not taken; a free name is used as is; otherwise it is the written candidate with the least counter not yet taken |
| CsvWorkbook.Workbook.constructor | finance_pipeline/csv_to_workbook.py:41-57 | a new workbook has no sheets |
| CsvWorkbook.Workbook.AddCsvSheet | finance_pipeline/csv_to_workbook.py:41-57 | one sheet is appended and the others keep their names; the new name is not yet in the workbook; it is the safe name when that is free, otherwise the written candidate with the least counter not taken |
| PaText.StripCells | pa_txt_parser.py:25 | every cell is stripped in place |
| PaText.KeptRowsStep | pa_txt_parser.py:24-29 | a row is kept, stripped, exactly when some cell is non-empty |
| PaText.MaxWidthStep | pa_txt_parser.py:28 | the width is the running maximum of row lengths |
| PaText.NormaliseRows | pa_txt_parser.py:24-39 | no kept rows give an empty table; otherwise the columns are named up to the widest row and every kept row is padded to that width |
| PaText.MaxWidthBound | pa_txt_parser.py:28 | no row is wider than the width and some row attains it |
| PaText.PadRowShape | pa_txt_parser.py:34-36 | a padded row keeps its cells and adds "" up to the width |
| PaText.KeptRowsClean | pa_txt_parser.py:24-29 | every kept row has a non-empty cell and stripped cells |
| PaText.KeptRowsComplete | pa_txt_parser.py:24-29 | every row with a non-empty stripped cell is kept |
| PaText.KeptRowsOrigin | pa_txt_parser.py:24-29 | the kept rows are the stripped input rows in their original order |
| PaText.BlankRowDropped | pa_txt_parser.py:26-27 | a row of blank cells adds nothing |

## Left out

- Reading files and PDFs is not modelled. This covers the pdfplumber/pypdf page walks (`extract_schedule_*_from_pdf`, `extract_schedule_tables`, `extract_metadata`, the collection of report lines), `csv.reader`, byte decoding, pandas DataFrames, openpyxl cell writing, `write_excel`, command-line entry points and logging. Their inputs become parameters: positioned words, lines, cells and rows.
- `streamlit_app.py`, `finance_pipeline/process_reports.py` and `finance_pipeline/extract_pdf_text.py` are not part of this model.
- CompilePdf.Clean: `html.unescape` is not modelled, so `clean` only strips; its contract states only that the result is stripped and no longer than the line.
- Text is ASCII. Unicode whitespace other than NBSP, Unicode case mapping and Unicode digits are not modelled. NBSP counts as a space only where `clean_cell` replaces it.
- `tidy_schedule_a_rows` and `insert_into_placeholder` are not modelled. Their regex rewriting of Schedule A descriptions has no property the rest of the core depends on.
- `split_schedules.py` defines `is_schedule_a_description_fragment`, `insert_into_placeholder`, `is_schedule_b_description_fragment`, `is_transaction_amount_token` and `is_tx_type_token` more than once. Python keeps the last definition, and that is the one modelled.
- Decimal syntax in `_parse_decimal` covers signs, digits, commas and one point. Exponents, `Infinity` and `NaN` are not modelled.
- `_build_entry`'s `except` path is not modelled. Its decimal conversion cannot fail on the text the date-and-amount search returns, so the path is unreachable in the model.
- `_format_currency(None)` is not modelled; `AzReport.FormatCurrency` takes an amount.
- `parse_amount_bounds` takes integers, text or nothing in the model. A float argument is not modelled.
- The workbook is modelled as the sequence of its sheet names. Worksheet cells are not modelled.
- CsvWorkbook.Workbook.AddCsvSheet: the title stated is the one the source passes to openpyxl's `create_sheet`. openpyxl then renames a title that equals an existing one ignoring letter case by appending a number ("report" beside "Report" becomes "report1"). That renaming is library code and is not modelled, so `AddCsvSheet`'s title and `Workbook.Valid`'s distinct names are case-sensitive, as the source's own `in workbook.sheetnames` test is.
- CompilePdf.ParseDateTokens: states the shape of a found date and, in `ParseDateTokensNone`, when nothing is found, but not which match is returned for an arbitrary line. `DateTokensOfWritten` covers a line that is a date.
- DisclosureTokens.SlashDateIsDateToken: states only that dates of these shapes are date tokens, not that nothing else is. `IsoDateIsDateToken` is limited in the same way.
- CompilePdf.PageTimestampOfWritten: states that every written stamp is a page timestamp, not that nothing else is.
- CompilePdf.CityStateOfWritten: covers a city and a rest of one word each; longer ones, where the last State label decides, are covered only by `CityStateMatch`'s contract.
- CsvWorkbook.ChooseSheetName: follows the source's candidate, so from the tenth candidate of a name of 29 or more characters on, the chosen name can be longer than 31 characters; `BoundedCandidate` is the corrected form (see Findings). `Workbook.AddCsvSheet` inherits this.
- DisclosurePages.WindowDecides: states the cutoff on the words passed to the row builder, not on single cells.
- DisclosureConsolidation.RecordsFollowOpeners: Schedule A's value column is taken from the opener and never joined, so coverage of later rows is stated only for the columns that are joined.

## Findings

| source | as written | input that shows it | evidently intended | confidence | as-written member | corrected member |
|---|---|---|---|---|---|---|
| finance_pipeline/csv_to_workbook.py:47 | the unique-name candidate is the first 29 characters of the name, `_` and the counter | a 31-character sheet name already taken together with its candidates `_1` to `_9`: the tenth candidate has 32 characters | every sheet name stays within Excel's 31 characters, so the name is cut short enough for `_` and all the counter's digits | medium, not executed | CsvWorkbook.CandidateOverLong | CsvWorkbook.BoundedCandidate |
