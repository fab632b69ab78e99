/**
 * The line-walking parser of `compile_pdf_to_csv.py`: a cursor over the
 * extracted lines that tracks the current page, schedule and part, and hands
 * each record heading to the reader of its part.
 */
module DocumentParsing {
  import opened Optional
  import opened Text
  import opened CompilePdf

  // ---------------------------------------------------------------- records

  /** One receipt of schedule I or II. */
  datatype ContributionEntry = ContributionEntry(
    schedule: string, part: string, page: int, name: string, amount: string,
    month: string, day: string, year: string, city: string, state: string, zipCode: string,
    contributorType: string, employerName: string, occupation: string,
    employerCity: string, employerState: string, employerZip: string, description: string)

  /** One expenditure of schedule III. */
  datatype ExpenditureEntry = ExpenditureEntry(
    schedule: string, page: int, payee: string, amount: string,
    month: string, day: string, year: string, city: string, state: string, zipCode: string,
    description: string)

  datatype Entry = Contribution(contribution: ContributionEntry) | Expenditure(expenditure: ExpenditureEntry)

  /** The seven result lists `parse` fills. */
  datatype ResultList =
    | ScheduleIPartA | ScheduleIPartB | ScheduleIPartC | ScheduleIPartD | ScheduleIPartE
    | ScheduleIIPartG | ScheduleIII

  /** The key of each list in the results dictionary. */
  function KeyName(k: ResultList): string
  {
    match k
    case ScheduleIPartA => "schedule_i_part_a"
    case ScheduleIPartB => "schedule_i_part_b"
    case ScheduleIPartC => "schedule_i_part_c"
    case ScheduleIPartD => "schedule_i_part_d"
    case ScheduleIPartE => "schedule_i_part_e"
    case ScheduleIIPartG => "schedule_ii_part_g"
    case ScheduleIII => "schedule_iii"
  }

  /** A record belongs in a list when it carries that list's schedule and part labels. */
  predicate BelongsTo(e: Entry, k: ResultList)
  {
    match k
    case ScheduleIPartA => e.Contribution? && e.contribution.schedule == "I" && e.contribution.part == "A"
    case ScheduleIPartB => e.Contribution? && e.contribution.schedule == "I" && e.contribution.part == "B"
    case ScheduleIPartC => e.Contribution? && e.contribution.schedule == "I" && e.contribution.part == "C"
    case ScheduleIPartD => e.Contribution? && e.contribution.schedule == "I" && e.contribution.part == "D"
    case ScheduleIPartE => e.Contribution? && e.contribution.schedule == "I" && e.contribution.part == "E"
    case ScheduleIIPartG => e.Contribution? && e.contribution.schedule == "II" && e.contribution.part == "G"
    case ScheduleIII => e.Expenditure? && e.expenditure.schedule == "III"
  }

  /** An amount is either missing or of the shape `[\d,]+\.\d{2}`. */
  predicate AmountShaped(a: string) { a == "" || IsAmountText(a) }

  /** A date is either missing altogether or has all three numeric parts. */
  predicate DateFieldsShaped(month: string, day: string, year: string) {
    (month == "" && day == "" && year == "") || DateShaped(DateMatch(month, day, year, 0))
  }

  predicate EntryShaped(e: Entry) {
    match e
    case Contribution(c) => AmountShaped(c.amount) && DateFieldsShaped(c.month, c.day, c.year)
    case Expenditure(x) => AmountShaped(x.amount) && DateFieldsShaped(x.month, x.day, x.year)
  }

  /**
   * The list a line opens a record of, given the current schedule and part
   * headers, in the order `parse` tries them.
   */
  function Bucket(schedule: string, part: string, line: string): Option<ResultList>
  {
    if schedule == "SCHEDULE I" && part == "A" && StartsWith(line, "Full Name of Contributing Committee") then
      Some(ScheduleIPartA)
    else if schedule == "SCHEDULE I" && part == "B" && StartsWith(line, "Full Name of Contributor") then
      Some(ScheduleIPartB)
    else if schedule == "SCHEDULE I" && part == "C" && StartsWith(line, "Full Name of Contributing Committee") then
      Some(ScheduleIPartC)
    else if schedule == "SCHEDULE I" && part == "D" && StartsWith(line, "Full Name of Contributor") then
      Some(ScheduleIPartD)
    else if schedule == "SCHEDULE I" && part == "E" && StartsWith(line, "Full Name") then
      Some(ScheduleIPartE)
    else if schedule == "SCHEDULE II" && part == "G" && StartsWith(line, "Full Name of Contributor") then
      Some(ScheduleIIPartG)
    else if schedule == "SCHEDULE III" && StartsWith(line, "To Whom Paid") then
      Some(ScheduleIII)
    else None
  }

  /**
   * A line that opens a record never passes as a header line, so the header
   * test that `parse` makes first never hides a record; and each list only
   * opens under its own schedule header.
   */
  lemma BucketNotHeader(schedule: string, part: string, line: string)
    ensures Bucket(schedule, part, line).Some? ==> !IsHeaderLine(line)
    ensures Bucket(schedule, part, line) == Some(ScheduleIII) <==>
              schedule == "SCHEDULE III" && StartsWith(line, "To Whom Paid")
    ensures Bucket(schedule, part, line) == Some(ScheduleIIPartG) ==> schedule == "SCHEDULE II" && part == "G"
  {
    FirstChar(line, "Full Name");
    FirstChar(line, "Full Name of Contributor");
    FirstChar(line, "Full Name of Contributing Committee");
    FirstChar(line, "To Whom Paid");
    FirstChar(line, "PAGE ");
    FirstChar(line, "SCHEDULE ");
    FirstChar(line, "PART ");
  }

  lemma FirstChar(line: string, p: string)
    requires p != []
    ensures StartsWith(line, p) ==> line != [] && line[0] == p[0]
  {
    if StartsWith(line, p) {
      assert line[..|p|][0] == line[0];
    }
  }

  /** The page a record was read on. */
  function EntryPage(e: Entry): int
  {
    match e
    case Contribution(c) => c.page
    case Expenditure(x) => x.page
  }

  /** A cleaned line that `parse` consumes as a header (or skips as blank). */
  predicate IsHeaderLine(line: string) {
    line == "" || StartsWith(line, "PAGE ") || StartsWith(line, "SCHEDULE ") || StartsWith(line, "PART ")
  }

  // ---------------------------------------------------------------- small readers

  /** A month, day and year, each possibly empty. */
  type DateTriple = (string, string, string)

  /** Where a record's city line and state line put it. */
  datatype Place = Place(city: string, state: string, zipCode: string)

  /** Past a line that starts with `head`, when line `i` is one. */
  function SkipLabel(lines: seq<string>, i: nat, head: string): (r: nat)
    ensures r == i || (r == i + 1 && i < |lines| && StartsWith(Clean(lines[i]), head))
  {
    if i < |lines| && StartsWith(Clean(lines[i]), head) then i + 1 else i
  }

  /** The lines a contributor's or payee's name runs up to. */
  const AddressOnly: seq<string> := ["Mailing Address"]
  /** The same for the parts whose name may be followed by an amount line. */
  const AmountOrAddress: seq<string> := ["$", "Mailing Address"]

  /** `a or b` on strings. */
  function OrElse(a: string, b: string): string { if a != "" then a else b }

  /** `line.split()` of a line that is a whole date: its month, day and year. */
  function SplitDate(s: string): (r: DateTriple)
    requires FullDate(s).Some?
    ensures DateShaped(DateMatch(r.0, r.1, r.2, 0))
  {
    FullDateWords(s);
    var tokens := Words(s);
    (tokens[0], tokens[1], tokens[2])
  }

  /** The month, day and year of line `i` when the whole line is a date (`re.fullmatch`). */
  function LineDate(lines: seq<string>, i: nat): (r: Option<DateTriple>)
    ensures r.Some? <==> FullDate(LineAt(lines, i)).Some?
    ensures r.Some? ==> i < |lines| && DateShaped(DateMatch(r.value.0, r.value.1, r.value.2, 0))
  {
    var line := LineAt(lines, i);
    if FullDate(line).Some? then Some(SplitDate(line)) else None
  }

  /** Each missing part of `date` taken from `other`. */
  function Merge(date: DateTriple, other: DateTriple): (r: DateTriple)
    requires DateFieldsShaped(date.0, date.1, date.2) && DateFieldsShaped(other.0, other.1, other.2)
    ensures DateFieldsShaped(r.0, r.1, r.2)
    ensures r == (if date.0 != "" then date else other)
  {
    (OrElse(date.0, other.0), OrElse(date.1, other.1), OrElse(date.2, other.2))
  }

  /**
   * The fallback when the date is incomplete: each missing part is taken
   * from the first date in `text` (`month = month or m`, and so on).
   */
  function FillDate(date: DateTriple, text: string): (r: DateTriple)
    requires DateFieldsShaped(date.0, date.1, date.2)
    ensures DateFieldsShaped(r.0, r.1, r.2)
    ensures date.0 != "" ==> r == date
    ensures date.0 == "" ==> r == ParseDateTokens(text)
  {
    if !(date.0 != "" && date.1 != "" && date.2 != "") then Merge(date, ParseDateTokens(text)) else date
  }

  /** Where a record's name starts: after its heading, and after a "MO DAY YEAR" line that follows it. */
  function AfterHeading(lines: seq<string>, i: nat): (r: nat)
    ensures r == i + 1 || r == i + 2
  {
    if i + 1 < |lines| && Clean(lines[i + 1]) == "MO DAY YEAR" then i + 2 else i + 1
  }

  /** The text after the first "Receipt Description" of a line that starts with it, stripped. */
  function ReceiptDescription(line: string): (r: string)
    requires StartsWith(line, "Receipt Description")
    ensures Stripped(r) && line == "Receipt Description" + line[19..]
  {
    Strip(line[19..])
  }

  // ---------------------------------------------------------------- record layout

  /** No month, day or year. */
  const NoDate: DateTriple := ("", "", "")

  lemma NoDateShaped()
    ensures DateFieldsShaped(NoDate.0, NoDate.1, NoDate.2)
  {
  }

  lemma ParsedAmountShaped(text: string)
    ensures AmountShaped(ParseAmount(text))
  {
  }

  /** Past line `i` when it is a whole date, else still at `i`. */
  function PastDate(lines: seq<string>, i: nat): (r: nat)
    ensures r == i || r == i + 1
  {
    if LineDate(lines, i).Some? then i + 1 else i
  }

  /** The date of line `i` when the whole line is one, else `date`. */
  function WholeDateOr(lines: seq<string>, i: nat, date: DateTriple): (r: DateTriple)
    requires DateFieldsShaped(date.0, date.1, date.2)
    ensures DateFieldsShaped(r.0, r.1, r.2)
    ensures LineDate(lines, i).None? ==> r == date
  {
    if LineDate(lines, i).Some? then LineDate(lines, i).value else date
  }

  /** `date` with each missing part taken from line `i` when the whole line is a date. */
  function CompletedDate(lines: seq<string>, i: nat, date: DateTriple): (r: DateTriple)
    requires DateFieldsShaped(date.0, date.1, date.2)
    ensures DateFieldsShaped(r.0, r.1, r.2)
    ensures date.0 != "" || LineDate(lines, i).None? ==> r == date
  {
    if LineDate(lines, i).Some? then Merge(date, LineDate(lines, i).value) else date
  }

  /** Past line `i` when it holds an amount (`if amount: idx += 1`). */
  function PastAmount(lines: seq<string>, i: nat): (r: nat)
    ensures r == i || r == i + 1
  {
    if ParseAmount(LineAt(lines, i)) != "" then i + 1 else i
  }

  /** The date on a "Mailing Address" line at `i`, when its month is there; else no date. */
  function MailingDate(lines: seq<string>, i: nat): (r: DateTriple)
    ensures DateFieldsShaped(r.0, r.1, r.2)
  {
    var line := LineAt(lines, i);
    if StartsWith(line, "Mailing Address") && ParseDateTokens(line).0 != "" then ParseDateTokens(line) else NoDate
  }

  /**
   * The city of the city line `i` (`split_city_state_zip`) with the state and
   * zip of the line after it (`parse_state_zip_line`).
   */
  function PlaceAt(lines: seq<string>, i: nat): Place
  {
    var stateZip := ParseStateZipLine(LineAt(lines, i + 1));
    Place(CityStateZipOf(LineAt(lines, i)).city, stateZip.0, stateZip.1)
  }

  /** A schedule III city: read from line `i` only when that line starts with "City". */
  function CityInfo(lines: seq<string>, i: nat): string
  {
    if StartsWith(LineAt(lines, i), "City") then CityStateZipOf(LineAt(lines, i)).city else ""
  }

  /** The amount on a "MO DAY YEAR" line at `i`, else none. */
  function PrelimAmount(lines: seq<string>, i: nat): (r: string)
    ensures AmountShaped(r)
  {
    if StartsWith(LineAt(lines, i), "MO DAY YEAR") then ParseAmount(LineAt(lines, i)) else ""
  }

  /** The receipt description of line `i` when it carries the label, else none. */
  function ReceiptAt(lines: seq<string>, i: nat): (r: string)
    ensures Stripped(r)
  {
    var line := LineAt(lines, i);
    if StartsWith(line, "Receipt Description") then ReceiptDescription(line) else ""
  }

  // ---------------------------------------------------------------- _skip_blank_lines

  /** The first non-blank line from `i` on, or `i` when that is already past the end. */
  function FirstNonBlank(lines: seq<string>, i: nat): (r: nat)
    ensures i <= r && (r == i || r <= |lines|)
    ensures r < |lines| ==> !IsBlankLine(lines[r])
    ensures forall j {:trigger IsBlankLine(lines[j])} :: i <= j < r ==> IsBlankLine(lines[j])
    decreases |lines| - i
  {
    if i < |lines| && IsBlankLine(lines[i]) then FirstNonBlank(lines, i + 1) else i
  }

  /** Skipping stops at exactly the first index with no blank line left to skip. */
  lemma {:induction false} FirstNonBlankUnique(lines: seq<string>, i: nat, k: nat)
    requires i <= k && (k >= |lines| || !IsBlankLine(lines[k]))
    requires k == i || k <= |lines|
    requires forall j {:trigger IsBlankLine(lines[j])} :: i <= j < k ==> IsBlankLine(lines[j])
    ensures FirstNonBlank(lines, i) == k
    decreases k - i
  {
    if i < k {
      FirstNonBlankUnique(lines, i + 1, k);
    }
  }

  // ---------------------------------------------------------------- schedule III description

  /** A cleaned continuation line that ends a schedule III description. */
  predicate EndsDescription(c: string) {
    StartsWith(c, "To Whom Paid") || StartsWith(c, "MO DAY YEAR") || StartsWith(c, "Mailing Address")
    || StartsWith(c, "City ") || StartsWith(c, "--- Page") || StartsWith(c, "PAGE ") || IsPageTimestamp(c)
  }

  /** Where the description's continuation lines end: at the first non-blank line that ends it, or the end. */
  function DescriptionEnd(lines: seq<string>, i: nat): (r: nat)
    ensures i <= r && (r == i || r <= |lines|)
    ensures r < |lines| ==> !IsBlankLine(lines[r]) && EndsDescription(Clean(lines[r]))
    ensures forall j {:trigger EndsDescription(Clean(lines[j]))} :: i <= j < r ==> IsBlankLine(lines[j]) || !EndsDescription(Clean(lines[j]))
    decreases |lines| - i
  {
    if i >= |lines| then i
    else if IsBlankLine(lines[i]) || !EndsDescription(Clean(lines[i])) then DescriptionEnd(lines, i + 1)
    else i
  }

  /** The continuation lines added to the description, in order. */
  function Continuations(lines: seq<string>, i: nat): (r: seq<string>)
    ensures forall k :: 0 <= k < |r| ==> r[k] != "" && Stripped(r[k]) && !EndsDescription(r[k])
    decreases |lines| - i
  {
    if i >= |lines| then []
    else if IsBlankLine(lines[i]) then Continuations(lines, i + 1)
    else if EndsDescription(Clean(lines[i])) then []
    else [Clean(lines[i])] + Continuations(lines, i + 1)
  }

  /** The continuations are exactly the non-blank lines before the line that ends the description. */
  lemma {:induction false} ContinuationsBeforeEnd(lines: seq<string>, i: nat)
    requires i <= |lines|
    ensures DescriptionEnd(lines, i) <= |lines|
    ensures Continuations(lines, i) == NonBlankCleaned(lines[i..DescriptionEnd(lines, i)])
    decreases |lines| - i
  {
    var r := DescriptionEnd(lines, i);
    if i < |lines| && r > i {
      ContinuationsBeforeEnd(lines, i + 1);
      assert lines[i..r][1..] == lines[i + 1..r];
    } else {
      assert lines[i..r] == [];
    }
  }

  /** One step of the description: `f"{d} {c}".strip() if d else c`. */
  function Extend(d: string, c: string): string
  {
    if d != "" then Strip(d + " " + c) else c
  }

  function ExtendAll(d: string, cs: seq<string>): string
    decreases |cs|
  {
    if cs == [] then d else ExtendAll(Extend(d, cs[0]), cs[1..])
  }

  /** A stripped description stays stripped however many stripped lines extend it. */
  lemma {:induction false} ExtendAllStripped(d: string, cs: seq<string>)
    requires Stripped(d)
    requires forall k :: 0 <= k < |cs| ==> Stripped(cs[k])
    ensures Stripped(ExtendAll(d, cs))
    decreases |cs|
  {
    if cs != [] {
      ExtendAllStripped(Extend(d, cs[0]), cs[1..]);
    }
  }

  /** Two stripped non-empty pieces joined by a space are already stripped. */
  lemma ExtendStripped(d: string, c: string)
    requires d != "" && Stripped(d) && c != "" && Stripped(c)
    ensures Extend(d, c) == d + " " + c && Stripped(d + " " + c)
  {
    var s := d + " " + c;
    assert s[0] == d[0] && s[|s| - 1] == c[|c| - 1];
    StripOfStripped(s);
  }

  /** Gluing the first two pieces with a space before joining changes nothing. */
  lemma JoinShift(d: string, cs: seq<string>)
    requires cs != []
    ensures Join([d + " " + cs[0]] + cs[1..], " ") == Join([d] + cs, " ")
  {
    JoinCons(d, cs, " ");
    if |cs| == 1 {
      assert [d + " " + cs[0]] + cs[1..] == [d + " " + cs[0]];
    } else {
      JoinCons(d + " " + cs[0], cs[1..], " ");
      JoinCons(cs[0], cs[1..], " ");
      assert [cs[0]] + cs[1..] == cs;
    }
  }

  /** Extending a stripped description by stripped lines joins them all with single spaces. */
  lemma {:induction false} ExtendAllJoins(d: string, cs: seq<string>)
    requires Stripped(d)
    requires forall k :: 0 <= k < |cs| ==> cs[k] != "" && Stripped(cs[k])
    ensures ExtendAll(d, cs) == Join(if d == "" then cs else [d] + cs, " ")
    decreases |cs|
  {
    if cs == [] {
      JoinOne(d, " ");
    } else if d == "" {
      ExtendAllJoins(cs[0], cs[1..]);
      assert [cs[0]] + cs[1..] == cs;
    } else {
      ExtendStripped(d, cs[0]);
      ExtendAllJoins(d + " " + cs[0], cs[1..]);
      JoinShift(d, cs);
    }
  }

  // ---------------------------------------------------------------- records as values

  /**
   * The Part A or Part B record whose heading is at `at`, and the line
   * reading resumes at. The two readers differ only in the part label and
   * the contributor type.
   */
  function RecordAB(lines: seq<string>, page: int, at: nat, part: string, kind: string): (r: (ContributionEntry, nat))
    ensures at < r.1 && r.0.schedule == "I" && r.0.part == part && r.0.page == page
    ensures AmountShaped(r.0.amount) && DateFieldsShaped(r.0.month, r.0.day, r.0.year)
  {
    var n := NameEnd(lines, AfterHeading(lines, at), AddressOnly);
    var c := PastDate(lines, n + 1);
    var date := FillDate(WholeDateOr(lines, n + 1, NoDate), CityStateZipOf(LineAt(lines, c)).trailing);
    var place := PlaceAt(lines, c);
    (ContributionEntry("I", part, page, Join(NameParts(lines, AfterHeading(lines, at), AddressOnly), " "),
                       ParseAmount(LineAt(lines, n)), date.0, date.1, date.2,
                       place.city, place.state, place.zipCode, kind, "", "", "", "", "", ""),
     FirstNonBlank(lines, c + 2))
  }

  lemma RecordABFields(lines: seq<string>, page: int, at: nat, part: string, kind: string)
    ensures var n := NameEnd(lines, AfterHeading(lines, at), AddressOnly);
      var c := PastDate(lines, n + 1);
      var date := FillDate(WholeDateOr(lines, n + 1, NoDate), CityStateZipOf(LineAt(lines, c)).trailing);
      var place := PlaceAt(lines, c);
      RecordAB(lines, page, at, part, kind)
      == (ContributionEntry("I", part, page, Join(NameParts(lines, AfterHeading(lines, at), AddressOnly), " "),
                            ParseAmount(LineAt(lines, n)), date.0, date.1, date.2,
                            place.city, place.state, place.zipCode, kind, "", "", "", "", "", ""),
          FirstNonBlank(lines, c + 2))
  {
    hide Clean, NameEnd, NameParts, ParseAmount, FillDate, WholeDateOr, CompletedDate, MailingDate, PrelimAmount,
         ReceiptAt, CityInfo, PlaceAt, FirstNonBlank, PastDate, PastAmount, SkipLabel, ParseEmployerLine,
         ParseEmployerAddressLine, ParseStateZipDescriptionLine, Continuations, DescriptionEnd, Join, Strip, LineAt,
         AfterHeading, AmountShaped, DateFieldsShaped, DateShaped, IsAmountText, Stripped, StartsWith, LineDate,
         ParseDateTokens, CityStateZipOf;
  }

  /** The Part C record at `at`: the name may stop at an amount line. */
  function RecordC(lines: seq<string>, page: int, at: nat): (r: (ContributionEntry, nat))
    ensures at < r.1 && r.0.schedule == "I" && r.0.part == "C" && r.0.page == page
    ensures AmountShaped(r.0.amount) && DateFieldsShaped(r.0.month, r.0.day, r.0.year)
  {
    var n := NameEnd(lines, AfterHeading(lines, at), AmountOrAddress);
    var l := SkipLabel(lines, PastAmount(lines, n), "Mailing Address");
    var c := PastDate(lines, l);
    var date := FillDate(WholeDateOr(lines, l, NoDate), CityStateZipOf(LineAt(lines, c)).trailing);
    var place := PlaceAt(lines, c);
    (ContributionEntry("I", "C", page, Join(NameParts(lines, AfterHeading(lines, at), AmountOrAddress), " "),
                       ParseAmount(LineAt(lines, n)), date.0, date.1, date.2,
                       place.city, place.state, place.zipCode, "Political Committee", "", "", "", "", "", ""),
     FirstNonBlank(lines, c + 2))
  }

  lemma RecordCFields(lines: seq<string>, page: int, at: nat)
    ensures var n := NameEnd(lines, AfterHeading(lines, at), AmountOrAddress);
      var l := SkipLabel(lines, PastAmount(lines, n), "Mailing Address");
      var c := PastDate(lines, l);
      var date := FillDate(WholeDateOr(lines, l, NoDate), CityStateZipOf(LineAt(lines, c)).trailing);
      var place := PlaceAt(lines, c);
      RecordC(lines, page, at)
      == (ContributionEntry("I", "C", page, Join(NameParts(lines, AfterHeading(lines, at), AmountOrAddress), " "),
         ParseAmount(LineAt(lines, n)), date.0, date.1, date.2,
         place.city, place.state, place.zipCode, "Political Committee", "", "", "", "", "", ""),
         FirstNonBlank(lines, c + 2))
  {
    hide Clean, NameEnd, NameParts, ParseAmount, FillDate, WholeDateOr, CompletedDate, MailingDate, PrelimAmount,
         ReceiptAt, CityInfo, PlaceAt, FirstNonBlank, PastDate, PastAmount, SkipLabel, ParseEmployerLine,
         ParseEmployerAddressLine, ParseStateZipDescriptionLine, Continuations, DescriptionEnd, Join, Strip, LineAt,
         AfterHeading, AmountShaped, DateFieldsShaped, DateShaped, IsAmountText, Stripped, StartsWith, LineDate,
         ParseDateTokens, CityStateZipOf;
  }

  /** The Part D record at `at`: date and amount first, the employer last. */
  function RecordD(lines: seq<string>, page: int, at: nat): (r: (ContributionEntry, nat))
    ensures at < r.1 && r.0.schedule == "I" && r.0.part == "D" && r.0.page == page
    ensures AmountShaped(r.0.amount) && DateFieldsShaped(r.0.month, r.0.day, r.0.year)
  {
    var first := LineAt(lines, at + 1);
    var l := SkipLabel(lines, NameEnd(lines, at + 2, AddressOnly), "Mailing Address");
    var c := PastDate(lines, l);
    var a := SkipLabel(lines, c + 3, "Employer Mailing Address");
    var address := ParseEmployerAddressLine(LineAt(lines, a));
    var employer := ParseEmployerLine(LineAt(lines, c + 2));
    var date := CompletedDate(lines, l, ParseDateTokens(first));
    var place := PlaceAt(lines, c);
    (ContributionEntry("I", "D", page, Join(NameParts(lines, at + 2, AddressOnly), " "),
                       ParseAmount(first), date.0, date.1, date.2,
                       place.city, place.state, place.zipCode, "Other",
                       employer.0, employer.1, address.city, address.state, address.zip, ""),
     FirstNonBlank(lines, a + 1))
  }

  lemma RecordDFields(lines: seq<string>, page: int, at: nat)
    ensures var first := LineAt(lines, at + 1);
      var l := SkipLabel(lines, NameEnd(lines, at + 2, AddressOnly), "Mailing Address");
      var c := PastDate(lines, l);
      var a := SkipLabel(lines, c + 3, "Employer Mailing Address");
      var address := ParseEmployerAddressLine(LineAt(lines, a));
      var employer := ParseEmployerLine(LineAt(lines, c + 2));
      var date := CompletedDate(lines, l, ParseDateTokens(first));
      var place := PlaceAt(lines, c);
      RecordD(lines, page, at)
      == (ContributionEntry("I", "D", page, Join(NameParts(lines, at + 2, AddressOnly), " "),
         ParseAmount(first), date.0, date.1, date.2,
         place.city, place.state, place.zipCode, "Other",
         employer.0, employer.1, address.city, address.state, address.zip, ""),
         FirstNonBlank(lines, a + 1))
  {
    hide Clean, NameEnd, NameParts, ParseAmount, FillDate, WholeDateOr, CompletedDate, MailingDate, PrelimAmount,
         ReceiptAt, CityInfo, PlaceAt, FirstNonBlank, PastDate, PastAmount, SkipLabel, ParseEmployerLine,
         ParseEmployerAddressLine, ParseStateZipDescriptionLine, Continuations, DescriptionEnd, Join, Strip, LineAt,
         AfterHeading, AmountShaped, DateFieldsShaped, DateShaped, IsAmountText, Stripped, StartsWith, LineDate,
         ParseDateTokens, CityStateZipOf;
  }

  /** The Part E record at `at`: an optional amount line, a receipt description last. */
  function RecordE(lines: seq<string>, page: int, at: nat): (r: (ContributionEntry, nat))
    ensures at < r.1 && r.0.schedule == "I" && r.0.part == "E" && r.0.page == page
    ensures AmountShaped(r.0.amount) && DateFieldsShaped(r.0.month, r.0.day, r.0.year)
  {
    var s := SkipLabel(lines, at + 1, "MO DAY YEAR");
    var l := SkipLabel(lines, NameEnd(lines, s, AddressOnly), "Mailing Address");
    var c := PastDate(lines, l);
    var date := WholeDateOr(lines, l, NoDate);
    var place := PlaceAt(lines, c);
    (ContributionEntry("I", "E", page, Join(NameParts(lines, s, AddressOnly), " "),
                       PrelimAmount(lines, at + 1), date.0, date.1, date.2,
                       place.city, place.state, place.zipCode, "Receipt",
                       "", "", "", "", "", ReceiptAt(lines, c + 2)),
     FirstNonBlank(lines, SkipLabel(lines, c + 2, "Receipt Description")))
  }

  lemma RecordEFields(lines: seq<string>, page: int, at: nat)
    ensures var s := SkipLabel(lines, at + 1, "MO DAY YEAR");
      var l := SkipLabel(lines, NameEnd(lines, s, AddressOnly), "Mailing Address");
      var c := PastDate(lines, l);
      var date := WholeDateOr(lines, l, NoDate);
      var place := PlaceAt(lines, c);
      RecordE(lines, page, at)
      == (ContributionEntry("I", "E", page, Join(NameParts(lines, s, AddressOnly), " "),
         PrelimAmount(lines, at + 1), date.0, date.1, date.2,
         place.city, place.state, place.zipCode, "Receipt",
         "", "", "", "", "", ReceiptAt(lines, c + 2)),
         FirstNonBlank(lines, SkipLabel(lines, c + 2, "Receipt Description")))
  {
    hide Clean, NameEnd, NameParts, ParseAmount, FillDate, WholeDateOr, CompletedDate, MailingDate, PrelimAmount,
         ReceiptAt, CityInfo, PlaceAt, FirstNonBlank, PastDate, PastAmount, SkipLabel, ParseEmployerLine,
         ParseEmployerAddressLine, ParseStateZipDescriptionLine, Continuations, DescriptionEnd, Join, Strip, LineAt,
         AfterHeading, AmountShaped, DateFieldsShaped, DateShaped, IsAmountText, Stripped, StartsWith, LineDate,
         ParseDateTokens, CityStateZipOf;
  }

  /** The Schedule II Part G record at `at`: the date may stand on the mailing-address line. */
  function RecordG(lines: seq<string>, page: int, at: nat): (r: (ContributionEntry, nat))
    ensures at < r.1 && r.0.schedule == "II" && r.0.part == "G" && r.0.page == page
    ensures AmountShaped(r.0.amount) && DateFieldsShaped(r.0.month, r.0.day, r.0.year)
  {
    var n := NameEnd(lines, AfterHeading(lines, at), AmountOrAddress);
    var m := PastAmount(lines, n);
    var l := SkipLabel(lines, m, "Mailing Address");
    var c := PastDate(lines, l);
    var a := SkipLabel(lines, c + 3, "Employer Mailing Address");
    var address := ParseEmployerAddressLine(LineAt(lines, a));
    var employer := ParseEmployerLine(LineAt(lines, c + 2));
    var date := WholeDateOr(lines, l, MailingDate(lines, m));
    var place := PlaceAt(lines, c);
    (ContributionEntry("II", "G", page, Join(NameParts(lines, AfterHeading(lines, at), AmountOrAddress), " "),
                       ParseAmount(LineAt(lines, n)), date.0, date.1, date.2,
                       place.city, place.state, place.zipCode, "In-Kind",
                       employer.0, employer.1, address.city, address.state, address.zip, address.description),
     FirstNonBlank(lines, a + 1))
  }

  lemma RecordGFields(lines: seq<string>, page: int, at: nat)
    ensures var n := NameEnd(lines, AfterHeading(lines, at), AmountOrAddress);
      var m := PastAmount(lines, n);
      var l := SkipLabel(lines, m, "Mailing Address");
      var c := PastDate(lines, l);
      var a := SkipLabel(lines, c + 3, "Employer Mailing Address");
      var address := ParseEmployerAddressLine(LineAt(lines, a));
      var employer := ParseEmployerLine(LineAt(lines, c + 2));
      var date := WholeDateOr(lines, l, MailingDate(lines, m));
      var place := PlaceAt(lines, c);
      RecordG(lines, page, at)
      == (ContributionEntry("II", "G", page, Join(NameParts(lines, AfterHeading(lines, at), AmountOrAddress), " "),
         ParseAmount(LineAt(lines, n)), date.0, date.1, date.2,
         place.city, place.state, place.zipCode, "In-Kind",
         employer.0, employer.1, address.city, address.state, address.zip, address.description),
         FirstNonBlank(lines, a + 1))
  {
    hide Clean, NameEnd, NameParts, ParseAmount, FillDate, WholeDateOr, CompletedDate, MailingDate, PrelimAmount,
         ReceiptAt, CityInfo, PlaceAt, FirstNonBlank, PastDate, PastAmount, SkipLabel, ParseEmployerLine,
         ParseEmployerAddressLine, ParseStateZipDescriptionLine, Continuations, DescriptionEnd, Join, Strip, LineAt,
         AfterHeading, AmountShaped, DateFieldsShaped, DateShaped, IsAmountText, Stripped, StartsWith, LineDate,
         ParseDateTokens, CityStateZipOf;
  }

  /** The Schedule III record at `at`: payee, date and amount, place, then the description. */
  function RecordIII(lines: seq<string>, page: int, at: nat): (r: (ExpenditureEntry, nat))
    ensures at < r.1 && r.0.schedule == "III" && r.0.page == page
    ensures AmountShaped(r.0.amount) && DateFieldsShaped(r.0.month, r.0.day, r.0.year)
  {
    var n := NameEnd(lines, AfterHeading(lines, at), AddressOnly);
    var s := SkipLabel(lines, n + 1, "City");
    var stateZip := ParseStateZipDescriptionLine(LineAt(lines, s));
    var first := Strip(stateZip.2);
    var date := ParseDateTokens(LineAt(lines, n));
    (ExpenditureEntry("III", page, Join(NameParts(lines, AfterHeading(lines, at), AddressOnly), " "),
                      ParseAmount(LineAt(lines, n)), date.0, date.1, date.2,
                      CityInfo(lines, n + 1), stateZip.0, stateZip.1,
                      Join(if first == "" then Continuations(lines, s + 1) else [first] + Continuations(lines, s + 1), " ")),
     FirstNonBlank(lines, DescriptionEnd(lines, s + 1)))
  }

  lemma RecordIIIFields(lines: seq<string>, page: int, at: nat)
    ensures var n := NameEnd(lines, AfterHeading(lines, at), AddressOnly);
      var s := SkipLabel(lines, n + 1, "City");
      var stateZip := ParseStateZipDescriptionLine(LineAt(lines, s));
      var first := Strip(stateZip.2);
      var date := ParseDateTokens(LineAt(lines, n));
      RecordIII(lines, page, at)
      == (ExpenditureEntry("III", page, Join(NameParts(lines, AfterHeading(lines, at), AddressOnly), " "),
         ParseAmount(LineAt(lines, n)), date.0, date.1, date.2,
         CityInfo(lines, n + 1), stateZip.0, stateZip.1,
         Join(if first == "" then Continuations(lines, s + 1) else [first] + Continuations(lines, s + 1), " ")),
         FirstNonBlank(lines, DescriptionEnd(lines, s + 1)))
  {
    hide Clean, NameEnd, NameParts, ParseAmount, FillDate, WholeDateOr, CompletedDate, MailingDate, PrelimAmount,
         ReceiptAt, CityInfo, PlaceAt, FirstNonBlank, PastDate, PastAmount, SkipLabel, ParseEmployerLine,
         ParseEmployerAddressLine, ParseStateZipDescriptionLine, Continuations, DescriptionEnd, Join, Strip, LineAt,
         AfterHeading, AmountShaped, DateFieldsShaped, DateShaped, IsAmountText, Stripped, StartsWith, LineDate,
         ParseDateTokens, CityStateZipOf;
  }

  /**
   * The record the reader of list `key` takes from the heading at `at` on
   * page `page`, and the line `parse` resumes at: always past the heading,
   * in its own list, well shaped and on that page.
   */
  function RecordAt(key: ResultList, lines: seq<string>, page: int, at: nat): (r: (Entry, nat))
    ensures at < r.1
    ensures BelongsTo(r.0, key) && EntryShaped(r.0) && EntryPage(r.0) == page
  {
    hide RecordAB, RecordC, RecordD, RecordE, RecordG, RecordIII;
    match key
    case ScheduleIPartA => var r := RecordAB(lines, page, at, "A", "Political Committee"); (Contribution(r.0), r.1)
    case ScheduleIPartB => var r := RecordAB(lines, page, at, "B", "Other"); (Contribution(r.0), r.1)
    case ScheduleIPartC => var r := RecordC(lines, page, at); (Contribution(r.0), r.1)
    case ScheduleIPartD => var r := RecordD(lines, page, at); (Contribution(r.0), r.1)
    case ScheduleIPartE => var r := RecordE(lines, page, at); (Contribution(r.0), r.1)
    case ScheduleIIPartG => var r := RecordG(lines, page, at); (Contribution(r.0), r.1)
    case ScheduleIII => var r := RecordIII(lines, page, at); (Expenditure(r.0), r.1)
  }

  // ---------------------------------------------------------------- parse as a value

  /** Where `parse` stands: the cursor, the headers in force, and the seven lists. */
  datatype Cursor = Cursor(idx: nat, page: int, schedule: string, part: string, results: map<ResultList, seq<Entry>>)

  predicate HasLists(c: Cursor) { forall k: ResultList :: k in c.results }

  /**
   * One turn of `parse`: a blank or header line moves one line and updates
   * its header; a record heading appends the record of its list and resumes
   * where the reader stopped; any other line moves one line.
   */
  function Step(lines: seq<string>, c: Cursor): (r: Cursor)
    requires c.idx < |lines| && HasLists(c)
    ensures c.idx < r.idx && HasLists(r)
    ensures r.results == c.results
            || exists k :: Bucket(c.schedule, c.part, Clean(lines[c.idx])) == Some(k)
                 && r.results == c.results[k := c.results[k] + [RecordAt(k, lines, c.page, c.idx).0]]
    ensures forall k: ResultList :: r.results[k] == c.results[k]
              || (Bucket(c.schedule, c.part, Clean(lines[c.idx])) == Some(k)
                  && r.results[k] == c.results[k] + [RecordAt(k, lines, c.page, c.idx).0])
  {
    var line := Clean(lines[c.idx]);
    if line == "" then c.(idx := c.idx + 1)
    else if StartsWith(line, "PAGE ") then c.(idx := c.idx + 1, page := PageNumber(line))
    else if StartsWith(line, "SCHEDULE ") then c.(idx := c.idx + 1, schedule := line)
    else if StartsWith(line, "PART ") then c.(idx := c.idx + 1, part := PartName(line))
    else match Bucket(c.schedule, c.part, line)
      case None => c.(idx := c.idx + 1)
      case Some(k) =>
        var r := RecordAt(k, lines, c.page, c.idx);
        c.(idx := r.1, results := c.results[k := c.results[k] + [r.0]])
  }

  /** `parse` from cursor `c` on: turns until the cursor has passed the last line. */
  function Walk(lines: seq<string>, c: Cursor): (r: Cursor)
    requires HasLists(c)
    ensures HasLists(r) && |lines| <= r.idx
    decreases |lines| - c.idx
  {
    if c.idx >= |lines| then c else Walk(lines, Step(lines, c))
  }

  /** A walk that has not reached the end takes one turn and walks on. */
  lemma WalkStep(lines: seq<string>, c: Cursor)
    requires HasLists(c) && c.idx < |lines|
    ensures Walk(lines, c) == Walk(lines, Step(lines, c))
  {
  }

  /** A walk past the last line stays where it is. */
  lemma WalkDone(lines: seq<string>, c: Cursor)
    requires HasLists(c) && |lines| <= c.idx
    ensures Walk(lines, c) == c
  {
  }

  /**
   * `e` is a record of list `k` read from a line at or after `from` that
   * opens a record of that list under some schedule and part headers, on
   * some page.
   */
  ghost predicate ReadFrom(lines: seq<string>, from: nat, k: ResultList, e: Entry)
  {
    exists at: nat, pg: int, sch: string, prt: string ::
      from <= at < |lines| && Bucket(sch, prt, Clean(lines[at])) == Some(k) && e == RecordAt(k, lines, pg, at).0
  }

  /**
   * The walk only appends, and every record it appends to a list was read by
   * that list's reader from a line at or after the starting cursor that
   * opens a record of that list.
   */
  lemma {:induction false} WalkAppendsRecords(lines: seq<string>, c: Cursor)
    requires HasLists(c)
    ensures forall k: ResultList :: c.results[k] <= Walk(lines, c).results[k]
    ensures forall k: ResultList, j :: |c.results[k]| <= j < |Walk(lines, c).results[k]| ==>
      ReadFrom(lines, c.idx, k, Walk(lines, c).results[k][j])
    decreases |lines| - c.idx
  {
    if c.idx < |lines| {
      var d := Step(lines, c);
      var w := Walk(lines, c);
      assert w == Walk(lines, d);
      hide *;
      WalkAppendsRecords(lines, d);
      forall k: ResultList ensures c.results[k] <= w.results[k] {
        assert c.results[k] <= d.results[k];
      }
      forall k: ResultList, j | |c.results[k]| <= j < |w.results[k]|
        ensures ReadFrom(lines, c.idx, k, w.results[k][j])
      {
        if j < |d.results[k]| {
          assert d.results[k] == c.results[k] + [RecordAt(k, lines, c.page, c.idx).0];
          assert w.results[k][j] == d.results[k][j];
          ReadAt(lines, c.idx, k, c.page, c.schedule, c.part);
        } else {
          ReadFromEarlier(lines, c.idx, d.idx, k, w.results[k][j]);
        }
      }
    }
  }

  /** The record read at a heading line counts as read from that line on. */
  lemma ReadAt(lines: seq<string>, at: nat, k: ResultList, pg: int, sch: string, prt: string)
    requires at < |lines| && Bucket(sch, prt, Clean(lines[at])) == Some(k)
    ensures ReadFrom(lines, at, k, RecordAt(k, lines, pg, at).0)
  {
  }

  /** Read from a later line is read from an earlier one too. */
  lemma ReadFromEarlier(lines: seq<string>, from: nat, later: nat, k: ResultList, e: Entry)
    requires from <= later && ReadFrom(lines, later, k, e)
    ensures ReadFrom(lines, from, k, e)
  {
  }

  // ---------------------------------------------------------------- DocumentParser

  class DocumentParser {
    const lines: seq<string>
    var idx: nat
    var page: int
    var schedule: string
    var part: string
    var results: map<ResultList, seq<Entry>>

    /** The parser's state as a value. */
    function State(): Cursor
      reads this
    {
      Cursor(idx, page, schedule, part, results)
    }

    /** The seven lists exist, and each holds only well-shaped records of its own schedule and part. */
    ghost predicate Valid()
      reads this
    {
      (forall k: ResultList :: k in results)
      && forall k :: k in results ==>
           forall j :: 0 <= j < |results[k]| ==> BelongsTo(results[k][j], k) && EntryShaped(results[k][j])
    }

    constructor(lines: seq<string>)
      ensures this.lines == lines && idx == 0 && page == 0 && schedule == "" && part == ""
      ensures forall k: ResultList :: k in results && results[k] == []
      ensures Valid()
    {
      this.lines := lines;
      idx := 0;
      page := 0;
      schedule := "";
      part := "";
      results := map[ScheduleIPartA := [], ScheduleIPartB := [], ScheduleIPartC := [], ScheduleIPartD := [],
                     ScheduleIPartE := [], ScheduleIIPartG := [], ScheduleIII := []];
      new;
      forall k: ResultList ensures k in results && results[k] == [] {
        match k
        case ScheduleIPartA =>
        case ScheduleIPartB =>
        case ScheduleIPartC =>
        case ScheduleIPartD =>
        case ScheduleIPartE =>
        case ScheduleIIPartG =>
        case ScheduleIII =>
      }
    }

    /** `_skip_blank_lines`. */
    method SkipBlankLines(i: nat) returns (r: nat)
      ensures r == FirstNonBlank(lines, i)
    {
      r := i;
      while r < |lines| && IsBlankLine(lines[r])
        invariant i <= r && (r == i || r <= |lines|)
        invariant FirstNonBlank(lines, r) == FirstNonBlank(lines, i)
        decreases |lines| - r
      {
        r := r + 1;
      }
    }

    /** The continuation loop of `_parse_schedule_iii`. */
    method ReadDescription(start: nat, first: string) returns (j: nat, description: string)
      requires Stripped(first)
      ensures j == DescriptionEnd(lines, start) && Stripped(description)
      ensures description == ExtendAll(first, Continuations(lines, start))
      ensures description == Join(if first == "" then Continuations(lines, start)
                                  else [first] + Continuations(lines, start), " ")
    {
      j := start;
      description := first;
      while j < |lines|
        invariant start <= j
        invariant DescriptionEnd(lines, j) == DescriptionEnd(lines, start)
        invariant ExtendAll(description, Continuations(lines, j)) == ExtendAll(first, Continuations(lines, start))
        decreases |lines| - j
      {
        var stop;
        stop, description := DescriptionStep(j, description);
        if stop {
          break;
        }
        j := j + 1;
      }
      assert Continuations(lines, j) == [];
      ExtendAllJoins(first, Continuations(lines, start));
      ExtendAllStripped(first, Continuations(lines, start));
    }

    /** One pass of the continuation loop: skip a blank line, stop at a line that ends the description, else extend it. */
    method DescriptionStep(j: nat, description: string) returns (stop: bool, next: string)
      requires j < |lines|
      ensures stop ==> DescriptionEnd(lines, j) == j && Continuations(lines, j) == [] && next == description
      ensures !stop ==> DescriptionEnd(lines, j + 1) == DescriptionEnd(lines, j)
      ensures !stop ==> ExtendAll(next, Continuations(lines, j + 1)) == ExtendAll(description, Continuations(lines, j))
    {
      var continuation := Clean(lines[j]);
      next := description;
      stop := false;
      if continuation == "" {
      } else if EndsDescription(continuation) {
        stop := true;
      } else {
        assert ([continuation] + Continuations(lines, j + 1))[1..] == Continuations(lines, j + 1);
        next := Extend(description, continuation);
      }
    }

    // ------------------------------------------------------------ pieces shared by the part readers

    /** The heading, an optional "MO DAY YEAR" line, then the name up to a stop line. */
    method ReadName(at: nat, stops: seq<string>) returns (name: string, i: nat)
      ensures i == NameEnd(lines, AfterHeading(lines, at), stops) && at < i
      ensures name == Join(NameParts(lines, AfterHeading(lines, at), stops), " ")
    {
      i := at + 1;
      if i < |lines| && Clean(lines[i]) == "MO DAY YEAR" {
        i := i + 1;
      }
      assert i == AfterHeading(lines, at);
      name, i := CollectName(lines, i, stops);
    }

    /** The city line at `i`, whose trailing text completes an incomplete date, and the state line after it. */
    method ReadCityAndState(i: nat, date: DateTriple) returns (place: Place, filled: DateTriple)
      requires DateFieldsShaped(date.0, date.1, date.2)
      ensures place == PlaceAt(lines, i)
      ensures filled == FillDate(date, CityStateZipOf(LineAt(lines, i)).trailing)
      ensures DateFieldsShaped(filled.0, filled.1, filled.2)
      ensures date.0 != "" ==> filled == date
    {
      var address := SplitCityStateZip(LineAt(lines, i));
      filled := FillDate(date, address.trailing);
      var stateZip := ParseStateZipLine(LineAt(lines, i + 1));
      place := Place(address.city, stateZip.0, stateZip.1);
    }

    /** The city line at `i` and the state line after it, with no date in them. */
    method ReadPlace(i: nat) returns (place: Place)
      ensures place == PlaceAt(lines, i)
    {
      var address := SplitCityStateZip(LineAt(lines, i));
      var stateZip := ParseStateZipLine(LineAt(lines, i + 1));
      place := Place(address.city, stateZip.0, stateZip.1);
    }

    /**
     * The employer line at `i`, an optional "Employer Mailing Address"
     * label, and the employer's address line.
     */
    method ReadEmployer(i: nat) returns (employer: (string, string), address: EmployerAddress, j: nat)
      ensures employer == ParseEmployerLine(LineAt(lines, i))
      ensures var a := SkipLabel(lines, i + 1, "Employer Mailing Address");
              address == ParseEmployerAddressLine(LineAt(lines, a)) && j == a + 1
      ensures i + 2 <= j <= i + 3
      ensures Stripped(employer.0) && Stripped(employer.1)
    {
      employer := ParseEmployerLine(LineAt(lines, i));
      j := i + 1;
      if StartsWith(LineAt(lines, j), "Employer Mailing Address") {
        j := j + 1;
      }
      address := ParseEmployerAddressLine(LineAt(lines, j));
      j := j + 1;
    }

    /** A whole-date line at `i` (`re.fullmatch`) replaces `date` and is consumed. */
    method ReadWholeDate(i: nat, date: DateTriple) returns (r: DateTriple, j: nat)
      requires DateFieldsShaped(date.0, date.1, date.2)
      ensures r == WholeDateOr(lines, i, date) && j == PastDate(lines, i)
      ensures DateFieldsShaped(r.0, r.1, r.2)
    {
      r, j := date, i;
      var fullDate := LineDate(lines, i);
      if fullDate.Some? {
        r := fullDate.value;
        j := i + 1;
      }
    }

    /** `amount = parse_amount(line)`, and the line is consumed when it held one. */
    method ReadAmount(i: nat) returns (amount: string, j: nat)
      ensures amount == ParseAmount(LineAt(lines, i)) && j == PastAmount(lines, i)
      ensures AmountShaped(amount)
    {
      amount := ParseAmount(LineAt(lines, i));
      j := i;
      if amount != "" {
        j := j + 1;
      }
    }

    /** A "Mailing Address" line at `i` is consumed, and its date kept when it has a month. */
    method ReadMailingDate(i: nat) returns (date: DateTriple, j: nat)
      ensures date == MailingDate(lines, i) && j == SkipLabel(lines, i, "Mailing Address")
      ensures DateFieldsShaped(date.0, date.1, date.2)
    {
      date, j := NoDate, i;
      if i < |lines| && StartsWith(Clean(lines[i]), "Mailing Address") {
        var mailed := ParseDateTokens(Clean(lines[i]));
        if mailed.0 != "" {
          date := mailed;
        }
        j := i + 1;
      }
    }

    /** An optional "MO DAY YEAR" line at `i` and the amount on it. */
    method ReadPrelimAmount(i: nat) returns (amount: string, j: nat)
      ensures amount == PrelimAmount(lines, i) && j == SkipLabel(lines, i, "MO DAY YEAR")
    {
      amount, j := "", i;
      var prelim := LineAt(lines, i);
      if StartsWith(prelim, "MO DAY YEAR") {
        amount := ParseAmount(prelim);
        j := i + 1;
      }
    }

    /** An optional "Receipt Description" line at `i` and the text after its label. */
    method ReadReceipt(i: nat) returns (description: string, j: nat)
      ensures description == ReceiptAt(lines, i) && j == SkipLabel(lines, i, "Receipt Description")
    {
      description, j := "", i;
      var line := LineAt(lines, i);
      if StartsWith(line, "Receipt Description") {
        description := ReceiptDescription(line);
        j := i + 1;
      }
    }

    /** An optional line at `i` starting with "City", and the city it names. */
    method ReadCityInfo(i: nat) returns (city: string, j: nat)
      ensures city == CityInfo(lines, i) && j == SkipLabel(lines, i, "City")
    {
      city, j := "", i;
      var cityInfo := LineAt(lines, i);
      if StartsWith(cityInfo, "City") {
        var address := SplitCityStateZip(cityInfo);
        city := address.city;
        j := i + 1;
      }
    }

    // ------------------------------------------------------------ the part readers

    // Each reader's proof only composes the contracts of the pieces it calls,
    // so it starts by hiding every function body.

    /** `_parse_schedule_i_part_a`. */
    method ParseScheduleIPartA(at: nat) returns (entry: ContributionEntry, next: nat)
      ensures at < next && (next < |lines| ==> !IsBlankLine(lines[next]))
      ensures entry.schedule == "I" && entry.part == "A" && entry.page == page
      ensures entry.contributorType == "Political Committee"
      ensures entry.name == Join(NameParts(lines, AfterHeading(lines, at), AddressOnly), " ")
      ensures var n := NameEnd(lines, AfterHeading(lines, at), AddressOnly);
              var c := PastDate(lines, n + 1);
              entry.amount == ParseAmount(LineAt(lines, n))
              && (entry.month, entry.day, entry.year)
                 == FillDate(WholeDateOr(lines, n + 1, NoDate), CityStateZipOf(LineAt(lines, c)).trailing)
              && Place(entry.city, entry.state, entry.zipCode) == PlaceAt(lines, c)
              && next == FirstNonBlank(lines, c + 2)
      ensures entry.employerName == "" && entry.occupation == "" && entry.employerCity == ""
              && entry.employerState == "" && entry.employerZip == "" && entry.description == ""
      ensures AmountShaped(entry.amount) && DateFieldsShaped(entry.month, entry.day, entry.year)
      ensures (entry, next) == RecordAB(lines, page, at, "A", "Political Committee")
    {
      hide *;
      var name, i := ReadName(at, AddressOnly);
      var amount := ParseAmount(LineAt(lines, i));
      ParsedAmountShaped(LineAt(lines, i));
      NoDateShaped();
      var date;
      date, i := ReadWholeDate(i + 1, NoDate);
      var place, filled := ReadCityAndState(i, date);
      next := SkipBlankLines(i + 2);
      entry := ContributionEntry("I", "A", page, name, amount, filled.0, filled.1, filled.2,
                                 place.city, place.state, place.zipCode, "Political Committee",
                                 "", "", "", "", "", "");
      assert (entry, next) == RecordAB(lines, page, at, "A", "Political Committee") by {
        RecordABFields(lines, page, at, "A", "Political Committee");
      }
    }

    /**
     * `_parse_schedule_i_part_b`: a date standing alone on the line before
     * the city. The source also asks that line to be non-empty, which a
     * whole date always is.
     */
    method ParseScheduleIPartB(at: nat) returns (entry: ContributionEntry, next: nat)
      ensures at < next && (next < |lines| ==> !IsBlankLine(lines[next]))
      ensures entry.schedule == "I" && entry.part == "B" && entry.page == page
      ensures entry.contributorType == "Other"
      ensures entry.name == Join(NameParts(lines, AfterHeading(lines, at), AddressOnly), " ")
      ensures var n := NameEnd(lines, AfterHeading(lines, at), AddressOnly);
              var c := PastDate(lines, n + 1);
              entry.amount == ParseAmount(LineAt(lines, n))
              && (entry.month, entry.day, entry.year)
                 == FillDate(WholeDateOr(lines, n + 1, NoDate), CityStateZipOf(LineAt(lines, c)).trailing)
              && Place(entry.city, entry.state, entry.zipCode) == PlaceAt(lines, c)
              && next == FirstNonBlank(lines, c + 2)
      ensures entry.employerName == "" && entry.occupation == "" && entry.employerCity == ""
              && entry.employerState == "" && entry.employerZip == "" && entry.description == ""
      ensures AmountShaped(entry.amount) && DateFieldsShaped(entry.month, entry.day, entry.year)
      ensures (entry, next) == RecordAB(lines, page, at, "B", "Other")
    {
      hide *;
      var name, i := ReadName(at, AddressOnly);
      var amount := ParseAmount(LineAt(lines, i));
      ParsedAmountShaped(LineAt(lines, i));
      NoDateShaped();
      var date;
      date, i := ReadWholeDate(i + 1, NoDate);
      var place, filled := ReadCityAndState(i, date);
      next := SkipBlankLines(i + 2);
      entry := ContributionEntry("I", "B", page, name, amount, filled.0, filled.1, filled.2,
                                 place.city, place.state, place.zipCode, "Other",
                                 "", "", "", "", "", "");
      assert (entry, next) == RecordAB(lines, page, at, "B", "Other") by {
        RecordABFields(lines, page, at, "B", "Other");
      }
    }

    /** `_parse_schedule_i_part_c`: the name stops at an amount line or the mailing address. */
    method ParseScheduleIPartC(at: nat) returns (entry: ContributionEntry, next: nat)
      ensures at < next && (next < |lines| ==> !IsBlankLine(lines[next]))
      ensures entry.schedule == "I" && entry.part == "C" && entry.page == page
      ensures entry.contributorType == "Political Committee"
      ensures entry.name == Join(NameParts(lines, AfterHeading(lines, at), AmountOrAddress), " ")
      ensures var n := NameEnd(lines, AfterHeading(lines, at), AmountOrAddress);
              var l := SkipLabel(lines, PastAmount(lines, n), "Mailing Address");
              var c := PastDate(lines, l);
              entry.amount == ParseAmount(LineAt(lines, n))
              && (entry.month, entry.day, entry.year)
                 == FillDate(WholeDateOr(lines, l, NoDate), CityStateZipOf(LineAt(lines, c)).trailing)
              && Place(entry.city, entry.state, entry.zipCode) == PlaceAt(lines, c)
              && next == FirstNonBlank(lines, c + 2)
      ensures entry.employerName == "" && entry.occupation == "" && entry.employerCity == ""
              && entry.employerState == "" && entry.employerZip == "" && entry.description == ""
      ensures AmountShaped(entry.amount) && DateFieldsShaped(entry.month, entry.day, entry.year)
      ensures (entry, next) == RecordC(lines, page, at)
    {
      hide *;
      var name, i := ReadName(at, AmountOrAddress);
      var amount;
      amount, i := ReadAmount(i);
      i := SkipLabel(lines, i, "Mailing Address");
      var date;
      NoDateShaped();
      date, i := ReadWholeDate(i, NoDate);
      var place, filled := ReadCityAndState(i, date);
      next := SkipBlankLines(i + 2);
      entry := ContributionEntry("I", "C", page, name, amount, filled.0, filled.1, filled.2,
                                 place.city, place.state, place.zipCode, "Political Committee",
                                 "", "", "", "", "", "");
      assert (entry, next) == RecordC(lines, page, at) by {
        RecordCFields(lines, page, at);
      }
    }

    /**
     * The head of a Part D record: the line after the heading carries the
     * date and the amount, the name follows up to "Mailing Address", and a
     * whole-date line after the label fills in what the first date lacked.
     */
    method ReadDatedName(at: nat) returns (date: DateTriple, amount: string, name: string, i: nat)
      ensures at + 2 <= i
      ensures name == Join(NameParts(lines, at + 2, AddressOnly), " ")
      ensures var first := LineAt(lines, at + 1);
              var l := SkipLabel(lines, NameEnd(lines, at + 2, AddressOnly), "Mailing Address");
              amount == ParseAmount(first)
              && date == CompletedDate(lines, l, ParseDateTokens(first)) && i == PastDate(lines, l)
      ensures DateFieldsShaped(date.0, date.1, date.2) && AmountShaped(amount)
    {
      date, amount := ReadDateLine(LineAt(lines, at + 1));
      i := at + 2;
      name, i := CollectName(lines, i, AddressOnly);
      i := SkipLabel(lines, i, "Mailing Address");
      date, i := CompleteDate(date, i);
    }

    /** The first date and the amount on a line, either possibly missing. */
    method ReadDateLine(line: string) returns (date: DateTriple, amount: string)
      ensures date == ParseDateTokens(line) && amount == ParseAmount(line)
      ensures DateFieldsShaped(date.0, date.1, date.2) && AmountShaped(amount)
    {
      date := ParseDateTokens(line);
      amount := ParseAmount(line);
    }

    /** A whole-date line at `i` fills in the parts `date` lacks, and is consumed. */
    method CompleteDate(date: DateTriple, i: nat) returns (r: DateTriple, j: nat)
      requires DateFieldsShaped(date.0, date.1, date.2)
      ensures r == CompletedDate(lines, i, date) && j == PastDate(lines, i)
      ensures DateFieldsShaped(r.0, r.1, r.2)
      ensures LineDate(lines, i).None? ==> r == date && j == i
      ensures LineDate(lines, i).Some? ==> r == Merge(date, LineDate(lines, i).value) && j == i + 1
    {
      r, j := date, i;
      var fullDate := LineDate(lines, i);
      if fullDate.Some? {
        r := Merge(date, fullDate.value);
        j := i + 1;
      }
    }

    /** `_parse_schedule_i_part_d`: date and amount first, the employer last. */
    method ParseScheduleIPartD(at: nat) returns (entry: ContributionEntry, next: nat)
      ensures at < next && (next < |lines| ==> !IsBlankLine(lines[next]))
      ensures entry.schedule == "I" && entry.part == "D" && entry.page == page
      ensures entry.contributorType == "Other"
      ensures entry.name == Join(NameParts(lines, at + 2, AddressOnly), " ")
      ensures var first := LineAt(lines, at + 1);
              var l := SkipLabel(lines, NameEnd(lines, at + 2, AddressOnly), "Mailing Address");
              var c := PastDate(lines, l);
              var a := SkipLabel(lines, c + 3, "Employer Mailing Address");
              var address := ParseEmployerAddressLine(LineAt(lines, a));
              entry.amount == ParseAmount(first)
              && (entry.month, entry.day, entry.year) == CompletedDate(lines, l, ParseDateTokens(first))
              && Place(entry.city, entry.state, entry.zipCode) == PlaceAt(lines, c)
              && (entry.employerName, entry.occupation) == ParseEmployerLine(LineAt(lines, c + 2))
              && entry.employerCity == address.city && entry.employerState == address.state
              && entry.employerZip == address.zip && entry.description == ""
              && next == FirstNonBlank(lines, a + 1)
      ensures Stripped(entry.employerName) && Stripped(entry.occupation)
      ensures AmountShaped(entry.amount) && DateFieldsShaped(entry.month, entry.day, entry.year)
      ensures (entry, next) == RecordD(lines, page, at)
    {
      hide *;
      var date, amount, name, i := ReadDatedName(at);
      var place := ReadPlace(i);
      var employer, address, j := ReadEmployer(i + 2);
      next := SkipBlankLines(j);
      entry := ContributionEntry("I", "D", page, name, amount, date.0, date.1, date.2,
                                 place.city, place.state, place.zipCode, "Other",
                                 employer.0, employer.1, address.city, address.state, address.zip, "");
      assert (entry, next) == RecordD(lines, page, at) by {
        RecordDFields(lines, page, at);
      }
    }

    /** `_parse_schedule_i_part_e`: the amount on a "MO DAY YEAR" line, a receipt description last. */
    method ParseScheduleIPartE(at: nat) returns (entry: ContributionEntry, next: nat)
      ensures at < next && (next < |lines| ==> !IsBlankLine(lines[next]))
      ensures entry.schedule == "I" && entry.part == "E" && entry.page == page
      ensures entry.contributorType == "Receipt" && Stripped(entry.description)
      ensures var s := SkipLabel(lines, at + 1, "MO DAY YEAR");
              var l := SkipLabel(lines, NameEnd(lines, s, AddressOnly), "Mailing Address");
              var c := PastDate(lines, l);
              entry.amount == PrelimAmount(lines, at + 1)
              && entry.name == Join(NameParts(lines, s, AddressOnly), " ")
              && (entry.month, entry.day, entry.year) == WholeDateOr(lines, l, NoDate)
              && Place(entry.city, entry.state, entry.zipCode) == PlaceAt(lines, c)
              && entry.description == ReceiptAt(lines, c + 2)
              && next == FirstNonBlank(lines, SkipLabel(lines, c + 2, "Receipt Description"))
      ensures entry.employerName == "" && entry.occupation == "" && entry.employerCity == ""
              && entry.employerState == "" && entry.employerZip == ""
      ensures AmountShaped(entry.amount) && DateFieldsShaped(entry.month, entry.day, entry.year)
      ensures (entry, next) == RecordE(lines, page, at)
    {
      hide *;
      var amount, i := ReadPrelimAmount(at + 1);
      var name;
      name, i := CollectName(lines, i, AddressOnly);
      i := SkipLabel(lines, i, "Mailing Address");
      var date;
      NoDateShaped();
      date, i := ReadWholeDate(i, NoDate);
      var place := ReadPlace(i);
      var description;
      description, i := ReadReceipt(i + 2);
      next := SkipBlankLines(i);
      entry := ContributionEntry("I", "E", page, name, amount, date.0, date.1, date.2,
                                 place.city, place.state, place.zipCode, "Receipt",
                                 "", "", "", "", "", description);
      assert (entry, next) == RecordE(lines, page, at) by {
        RecordEFields(lines, page, at);
      }
    }

    /** `_parse_schedule_ii_part_g`: a date may stand on the mailing-address line. */
    method ParseScheduleIIPartG(at: nat) returns (entry: ContributionEntry, next: nat)
      ensures at < next && (next < |lines| ==> !IsBlankLine(lines[next]))
      ensures entry.schedule == "II" && entry.part == "G" && entry.page == page
      ensures entry.contributorType == "In-Kind"
      ensures entry.name == Join(NameParts(lines, AfterHeading(lines, at), AmountOrAddress), " ")
      ensures var n := NameEnd(lines, AfterHeading(lines, at), AmountOrAddress);
              var m := PastAmount(lines, n);
              var l := SkipLabel(lines, m, "Mailing Address");
              var c := PastDate(lines, l);
              var a := SkipLabel(lines, c + 3, "Employer Mailing Address");
              var address := ParseEmployerAddressLine(LineAt(lines, a));
              entry.amount == ParseAmount(LineAt(lines, n))
              && (entry.month, entry.day, entry.year) == WholeDateOr(lines, l, MailingDate(lines, m))
              && Place(entry.city, entry.state, entry.zipCode) == PlaceAt(lines, c)
              && (entry.employerName, entry.occupation) == ParseEmployerLine(LineAt(lines, c + 2))
              && entry.employerCity == address.city && entry.employerState == address.state
              && entry.employerZip == address.zip && entry.description == address.description
              && next == FirstNonBlank(lines, a + 1)
      ensures Stripped(entry.employerName) && Stripped(entry.occupation)
      ensures AmountShaped(entry.amount) && DateFieldsShaped(entry.month, entry.day, entry.year)
      ensures (entry, next) == RecordG(lines, page, at)
    {
      hide *;
      var name, i := ReadName(at, AmountOrAddress);
      var amount;
      amount, i := ReadAmount(i);
      var date;
      date, i := ReadMailingDate(i);
      date, i := ReadWholeDate(i, date);
      var place := ReadPlace(i);
      var employer, address, j := ReadEmployer(i + 2);
      next := SkipBlankLines(j);
      entry := ContributionEntry("II", "G", page, name, amount, date.0, date.1, date.2,
                                 place.city, place.state, place.zipCode, "In-Kind",
                                 employer.0, employer.1, address.city, address.state, address.zip,
                                 address.description);
      assert (entry, next) == RecordG(lines, page, at) by {
        RecordGFields(lines, page, at);
      }
    }

    /** `_parse_schedule_iii`: a payee, then a description that runs over continuation lines. */
    method ParseScheduleIII(at: nat) returns (entry: ExpenditureEntry, next: nat)
      ensures at < next && (next < |lines| ==> !IsBlankLine(lines[next]))
      ensures entry.schedule == "III" && entry.page == page
      ensures entry.payee == Join(NameParts(lines, AfterHeading(lines, at), AddressOnly), " ")
      ensures var n := NameEnd(lines, AfterHeading(lines, at), AddressOnly);
              var s := SkipLabel(lines, n + 1, "City");
              var stateZip := ParseStateZipDescriptionLine(LineAt(lines, s));
              var first := Strip(stateZip.2);
              entry.amount == ParseAmount(LineAt(lines, n))
              && (entry.month, entry.day, entry.year) == ParseDateTokens(LineAt(lines, n))
              && entry.city == CityInfo(lines, n + 1)
              && entry.state == stateZip.0 && entry.zipCode == stateZip.1
              && entry.description == Join(if first == "" then Continuations(lines, s + 1)
                                           else [first] + Continuations(lines, s + 1), " ")
              && next == FirstNonBlank(lines, DescriptionEnd(lines, s + 1))
      ensures Stripped(entry.description)
      ensures AmountShaped(entry.amount) && DateFieldsShaped(entry.month, entry.day, entry.year)
      ensures (entry, next) == RecordIII(lines, page, at)
    {
      hide *;
      var payee, i := ReadName(at, AddressOnly);
      var date, amount := ReadDateLine(LineAt(lines, i));
      i := i + 1;
      var city;
      city, i := ReadCityInfo(i);
      var stateZip := ParseStateZipDescriptionLine(LineAt(lines, i));
      i := i + 1;
      var description;
      i, description := ReadDescription(i, Strip(stateZip.2));
      next := SkipBlankLines(i);
      entry := ExpenditureEntry("III", page, payee, amount, date.0, date.1, date.2, city,
                                stateZip.0, stateZip.1, description);
      assert (entry, next) == RecordIII(lines, page, at) by {
        RecordIIIFields(lines, page, at);
      }
    }

    // ------------------------------------------------------------ parse

    /** Append a record to its list and move the cursor to where its reader stopped. */
    method Store(key: ResultList, e: Entry, next: nat)
      requires Valid() && BelongsTo(e, key) && EntryShaped(e)
      modifies this
      ensures Valid() && idx == next
      ensures results == old(results)[key := old(results)[key] + [e]]
      ensures page == old(page) && schedule == old(schedule) && part == old(part)
    {
      results := results[key := results[key] + [e]];
      idx := next;
    }

    /** A blank line, or a PAGE, SCHEDULE or PART header: the cursor moves one line. */
    method ReadHeader()
      requires Valid() && idx < |lines| && IsHeaderLine(Clean(lines[idx]))
      modifies this
      ensures Valid() && idx == old(idx) + 1 && results == old(results)
      ensures State() == Step(lines, old(State()))
      ensures var line := Clean(lines[old(idx)]);
        line == "" ==> page == old(page) && schedule == old(schedule) && part == old(part)
      ensures var line := Clean(lines[old(idx)]);
        line != "" && StartsWith(line, "PAGE ") ==>
          page == PageNumber(line) && schedule == old(schedule) && part == old(part)
      ensures var line := Clean(lines[old(idx)]);
        line != "" && !StartsWith(line, "PAGE ") && StartsWith(line, "SCHEDULE ") ==>
          schedule == line && page == old(page) && part == old(part)
      ensures var line := Clean(lines[old(idx)]);
        line != "" && !StartsWith(line, "PAGE ") && !StartsWith(line, "SCHEDULE ") ==>
          part == PartName(line) && page == old(page) && schedule == old(schedule)
    {
      var line := Clean(lines[idx]);
      if line == "" {
      } else if StartsWith(line, "PAGE ") {
        page := PageNumber(line);
      } else if StartsWith(line, "SCHEDULE ") {
        schedule := line;
      } else {
        part := PartName(line);
      }
      idx := idx + 1;
    }

    /**
     * Any other line: when it opens a record of the current schedule and
     * part, the record is read and appended to its list; otherwise the
     * cursor moves one line.
     */
    method ReadRecord()
      requires Valid() && idx < |lines| && !IsHeaderLine(Clean(lines[idx]))
      modifies this
      ensures Valid() && old(idx) < idx
      ensures page == old(page) && schedule == old(schedule) && part == old(part)
      ensures Bucket(schedule, part, Clean(lines[old(idx)])).None? ==>
        idx == old(idx) + 1 && results == old(results)
      ensures var bucket := Bucket(schedule, part, Clean(lines[old(idx)]));
        bucket.Some? ==>
          var k := bucket.value; var n := |old(results)[k]|;
          |results[k]| == n + 1 && results[k][..n] == old(results)[k]
          && results == old(results)[k := results[k]] && EntryPage(results[k][n]) == page
          && results[k][n] == RecordAt(k, lines, page, old(idx)).0 && idx == RecordAt(k, lines, page, old(idx)).1
      ensures State() == Step(lines, old(State()))
    {
      var bucket := Bucket(schedule, part, Clean(lines[idx]));
      if bucket.Some? {
        var entry, next := ReadEntry(bucket.value);
        Store(bucket.value, entry, next);
      } else {
        idx := idx + 1;
      }
    }

    /** The reader of the part that `key` names, run from the heading at the cursor. */
    method ReadEntry(key: ResultList) returns (entry: Entry, next: nat)
      ensures (entry, next) == RecordAt(key, lines, page, idx)
      ensures idx < next && BelongsTo(entry, key) && EntryShaped(entry) && EntryPage(entry) == page
    {
      hide RecordAB, RecordC, RecordD, RecordE, RecordG, RecordIII, BelongsTo, EntryShaped, EntryPage,
           NameEnd, NameParts, ParseAmount, PlaceAt, FirstNonBlank, Join, LineAt, AfterHeading;
      if key == ScheduleIPartA {
        var e;
        e, next := ParseScheduleIPartA(idx);
        entry := Contribution(e);
      } else if key == ScheduleIPartB {
        var e;
        e, next := ParseScheduleIPartB(idx);
        entry := Contribution(e);
      } else if key == ScheduleIPartC {
        var e;
        e, next := ParseScheduleIPartC(idx);
        entry := Contribution(e);
      } else if key == ScheduleIPartD {
        var e;
        e, next := ParseScheduleIPartD(idx);
        entry := Contribution(e);
      } else if key == ScheduleIPartE {
        var e;
        e, next := ParseScheduleIPartE(idx);
        entry := Contribution(e);
      } else if key == ScheduleIIPartG {
        var e;
        e, next := ParseScheduleIIPartG(idx);
        entry := Contribution(e);
      } else {
        var e;
        e, next := ParseScheduleIII(idx);
        entry := Expenditure(e);
      }
    }

    /**
     * `parse`: walk every line. Each turn moves the cursor forward, so the
     * walk ends; the lists only grow, and every record sits in its own list.
     */
    method Parse()
      requires Valid()
      modifies this
      ensures Valid() && idx >= |lines|
      ensures forall k :: k in old(results) ==> k in results && old(results)[k] <= results[k]
      ensures State() == Walk(lines, old(State()))
    {
      hide Walk, Step, RecordAt, Bucket, Clean, IsHeaderLine;
      while idx < |lines|
        invariant Valid()
        invariant forall k :: k in old(results) ==> k in results && old(results)[k] <= results[k]
        invariant Walk(lines, State()) == Walk(lines, old(State()))
        decreases |lines| - idx
      {
        ghost var before := results;
        ghost var c := State();
        WalkStep(lines, c);
        if IsHeaderLine(Clean(lines[idx])) {
          ReadHeader();
        } else {
          ReadRecord();
        }
        assert forall k :: k in before ==> k in results && before[k] <= results[k];
      }
      WalkDone(lines, State());
    }
  }
}
