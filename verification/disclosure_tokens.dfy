/**
 * Cell cleaning and the token classifiers of the federal financial-disclosure
 * splitter (`disclosure_parser/split_schedules.py`).  A classifier looks at the
 * text of one word of a PDF page and says what kind of value it is: an owner
 * code, a dollar value, a date, a transaction type, and so on.  The page
 * segmenters use these answers to move a word that sits under the wrong
 * column heading back to the column it belongs to.
 */
module DisclosureTokens {
  import opened Optional
  import opened Text

  // ---------------------------------------------------------------- schedules

  /** The nine schedules of a disclosure report. */
  datatype Schedule =
    | ScheduleA | ScheduleB | ScheduleC | ScheduleD | ScheduleE
    | ScheduleF | ScheduleG | ScheduleH | ScheduleI

  /** The column headings written for each schedule (`SCHEDULE_COLUMNS`). */
  function ScheduleColumns(s: Schedule): seq<string>
  {
    match s
    case ScheduleA => ["Asset", "Owner", "Value of Asset", "Income Type(s)", "Income", "Tx. > $1,000?"]
    case ScheduleB => ["Asset", "Owner", "Date", "Tx. Type", "Amount", "Cap. Gains > $200?"]
    case ScheduleC => ["Source", "Type", "Amount"]
    case ScheduleD => ["Owner", "Creditor", "Date Incurred", "Type", "Amount of Liability"]
    case ScheduleE => ["Position", "Name of Organization"]
    case ScheduleF => ["Date", "Parties To", "Terms of Agreement"]
    case ScheduleG => ["Source", "Description", "Value"]
    case ScheduleH => ["Date(s)", "City and State", "Nature of Event", "Item(s) Provided/Expenses Paid", "Provided By"]
    case ScheduleI => ["Date(s)", "Payee", "Amount"]
  }

  // ---------------------------------------------------------------- keyword tables

  const OwnerCodes: set<string> := {
    "SP", "SELF", "JT", "DC", "CH", "SC", "SC/DC", "SC/CH", "SELF/SP",
    "SELF/CH", "SELF/SC", "SELF/DC", "FAM", "TRUST", "N/A", "U/A",
    "UGMA", "KIDS", "SPOUSE", "SELF/SPOUSE", "SON", "DAUGHTER", "CHILD",
    "SELFANDCHILD", "SELFANDSPOUSE", "SPOUSEANDCHILD", "SELF/SPOUSE/CHILD",
    "SELF&CHILD", "SELF&SPOUSE", "SELF/CHILD"
  }

  const OwnerAliases: set<string> := {
    "Self", "Spouse", "Child", "Son", "Daughter", "Self/Spouse",
    "Self/Child", "Spouse/Child", "Self & Spouse", "Self & Child",
    "Self/Spouse/Child", "Trust", "Custodian", "Grandchild", "Dependent",
    "Guardian"
  }

  const IncomeKeywords: seq<string> := [
    "tax", "defer", "dividend", "interest", "income", "gains", "royalties",
    "rent", "capital", "trust", "annu", "partnership", "salary", "loss"
  ]

  const ScheduleADescriptionPrefixes: seq<string> := [
    "d :", "d:", "l :", "l:", "location :", "location:", "description :",
    "description:", "details :", "details:", "issuer :", "issuer:"
  ]

  const ScheduleBDescriptionPrefixes: seq<string> := [
    "d :", "d:", "c :", "c:", "l :", "l:", "location :", "location:",
    "description :", "description:", "details :", "details:", "issuer :", "issuer:"
  ]

  const TxTypeKeywords: seq<string> := [
    "purchase", "purchased", "sale", "sold", "sell", "buy", "bought",
    "acquisition", "dispose", "disposition", "exchange", "transfer",
    "gift", "exercise", "exercised", "redeem", "redemption",
    "contribution", "distribution", "withdrawal", "deposit", "vest",
    "vesting", "assignment", "conversion", "write", "option", "grant", "award"
  ]

  const TxTypeShortTokens: set<string> := {"p", "s", "e", "x", "g", "sp", "sd", "ex"}

  const RangeConnectorTokens: set<string> := {"-", "\U{2013}", "\U{2014}"}
  const RangeWordTokens: set<string> := {"over", "under", "between"}
  const RangeWordPrefixes: seq<string> := ["over ", "under ", "between "]
  const RangePhrasePrefixes: seq<string> := ["at least", "at most", "less than", "more than", "greater than"]
  const ComparisonPhrases: seq<string> := ["less than", "more than", "greater than"]

  const ValueNonNumericKeywords: set<string> := {"none", "n/a", "unknown", "variable", "varies", "var."}
  const IncomeAmountKeywords: set<string> := ValueNonNumericKeywords + {"not applicable"}
  const CapitalGainFlags: set<string> := {"yes", "no", "n/a", "na", "none"}

  /** `s` starts with one of `ps`. */
  predicate StartsWithSome(s: string, ps: seq<string>)
  {
    exists k :: 0 <= k < |ps| && StartsWith(s, ps[k])
  }

  /** One of `ps` occurs in `s`. */
  predicate ContainsSome(s: string, ps: seq<string>)
  {
    exists k :: 0 <= k < |ps| && Contains(s, ps[k])
  }

  // ---------------------------------------------------------------- cells

  /**
   * `clean_cell` on a string: NUL and no-break spaces become spaces, then
   * the text is trimmed and every run of whitespace becomes one space.
   */
  function Clean(text: string): (r: string)
    ensures Stripped(r) && Collapsed(r)
    ensures forall i :: 0 <= i < |r| ==> r[i] != '\U{0000}' && r[i] != '\U{00A0}'
    ensures Words(r) == Words(ReplaceChar(ReplaceChar(text, '\U{0000}', ' '), '\U{00A0}', ' '))
  {
    var spaced := ReplaceChar(ReplaceChar(text, '\U{0000}', ' '), '\U{00A0}', ' ');
    assert forall c :: c in spaced ==> c != '\U{0000}' && c != '\U{00A0}';
    WordsOfJoin(Words(spaced));
    var r := CollapseSpace(spaced);
    assert forall i :: 0 <= i < |r| ==> r[i] in r;
    r
  }

  /** `clean_cell` on a cell that may be missing: a missing cell is empty. */
  function CleanCell(cell: Option<string>): (r: string)
    ensures Stripped(r) && Collapsed(r)
    ensures cell.None? ==> r == ""
  {
    match cell
    case None => ""
    case Some(text) => Clean(text)
  }

  lemma ReplaceAbsent(s: string, a: char, b: char)
    requires forall i :: 0 <= i < |s| ==> s[i] != a
    ensures ReplaceChar(s, a, b) == s
  {
  }

  /** Cleaning a clean cell changes nothing. */
  lemma CleanIdempotent(text: string)
    ensures Clean(Clean(text)) == Clean(text)
  {
    var c := Clean(text);
    ReplaceAbsent(c, '\U{0000}', ' ');
    ReplaceAbsent(c, '\U{00A0}', ' ');
    CollapseSpaceIdempotent(ReplaceChar(ReplaceChar(text, '\U{0000}', ' '), '\U{00A0}', ' '));
  }

  /** `normalise_word_text`: NUL becomes a space, then the text is trimmed. */
  function NormaliseWordText(text: string): (r: string)
    ensures Stripped(r)
  {
    Strip(ReplaceChar(text, '\U{0000}', ' '))
  }

  // ---------------------------------------------------------------- classifiers

  /** `is_range_indicator`: a dash, a range word, a trailing `+`, or a comparison phrase. */
  predicate IsRangeIndicator(text: string)
  {
    var cleaned := Lower(Strip(text));
    cleaned != ""
    && (cleaned in RangeConnectorTokens
        || cleaned in RangeWordTokens
        || EndsWith(cleaned, "+")
        || StartsWithSome(cleaned, RangeWordPrefixes)
        || StartsWithSome(cleaned, RangePhrasePrefixes))
  }

  /** `is_value_token`: a dollar or percent sign, a digit, a value keyword, a comparison or a range. */
  predicate IsValueToken(text: string)
  {
    text != ""
    && var cleaned := Strip(text);
       var lowered := Lower(cleaned);
       '$' in cleaned || '%' in cleaned || HasDigit(cleaned)
       || lowered in ValueNonNumericKeywords
       || ContainsSome(lowered, ComparisonPhrases)
       || IsRangeIndicator(cleaned)
  }

  /** `is_income_amount_token`: an income keyword, or anything `is_value_token` accepts. */
  predicate IsIncomeAmountToken(text: string)
  {
    text != "" && (Lower(Strip(text)) in IncomeAmountKeywords || IsValueToken(text))
  }

  /** `is_owner_token`: an owner code (with or without `/ - &` and spaces) or an owner alias. */
  predicate IsOwnerToken(text: string)
  {
    Upper(text) in OwnerCodes
    || Upper(RemoveChars(text, {'/', '-', '&', ' '})) in OwnerCodes
    || Strip(text) in OwnerAliases
  }

  /** `is_income_type_token`: one of the income keywords occurs in the text. */
  predicate IsIncomeTypeToken(text: string)
  {
    ContainsSome(Lower(text), IncomeKeywords)
  }

  /** `is_schedule_a_description_fragment`: a cleaned text opening with a Schedule A sub-label. */
  predicate IsScheduleADescriptionFragment(text: string)
  {
    text != "" && StartsWithSome(Lower(Clean(text)), ScheduleADescriptionPrefixes)
  }

  /** `is_schedule_b_description_fragment`: a cleaned text opening with a Schedule B sub-label. */
  predicate IsScheduleBDescriptionFragment(text: string)
  {
    text != "" && StartsWithSome(Lower(Clean(text)), ScheduleBDescriptionPrefixes)
  }

  /** A digit or a comma: the characters of `[\d,]`. */
  predicate IsAmountChar(c: char) { IsDigit(c) || c == ',' }

  /**
   * `TRANSACTION_AMOUNT_PATTERN.search(s)`: a `$` followed by a digit or a
   * comma somewhere in `s` (the optional second half of the pattern never
   * decides whether it is found).
   */
  predicate HasDollarAmount(s: string)
  {
    exists i :: 0 <= i < |s| - 1 && s[i] == '$' && IsAmountChar(s[i + 1])
  }

  /** `is_transaction_amount_token`. */
  predicate IsTransactionAmountToken(text: string)
  {
    text != ""
    && var cleaned := Strip(text);
       var lowered := Lower(cleaned);
       cleaned != ""
       && (lowered in ValueNonNumericKeywords
           || ContainsSome(lowered, ComparisonPhrases)
           || (StartsWithSome(lowered, ["over ", "under ", "approximately ", "approx "]) && '$' in cleaned)
           || (Contains(lowered, " between ") && '$' in cleaned)
           || cleaned in RangeConnectorTokens
           || HasDollarAmount(cleaned))
  }

  /** `is_tx_type_token`: a one- or two-letter type code, or a transaction keyword inside the text. */
  predicate IsTxTypeToken(text: string)
  {
    text != ""
    && var lowered := Lower(Strip(text));
       lowered in TxTypeShortTokens || ContainsSome(lowered, TxTypeKeywords)
  }

  /** `\d{1,2}/\d{1,2}/\d{2,4}` matched against the whole of `s`. */
  predicate IsSlashDate(s: string)
  {
    var parts := SplitOn(s, '/');
    |parts| == 3 && DigitsBetween(parts[0], 1, 2) && DigitsBetween(parts[1], 1, 2) && DigitsBetween(parts[2], 2, 4)
  }

  /** `\d{4}-\d{1,2}-\d{1,2}` matched against the whole of `s`. */
  predicate IsIsoDate(s: string)
  {
    var parts := SplitOn(s, '-');
    |parts| == 3 && DigitsBetween(parts[0], 4, 4) && DigitsBetween(parts[1], 1, 2) && DigitsBetween(parts[2], 1, 2)
  }

  /** The characters `is_date_token` trims after the whitespace. */
  const DatePunctuation: set<char> := {',', '.', ';'}

  /**
   * `is_date_token`: after trimming whitespace and then `,.;` from both ends
   * the text is a whole slash date or a whole ISO date.  Both patterns begin
   * and end with a digit, so their `\b` anchors always hold.
   */
  predicate IsDateToken(text: string)
  {
    text != ""
    && var cleaned := StripSet(Strip(text), DatePunctuation);
       cleaned != "" && (IsSlashDate(cleaned) || IsIsoDate(cleaned))
  }

  /** `is_capital_gain_flag`: yes, no, n/a, na or none, in any case. */
  predicate IsCapitalGainFlag(text: string)
  {
    text != "" && Lower(Strip(text)) in CapitalGainFlags
  }

  // ---------------------------------------------------------------- classifier properties

  lemma StripSetKeeps(s: string, cs: set<char>)
    requires s != [] && s[0] !in cs && s[|s| - 1] !in cs
    ensures StripSet(s, cs) == s
  {
  }

  lemma DatePartsSplit(a: string, b: string, c: string, sep: char)
    requires AllDigits(a) && AllDigits(b) && AllDigits(c) && !IsDigit(sep)
    ensures SplitOn(a + [sep] + b + [sep] + c, sep) == [a, b, c]
  {
    assert sep !in a && sep !in b && sep !in c;
    SplitOnNone(c, sep);
    SplitOnFirst(b, sep, c);
    assert a + [sep] + b + [sep] + c == a + [sep] + (b + [sep] + c);
    SplitOnFirst(a, sep, b + [sep] + c);
  }

  /**
   * A month, a day and a year of the accepted lengths, written with slashes,
   * make a date token, and so do they with a trailing comma or full stop.
   */
  lemma SlashDateIsDateToken(m: string, d: string, y: string, tail: string)
    requires DigitsBetween(m, 1, 2) && DigitsBetween(d, 1, 2) && DigitsBetween(y, 2, 4)
    requires tail == "" || tail == "," || tail == "."
    ensures IsDateToken(m + "/" + d + "/" + y + tail)
  {
    var s := m + "/" + d + "/" + y;
    var t := s + tail;
    assert t[0] == m[0] && s[|s| - 1] == y[|y| - 1];
    StripOfStripped(t);
    StripSetKeeps(s, DatePunctuation);
    if tail != "" {
      assert t[..|t| - 1] == s;
    }
    assert StripSet(t, DatePunctuation) == s;
    DatePartsSplit(m, d, y, '/');
  }

  /** A year, a month and a day written with dashes make a date token. */
  lemma IsoDateIsDateToken(y: string, m: string, d: string)
    requires DigitsBetween(y, 4, 4) && DigitsBetween(m, 1, 2) && DigitsBetween(d, 1, 2)
    ensures IsDateToken(y + "-" + m + "-" + d)
  {
    var s := y + "-" + m + "-" + d;
    assert s[0] == y[0] && s[|s| - 1] == d[|d| - 1];
    StripOfStripped(s);
    StripSetKeeps(s, DatePunctuation);
    DatePartsSplit(y, m, d, '-');
  }

  /** A plain dollar figure is a value, an income amount and a transaction amount. */
  lemma DollarFigureIsAmount(digits: string)
    requires digits != "" && AllDigits(digits)
    ensures IsValueToken("$" + digits)
    ensures IsIncomeAmountToken("$" + digits)
    ensures IsTransactionAmountToken("$" + digits)
  {
    var s := "$" + digits;
    assert s[|s| - 1] == digits[|digits| - 1];
    StripOfStripped(s);
    assert s[0] == '$' && IsAmountChar(s[1]);
  }

  /** Every range indicator also counts as a value token. */
  lemma RangeIndicatorIsValue(text: string)
    requires IsRangeIndicator(text)
    ensures IsValueToken(text)
  {
    StripOfStripped(Strip(text));
  }

  /**
   * The classifiers that strip their input first do not see whitespace
   * around a word.
   */
  lemma ClassifiersIgnorePadding(text: string)
    ensures IsValueToken(text) == IsValueToken(Strip(text))
    ensures IsIncomeAmountToken(text) == IsIncomeAmountToken(Strip(text))
    ensures IsTransactionAmountToken(text) == IsTransactionAmountToken(Strip(text))
    ensures IsTxTypeToken(text) == IsTxTypeToken(Strip(text))
    ensures IsDateToken(text) == IsDateToken(Strip(text))
  {
    StripOfStripped(Strip(text));
  }

  /** Every value token is an income amount token. */
  lemma ValueIsIncomeAmount(text: string)
    requires IsValueToken(text)
    ensures IsIncomeAmountToken(text)
  {
  }

  /** The income amount keyword "not applicable" is no value token. */
  lemma NotApplicableIncomeOnly()
    ensures IsIncomeAmountToken("not applicable") && !IsValueToken("not applicable")
  {
    var na := "not applicable";
    StripOfStripped(na);
    assert Lower(na) == na;
    assert !HasDigit(na) && '$' !in na && '%' !in na;
    NotApplicableNoComparison();
    NotApplicableNoRange();
  }

  /** No comparison phrase occurs in "not applicable". */
  lemma NotApplicableNoComparison()
    ensures !ContainsSome("not applicable", ComparisonPhrases)
  {
    forall k | 0 <= k < |ComparisonPhrases|
      ensures !Contains("not applicable", ComparisonPhrases[k])
    {
      NotContained("not applicable", ComparisonPhrases[k]);
    }
  }

  /** "not applicable" is not a range indicator: no trailing `+`, no range word or phrase in front. */
  lemma NotApplicableNoRange()
    ensures !IsRangeIndicator("not applicable")
  {
    var na := "not applicable";
    StripOfStripped(na);
    assert Lower(na) == na;
    assert !EndsWith(na, "+");
    assert forall k :: 0 <= k < |RangeWordPrefixes| ==> !StartsWith(na, RangeWordPrefixes[k]);
    assert forall k :: 0 <= k < |RangePhrasePrefixes| ==> !StartsWith(na, RangePhrasePrefixes[k]);
  }

  /** "not applicable" holds none of the comparison phrases: no phrase's first letter stands early enough in it. */
  lemma NotContained(na: string, p: string)
    requires na == "not applicable" && p in ComparisonPhrases
    ensures !Contains(na, p)
  {
    forall j: nat ensures !OccursAt(na, p, j) {
      if j + |p| <= |na| {
        assert na[j..j + |p|][0] == na[j] != p[0];
      }
    }
    NoOccurrence(na, p);
  }

  /** An owner code is recognised in any letter case. */
  lemma OwnerCodeAnyCase(text: string)
    requires Upper(text) in OwnerCodes
    ensures IsOwnerToken(text) && IsOwnerToken(Lower(text))
  {
    UpperOfLower(text);
  }

  /** A capital-gain flag is recognised in any letter case. */
  lemma CapitalGainFlagAnyCase(text: string)
    requires Stripped(text) && Lower(text) in CapitalGainFlags
    ensures IsCapitalGainFlag(text) && IsCapitalGainFlag(Upper(text))
  {
    StripOfStripped(text);
    var up := Upper(text);
    assert Stripped(up);
    StripOfStripped(up);
    assert forall i :: 0 <= i < |text| ==> ToLower(ToUpper(text[i])) == ToLower(text[i]);
    assert Lower(up) == Lower(text);
  }

  /** A text holding an income keyword, in any letter case, is an income type. */
  lemma IncomeKeywordAnyCase(before: string, word: string, after: string, k: nat)
    requires k < |IncomeKeywords| && Lower(word) == IncomeKeywords[k]
    ensures IsIncomeTypeToken(before + word + after)
  {
    LowerAppend(before + word, after);
    LowerAppend(before, word);
    ContainsSelf(Lower(before), IncomeKeywords[k], Lower(after));
  }

  /** A word holding a transaction keyword, in any letter case, is a transaction type. */
  lemma TxKeywordAnyCase(before: string, word: string, after: string, k: nat)
    requires k < |TxTypeKeywords| && Lower(word) == TxTypeKeywords[k]
    requires Stripped(before + word + after)
    ensures IsTxTypeToken(before + word + after)
  {
    StripOfStripped(before + word + after);
    LowerAppend(before + word, after);
    LowerAppend(before, word);
    ContainsSelf(Lower(before), TxTypeKeywords[k], Lower(after));
  }

  /**
   * Schedule B's sub-labels are Schedule A's with `c :` and `c:` added, so
   * every Schedule A description fragment is also one of Schedule B.
   */
  lemma ScheduleAFragmentIsScheduleB(text: string)
    requires IsScheduleADescriptionFragment(text)
    ensures IsScheduleBDescriptionFragment(text)
  {
    var k :| 0 <= k < |ScheduleADescriptionPrefixes|
             && StartsWith(Lower(Clean(text)), ScheduleADescriptionPrefixes[k]);
    var j := if k < 2 then k else k + 2;
    assert ScheduleBDescriptionPrefixes[j] == ScheduleADescriptionPrefixes[k];
  }

  // ---------------------------------------------------------------- Schedule B noise rows

  /** `^[\s\W\d]+$` on the whole text: no character is an ASCII letter or `_`. */
  predicate NoisePattern(s: string)
  {
    |s| > 0 && forall i :: 0 <= i < |s| ==> IsSpace(s[i]) || !IsWordChar(s[i]) || IsDigit(s[i])
  }

  /** `re.sub(r"\s+", "", s)`: every whitespace character removed. */
  function DropSpace(s: string): (r: string)
    ensures forall i :: 0 <= i < |s| && !IsSpace(s[i]) ==> s[i] in r
  {
    if s == [] then []
    else
      var rest := DropSpace(s[1..]);
      assert forall i :: 1 <= i < |s| ==> s[i] == s[1..][i - 1];
      (if IsSpace(s[0]) then [] else [s[0]]) + rest
  }

  predicate HasLetter(s: string) { exists i :: 0 <= i < |s| && IsAlpha(s[i]) }

  /** `re.search(r"[A-Za-z]{3,}", s)`: three ASCII letters in a row. */
  predicate HasLetterRun(s: string)
  {
    exists i :: 0 <= i < |s| - 2 && IsAlpha(s[i]) && IsAlpha(s[i + 1]) && IsAlpha(s[i + 2])
  }

  /** `is_noise_schedule_b_row`, with its three tests in the source's order. */
  predicate IsNoiseScheduleBRow(row: seq<string>)
  {
    if row == [] then false
    else
      var asset := Clean(row[0]);
      if asset == "" then false
      else if NoisePattern(asset) then true
      else if !HasLetter(DropSpace(asset)) then true
      else !HasLetterRun(asset)
  }

  /**
   * The noise rows are exactly those whose cleaned first cell is not empty
   * and has no run of three ASCII letters: the first two tests only ever
   * accept texts the third accepts as well.
   */
  lemma NoiseRowIff(row: seq<string>)
    ensures IsNoiseScheduleBRow(row) <==> row != [] && Clean(row[0]) != "" && !HasLetterRun(Clean(row[0]))
  {
    if row != [] {
      var asset := Clean(row[0]);
      if HasLetterRun(asset) {
        var i :| 0 <= i < |asset| - 2 && IsAlpha(asset[i]) && IsAlpha(asset[i + 1]) && IsAlpha(asset[i + 2]);
        assert !(IsSpace(asset[i]) || !IsWordChar(asset[i]) || IsDigit(asset[i]));
        assert asset[i] in DropSpace(asset);
      }
    }
  }

  // ---------------------------------------------------------------- header lookup

  /** `normalise_header`: every cell cleaned, empty ones dropped. */
  function NormaliseHeader(row: seq<Option<string>>): (r: seq<string>)
    ensures forall i :: 0 <= i < |r| ==> r[i] != "" && Collapsed(r[i]) && Clean(r[i]) == r[i]
    ensures |r| <= |row|
  {
    if row == [] then []
    else
      var cell := CleanCell(row[0]);
      assert Clean(cell) == cell by {
        if row[0].Some? { CleanIdempotent(row[0].value); }
      }
      (if cell == "" then [] else [cell]) + NormaliseHeader(row[1..])
  }

  /** Every label given back as a present cell. */
  function Present(labels: seq<string>): (r: seq<Option<string>>)
    ensures |r| == |labels| && forall i :: 0 <= i < |r| ==> r[i] == Some(labels[i])
  {
    seq(|labels|, i requires 0 <= i < |labels| => Some(labels[i]))
  }

  /** Labels that are clean and not empty come back unchanged. */
  lemma {:induction false} NormaliseCleanLabels(labels: seq<string>)
    requires forall i :: 0 <= i < |labels| ==> labels[i] != "" && Clean(labels[i]) == labels[i]
    ensures NormaliseHeader(Present(labels)) == labels
  {
    hide Clean;
    if labels != [] {
      assert Present(labels)[1..] == Present(labels[1..]);
      NormaliseCleanLabels(labels[1..]);
    }
  }

  /** A normalised header normalises to itself. */
  lemma NormaliseHeaderIdempotent(row: seq<Option<string>>)
    ensures NormaliseHeader(Present(NormaliseHeader(row))) == NormaliseHeader(row)
  {
    NormaliseCleanLabels(NormaliseHeader(row));
  }

  /** The header's labels in lower case. */
  function LowerAll(header: seq<string>): (r: seq<string>)
    ensures |r| == |header| && forall i :: 0 <= i < |r| ==> r[i] == Lower(header[i])
  {
    seq(|header|, i requires 0 <= i < |header| => Lower(header[i]))
  }

  /** `identify_schedule`: the schedule a table header belongs to, checked in the source's order. */
  function IdentifySchedule(header: seq<string>): Option<Schedule>
  {
    var lowered := LowerAll(header);
    if "asset" in lowered && "value of asset" in lowered && "income type(s)" in lowered then Some(ScheduleA)
    else if "cap. gains > $200?" in lowered || "tx. type" in lowered then Some(ScheduleB)
    else if (set l | l in lowered) == {"source", "type", "amount"} then Some(ScheduleC)
    else if "amount of liability" in lowered then Some(ScheduleD)
    else if "name of organization" in lowered then Some(ScheduleE)
    else if "terms of agreement" in lowered then Some(ScheduleF)
    else if "item(s) provided/expenses paid" in lowered || "nature of event" in lowered then Some(ScheduleH)
    else if "description" in lowered && "value" in lowered && "source" in lowered then Some(ScheduleG)
    else if "payee" in lowered && "date(s)" in lowered then Some(ScheduleI)
    else None
  }

  /** The headings are compared in lower case, so their letter case never matters. */
  lemma IdentifyIgnoresCase(header: seq<string>)
    ensures IdentifySchedule(LowerAll(header)) == IdentifySchedule(header)
  {
    forall i | 0 <= i < |header| ensures Lower(Lower(header[i])) == Lower(header[i]) {
      LowerIdempotent(header[i]);
    }
    assert LowerAll(LowerAll(header)) == LowerAll(header);
  }

  /** Each schedule's own column headings identify that schedule. */
  lemma IdentifiesOwnColumns(s: Schedule)
    ensures IdentifySchedule(ScheduleColumns(s)) == Some(s)
  {
    match s
    case ScheduleA => IdentifiesA();
    case ScheduleB => IdentifiesB();
    case ScheduleC => IdentifiesC();
    case ScheduleD => IdentifiesD();
    case ScheduleE => IdentifiesE();
    case ScheduleF => IdentifiesF();
    case ScheduleG => IdentifiesG();
    case ScheduleH => IdentifiesH();
    case ScheduleI => IdentifiesI();
  }

  lemma IdentifiesA()
    ensures IdentifySchedule(ScheduleColumns(ScheduleA)) == Some(ScheduleA)
  {
    var lowered := LowerAll(ScheduleColumns(ScheduleA));
    assert lowered[0] == "asset" && lowered[2] == "value of asset" && lowered[3] == "income type(s)";
  }

  lemma IdentifiesB()
    ensures IdentifySchedule(ScheduleColumns(ScheduleB)) == Some(ScheduleB)
  {
    var lowered := LowerAll(ScheduleColumns(ScheduleB));
    assert lowered[5] == "cap. gains > $200?";
  }

  lemma IdentifiesC()
    ensures IdentifySchedule(ScheduleColumns(ScheduleC)) == Some(ScheduleC)
  {
    var lowered := LowerAll(ScheduleColumns(ScheduleC));
    assert lowered[0] == "source" && lowered[1] == "type" && lowered[2] == "amount";
    assert (set l | l in lowered) == {"source", "type", "amount"};
  }

  lemma IdentifiesD()
    ensures IdentifySchedule(ScheduleColumns(ScheduleD)) == Some(ScheduleD)
  {
    var lowered := LowerAll(ScheduleColumns(ScheduleD));
    assert lowered[4] == "amount of liability";
    assert lowered[4] in (set l | l in lowered);
    assert lowered[0][0] == 'o' && lowered[1][0] == 'c';
  }

  lemma IdentifiesE()
    ensures IdentifySchedule(ScheduleColumns(ScheduleE)) == Some(ScheduleE)
  {
    var lowered := LowerAll(ScheduleColumns(ScheduleE));
    assert lowered[0] == "position" && lowered[1] == "name of organization";
  }

  lemma IdentifiesF()
    ensures IdentifySchedule(ScheduleColumns(ScheduleF)) == Some(ScheduleF)
  {
    var lowered := LowerAll(ScheduleColumns(ScheduleF));
    assert lowered[2] == "terms of agreement";
  }

  lemma IdentifiesG()
    ensures IdentifySchedule(ScheduleColumns(ScheduleG)) == Some(ScheduleG)
  {
    var lowered := LowerAll(ScheduleColumns(ScheduleG));
    assert lowered[0] == "source" && lowered[1] == "description" && lowered[2] == "value";
  }

  lemma IdentifiesH()
    ensures IdentifySchedule(ScheduleColumns(ScheduleH)) == Some(ScheduleH)
  {
    var lowered := LowerAll(ScheduleColumns(ScheduleH));
    assert lowered[2] == "nature of event";
  }

  lemma IdentifiesI()
    ensures IdentifySchedule(ScheduleColumns(ScheduleI)) == Some(ScheduleI)
  {
    var lowered := LowerAll(ScheduleColumns(ScheduleI));
    assert lowered[0] == "date(s)" && lowered[1] == "payee" && lowered[2] == "amount";
  }
}
