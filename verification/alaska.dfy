/**
 * Helpers of the Alaska POFD (public official financial disclosure) report
 * processor (alaska_project/process_pofd_reports.py): table-cell cleaning,
 * the amount-range parser that turns phrases such as "More than $1,000 but
 * not more than $5,000" into optional integer bounds, the detector of rental
 * appendix tables, and the default header of each schedule. Table extraction
 * from the PDF is outside the model: tables arrive as rows of optional cells.
 */
module AlaskaPofd {
  import opened Optional
  import opened Text

  // ---------------------------------------------------------------- cells

  /** clean_cell: `None` becomes "", otherwise whitespace is stripped and collapsed. */
  function CleanCell(value: Option<string>): (r: string)
    ensures Collapsed(r)
    ensures value.None? ==> r == ""
    ensures value.Some? ==> Words(r) == Words(value.value)
  {
    match value
    case None => ""
    case Some(v) => WordsOfJoin(Words(v)); CollapseSpace(v)
  }

  /** The words of every cell, in order. */
  function AllWords(values: seq<Option<string>>): seq<string>
  {
    if values == [] then []
    else
      var last := values[|values| - 1];
      AllWords(values[..|values| - 1]) + (if last.Some? then Words(last.value) else [])
  }

  function LowerEach(ws: seq<string>): (r: seq<string>)
    ensures |r| == |ws| && forall i :: 0 <= i < |ws| ==> r[i] == Lower(ws[i])
  {
    seq(|ws|, i requires 0 <= i < |ws| => Lower(ws[i]))
  }

  /**
   * flatten_values: the cleaned non-empty cells joined by single spaces and
   * lower-cased; that is, every word of every cell, lower-cased, in order.
   */
  method FlattenValues(values: seq<Option<string>>) returns (r: string)
    ensures r == Join(LowerEach(AllWords(values)), " ")
    ensures Collapsed(r)
  {
    var parts: seq<string> := [];
    var i := 0;
    while i < |values|
      invariant 0 <= i <= |values|
      invariant Join(parts, " ") == Join(AllWords(values[..i]), " ")
      invariant parts == [] <==> AllWords(values[..i]) == []
    {
      assert values[..i + 1][..i] == values[..i];
      var cleaned := CleanCell(values[i]);
      if cleaned != "" {
        ghost var ws := Words(values[i].value);
        assert cleaned == Join(ws, " ") && ws != [];
        assert AllWords(values[..i + 1]) == AllWords(values[..i]) + ws;
        JoinOne(cleaned, " ");
        if parts != [] {
          JoinAppend(parts, [cleaned], " ");
          JoinAppend(AllWords(values[..i]), ws, " ");
        } else {
          assert AllWords(values[..i]) + ws == ws;
        }
        assert Join(parts + [cleaned], " ") == Join(AllWords(values[..i + 1]), " ");
        parts := parts + [cleaned];
      } else {
        assert AllWords(values[..i + 1]) == AllWords(values[..i]) + [];
        assert AllWords(values[..i + 1]) == AllWords(values[..i]);
      }
      i := i + 1;
    }
    assert values[..i] == values;
    r := Lower(Join(parts, " "));
    AllWordsAreWords(values);
    LowerJoin(AllWords(values));
    LowerWords(AllWords(values));
    JoinCollapsed(LowerEach(AllWords(values)));
  }

  lemma {:induction false} LowerJoin(ws: seq<string>)
    ensures Lower(Join(ws, " ")) == Join(LowerEach(ws), " ")
  {
    if |ws| > 1 {
      LowerJoin(ws[1..]);
      assert LowerEach(ws)[1..] == LowerEach(ws[1..]);
      assert Lower(ws[0] + " " + Join(ws[1..], " ")) == Lower(ws[0]) + " " + Lower(Join(ws[1..], " "));
    }
  }

  lemma LowerWords(ws: seq<string>)
    requires forall i :: 0 <= i < |ws| ==> IsWord(ws[i])
    ensures forall i :: 0 <= i < |ws| ==> IsWord(LowerEach(ws)[i])
  {
  }

  /** Words of every cell survive flattening, lower-cased and in order. */
  lemma FlattenWords(values: seq<Option<string>>)
    ensures Words(Join(LowerEach(AllWords(values)), " ")) == LowerEach(AllWords(values))
  {
    AllWordsAreWords(values);
    LowerWords(AllWords(values));
    WordsOfJoin(LowerEach(AllWords(values)));
  }

  lemma {:induction false} AllWordsAreWords(values: seq<Option<string>>)
    ensures forall i :: 0 <= i < |AllWords(values)| ==> IsWord(AllWords(values)[i])
  {
    if values != [] {
      AllWordsAreWords(values[..|values| - 1]);
    }
  }

  // ---------------------------------------------------------------- amount bounds

  /** The three kinds of value an amount cell can hold (floats are not modelled). */
  datatype AmountInput = NoAmount | IntAmount(n: int) | TextAmount(text: string)

  predicate IsAmountChar(c: char) { IsDigit(c) || c == ',' }

  /** The length of the leading run of digits and commas. */
  function AmountRunLen(s: string): (n: nat)
    ensures n <= |s|
    ensures forall i :: 0 <= i < n ==> IsAmountChar(s[i])
    ensures n < |s| ==> !IsAmountChar(s[n])
  {
    if s == [] || !IsAmountChar(s[0]) then 0 else 1 + AmountRunLen(s[1..])
  }

  /**
   * The numbers `AMOUNT_NUMBER_RE.findall` extracts, commas removed: scanning
   * left to right, every digit not already consumed starts a number that runs
   * over the following digits and commas. The optional `$` and whitespace in
   * front of the group never change which groups are found.
   */
  function AmountNumbers(s: string): seq<nat>
    decreases |s|
  {
    if s == [] then []
    else if IsDigit(s[0]) then
      var n := AmountRunLen(s);
      var digits := RemoveChars(s[..n], {','});
      RemoveCommasDigits(s[..n]);
      [DigitsValue(digits)] + AmountNumbers(s[n..])
    else AmountNumbers(s[1..])
  }

  predicate HasRangeIndicator(text: string) {
    var lower := Lower(text);
    Contains(text, "-") || Contains(lower, "between")
    || (Contains(lower, "from") && (Contains(lower, "to") || Contains(lower, "through")))
  }

  predicate HasUpperIndicator(lower: string) {
    Contains(lower, "not more than") || Contains(lower, "no more than") || Contains(lower, "or less")
    || Contains(lower, "less than or equal") || Contains(lower, "less than") || Contains(lower, "up to")
    || Contains(lower, "at most")
  }

  /** A lower-bound phrase, looked for after "not more than" and "no more than" are removed. */
  predicate HasLowerIndicator(lower: string) {
    var sanitized := RemoveAll(RemoveAll(lower, "not more than"), "no more than");
    Contains(sanitized, "more than") || Contains(sanitized, "at least")
    || Contains(sanitized, "greater than") || Contains(sanitized, "minimum")
  }

  /** The phrases of an amount text that decide how its numbers are read. */
  datatype Phrases = Phrases(range: bool, joined: bool, upper: bool, lower: bool, orMore: bool)

  function PhrasesOf(text: string): Phrases
  {
    var lower := Lower(text);
    Phrases(HasRangeIndicator(text), Contains(lower, " and "), HasUpperIndicator(lower),
            HasLowerIndicator(lower), Contains(lower, "or more"))
  }

  /** How parse_amount_bounds reads the (non-empty) numbers of a text given its phrases. */
  function Bounds(numbers: seq<nat>, ph: Phrases): (r: (Option<int>, Option<int>))
    requires numbers != []
    ensures r.0.Some? ==> r.0.value == numbers[0] as int || r.0.value == numbers[|numbers| - 1] as int
    ensures r.1.Some? ==> r.1.value == numbers[0] as int || r.1.value == numbers[|numbers| - 1] as int
    ensures |numbers| == 1 ==> r.0.Some? || r.1.Some?
  {
    var first, last := numbers[0] as int, numbers[|numbers| - 1] as int;
    // a range, or several numbers tied by "and" or a bound phrase
    var (min1, max1) :=
      if ph.range || (|numbers| >= 2 && (ph.joined || ph.upper || ph.lower))
      then (Some(first), if |numbers| > 1 then Some(last) else None)
      else (None, None);
    // an upper-bound phrase
    var (min2, max2) := if ph.upper then (if |numbers| > 1 then Some(first) else min1, Some(last)) else (min1, max1);
    // "or more" overrides; otherwise a lower-bound phrase fills a missing minimum
    var (min3, max3) :=
      if ph.orMore then (Some(last), None)
      else if ph.lower && min2.None? then (Some(first), max2)
      else (min2, max2);
    if |numbers| == 1 && min3.None? && max3.None? then (Some(first), Some(first)) else (min3, max3)
  }

  /** parse_amount_bounds: the optional lower and upper bound an amount cell states. */
  function ParseAmountBounds(amount: AmountInput): (r: (Option<int>, Option<int>))
  {
    match amount
    case NoAmount => (None, None)
    case IntAmount(v) => (Some(v), Some(v))
    case TextAmount(raw) =>
      var text := Strip(raw);
      var numbers := AmountNumbers(text);
      if text == [] || numbers == [] then (None, None) else Bounds(numbers, PhrasesOf(text))
  }

  lemma {:induction false} AmountNumbersEmpty(s: string)
    ensures AmountNumbers(s) == [] <==> !HasDigit(s)
    decreases |s|
  {
    if s != [] {
      if IsDigit(s[0]) {
        assert HasDigit(s);
      } else {
        AmountNumbersEmpty(s[1..]);
        assert HasDigit(s) <==> HasDigit(s[1..]) by {
          if HasDigit(s) {
            var i :| 0 <= i < |s| && IsDigit(s[i]);
            assert s[1..][i - 1] == s[i];
          }
          if HasDigit(s[1..]) {
            var i :| 0 <= i < |s[1..]| && IsDigit(s[1..][i]);
            assert s[i + 1] == s[1..][i];
          }
        }
      }
    }
  }

  lemma StripKeepsNoDigit(s: string)
    requires !HasDigit(s)
    ensures !HasDigit(Strip(s))
  {
    var l := LStrip(s);
    var r := RStrip(l);
    LStripRemovesSpace(s);
    RStripRemovesSpace(l);
    forall i | 0 <= i < |r| ensures !IsDigit(r[i]) {
      assert r[i] == l[i] == s[|s| - |l| + i];
    }
  }

  /** No amount, a blank text or a text without a digit gives no bounds; an integer stands for itself. */
  lemma NoBounds(amount: AmountInput)
    ensures amount.NoAmount? ==> ParseAmountBounds(amount) == (None, None)
    ensures amount.IntAmount? ==> ParseAmountBounds(amount) == (Some(amount.n), Some(amount.n))
    ensures amount.TextAmount? && (Blank(amount.text) || !HasDigit(amount.text)) ==> ParseAmountBounds(amount) == (None, None)
  {
    if amount.TextAmount? && (Blank(amount.text) || !HasDigit(amount.text)) {
      StripEmpty(amount.text);
      if !HasDigit(amount.text) {
        StripKeepsNoDigit(amount.text);
        AmountNumbersEmpty(Strip(amount.text));
      }
    }
  }

  /** A text with digits is read by its numbers and phrases. */
  lemma TextBounds(raw: string)
    requires HasDigit(Strip(raw))
    ensures AmountNumbers(Strip(raw)) != []
    ensures ParseAmountBounds(TextAmount(raw)) == Bounds(AmountNumbers(Strip(raw)), PhrasesOf(Strip(raw)))
  {
    AmountNumbersEmpty(Strip(raw));
  }

  /** A single number with no range, upper, lower or "or more" phrase is both bounds. */
  lemma SingleNumberBounds(n: nat, ph: Phrases)
    requires !ph.range && !ph.upper && !ph.lower && !ph.orMore
    ensures Bounds([n], ph) == (Some(n as int), Some(n as int))
  {
  }

  /** "or more" makes the last number the minimum and leaves no maximum, whatever else the text says. */
  lemma OrMoreBounds(numbers: seq<nat>, ph: Phrases)
    requires numbers != [] && ph.orMore
    ensures Bounds(numbers, ph) == (Some(numbers[|numbers| - 1] as int), None)
  {
  }

  /** A single number under an upper-bound phrase, with no other bound phrase, is a maximum only. */
  lemma UpperOnlyBounds(n: nat, ph: Phrases)
    requires ph.upper && !ph.range && !ph.lower && !ph.orMore
    ensures Bounds([n], ph) == (None, Some(n as int))
  {
  }

  /** A single number under a lower-bound phrase alone is a minimum only. */
  lemma LowerOnlyBounds(n: nat, ph: Phrases)
    requires ph.lower && !ph.range && !ph.upper && !ph.orMore
    ensures Bounds([n], ph) == (Some(n as int), None)
  {
  }

  /** A range of two or more numbers runs from the first to the last. */
  lemma RangeBounds(numbers: seq<nat>, ph: Phrases)
    requires |numbers| >= 2 && (ph.range || ph.joined || ph.upper || ph.lower) && !ph.orMore
    ensures Bounds(numbers, ph) == (Some(numbers[0] as int), Some(numbers[|numbers| - 1] as int))
  {
  }

  /** Several numbers with no phrase relating them give no bounds. */
  lemma UnrelatedNumbersBounds(numbers: seq<nat>)
    requires |numbers| >= 2
    ensures Bounds(numbers, Phrases(false, false, false, false, false)) == (None, None)
  {
  }

  // ---------------------------------------------------------------- rental appendix

  datatype RentalRow = RentalRow(owner: string, kind: string, detail: string, description: string, amount: string)

  /** The (detail, amount) pairs of a table: first two cells cleaned, rows with neither dropped. */
  function CleanedPairs(table: seq<seq<Option<string>>>): seq<(string, string)>
  {
    if table == [] then []
    else
      var row := table[|table| - 1];
      var rest := CleanedPairs(table[..|table| - 1]);
      if row == [] then rest
      else
        var detail := CleanCell(row[0]);
        var amount := if |row| > 1 then CleanCell(row[1]) else "";
        if detail == "" && amount == "" then rest else rest + [(detail, amount)]
  }

  predicate MentionsRentalIncome(pairs: seq<(string, string)>) {
    exists i :: 0 <= i < |pairs| && Contains(Lower(pairs[i].0), "rental income")
  }

  /** A "total (usd)" line whose amount is a more-than amount. */
  predicate IsRentalTotal(p: (string, string)) {
    Contains(Lower(p.0), "total (usd)")
    && (Contains(Lower(p.1), "more than $") || Contains(Lower(p.1), "not more than $"))
  }

  function CountRentalTotals(pairs: seq<(string, string)>): nat
  {
    if pairs == [] then 0
    else CountRentalTotals(pairs[..|pairs| - 1]) + if IsRentalTotal(pairs[|pairs| - 1]) then 1 else 0
  }

  /** A pair that becomes an output row: both parts present, not a heading. */
  predicate IsAppendixLine(p: (string, string)) {
    p.0 != "" && p.1 != "" && Lower(p.0) != "rental income" && !StartsWith(Lower(p.0), "date range")
  }

  function AppendixRows(pairs: seq<(string, string)>): seq<RentalRow>
  {
    if pairs == [] then []
    else
      var p := pairs[|pairs| - 1];
      AppendixRows(pairs[..|pairs| - 1])
      + if IsAppendixLine(p) then [RentalRow("Filer", "Rental", p.0, "", p.1)] else []
  }

  /**
   * extract_rental_appendix_rows: the rows of a supplemental rental table, or
   * `None` when the table has no usable pair, is not recognisably a rental
   * table, or yields no row.
   */
  method ExtractRentalAppendixRows(table: seq<seq<Option<string>>>) returns (r: Option<seq<RentalRow>>)
    ensures var pairs := CleanedPairs(table);
      r == if pairs == [] || (!MentionsRentalIncome(pairs) && CountRentalTotals(pairs) < 3) || AppendixRows(pairs) == []
           then None else Some(AppendixRows(pairs))
  {
    var pairs := CollectPairs(table);
    if pairs == [] {
      return None;
    }
    if !MentionsRentalIncome(pairs) && CountRentalTotals(pairs) < 3 {
      return None;
    }
    var extracted := CollectAppendixRows(pairs);
    r := if extracted == [] then None else Some(extracted);
  }

  /** The first loop of `extract_rental_appendix_rows`: the cleaned, non-blank pairs of the table. */
  method CollectPairs(table: seq<seq<Option<string>>>) returns (pairs: seq<(string, string)>)
    ensures pairs == CleanedPairs(table)
  {
    pairs := [];
    var i := 0;
    while i < |table|
      invariant 0 <= i <= |table|
      invariant pairs == CleanedPairs(table[..i])
    {
      assert table[..i + 1][..i] == table[..i];
      var row := table[i];
      if row != [] {
        var detail := CleanCell(row[0]);
        var amount := if |row| > 1 then CleanCell(row[1]) else "";
        if detail != "" || amount != "" {
          pairs := pairs + [(detail, amount)];
        }
      }
      i := i + 1;
    }
    assert table[..i] == table;
  }

  /** The second loop of `extract_rental_appendix_rows`: one row per pair with a detail and an amount. */
  method CollectAppendixRows(pairs: seq<(string, string)>) returns (extracted: seq<RentalRow>)
    ensures extracted == AppendixRows(pairs)
  {
    extracted := [];
    var j := 0;
    while j < |pairs|
      invariant 0 <= j <= |pairs|
      invariant extracted == AppendixRows(pairs[..j])
    {
      assert pairs[..j + 1][..j] == pairs[..j];
      var (detail, amount) := pairs[j];
      var lowered := Lower(detail);
      if detail != "" && amount != "" && lowered != "rental income" && !StartsWith(lowered, "date range") {
        extracted := extracted + [RentalRow("Filer", "Rental", detail, "", amount)];
      }
      j := j + 1;
    }
    assert pairs[..j] == pairs;
  }

  /** Every appendix row is the filer's rental income with a detail and an amount. */
  lemma {:induction false} AppendixRowsShape(pairs: seq<(string, string)>)
    ensures forall k :: 0 <= k < |AppendixRows(pairs)| ==>
      var row := AppendixRows(pairs)[k];
      row.owner == "Filer" && row.kind == "Rental" && row.description == ""
      && row.detail != "" && row.amount != "" && Lower(row.detail) != "rental income"
  {
    if pairs != [] {
      AppendixRowsShape(pairs[..|pairs| - 1]);
    }
  }

  /** A usable pair always yields an appendix row, so a recognised table with one is never `None`. */
  lemma {:induction false} AppendixRowsNonEmpty(pairs: seq<(string, string)>, i: nat)
    requires i < |pairs| && IsAppendixLine(pairs[i])
    ensures AppendixRows(pairs) != []
  {
    if i < |pairs| - 1 {
      AppendixRowsNonEmpty(pairs[..|pairs| - 1], i);
    }
  }

  // ---------------------------------------------------------------- schedule headers

  /** SCHEDULE_HEADER_MAP, in its insertion order. */
  const SCHEDULE_HEADER_MAP: seq<(seq<string>, string)> := [
    (["Owner", "Type", "Detail", "Description", "Amount"], "Income"),
    (["Owner", "Type", "Detail", "Description / Interest"], "Interests"),
    (["Owner", "Type", "Name"], "LoansAndDebts"),
    (["Owner", "Type of Lease", "Lease/Contract ID", "Interest", "Status", "Description"], "Leases"),
    (["Associated Person", "Description"], "CloseEconomicAssociations"),
    (["Name", "Address", "Compensation"], "LobbyistPartnerEmployers")
  ]

  /** SCHEDULE_DISPLAY_COLUMNS. */
  function DisplayColumns(name: string): Option<seq<string>>
  {
    if name == "Income" then Some(["Owner", "Type", "Detail", "Description", "Amount", "Amount Minimum", "Amount Maximum"])
    else if name == "Interests" then Some(["Owner", "Type", "Detail", "Description / Interest"])
    else if name == "LoansAndDebts" then Some(["Owner", "Type", "Name"])
    else if name == "Leases" then Some(["Owner", "Type of Lease", "Lease/Contract ID", "Interest", "Status", "Description"])
    else if name == "CloseEconomicAssociations" then Some(["Associated Person", "Description"])
    else if name == "LobbyistPartnerEmployers" then Some(["Name", "Address", "Compensation"])
    else None
  }

  /** The schedule a header maps to, by dictionary lookup. */
  function HeaderSchedule(header: seq<string>, entries: seq<(seq<string>, string)>): Option<string>
  {
    if entries == [] then None
    else if entries[0].0 == header then Some(entries[0].1)
    else HeaderSchedule(header, entries[1..])
  }

  function FirstHeaderFor(name: string, entries: seq<(seq<string>, string)>): Option<seq<string>>
  {
    if entries == [] then None
    else if entries[0].1 == name then Some(entries[0].0)
    else FirstHeaderFor(name, entries[1..])
  }

  /** get_default_header: the first header that maps to the schedule, else its display columns, else (). */
  function GetDefaultHeader(name: string): seq<string>
  {
    match FirstHeaderFor(name, SCHEDULE_HEADER_MAP)
    case Some(h) => h
    case None => if DisplayColumns(name).Some? then DisplayColumns(name).value else []
  }

  /**
   * Every schedule with display columns has a default header that maps back
   * to it; any other name has the empty header.
   */
  lemma {:induction false} NoHeaderFor(name: string, entries: seq<(seq<string>, string)>)
    requires forall i :: 0 <= i < |entries| ==> entries[i].1 != name
    ensures FirstHeaderFor(name, entries) == None
  {
    if entries != [] {
      NoHeaderFor(name, entries[1..]);
    }
  }

  lemma DefaultHeaderRoundTrip(name: string)
    ensures DisplayColumns(name).Some? ==> HeaderSchedule(GetDefaultHeader(name), SCHEDULE_HEADER_MAP) == Some(name)
    ensures DisplayColumns(name).None? ==> GetDefaultHeader(name) == []
  {
    if DisplayColumns(name).None? {
      NoHeaderFor(name, SCHEDULE_HEADER_MAP);
    }
  }
}
