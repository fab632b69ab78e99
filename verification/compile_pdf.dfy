/**
 * The line-oriented parser of extracted campaign-finance text
 * (finance_pipeline/compile_pdf_to_csv.py): small splitters for amounts,
 * dates, city/state/zip and employer lines, the cursor loops that collect a
 * name or skip blank lines, and the document parser whose cursor walks the
 * lines, tracks page, schedule and part, and hands each record to the parser
 * of its part. Regular expressions are written out as matchers; each says
 * why the regular-expression engine's backtracking cannot pick a different
 * match.
 */
module CompilePdf {
  import opened Optional
  import opened Text

  // ---------------------------------------------------------------- lines

  /** `clean`: surrounding whitespace removed (HTML entities are not decoded in this model). */
  function Clean(line: string): (r: string)
    ensures Stripped(r) && |r| <= |line|
  {
    Strip(line)
  }

  /** `is_blank`: nothing is left once the line is cleaned. */
  predicate IsBlankLine(line: string) { Clean(line) == "" }

  /** The cleaned line `i`, or "" past the end: the `... if idx < len(self.lines) else ""` idiom. */
  function LineAt(lines: seq<string>, i: nat): (r: string)
    ensures Stripped(r)
  {
    if i < |lines| then Clean(lines[i]) else ""
  }

  /** The end of the run of whitespace that starts at `k` (`\s*`, greedy). */
  function SpaceEnd(s: string, k: nat): (r: nat)
    requires k <= |s|
    ensures k <= r <= |s|
    ensures forall j {:trigger IsSpace(s[j])} :: k <= j < r ==> IsSpace(s[j])
    ensures r < |s| ==> !IsSpace(s[r])
    decreases |s| - k
  {
    if k < |s| && IsSpace(s[k]) then SpaceEnd(s, k + 1) else k
  }

  // ---------------------------------------------------------------- parse_amount

  predicate IsAmountChar(c: char) { IsDigit(c) || c == ',' }

  /** The end of the run of `[\d,]` characters that starts at `k` (greedy). */
  function AmountRunEnd(s: string, k: nat): (r: nat)
    requires k <= |s|
    ensures k <= r <= |s|
    ensures forall j {:trigger IsAmountChar(s[j])} :: k <= j < r ==> IsAmountChar(s[j])
    ensures r < |s| ==> !IsAmountChar(s[r])
    decreases |s| - k
  {
    if k < |s| && IsAmountChar(s[k]) then AmountRunEnd(s, k + 1) else k
  }

  /** Text of the shape `[\d,]+\.\d{2}`. */
  predicate IsAmountText(a: string) {
    |a| >= 4 && a[|a| - 3] == '.' && IsDigit(a[|a| - 2]) && IsDigit(a[|a| - 1])
    && forall j :: 0 <= j < |a| - 3 ==> IsAmountChar(a[j])
  }

  /**
   * The group of `\$ ([\d,]+\.\d{2})` matched at `i`. Only the longest run of
   * `[\d,]` can be followed by the `.`: a shorter run is followed by another
   * digit or comma, so backtracking finds nothing else.
   */
  function AmountAt(s: string, i: nat): (r: Option<string>)
    ensures r.Some? ==> IsAmountText(r.value) && i + 2 + |r.value| <= |s|
    ensures r.Some? ==> s[i] == '$' && s[i + 1] == ' ' && s[i + 2..i + 2 + |r.value|] == r.value
  {
    if i + 2 <= |s| && s[i] == '$' && s[i + 1] == ' ' then
      var e := AmountRunEnd(s, i + 2);
      if e > i + 2 && e + 3 <= |s| && s[e] == '.' && IsDigit(s[e + 1]) && IsDigit(s[e + 2]) then
        Some(s[i + 2..e + 3])
      else None
    else None
  }

  /** `re.search`: the first position from `i` at which the amount pattern matches. */
  function AmountFrom(s: string, i: nat): (r: Option<nat>)
    requires i <= |s|
    ensures r.Some? ==> i <= r.value < |s| && AmountAt(s, r.value).Some?
    ensures r.Some? ==> forall j :: i <= j < r.value ==> AmountAt(s, j).None?
    ensures r.None? ==> forall j :: i <= j ==> AmountAt(s, j).None?
    decreases |s| - i
  {
    if i == |s| then None
    else if AmountAt(s, i).Some? then Some(i)
    else AmountFrom(s, i + 1)
  }

  /** `parse_amount`: the amount after the first "$ " that has one, or "". */
  function ParseAmount(text: string): (r: string)
    ensures r == "" || IsAmountText(r)
    ensures r == "" <==> forall j :: AmountAt(text, j).None?
  {
    match AmountFrom(text, 0)
    case None => ""
    case Some(i) => AmountAt(text, i).value
  }

  /** The amount after the first "$ " of a line is read back whatever follows it. */
  lemma AmountAfterDollar(p: string, a: string, t: string)
    requires '$' !in p && IsAmountText(a)
    ensures ParseAmount(p + "$ " + a + t) == a
  {
    var s := p + "$ " + a + t;
    AmountRightAfterDollar(p, a, t);
    forall j: nat | j < |p| ensures AmountAt(s, j).None? {
      assert s[j] == p[j];
    }
  }

  lemma AmountRightAfterDollar(p: string, a: string, t: string)
    requires IsAmountText(a)
    ensures AmountAt(p + "$ " + a + t, |p|) == Some(a)
  {
    var s := p + "$ " + a + t;
    var k := |p|;
    assert s[k] == '$' && s[k + 1] == ' ';
    var e := k + 2 + |a| - 3;
    forall j | k + 2 <= j < e ensures IsAmountChar(s[j]) {
      assert s[j] == a[j - k - 2];
    }
    assert s[e] == a[|a| - 3] == '.';
    AmountRunEndAt(s, k + 2, e);
    assert s[e + 1] == a[|a| - 2] && s[e + 2] == a[|a| - 1];
    assert s[k + 2..e + 3] == a;
  }

  lemma {:induction false} AmountRunEndAt(s: string, k: nat, e: nat)
    requires k <= e < |s| && !IsAmountChar(s[e])
    requires forall j :: k <= j < e ==> IsAmountChar(s[j])
    ensures AmountRunEnd(s, k) == e
    decreases e - k
  {
    if k < e {
      AmountRunEndAt(s, k + 1, e);
    }
  }

  // ---------------------------------------------------------------- parse_date_tokens

  /** `\d{1,2}` at `k`, greedy: 2 when two digits are there, 1 when one is, 0 for no match. */
  function Digits12(s: string, k: nat): (n: nat)
    requires k <= |s|
    ensures n <= 2 && k + n <= |s|
    ensures forall j {:trigger IsDigit(s[j])} :: k <= j < k + n ==> IsDigit(s[j])
    ensures n < 2 ==> k + n == |s| || !IsDigit(s[k + n])
  {
    if k < |s| && IsDigit(s[k]) then (if k + 1 < |s| && IsDigit(s[k + 1]) then 2 else 1) else 0
  }

  /** A month, day and year as the date pattern captures them, and where the match ends. */
  datatype DateMatch = DateMatch(month: string, day: string, year: string, end: nat)

  predicate DateShaped(m: DateMatch) {
    DigitsBetween(m.month, 1, 2) && DigitsBetween(m.day, 1, 2) && DigitsBetween(m.year, 4, 4)
  }

  /**
   * `(\d{1,2})\s+(\d{1,2})\s+(\d{4})` matched at `i`. Backtracking finds no
   * other match: a one-digit group is only tried when a second digit
   * follows, where `\s+` fails, and a shorter `\s+` leaves whitespace where
   * a digit is needed.
   */
  function DateAt(s: string, i: nat): (r: Option<DateMatch>)
    requires i <= |s|
    ensures r.Some? ==> DateShaped(r.value) && r.value.end <= |s|
  {
    var a := Digits12(s, i);
    if a == 0 then None
    else
      var j := SpaceEnd(s, i + a);
      if j == i + a then None
      else
        var b := Digits12(s, j);
        if b == 0 then None
        else
          var k := SpaceEnd(s, j + b);
          if k == j + b || k + 4 > |s| || !AllDigits(s[k..k + 4]) then None
          else Some(DateMatch(s[i..i + a], s[j..j + b], s[k..k + 4], k + 4))
  }

  /** `re.search` with the date pattern: the first position from `i` where it matches. */
  function DateFrom(s: string, i: nat): (r: Option<nat>)
    requires i <= |s|
    ensures r.Some? ==> i <= r.value <= |s| && DateAt(s, r.value).Some?
    ensures r.Some? ==> forall j :: i <= j < r.value ==> DateAt(s, j).None?
    ensures r.None? ==> forall j :: i <= j <= |s| ==> DateAt(s, j).None?
    decreases |s| - i
  {
    if DateAt(s, i).Some? then Some(i)
    else if i == |s| then None
    else DateFrom(s, i + 1)
  }

  /** `parse_date_tokens`: month, day and year of the first date in the text, or three empty strings. */
  function ParseDateTokens(text: string): (r: (string, string, string))
    ensures r == ("", "", "") || DateShaped(DateMatch(r.0, r.1, r.2, 0))
  {
    match DateFrom(text, 0)
    case None => ("", "", "")
    case Some(i) =>
      var m := DateAt(text, i).value;
      (m.month, m.day, m.year)
  }

  /** The three parts are empty exactly when the text holds no date anywhere. */
  lemma ParseDateTokensNone(text: string)
    ensures ParseDateTokens(text) == ("", "", "") <==> forall j: nat :: j <= |text| ==> DateAt(text, j).None?
  {
    if DateFrom(text, 0).Some? {
      var i := DateFrom(text, 0).value;
      assert DateShaped(DateAt(text, i).value);
    }
  }

  /** `re.fullmatch` with the date pattern: the date is the whole line. */
  function FullDate(s: string): (r: Option<DateMatch>)
    ensures r.Some? ==> DateShaped(r.value) && r.value.end == |s|
  {
    var m := DateAt(s, 0);
    if m.Some? && m.value.end == |s| then m else None
  }

  /** A line that is a whole date splits into exactly its month, day and year. */
  lemma FullDateWords(s: string)
    requires FullDate(s).Some?
    ensures var m := FullDate(s).value; Words(s) == [m.month, m.day, m.year]
  {
    var a := Digits12(s, 0);
    var j := SpaceEnd(s, a);
    var e := j + Digits12(s, j);
    var k := SpaceEnd(s, e);
    assert FullDate(s).value == DateMatch(s[..a], s[j..e], s[k..k + 4], k + 4);
    assert 0 < a < j < e < k && k + 4 == |s|;
    assert s[k..k + 4] == s[k..];
    assert AllDigits(s[..a]) && AllDigits(s[j..e]) && AllDigits(s[k..]);
    assert Blank(s[a..j]) by {
      forall i | 0 <= i < j - a ensures IsSpace(s[a..j][i]) { assert s[a..j][i] == s[a + i]; }
    }
    assert Blank(s[e..k]) by {
      forall i | 0 <= i < k - e ensures IsSpace(s[e..k][i]) { assert s[e..k][i] == s[e + i]; }
    }
    DatePieces(s, a, j, e, k);
  }

  lemma DatePieces(s: string, a: nat, j: nat, e: nat, k: nat)
    requires 0 < a < j < e < k < |s|
    requires AllDigits(s[..a]) && Blank(s[a..j]) && AllDigits(s[j..e]) && Blank(s[e..k]) && AllDigits(s[k..])
    ensures Words(s) == [s[..a], s[j..e], s[k..]]
  {
    SliceFive(s, a, j, e, k);
    WordsOfDate(s[..a], s[a..j], s[j..e], s[e..k], s[k..]);
  }

  lemma SliceFive(s: string, a: nat, j: nat, e: nat, k: nat)
    requires a <= j <= e <= k <= |s|
    ensures s == s[..a] + s[a..j] + s[j..e] + s[e..k] + s[k..]
  {
    assert s[..j] == s[..a] + s[a..j];
    assert s[..e] == s[..j] + s[j..e];
    assert s[..k] == s[..e] + s[e..k];
    assert s == s[..k] + s[k..];
  }

  /** Three digit runs with whitespace between them are three words. */
  lemma WordsOfDate(m: string, w1: string, d: string, w2: string, y: string)
    requires m != [] && AllDigits(m) && d != [] && AllDigits(d) && y != [] && AllDigits(y)
    requires w1 != [] && Blank(w1) && w2 != [] && Blank(w2)
    ensures Words(m + w1 + d + w2 + y) == [m, d, y]
  {
    var tail := d + (w2 + y);
    WordsOfDayYear(d, w2, y);
    WordsSkipBlank(w1, tail);
    WordsLeadingWord(m, w1 + tail);
    Regroup(m, w1, d, w2, y);
  }

  lemma Regroup(m: string, w1: string, d: string, w2: string, y: string)
    ensures m + w1 + d + w2 + y == m + (w1 + (d + (w2 + y)))
  {
  }

  lemma WordsOfDayYear(d: string, w2: string, y: string)
    requires d != [] && AllDigits(d) && y != [] && AllDigits(y) && w2 != [] && Blank(w2)
    ensures Words(d + (w2 + y)) == [d, y]
  {
    WordsOfWord(y);
    WordsSkipBlank(w2, y);
    WordsLeadingWord(d, w2 + y);
  }

  lemma {:induction false} WordsSkipBlank(b: string, t: string)
    requires Blank(b)
    ensures Words(b + t) == Words(t)
    decreases |b|
  {
    if b != [] {
      assert IsSpace((b + t)[0]);
      assert (b + t)[1..] == b[1..] + t;
      WordsSkipBlank(b[1..], t);
    } else {
      assert b + t == t;
    }
  }

  /** One or two digits followed by something else are read as one group. */
  lemma DigitGroup(s: string, k: nat, d: string)
    requires DigitsBetween(d, 1, 2) && k + |d| < |s| && s[k..k + |d|] == d && !IsDigit(s[k + |d|])
    ensures Digits12(s, k) == |d|
  {
    assert s[k] == d[0];
    if |d| == 2 {
      assert s[k + 1] == d[1];
    }
  }

  /** A single space before a digit ends where the digit starts. */
  lemma SingleSpace(s: string, k: nat)
    requires k + 1 < |s| && s[k] == ' ' && IsDigit(s[k + 1])
    ensures SpaceEnd(s, k) == k + 1
  {
  }

  /** The date pattern at the front of a date written with single spaces. */
  lemma DateAtWritten(month: string, day: string, year: string)
    requires DateShaped(DateMatch(month, day, year, 0))
    ensures var s := month + " " + day + " " + year;
      DateAt(s, 0) == Some(DateMatch(month, day, year, |s|))
  {
    var s := month + " " + day + " " + year;
    var a, b := |month|, |day|;
    WrittenDateSlices(month, day, year);
    DigitGroup(s, 0, month);
    SingleSpace(s, a);
    DigitGroup(s, a + 1, day);
    SingleSpace(s, a + 1 + b);
  }

  /** Where the month, the day, the year and the two spaces of a written date stand. */
  lemma WrittenDateSlices(month: string, day: string, year: string)
    requires DateShaped(DateMatch(month, day, year, 0))
    ensures var s := month + " " + day + " " + year;
      var a, b := |month|, |day|;
      |s| == a + b + 6 && s[..a] == month && s[a] == ' ' && s[a + 1..a + 1 + b] == day
      && s[a + 1 + b] == ' ' && s[a + b + 2..a + b + 6] == year
      && IsDigit(s[a + 1]) && IsDigit(s[a + b + 2])
  {
    var s := month + " " + day + " " + year;
    var a, b := |month|, |day|;
    assert s[a + 1] == day[0] && s[a + b + 2] == year[0];
  }

  /** A date written with single spaces is read back whole. */
  lemma DateTokensOfWritten(month: string, day: string, year: string)
    requires DateShaped(DateMatch(month, day, year, 0))
    ensures ParseDateTokens(month + " " + day + " " + year) == (month, day, year)
  {
    DateAtWritten(month, day, year);
  }

  /**
   * `PAGE_TIMESTAMP_RE.fullmatch`: `\d{1,2}/\d{1,2}/\d{4}\s+\d{1,2}:\d{2}:\d{2}\s+[AP]M`
   * is the whole line. Each `\d{1,2}` is followed by a non-digit and each
   * `\s+` by a non-space, so the greedy choices are the only ones.
   */
  predicate IsPageTimestamp(s: string) {
    var a := Digits12(s, 0);
    a > 0 && a < |s| && s[a] == '/' &&
    var b := Digits12(s, a + 1);
    b > 0 && a + 1 + b < |s| && s[a + 1 + b] == '/' &&
    var y := a + 2 + b;
    y + 4 <= |s| && AllDigits(s[y..y + 4]) &&
    var h := SpaceEnd(s, y + 4);
    h > y + 4 &&
    var c := Digits12(s, h);
    c > 0 && h + c + 6 <= |s| && s[h + c] == ':' && AllDigits(s[h + c + 1..h + c + 3])
    && s[h + c + 3] == ':' && AllDigits(s[h + c + 4..h + c + 6]) &&
    var z := SpaceEnd(s, h + c + 6);
    z > h + c + 6 && z + 2 == |s| && (s[z] == 'A' || s[z] == 'P') && s[z + 1] == 'M'
  }

  /** A stamp "m/d/yyyy h:mm:ss AM" or "... PM", with 1-2 digit month, day and hour, is a page timestamp. */
  lemma PageTimestampOfWritten(month: string, day: string, year: string, hour: string,
                               minute: string, second: string, half: char)
    requires DigitsBetween(month, 1, 2) && DigitsBetween(day, 1, 2) && DigitsBetween(year, 4, 4)
    requires DigitsBetween(hour, 1, 2) && DigitsBetween(minute, 2, 2) && DigitsBetween(second, 2, 2)
    requires half == 'A' || half == 'P'
    ensures IsPageTimestamp(month + "/" + day + "/" + year + " " + (hour + ":" + minute + ":" + second)
                            + " " + [half, 'M'])
  {
    assert 1 <= |month| <= 2 && 1 <= |day| <= 2 && |year| == 4;
    assert 1 <= |hour| <= 2 && |minute| == 2 && |second| == 2;
    hide *;
    var date := month + "/" + day + "/" + year;
    var time := hour + ":" + minute + ":" + second;
    var u := date + " " + time;
    var s := u + " " + [half, 'M'];
    var h := |date| + 1;
    assert s[..|u|] == u && s[|u|..] == " " + [half, 'M'];
    assert u[..|date|] == date && u[|date|] == ' ' && u[h..] == time;
    assert s[..|date|] == date && s[|date|] == ' ';
    assert s[h..h + |time|] == time;
    StampDate(s, month, day, year);
    StampTime(s, h, hour, minute, second);
    TimestampAt(s, |month|, |day|, |hour|);
  }

  /** The positions a page timestamp's pieces take, read as the predicate reads them. */
  lemma TimestampAt(s: string, a: nat, b: nat, c: nat)
    requires 0 < a && a + 1 + b < |s| && Digits12(s, 0) == a && s[a] == '/'
    requires 0 < b && Digits12(s, a + 1) == b && s[a + 1 + b] == '/'
    requires a + b + 7 < |s| && AllDigits(s[a + b + 2..a + b + 6]) && s[a + b + 6] == ' '
    requires var h := a + b + 7;
      0 < c && Digits12(s, h) == c && h + c + 9 == |s| && s[h + c] == ':'
      && AllDigits(s[h + c + 1..h + c + 3]) && s[h + c + 3] == ':' && AllDigits(s[h + c + 4..h + c + 6])
      && s[h + c + 6] == ' ' && (s[h + c + 7] == 'A' || s[h + c + 7] == 'P') && s[h + c + 8] == 'M'
    ensures IsPageTimestamp(s)
  {
    var h := a + b + 7;
    assert SpaceEnd(s, h) == h;
    assert SpaceEnd(s, h - 1) == h;
    assert SpaceEnd(s, h + c + 7) == h + c + 7;
    assert SpaceEnd(s, h + c + 6) == h + c + 7;
  }

  /** The date half of a page timestamp, at the start of `s`. */
  lemma StampDate(s: string, month: string, day: string, year: string)
    requires DigitsBetween(month, 1, 2) && DigitsBetween(day, 1, 2) && DigitsBetween(year, 4, 4)
    requires |month| + |day| + 6 < |s| && s[..|month| + |day| + 6] == month + "/" + day + "/" + year
    ensures var a, b := |month|, |day|;
      Digits12(s, 0) == a && s[a] == '/' && Digits12(s, a + 1) == b && s[a + 1 + b] == '/'
      && AllDigits(s[a + b + 2..a + b + 6])
  {
    var a, b := |month|, |day|;
    var t := s[..a + b + 6];
    assert t[a] == '/' && t[a + 1 + b] == '/' && t[a + b + 2..] == year;
    assert t[..a] == month && t[a + 1..a + 1 + b] == day;
    assert s[a + b + 2..a + b + 6] == t[a + b + 2..];
  }

  /** The time half of a page timestamp, at `h` in `s`. */
  lemma StampTime(s: string, h: nat, hour: string, minute: string, second: string)
    requires DigitsBetween(hour, 1, 2) && DigitsBetween(minute, 2, 2) && DigitsBetween(second, 2, 2)
    requires h + |hour| + 6 <= |s| && s[h..h + |hour| + 6] == hour + ":" + minute + ":" + second
    ensures var c := |hour|;
      Digits12(s, h) == c && s[h + c] == ':' && AllDigits(s[h + c + 1..h + c + 3])
      && s[h + c + 3] == ':' && AllDigits(s[h + c + 4..h + c + 6])
  {
    var c := |hour|;
    var t := s[h..h + c + 6];
    assert t[c] == ':' && t[c + 3] == ':' && t[..c] == hour;
    assert t[c + 1..c + 3] == minute && t[c + 4..] == second;
    assert s[h + c + 1..h + c + 3] == t[c + 1..c + 3];
    assert s[h + c + 4..h + c + 6] == t[c + 4..];
  }

  // ---------------------------------------------------------------- split_city_state_zip

  /** The fields `split_city_state_zip` returns. */
  datatype CityStateZip = CityStateZip(city: string, stateLabel: string, stateValue: string,
                                       zipLabel: string, zipValue: string, trailing: string)

  /** `\s+State\s+` with "State" at `k`. */
  predicate StateLabelAt(s: string, k: nat) {
    1 <= k && k + 5 < |s| && IsSpace(s[k - 1]) && s[k..k + 5] == "State" && IsSpace(s[k + 5])
  }

  /** The last position below `k` with `\s+State\s+` around it. */
  function LastStateLabel(s: string, k: nat): (r: Option<nat>)
    ensures r.Some? ==> r.value < k && StateLabelAt(s, r.value)
    ensures r.Some? ==> forall j :: r.value < j < k ==> !StateLabelAt(s, j)
    ensures r.None? ==> forall j: nat :: j < k ==> !StateLabelAt(s, j)
  {
    if k == 0 then None
    else if StateLabelAt(s, k - 1) then Some(k - 1)
    else LastStateLabel(s, k - 1)
  }

  /**
   * `^City\s+(?P<city>.+)\s+State\s+(?P<rest>.*)$` on a cleaned line, with the
   * city and rest groups stripped. The greedy `.+` makes the city run up to
   * the last "State" label; when that label directly follows the first run
   * of whitespace, the engine shortens that run instead and the city is
   * whitespace, which strips to "".
   */
  function CityStateMatch(raw: string): (r: Option<(string, string)>)
    ensures r.Some? ==> StartsWith(raw, "City") && Stripped(r.value.0) && Stripped(r.value.1)
    ensures r.Some? ==> LastStateLabel(raw, |raw|).Some?
  {
    if !StartsWith(raw, "City") || |raw| <= 4 || !IsSpace(raw[4]) then None
    else
      var m := SpaceEnd(raw, 4);
      match LastStateLabel(raw, |raw|)
      case None => None
      case Some(k) =>
        if k >= m + 2 then Some((Strip(raw[m..k - 1]), Strip(raw[k + 5..])))
        else if k == m && m >= 7 then Some(("", Strip(raw[k + 5..])))
        else None
  }

  /** "City c State r", with one-word city and rest, gives back c and r. */
  lemma CityStateOfWritten(city: string, rest: string)
    requires IsWord(city) && IsWord(rest)
    ensures CityStateMatch("City " + city + " State " + rest) == Some((city, rest))
  {
    var raw := "City " + city + " State " + rest;
    var k := 6 + |city|;
    assert raw[..4] == "City" && raw[4] == ' ' && raw[5] == city[0];
    assert raw[5..k - 1] == city && raw[k - 1] == ' ' && raw[k..k + 5] == "State" && raw[k + 5] == ' ';
    assert raw[k + 5..] == " " + rest;
    assert StateLabelAt(raw, k);
    forall j | k < j < |raw| ensures !StateLabelAt(raw, j) {
      if j + 5 < |raw| {
        assert raw[j + 5] == rest[j + 5 - (k + 6)];
      }
    }
    StripOfStripped(city);
    assert (" " + rest)[1..] == rest;
    StripOfStripped(rest);
    assert Strip(" " + rest) == rest;
  }

  /** `\d{5}(?:-\d{4})?`, matched against the whole token. */
  predicate IsZipCode(z: string) {
    (|z| == 5 && AllDigits(z)) || (|z| == 10 && AllDigits(z[..5]) && z[5] == '-' && AllDigits(z[6..]))
  }

  /** The zip label at the front of the rest, and the rest after it. */
  function ZipLabel(rest: string): (string, string)
  {
    if StartsWith(rest, "Zip Code (Plus 4)") then ("Zip Code (Plus 4)", Strip(rest[17..]))
    else if StartsWith(rest, "Zip Code") then ("Zip Code", Strip(rest[8..]))
    else ("", rest)
  }

  /**
   * The token loop after a zip label, read left to right: before a zip is
   * found, "(" placeholders are skipped and the first zip-shaped token is
   * taken; every other token is kept.
   */
  function ZipScan(tokens: seq<string>): (r: (string, seq<string>))
    ensures r.0 == "" || IsZipCode(r.0)
    ensures |r.1| <= |tokens|
  {
    if tokens == [] then ("", [])
    else
      var prev := ZipScan(tokens[..|tokens| - 1]);
      var tok := Strip(tokens[|tokens| - 1]);
      if prev.0 == "" && StartsWith(tok, "(") then prev
      else if prev.0 == "" && IsZipCode(tok) then (tok, prev.1)
      else (prev.0, prev.1 + [tok])
  }

  function StripAll(tokens: seq<string>): (r: seq<string>)
    ensures |r| == |tokens| && forall i :: 0 <= i < |tokens| ==> r[i] == Strip(tokens[i])
  {
    seq(|tokens|, i requires 0 <= i < |tokens| => Strip(tokens[i]))
  }

  /**
   * The same loop read from the front: placeholders before the zip go, the
   * first zip-shaped token is the zip, and everything else stays in order.
   */
  function FirstZip(tokens: seq<string>): (string, seq<string>)
  {
    if tokens == [] then ("", [])
    else
      var tok := Strip(tokens[0]);
      if StartsWith(tok, "(") then FirstZip(tokens[1..])
      else if IsZipCode(tok) then (tok, StripAll(tokens[1..]))
      else
        var rest := FirstZip(tokens[1..]);
        (rest.0, [tok] + rest.1)
  }

  /** The left-to-right loop and the front-first reading agree. */
  lemma {:induction false} ZipScanIsFirstZip(tokens: seq<string>)
    ensures ZipScan(tokens) == FirstZip(tokens)
    decreases |tokens|
  {
    if tokens != [] {
      var init := tokens[..|tokens| - 1];
      ZipScanIsFirstZip(init);
      FirstZipAppend(init, tokens[|tokens| - 1]);
      assert init + [tokens[|tokens| - 1]] == tokens;
    }
  }

  lemma {:induction false} FirstZipAppend(tokens: seq<string>, t: string)
    ensures var f := FirstZip(tokens); var tok := Strip(t);
      FirstZip(tokens + [t]) ==
        if f.0 == "" && StartsWith(tok, "(") then f
        else if f.0 == "" && IsZipCode(tok) then (tok, f.1)
        else (f.0, f.1 + [tok])
    decreases |tokens|
  {
    var s := tokens + [t];
    if tokens == [] {
      var tok := Strip(t);
      assert s[1..] == [] && s[0] == t;
      assert FirstZip([]) == ("", []);
      if StartsWith(tok, "(") {
      } else if IsZipCode(tok) {
        assert StripAll(s[1..]) == [];
      } else {
        assert FirstZip(s) == ("", [tok] + []);
        assert [tok] + [] == FirstZip(tokens).1 + [tok];
      }
    } else {
      assert s[1..] == tokens[1..] + [t];
      FirstZipAppend(tokens[1..], t);
      var tok0 := Strip(tokens[0]);
      var tok := Strip(t);
      var r1 := FirstZip(tokens[1..]);
      if StartsWith(tok0, "(") {
      } else if IsZipCode(tok0) {
        StripAllAppend(tokens[1..], t);
        assert FirstZip(tokens).0 == tok0 != "";
      } else {
        assert FirstZip(tokens) == (r1.0, [tok0] + r1.1);
        if r1.0 == "" && StartsWith(tok, "(") {
        } else if r1.0 == "" && IsZipCode(tok) {
        } else {
          assert [tok0] + (r1.1 + [tok]) == ([tok0] + r1.1) + [tok];
        }
      }
    }
  }

  lemma StripAllAppend(tokens: seq<string>, t: string)
    ensures StripAll(tokens + [t]) == StripAll(tokens) + [Strip(t)]
  {
  }

  /** `split_city_state_zip` as a function of the line. */
  function CityStateZipOf(line: string): (r: CityStateZip)
    ensures !StartsWith(Clean(line), "City") ==> r == CityStateZip("", "", "", "", "", Clean(line))
    ensures r.stateValue == "" || IsStateCode(r.stateValue)
    ensures r.zipValue == "" || IsZipCode(r.zipValue)
    ensures r.stateLabel == "" || r.stateLabel == "State"
  {
    var raw := Clean(line);
    if !StartsWith(raw, "City") then CityStateZip("", "", "", "", "", raw)
    else
      var m := CityStateMatch(raw);
      var city := if m.Some? then m.value.0 else Strip(raw[4..]);
      var stateLabel := if m.Some? then "State" else "";
      var rest := if m.Some? then m.value.1 else "";
      if rest == "" then CityStateZip(city, stateLabel, "", "", "", "")
      else
        var tokens := Words(rest);
        var hasState := tokens != [] && IsStateCode(tokens[0]);
        var stateValue := if hasState then tokens[0] else "";
        var rest1 := if hasState then Join(tokens[1..], " ") else rest;
        var (zipLabel, rest2) := ZipLabel(rest1);
        var scan := ZipScan(Words(rest2));
        var zipValue := if zipLabel != "" then scan.0 else "";
        var rest3 := if zipLabel != "" then Join(scan.1, " ") else rest2;
        CityStateZip(city, stateLabel, stateValue, zipLabel, zipValue, Strip(rest3))
  }

  /** The token loop of `split_city_state_zip`. */
  method ScanZipTokens(tokens: seq<string>) returns (zip: string, kept: seq<string>)
    ensures (zip, kept) == ZipScan(tokens)
  {
    zip, kept := "", [];
    var i := 0;
    while i < |tokens|
      invariant i <= |tokens|
      invariant (zip, kept) == ZipScan(tokens[..i])
    {
      assert tokens[..i + 1][..i] == tokens[..i];
      var cleaned := Strip(tokens[i]);
      if zip == "" && StartsWith(cleaned, "(") {
      } else if zip == "" && IsZipCode(cleaned) {
        zip := cleaned;
      } else {
        kept := kept + [cleaned];
      }
      i := i + 1;
    }
    assert tokens[..i] == tokens;
  }

  /** `split_city_state_zip`: city, state and zip labels and values, and what is left. */
  method SplitCityStateZip(line: string) returns (r: CityStateZip)
    ensures r == CityStateZipOf(line)
  {
    var raw := Clean(line);
    if !StartsWith(raw, "City") {
      return CityStateZip("", "", "", "", "", raw);
    }
    var city, stateLabel, stateValue, zipLabel, zipValue, trailing := "", "", "", "", "", "";
    var rest: string;
    var m := CityStateMatch(raw);
    if m.Some? {
      city := m.value.0;
      rest := m.value.1;
      stateLabel := "State";
    } else {
      rest := "";
      city := Strip(raw[4..]);
    }
    if rest != "" {
      var tokens := Words(rest);
      if tokens != [] && IsStateCode(tokens[0]) {
        stateValue := tokens[0];
        rest := Join(tokens[1..], " ");
      }
      var zipSplit := ZipLabel(rest);
      zipLabel, rest := zipSplit.0, zipSplit.1;
      if zipLabel != "" {
        var kept;
        zipValue, kept := ScanZipTokens(Words(rest));
        rest := Join(kept, " ");
      }
      trailing := Strip(rest);
    }
    r := CityStateZip(city, stateLabel, stateValue, zipLabel, zipValue, trailing);
  }

  // ---------------------------------------------------------------- token splitters

  /** `parse_state_zip_line`: the first token, and the other tokens joined by single spaces. */
  function ParseStateZipLine(line: string): (r: (string, string))
    ensures Words(Clean(line)) == [] ==> r == ("", "")
    ensures Words(Clean(line)) != [] ==>
      r.0 == Words(Clean(line))[0] && r.1 == Join(Words(Clean(line))[1..], " ")
  {
    var tokens := Words(Clean(line));
    if tokens == [] then ("", "")
    else
      var state := tokens[0];
      var zip := if |tokens| > 2 then Join(tokens[1..], " ") else if |tokens| > 1 then tokens[1] else "";
      (state, zip)
  }

  /** The state and zip read back split into the line's tokens. */
  lemma StateZipTokens(line: string)
    requires Words(Clean(line)) != []
    ensures var r := ParseStateZipLine(line); [r.0] + Words(r.1) == Words(Clean(line))
  {
    var tokens := Words(Clean(line));
    WordsOfJoin(tokens[1..]);
  }

  /** The index of the first `[A-Z]{2}` token. */
  function FirstStateToken(tokens: seq<string>): (r: Option<nat>)
    ensures r.Some? ==> r.value < |tokens| && IsStateCode(tokens[r.value])
    ensures r.Some? ==> forall j :: 0 <= j < r.value ==> !IsStateCode(tokens[j])
    ensures r.None? ==> forall j :: 0 <= j < |tokens| ==> !IsStateCode(tokens[j])
  {
    if tokens == [] then None
    else if IsStateCode(tokens[0]) then Some(0)
    else match FirstStateToken(tokens[1..])
      case None => None
      case Some(k) => Some(k + 1)
  }

  /** City, state, zip and description of an employer address line. */
  datatype EmployerAddress = EmployerAddress(city: string, state: string, zip: string, description: string)

  /**
   * `parse_employer_address_line`: split at the first two-letter state
   * token, when one stands after at least one token and before another.
   */
  function ParseEmployerAddressLine(line: string): (r: EmployerAddress)
    ensures var tokens := Words(Clean(line)); var k := FirstStateToken(tokens);
      (k.None? || k.value == 0 || k.value + 1 >= |tokens| ==> r == EmployerAddress("", "", "", Clean(line)))
      && (k.Some? && 0 < k.value && k.value + 1 < |tokens| ==>
            IsStateCode(r.state) && r.state == tokens[k.value] && r.zip == tokens[k.value + 1]
            && Words(r.city) == tokens[..k.value] && Words(r.description) == tokens[k.value + 2..])
  {
    var text := Clean(line);
    if text == "" then EmployerAddress("", "", "", "")
    else
      var tokens := Words(text);
      var k := FirstStateToken(tokens);
      if k.None? || k.value == 0 || k.value + 1 >= |tokens| then EmployerAddress("", "", "", text)
      else
        var i := k.value;
        WordsOfJoin(tokens[..i]);
        WordsOfJoin(tokens[i + 2..]);
        EmployerAddress(Join(tokens[..i], " "), tokens[i], tokens[i + 1], Join(tokens[i + 2..], " "))
  }

  /** `parse_state_zip_description_line`: state, zip and the rest of a line such as "PA 191304204 Salary". */
  function ParseStateZipDescriptionLine(line: string): (r: (string, string, string))
    ensures Words(Clean(line)) == [] ==> r == ("", "", "")
  {
    StateZipDescription(Words(Clean(line)))
  }

  function StateZipDescription(tokens: seq<string>): (string, string, string)
  {
    if tokens == [] then ("", "", "")
    else
      var zip := if |tokens| > 1 then tokens[1] else "";
      var description := if |tokens| > 2 then Join(tokens[2..], " ") else "";
      (tokens[0], zip, description)
  }

  /** State, zip and description split back into exactly the line's tokens. */
  lemma StateZipDescriptionTokens(line: string)
    requires Words(Clean(line)) != []
    ensures var tokens := Words(Clean(line)); var r := ParseStateZipDescriptionLine(line);
      r.0 == tokens[0] && [r.0] + Words(r.1) + Words(r.2) == tokens
  {
    StateZipDescriptionRecompose(Words(Clean(line)));
  }

  lemma StateZipDescriptionRecompose(tokens: seq<string>)
    requires tokens != [] && forall i :: 0 <= i < |tokens| ==> IsWord(tokens[i])
    ensures var r := StateZipDescription(tokens); [r.0] + Words(r.1) + Words(r.2) == tokens
  {
    if |tokens| > 1 {
      WordsOfWord(tokens[1]);
    }
    if |tokens| > 2 {
      WordsOfJoin(tokens[2..]);
      assert tokens == [tokens[0]] + [tokens[1]] + tokens[2..];
    }
  }

  // ---------------------------------------------------------------- parse_employer_line

  /** The length of "Employer Name" or "Employer of Contributor" at the start, or 0. */
  function EmployerPrefix(text: string): (r: nat)
    ensures r == 0 || r == 13 || r == 23
    ensures r <= |text|
  {
    if StartsWith(text, "Employer Name") then 13
    else if StartsWith(text, "Employer of Contributor") then 23
    else 0
  }

  /**
   * `\s+Occupation\s+` at `e`. A shorter `\s+` leaves whitespace where the
   * `O` must stand, so only the whole whitespace run can precede the word.
   */
  predicate OccupationAt(s: string, e: nat) {
    e < |s| && IsSpace(s[e]) &&
    var f := SpaceEnd(s, e);
    OccupationWordAt(s, f) && f + 10 < |s| && IsSpace(s[f + 10])
  }

  /** The word "Occupation" stands at `f`. */
  predicate OccupationWordAt(s: string, f: nat) {
    f + 10 <= |s| && s[f..f + 10] == "Occupation"
  }

  /** Where the second group starts once `\s+Occupation\s+` matched at `e`. */
  function AfterOccupation(s: string, e: nat): (r: nat)
    requires OccupationAt(s, e)
    ensures e < r <= |s|
  {
    SpaceEnd(s, SpaceEnd(s, e) + 10)
  }

  /** The lazy `(.*?)`: the first position from `e` on where the rest of the pattern matches. */
  function FirstOccupation(s: string, e: nat): (r: Option<nat>)
    requires e <= |s|
    ensures r.Some? ==> e <= r.value < |s| && OccupationAt(s, r.value)
    ensures r.Some? ==> forall j :: e <= j < r.value ==> !OccupationAt(s, j)
    ensures r.None? ==> forall j :: e <= j < |s| ==> !OccupationAt(s, j)
    decreases |s| - e
  {
    if e == |s| then None
    else if OccupationAt(s, e) then Some(e)
    else FirstOccupation(s, e + 1)
  }

  /** The lazy search stops at the first position where the pattern matches. */
  lemma FirstOccupationIs(s: string, e: nat, k: nat)
    requires e <= k < |s| && OccupationAt(s, k)
    requires forall j :: e <= j < k ==> !OccupationAt(s, j)
    ensures FirstOccupation(s, e) == Some(k)
  {
  }

  /**
   * `parse_employer_line`: the pattern
   * `Employer (?:Name|of Contributor)\s+(.*?)\s+Occupation\s+(.*)` at the
   * start of the cleaned line, both groups stripped, or two empty strings.
   * The first `\s+` takes the whole run of whitespace after the label; the
   * lazy group then stops at the first `\s+Occupation\s+`. Only when there
   * is none does `\s+` give back a character: that succeeds exactly when the
   * run is at least two long and "Occupation" follows it, with an empty
   * employer.
   */
  function ParseEmployerLine(line: string): (r: (string, string))
    ensures Stripped(r.0) && Stripped(r.1)
    ensures EmployerPrefix(Clean(line)) == 0 ==> r == ("", "")
  {
    var text := Clean(line);
    var p := EmployerPrefix(text);
    if p == 0 || p == |text| || !IsSpace(text[p]) then ("", "")
    else
      var m := SpaceEnd(text, p);
      match FirstOccupation(text, m)
      case Some(e) => (Strip(text[m..e]), Strip(text[AfterOccupation(text, e)..]))
      case None =>
        if m >= p + 2 && OccupationAt(text, m - 1) then ("", Strip(text[AfterOccupation(text, m - 1)..]))
        else ("", "")
  }

  /**
   * An employer and an occupation written on one line are read back, as long
   * as the employer does not itself contain the word "Occupation".
   */
  lemma EmployerLineRoundTrip(head: string, employer: string, occupation: string)
    requires head == "Employer Name" || head == "Employer of Contributor"
    requires employer != [] && Stripped(employer) && NoOccupationWord(employer)
    requires occupation != [] && Stripped(occupation)
    ensures ParseEmployerLine(head + " " + employer + " Occupation " + occupation) == (employer, occupation)
  {
    var text := head + " " + employer + " Occupation " + occupation;
    var p := |head|;
    var m := p + 1;
    var e := m + |employer|;
    EmployerLineMatch(head, employer, occupation);
    EmployerLineParsed(text, text, p, m, e);
    StripOfStripped(employer);
    StripOfStripped(occupation);
    assert ParseEmployerLine(text) == (Strip(employer), Strip(occupation));
  }

  /** Where the pattern matches on a written employer line. */
  lemma EmployerLineMatch(head: string, employer: string, occupation: string)
    requires head == "Employer Name" || head == "Employer of Contributor"
    requires employer != [] && Stripped(employer) && NoOccupationWord(employer)
    requires occupation != [] && Stripped(occupation)
    ensures var text := head + " " + employer + " Occupation " + occupation;
      var p := |head|; var m := p + 1; var e := m + |employer|;
      Clean(text) == text && EmployerPrefix(text) == p && p < |text| && IsSpace(text[p])
      && SpaceEnd(text, p) == m && FirstOccupation(text, m) == Some(e)
      && AfterOccupation(text, e) == e + 12 && text[m..e] == employer && text[e + 12..] == occupation
  {
    var text := head + " " + employer + " Occupation " + occupation;
    EmployerLineLayout(head, employer, occupation);
    OccupationLayout(head + " " + employer, occupation);
    StripOfStripped(text);
    assert Clean(text) == text;
    EmployerMatchAt(text, head, employer);
  }

  /** The match on a line laid out as label, space, employer, " Occupation ", occupation. */
  lemma EmployerMatchAt(text: string, head: string, employer: string)
    requires head == "Employer Name" || head == "Employer of Contributor"
    requires employer != [] && NoOccupationWord(employer)
    requires var m := |head| + 1; var e := m + |employer|;
      e + 12 < |text| && text[..|head|] == head && text[|head|] == ' ' && text[m..e] == employer
      && !IsSpace(text[m]) && !IsSpace(text[e - 1])
      && text[e] == ' ' && text[e + 1..e + 11] == "Occupation" && text[e + 11] == ' ' && !IsSpace(text[e + 12])
    ensures var p := |head|; var m := p + 1; var e := m + |employer|;
      EmployerPrefix(text) == p && IsSpace(text[p]) && SpaceEnd(text, p) == m
      && FirstOccupation(text, m) == Some(e) && AfterOccupation(text, e) == e + 12
  {
    var p := |head|;
    var m := p + 1;
    var e := m + |employer|;
    EmployerPrefixOf(head, text);
    assert SpaceEnd(text, p) == m;
    OccupationLabelAt(text, e);
    NoOccupationWithin(text, employer, m);
    forall j | m <= j < e ensures !OccupationAt(text, j) {
      NoOccupationInside(text, m, e, j);
    }
    FirstOccupationIs(text, m, e);
  }

  /** " Occupation " at `e`, with a non-space after it, matches `\s+Occupation\s+` exactly there. */
  lemma OccupationLabelAt(text: string, e: nat)
    requires e + 12 < |text| && text[e] == ' ' && text[e + 1..e + 11] == "Occupation" && text[e + 11] == ' '
    requires !IsSpace(text[e + 12])
    ensures OccupationAt(text, e) && AfterOccupation(text, e) == e + 12
  {
    assert SpaceEnd(text, e) == e + 1;
    assert OccupationWordAt(text, e + 1);
    assert SpaceEnd(text, e + 12) == e + 12;
  }

  /** The label at the front of a line fixes the prefix length. */
  lemma EmployerPrefixOf(head: string, text: string)
    requires head == "Employer Name" || head == "Employer of Contributor"
    requires |head| <= |text| && text[..|head|] == head
    ensures EmployerPrefix(text) == |head|
  {
    if head == "Employer of Contributor" {
      assert text[9] == 'o';
    }
  }

  /** Once the match is located, the result is the two stripped groups. */
  lemma EmployerLineParsed(line: string, text: string, p: nat, m: nat, e: nat)
    requires text == Clean(line) && EmployerPrefix(text) == p && 0 < p < |text| && IsSpace(text[p])
    requires SpaceEnd(text, p) == m && FirstOccupation(text, m) == Some(e)
    ensures ParseEmployerLine(line) == (Strip(text[m..e]), Strip(text[AfterOccupation(text, e)..]))
  {
  }

  /** Where the label and the employer of a written employer line stand. */
  lemma EmployerLineLayout(head: string, employer: string, occupation: string)
    requires head == "Employer Name" || head == "Employer of Contributor"
    requires employer != [] && Stripped(employer) && occupation != [] && Stripped(occupation)
    ensures var text := head + " " + employer + " Occupation " + occupation;
      var m := |head| + 1; var e := m + |employer|;
      |text| == e + 12 + |occupation| && Stripped(text)
      && text[..|head|] == head && text[|head|] == ' ' && text[m..e] == employer
      && !IsSpace(text[m]) && !IsSpace(text[e - 1])
  {
    var front := head + " " + employer;
    var text := front + " Occupation " + occupation;
    var m := |head| + 1;
    var e := m + |employer|;
    ThreePieces(head, " ", employer);
    ThreePieces(front, " Occupation ", occupation);
    assert text[..|head|] == front[..|head|] by {
      assert text[..e] == front;
    }
    assert text[m..e] == employer;
    assert text[|head|] == front[|head|];
    assert text[m] == employer[0] && text[e - 1] == employer[|employer| - 1];
    assert text[0] == head[0] && text[|text| - 1] == occupation[|occupation| - 1];
  }

  /** Where the occupation label and the occupation of a written employer line stand. */
  lemma OccupationLayout(front: string, occupation: string)
    requires occupation != [] && Stripped(occupation)
    ensures var text := front + " Occupation " + occupation;
      var e := |front|;
      text[e] == ' ' && text[e + 1..e + 11] == "Occupation" && text[e + 11] == ' '
      && text[e + 12..] == occupation && !IsSpace(text[e + 12])
  {
    var tag := " Occupation ";
    var text := front + tag + occupation;
    var e := |front|;
    ThreePieces(front, tag, occupation);
    assert text[e + 1..e + 11] == tag[1..11];
    assert text[e] == tag[0] && text[e + 11] == tag[11];
    assert text[e + 12] == occupation[0];
  }

  /** The three pieces of a concatenation are its three slices. */
  lemma ThreePieces(a: string, b: string, c: string)
    ensures (a + b + c)[..|a|] == a && (a + b + c)[|a|..|a| + |b|] == b && (a + b + c)[|a| + |b|..] == c
  {
  }

  /**
   * Between `m` and `e` no `\s+Occupation\s+` starts when the word does
   * not occur there and a space follows: the word would lie before `e`, or
   * run over the space at `e`.
   */
  lemma NoOccupationInside(text: string, m: nat, e: nat, j: nat)
    requires m <= j < e < |text| && !IsSpace(text[e - 1]) && IsSpace(text[e])
    requires forall a :: m <= a <= e - 10 ==> !OccupationWordAt(text, a)
    ensures !OccupationAt(text, j)
  {
    if j < |text| && IsSpace(text[j]) {
      var f := SpaceEnd(text, j);
      assert f < e;
      if f + 10 <= e {
        assert !OccupationWordAt(text, f);
      } else if f + 10 <= |text| {
        SpaceBreaksWord(text, f, e);
      }
    }
  }

  /** The word cannot stand over a space. */
  lemma SpaceBreaksWord(text: string, f: nat, e: nat)
    requires f <= e < f + 10 <= |text| && IsSpace(text[e])
    ensures !OccupationWordAt(text, f)
  {
    OccupationWord();
    assert text[f..f + 10][e - f] == text[e];
  }

  lemma OccupationWord()
    ensures IsWord("Occupation")
  {
  }

  /** The word "Occupation" occurs nowhere in `s`. */
  predicate NoOccupationWord(s: string) {
    forall a :: 0 <= a <= |s| - 10 ==> !OccupationWordAt(s, a)
  }

  /** A ten-character piece of `text` lying inside `employer` is not the word. */
  lemma NoOccupationWithin(text: string, employer: string, m: nat)
    requires m + |employer| <= |text| && text[m..m + |employer|] == employer
    requires NoOccupationWord(employer)
    ensures forall a :: m <= a <= m + |employer| - 10 ==> !OccupationWordAt(text, a)
  {
    forall a | m <= a <= m + |employer| - 10 ensures !OccupationWordAt(text, a) {
      SliceWithin(text, employer, m, a, 10);
      assert !OccupationWordAt(employer, a - m);
    }
  }

  // ---------------------------------------------------------------- collect_name

  /** The line starts with one of the stop tokens. */
  predicate StartsWithAny(s: string, stops: seq<string>) {
    exists k :: 0 <= k < |stops| && StartsWith(s, stops[k])
  }

  /**
   * Where `collect_name` stops: at the first non-blank line from `i` on
   * that starts with a stop token, or at the end. From past the end it
   * stays where it is.
   */
  function NameEnd(lines: seq<string>, i: nat, stops: seq<string>): (r: nat)
    ensures i <= r && (r == i || r <= |lines|)
    ensures r < |lines| ==> !IsBlankLine(lines[r]) && StartsWithAny(Clean(lines[r]), stops)
    ensures forall j {:trigger StartsWithAny(Clean(lines[j]), stops)} :: i <= j < r ==> IsBlankLine(lines[j]) || !StartsWithAny(Clean(lines[j]), stops)
    decreases |lines| - i
  {
    if i >= |lines| then i
    else if IsBlankLine(lines[i]) || !StartsWithAny(Clean(lines[i]), stops) then NameEnd(lines, i + 1, stops)
    else i
  }

  /** The lines `collect_name` keeps, in order. */
  function NameParts(lines: seq<string>, i: nat, stops: seq<string>): (r: seq<string>)
    ensures forall k :: 0 <= k < |r| ==> r[k] != "" && Stripped(r[k]) && !StartsWithAny(r[k], stops)
    decreases |lines| - i
  {
    if i >= |lines| then []
    else if IsBlankLine(lines[i]) then NameParts(lines, i + 1, stops)
    else if StartsWithAny(Clean(lines[i]), stops) then []
    else [Clean(lines[i])] + NameParts(lines, i + 1, stops)
  }

  /** The cleaned non-blank lines of `ls`, in order. */
  function NonBlankCleaned(ls: seq<string>): seq<string>
  {
    if ls == [] then []
    else (if IsBlankLine(ls[0]) then [] else [Clean(ls[0])]) + NonBlankCleaned(ls[1..])
  }

  /** The name is made of exactly the non-blank lines before the stop line. */
  lemma {:induction false} NamePartsBeforeStop(lines: seq<string>, i: nat, stops: seq<string>)
    requires i <= |lines|
    ensures NameEnd(lines, i, stops) <= |lines|
    ensures NameParts(lines, i, stops) == NonBlankCleaned(lines[i..NameEnd(lines, i, stops)])
    decreases |lines| - i
  {
    var r := NameEnd(lines, i, stops);
    if i < |lines| && r > i {
      NamePartsBeforeStop(lines, i + 1, stops);
      assert lines[i..r][1..] == lines[i + 1..r];
    } else {
      assert lines[i..r] == [];
    }
  }

  /** `collect_name`: join the non-blank lines up to a line that starts with a stop token. */
  method CollectName(lines: seq<string>, start: nat, stops: seq<string>) returns (name: string, idx: nat)
    ensures idx == NameEnd(lines, start, stops)
    ensures name == Join(NameParts(lines, start, stops), " ")
  {
    var parts: seq<string> := [];
    idx := start;
    while idx < |lines|
      invariant start <= idx
      invariant NameEnd(lines, idx, stops) == NameEnd(lines, start, stops)
      invariant parts + NameParts(lines, idx, stops) == NameParts(lines, start, stops)
      decreases |lines| - idx
    {
      var candidate := Clean(lines[idx]);
      if candidate == "" {
        idx := idx + 1;
      } else if StartsWithAny(candidate, stops) {
        break;
      } else {
        assert parts + NameParts(lines, idx, stops) == (parts + [candidate]) + NameParts(lines, idx + 1, stops);
        parts := parts + [candidate];
        idx := idx + 1;
      }
    }
    assert NameParts(lines, idx, stops) == [];
    assert parts == NameParts(lines, start, stops);
    name := Join(parts, " ");
  }

  // ---------------------------------------------------------------- PAGE and PART headers

  /**
   * Python's `int()` on a token: an optional sign, then ASCII digits in
   * which single underscores may stand between two digits.
   */
  function PythonInt(s: string): (r: Option<int>)
    ensures r.Some? ==> s != []
  {
    var signed := s != [] && (s[0] == '-' || s[0] == '+');
    var body := if signed then s[1..] else s;
    if IntBody(body) then
      var v := IntBodyValue(body);
      Some(if signed && s[0] == '-' then -(v as int) else v)
    else None
  }

  /** `\d+(_\d+)*`. */
  predicate IntBody(s: string) {
    s != [] && IsDigit(s[0])
    && (forall i :: 0 <= i < |s| ==> IsDigit(s[i]) || s[i] == '_')
    && (forall i :: 0 <= i < |s| && s[i] == '_' ==> i + 1 < |s| && IsDigit(s[i + 1]))
  }

  /** The value of the digits, underscores skipped. */
  function IntBodyValue(s: string): nat
    requires forall i :: 0 <= i < |s| ==> IsDigit(s[i]) || s[i] == '_'
  {
    if s == [] then 0
    else if s[|s| - 1] == '_' then IntBodyValue(s[..|s| - 1])
    else 10 * IntBodyValue(s[..|s| - 1]) + DigitValue(s[|s| - 1])
  }

  lemma {:induction false} IntBodyValueOfDigits(s: string)
    requires AllDigits(s)
    ensures IntBodyValue(s) == DigitsValue(s)
  {
    if s != [] {
      IntBodyValueOfDigits(s[..|s| - 1]);
    }
  }

  /** A page number written in decimal is read back. */
  lemma PythonIntOfNat(n: nat)
    ensures PythonInt(NatToString(n)) == Some(n)
  {
    var s := NatToString(n);
    IntBodyValueOfDigits(s);
    NatToStringValue(n);
  }

  /** `int(line.split()[1])`, and 0 where Python raises IndexError or ValueError. */
  function PageNumber(line: string): (r: int)
    ensures |Words(line)| < 2 || PythonInt(Words(line)[1]).None? ==> r == 0
  {
    var tokens := Words(line);
    if |tokens| < 2 then 0
    else match PythonInt(tokens[1])
      case None => 0
      case Some(v) => v
  }

  /** A header line "PAGE n" carries page n. */
  lemma PageNumberOfHeader(n: nat)
    ensures PageNumber("PAGE " + NatToString(n)) == n
  {
    var digits := NatToString(n);
    WordsOfWord(digits);
    WordsAfterWord("PAGE", digits);
    assert "PAGE " + digits == "PAGE" + " " + digits;
    PythonIntOfNat(n);
  }

  /**
   * A cleaned line that starts with a header word and a space has at least
   * two tokens: the strip left something after the space.
   */
  lemma HeaderHasTwoWords(line: string, head: string)
    requires Stripped(line) && IsWord(head) && StartsWith(line, head + " ")
    ensures |Words(line)| >= 2 && Words(line)[0] == head
  {
    var rest := line[|head| + 1..];
    assert line == head + " " + rest;
    assert rest != [] && !IsSpace(rest[|rest| - 1]) by {
      assert line[|line| - 1] != ' ';
    }
    WordsAfterWord(head, rest);
    WordsOfBlank(rest);
  }

  /**
   * The part named by a "PART ..." header: the second token, or the line
   * with every "PART" removed and stripped when there is no second token.
   */
  function PartName(line: string): (r: string)
  {
    var tokens := Words(line);
    if |tokens| >= 2 then tokens[1] else Strip(RemoveAll(line, "PART"))
  }

  /** A cleaned "PART X" header always names its second token. */
  lemma PartNameOfHeader(line: string)
    requires Stripped(line) && StartsWith(line, "PART ")
    ensures |Words(line)| >= 2 && PartName(line) == Words(line)[1] && IsWord(PartName(line))
  {
    HeaderHasTwoWords(line, "PART");
  }
}
