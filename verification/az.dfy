/**
 * The Arizona campaign-finance report parser (az_report_parser.py). After the
 * PDF text layer has been cut into cleaned lines, each schedule is a list of
 * lines; this module groups them into entries and reads each entry's fields:
 * the contributor's name, address, state and zip, the date and amount of the
 * contribution, occupation and employer, and the transaction type.
 *
 * Amounts are exact decimals, modelled as `real`; only plain literals
 * (an optional sign, digits, at most one decimal point) are read.
 */
module AzReport {
  import opened Optional
  import opened Text

  // ---------------------------------------------------------------- line predicates

  /** _is_name_line: "Last, First" — no colon, exactly one comma, no digit. */
  predicate IsNameLine(line: string) {
    ':' !in line && CountChar(line, ',') == 1 && !HasDigit(line)
  }

  /** A name line is exactly a line without colon or digit that a comma cuts into two pieces. */
  lemma NameLineTwoPieces(line: string)
    ensures IsNameLine(line) <==> ':' !in line && !HasDigit(line) && |SplitOn(line, ',')| == 2
  {
    SplitOnCount(line, ',');
  }

  // ---------------------------------------------------------------- amounts

  /** The value of the digits after a decimal point: "25" is 0.25. */
  function Fraction(digits: string): (r: real)
    requires AllDigits(digits)
    ensures 0.0 <= r < 1.0
  {
    if digits == [] then 0.0 else (DigitValue(digits[0]) as real + Fraction(digits[1..])) / 10.0
  }

  /** Digits with at most one decimal point and at least one digit: "12", "12.5", ".5", "12.". */
  function UnsignedDecimal(s: string): (r: Option<real>)
    ensures r.Some? ==> r.value >= 0.0
  {
    match SplitFirst(s, '.')
    case None => if s != [] && AllDigits(s) then Some(DigitsValue(s) as real) else None
    case Some((whole, frac)) =>
      if AllDigits(whole) && AllDigits(frac) && |whole| + |frac| > 0 then Some(DigitsValue(whole) as real + Fraction(frac))
      else None
  }

  /** `Decimal(text)` on plain literals: surrounding whitespace and one sign allowed. */
  function DecimalLiteral(text: string): Option<real>
  {
    var t := Strip(text);
    var body := if t != [] && (t[0] == '-' || t[0] == '+') then t[1..] else t;
    match UnsignedDecimal(body)
    case None => None
    case Some(v) => Some(if t != [] && t[0] == '-' then -v else v)
  }

  function Negate(d: Option<real>): Option<real>
  {
    if d.Some? then Some(-d.value) else None
  }

  const AMOUNT_NOISE: set<char> := {'$', ','}

  /** No `$` and no `,`: the text `_parse_decimal` is left with after removing them. */
  predicate NoAmountNoise(s: string) { forall i :: 0 <= i < |s| ==> s[i] !in AMOUNT_NOISE }

  /**
   * _parse_decimal: surrounding whitespace, `$` and `,` dropped, `None` for
   * nothing left; an amount in parentheses or after a leading `-` is negative.
   */
  function ParseDecimal(value: string): Option<real>
  {
    ReadCleaned(RemoveChars(Strip(value), AMOUNT_NOISE))
  }

  /** A blank value is no amount. */
  lemma ParseBlank(value: string)
    requires Blank(value)
    ensures ParseDecimal(value) == None
  {
    StripEmpty(value);
  }

  /** The sign handling of _parse_decimal on the cleaned text. */
  function ReadCleaned(cleaned: string): Option<real>
  {
    if cleaned == [] then None
    else
      var parens := cleaned[0] == '(' && cleaned[|cleaned| - 1] == ')';
      var negative := parens || cleaned[0] == '-';
      var number := DecimalLiteral(if parens then cleaned[1..|cleaned| - 1] else if negative then cleaned[1..] else cleaned);
      if negative then Negate(number) else number
  }

  /** A stripped text with no `$` or `,` is read as it stands. */
  lemma ParsePlain(value: string)
    requires Stripped(value) && NoAmountNoise(value)
    ensures ParseDecimal(value) == ReadCleaned(value)
  {
    StripOfStripped(value);
    RemoveCharsNone(value, AMOUNT_NOISE);
  }

  /** Round to the nearest integer, ties to the even one (Decimal's default rounding). */
  function RoundHalfEven(x: real): (n: nat)
    requires x >= 0.0
    ensures (n as real) - 0.5 <= x <= (n as real) + 0.5
    ensures x == x.Floor as real ==> n == x.Floor
  {
    var f := x.Floor;
    var d := x - f as real;
    if d > 0.5 || (d == 0.5 && f % 2 == 1) then f + 1 else f
  }

  function TwoDigits(n: nat): (r: string)
    requires n < 100
    ensures |r| == 2 && AllDigits(r) && DigitsValue(r) == n
  {
    var r := [DigitChar(n / 10), DigitChar(n % 10)];
    assert r[..1] == [DigitChar(n / 10)];
    assert [DigitChar(n / 10)][..0] == [];
    assert DigitsValue(r[..1]) == n / 10;
    r
  }

  function Abs(v: real): real { if v < 0.0 then -v else v }

  /** The number of cents `v` is shown as: |v| rounded half-even to a cent. */
  function Cents(v: real): nat { RoundHalfEven(Abs(v) * 100.0) }

  /** A count of cents written with exactly two decimals: 1234 as "12.34". */
  function CentsText(c: nat): (r: string)
    ensures r != [] && IsDigit(r[0]) && IsDigit(r[|r| - 1])
  {
    NatToString(c / 100) + "." + TwoDigits(c % 100)
  }

  /** A negative amount as accounting text shows it: in parentheses. */
  function Parenthesised(s: string): string
  {
    "(" + s + ")"
  }

  /** _format_currency: the magnitude with exactly two decimals, in parentheses when negative. */
  function FormatCurrency(v: real): (r: string)
    ensures Stripped(r) && NoAmountNoise(r)
  {
    SignedCentsTextClean(v < 0.0, Cents(v));
    SignedCentsText(v < 0.0, Cents(v))
  }

  /** `c` cents as text, in parentheses when `negative`. */
  function SignedCentsText(negative: bool, c: nat): string
  {
    if negative then Parenthesised(CentsText(c)) else CentsText(c)
  }

  /** Cents text has no `$`, no `,` and no surrounding whitespace. */
  lemma SignedCentsTextClean(negative: bool, c: nat)
    ensures Stripped(SignedCentsText(negative, c)) && NoAmountNoise(SignedCentsText(negative, c))
  {
    CentsTextClean(c);
  }

  lemma CentsTextClean(c: nat)
    ensures NoAmountNoise(CentsText(c))
  {
  }

  /** The amount a formatted amount stands for: `v` rounded to the cent, sign kept. */
  function Shown(v: real): real
  {
    SignedCents(v < 0.0, Cents(v))
  }

  function SignedCents(negative: bool, c: nat): real
  {
    if negative then -CentsValue(c) else CentsValue(c)
  }

  /** `c` cents in currency units. */
  function CentsValue(c: nat): real
  {
    c as real / 100.0
  }

  /** The value of whole digits `ip` and two decimals `fp`. */
  function PointValue(ip: string, fp: string): real
    requires AllDigits(ip) && AllDigits(fp)
  {
    DigitsValue(ip) as real + DigitsValue(fp) as real / 100.0
  }

  /** Digits, a point and two more digits read as the whole part plus hundredths. */
  lemma PointLiteral(ip: string, fp: string)
    requires ip != [] && AllDigits(ip) && |fp| == 2 && AllDigits(fp)
    ensures UnsignedDecimal(ip + "." + fp) == Some(PointValue(ip, fp))
  {
    PointSplit(ip, fp);
    FractionOfTwo(fp);
  }

  lemma PointSplit(ip: string, fp: string)
    requires AllDigits(ip)
    ensures SplitFirst(ip + "." + fp, '.') == Some((ip, fp))
  {
    assert '.' !in ip;
    SplitFirstUnique(ip, '.', fp);
  }

  /** Two digits after the point are hundredths. */
  lemma FractionOfTwo(fp: string)
    requires |fp| == 2 && AllDigits(fp)
    ensures Fraction(fp) == DigitsValue(fp) as real / 100.0
  {
    var d0, d1 := DigitValue(fp[0]), DigitValue(fp[1]);
    assert fp[1..][1..] == [];
    assert Fraction(fp[1..]) == d1 as real / 10.0;
    assert Fraction(fp) == (d0 as real + d1 as real / 10.0) / 10.0;
    assert fp[..1][..0] == [];
    assert DigitsValue(fp[..1]) == d0;
    assert DigitsValue(fp) == 10 * d0 + d1;
  }

  /** Without sign or surrounding whitespace, a literal reads as its unsigned value. */
  lemma UnsignedLiteral(s: string)
    requires s != [] && IsDigit(s[0]) && Stripped(s)
    ensures DecimalLiteral(s) == UnsignedDecimal(s)
  {
    StripOfStripped(s);
  }

  /** Reading back a formatted amount gives the amount rounded to the cent. */
  lemma FormatThenParse(v: real)
    ensures ParseDecimal(FormatCurrency(v)) == Some(Shown(v))
  {
    SignedCentsParse(v < 0.0, Cents(v));
  }

  lemma SignedCentsParse(negative: bool, c: nat)
    ensures ParseDecimal(SignedCentsText(negative, c)) == Some(SignedCents(negative, c))
  {
    if negative {
      NegativeCentsParse(c);
    } else {
      CentsParse(c);
    }
  }

  lemma CentsParse(c: nat)
    ensures ParseDecimal(CentsText(c)) == Some(CentsValue(c))
  {
    CentsTextLiteral(c);
    CentsLiteral(CentsText(c), CentsValue(c));
  }

  lemma NegativeCentsParse(c: nat)
    ensures ParseDecimal(Parenthesised(CentsText(c))) == Some(-CentsValue(c))
  {
    CentsTextLiteral(c);
    ParenthesisedLiteral(CentsText(c), CentsValue(c));
  }

  /** `s` is a literal of digits with a point, free of `$` and `,`, that reads as `x`. */
  predicate PlainLiteral(s: string, x: real) {
    s != [] && IsDigit(s[0]) && IsDigit(s[|s| - 1]) && NoAmountNoise(s) && UnsignedDecimal(s) == Some(x)
  }

  lemma CentsTextLiteral(c: nat)
    ensures PlainLiteral(CentsText(c), CentsValue(c))
  {
    CentsTextUnsigned(c);
    CentsTextClean(c);
  }

  /** A literal of digits with a point reads, in parentheses, as its negation. */
  lemma ParenthesisedLiteral(s: string, x: real)
    requires PlainLiteral(s, x)
    ensures ParseDecimal(Parenthesised(s)) == Some(-x)
  {
    CentsLiteral(s, x);
  }

  /** The text of `c` cents reads as c/100. */
  lemma CentsTextUnsigned(c: nat)
    ensures UnsignedDecimal(CentsText(c)) == Some(CentsValue(c))
  {
    hide UnsignedDecimal;
    var q, r := c / 100, c % 100;
    var ip, fp := NatToString(q), TwoDigits(r);
    assert CentsText(c) == ip + "." + fp;
    PointLiteral(ip, fp);
    assert PointValue(ip, fp) == q as real + r as real / 100.0 by {
      NatToStringValue(q);
    }
    CentsSplit(c);
  }

  /** Whole units plus hundredths make up the cents. */
  lemma CentsSplit(c: nat)
    ensures (c / 100) as real + (c % 100) as real / 100.0 == CentsValue(c)
  {
    assert c == (c / 100) * 100 + c % 100;
  }

  /** A literal of digits with a point reads as its value, and in parentheses as its negation. */
  lemma CentsLiteral(s: string, x: real)
    requires PlainLiteral(s, x)
    ensures ParseDecimal(s) == Some(x)
    ensures ParseDecimal(Parenthesised(s)) == Some(-x)
  {
    UnsignedLiteral(s);
    LiteralParse(s, x);
  }

  /** A literal that starts with a digit reads as itself, and in parentheses as its negation. */
  lemma LiteralParse(s: string, x: real)
    requires s != [] && IsDigit(s[0]) && Stripped(s) && NoAmountNoise(s) && DecimalLiteral(s) == Some(x)
    ensures ParseDecimal(s) == Some(x)
    ensures ParseDecimal(Parenthesised(s)) == Some(-x)
  {
    PlainLiteralParse(s);
    ParenthesisedForm(s);
    NegateSome(x);
  }

  lemma NegateSome(x: real)
    ensures Negate(Some(x)) == Some(-x)
  {
  }

  /** A literal that starts with a digit reads as itself. */
  lemma PlainLiteralParse(s: string)
    requires s != [] && IsDigit(s[0]) && Stripped(s) && NoAmountNoise(s)
    ensures ParseDecimal(s) == DecimalLiteral(s)
  {
    ParsePlain(s);
  }

  /** An amount in whole cents is shown exactly. */
  lemma ShownExact(v: real)
    requires (v * 100.0).Floor as real == v * 100.0
    ensures Shown(v) == v
  {
    var x := Abs(v) * 100.0;
    if v < 0.0 {
      assert x == -(v * 100.0);
      assert x.Floor == -((v * 100.0).Floor);
    }
  }

  /** An amount in whole cents survives formatting and parsing unchanged. */
  lemma CurrencyRoundTrip(v: real)
    requires (v * 100.0).Floor as real == v * 100.0
    ensures ParseDecimal(FormatCurrency(v)) == Some(v)
  {
    FormatThenParse(v);
    ShownExact(v);
  }

  /** Formatting is off by at most half a cent. */
  lemma FormatWithinHalfCent(v: real)
    ensures ParseDecimal(FormatCurrency(v)).Some?
    ensures -0.005 <= ParseDecimal(FormatCurrency(v)).value - v <= 0.005
  {
    FormatThenParse(v);
  }

  /**
   * Parentheses and a leading minus are the same negative amount: for a plain
   * literal `x`, "(x)" and "-x" both read as minus what `x` reads as.
   */
  lemma NegativeForms(x: string)
    requires x != [] && Stripped(x) && x[0] != '(' && x[0] != '-' && NoAmountNoise(x)
    ensures ParseDecimal(x) == DecimalLiteral(x)
    ensures ParseDecimal(Parenthesised(x)) == Negate(ParseDecimal(x))
    ensures ParseDecimal("-" + x) == Negate(ParseDecimal(x))
  {
    ParsePlain(x);
    ParenthesisedForm(x);
    MinusForm(x);
  }

  lemma ParenthesisedForm(x: string)
    requires x != [] && Stripped(x) && NoAmountNoise(x)
    ensures ParseDecimal(Parenthesised(x)) == Negate(DecimalLiteral(x))
  {
    var p := Parenthesised(x);
    assert NoAmountNoise(p) && Stripped(p);
    ParsePlain(p);
    assert p[1..|p| - 1] == x;
  }

  lemma MinusForm(x: string)
    requires x != [] && Stripped(x) && x[0] != '(' && NoAmountNoise(x)
    ensures ParseDecimal("-" + x) == Negate(DecimalLiteral(x))
  {
    var m := "-" + x;
    assert NoAmountNoise(m) && Stripped(m);
    ParsePlain(m);
    assert m[1..] == x;
  }

  // ---------------------------------------------------------------- labels and names

  function NonEmpty(s: string): (r: Option<string>)
    ensures r.Some? ==> r.value != []
    ensures r.None? <==> s == []
  {
    if s == [] then None else Some(s)
  }

  /** A name part: absent, or non-empty with no whitespace at either end. */
  predicate IsPart(p: Option<string>) { p.None? || (p.value != [] && Stripped(p.value)) }

  /**
   * _split_name: "Last, First" at the first comma, each side stripped and
   * `None` when empty; without a comma the whole value is the first part.
   */
  function SplitName(value: string): (r: (Option<string>, Option<string>))
    ensures IsPart(r.0) && IsPart(r.1)
    ensures ',' !in value ==> r == (NonEmpty(Strip(value)), None)
    ensures r.0.Some? && ',' in value ==> ',' !in r.0.value
  {
    match SplitFirst(value, ',')
    case None => (NonEmpty(Strip(value)), None)
    case Some((last, first)) =>
      StripSub(last);
      (NonEmpty(Strip(last)), NonEmpty(Strip(first)))
  }

  /** Whatever Strip keeps was in the text. */
  lemma StripSub(s: string)
    ensures forall c :: c in Strip(s) ==> c in s
  {
    var l := LStrip(s);
    var r := RStrip(l);
    LStripRemovesSpace(s);
    RStripRemovesSpace(l);
    forall c | c in r ensures c in s {
      var i :| 0 <= i < |r| && r[i] == c;
      assert r[i] == l[i] == s[|s| - |l| + i];
    }
  }

  /** Splitting "Last, First" gives back both parts. */
  lemma SplitNameOfJoined(last: string, first: string, sep: string)
    requires ',' !in last && last != [] && Stripped(last) && first != [] && Stripped(first) && Blank(sep)
    ensures SplitName(last + "," + sep + first) == (Some(last), Some(first))
  {
    var s := last + "," + sep + first;
    assert s == last + [','] + (sep + first);
    SplitFirstUnique(last, ',', sep + first);
    StripOfStripped(last);
    StripBlankPrefix(sep, first);
    assert SplitName(s) == (NonEmpty(last), NonEmpty(first));
  }

  lemma {:induction false} StripBlankPrefix(sep: string, s: string)
    requires Blank(sep) && s != [] && Stripped(s)
    ensures Strip(sep + s) == s
    decreases |sep|
  {
    if sep == [] {
      StripOfStripped(s);
    } else {
      assert (sep + s)[1..] == sep[1..] + s;
      StripBlankPrefix(sep[1..], s);
    }
  }

  /** _split_occupation_employer: "Occupation, Employer", split like a name. */
  function SplitOccupationEmployer(value: string): (r: (Option<string>, Option<string>))
    ensures value == [] ==> r == (None, None)
  {
    if value == [] then (None, None)
    else match SplitFirst(value, ',')
      case None => (NonEmpty(Strip(value)), None)
      case Some((occupation, employer)) => (NonEmpty(Strip(occupation)), NonEmpty(Strip(employer)))
  }

  /** The empty-value guard is redundant: occupation/employer splitting is name splitting. */
  lemma OccupationSplitIsNameSplit(value: string)
    ensures SplitOccupationEmployer(value) == SplitName(value)
  {
  }

  /**
   * _extract_label_value: the text around the first occurrence of `key`,
   * both sides stripped and joined by a space; `None` when the key is absent
   * or nothing surrounds it. The key is never empty (an empty separator
   * makes `split` raise).
   */
  function ExtractLabelValue(line: string, key: string): (r: Option<string>)
    requires key != []
    ensures !Contains(line, key) ==> r.None?
    ensures r.Some? ==> r.value != [] && Stripped(r.value)
  {
    if !Contains(line, key) then None
    else
      var (before, after) := SplitOnce(line, key);
      Around(before, after)
  }

  /** The two sides of the key, stripped and joined by a space; `None` when both are blank. */
  function Around(before: string, after: string): (r: Option<string>)
    ensures r.Some? ==> r.value != [] && Stripped(r.value)
  {
    var b := Strip(before);
    var a := Strip(after);
    if b == [] && a == [] then None
    else if b == [] then Some(a)
    else if a == [] then Some(b)
    else Some(Strip(b + " " + a))
  }

  /** Only blank surroundings make a present key yield nothing. */
  lemma LabelValueAbsent(line: string, key: string)
    requires key != [] && Contains(line, key)
    ensures var (before, after) := SplitOnce(line, key);
      ExtractLabelValue(line, key).None? <==> Blank(before) && Blank(after)
  {
    var (before, after) := SplitOnce(line, key);
    AroundAbsent(before, after);
  }

  lemma AroundAbsent(before: string, after: string)
    ensures Around(before, after).None? <==> Blank(before) && Blank(after)
  {
    StripEmpty(before);
    StripEmpty(after);
  }

  /**
   * The value's words are the words before the first occurrence of the key
   * followed by the words after it.
   */
  lemma LabelValueWords(line: string, key: string)
    requires key != [] && ExtractLabelValue(line, key).Some?
    ensures var (before, after) := SplitOnce(line, key);
      Words(ExtractLabelValue(line, key).value) == Words(before) + Words(after)
  {
    var (before, after) := SplitOnce(line, key);
    AroundWords(before, after);
  }

  lemma AroundWords(before: string, after: string)
    requires Around(before, after).Some?
    ensures Words(Around(before, after).value) == Words(before) + Words(after)
  {
    var b, a := Strip(before), Strip(after);
    var wb, wa := Words(before), Words(after);
    WordsOfStrip(before);
    WordsOfStrip(after);
    assert Words(b) == wb && Words(a) == wa;
    if b == [] {
      StripEmpty(before);
      WordsOfBlank(before);
      assert wb == [];
      assert Around(before, after).value == a;
      assert wb + wa == wa;
    } else if a == [] {
      StripEmpty(after);
      WordsOfBlank(after);
      assert wa == [];
      assert Around(before, after).value == b;
      assert wb + wa == wb;
    } else {
      var joined := b + " " + a;
      assert Around(before, after).value == Strip(joined);
      WordsOfStrip(joined);
      WordsAroundSpace(b, a);
    }
  }

  /** _looks_like_vendor_line, as written: non-empty, no colon, no leading `$`, not a date line. */
  predicate LooksLikeVendorLine(line: string) {
    line != [] && ':' !in line && !StartsWith(line, "$") && !DateNameLine(line)
  }

  /** The date-line test in LooksLikeVendorLine never decides: a date line has a colon. */
  lemma VendorLineWithoutDateTest(line: string)
    ensures LooksLikeVendorLine(line) <==> line != [] && ':' !in line && !StartsWith(line, "$")
  {
    if DateNameLine(line) {
      DateNameLineHasColon(line);
    }
  }

  // ---------------------------------------------------------------- line patterns

  predicate IsAmountClassChar(c: char) { c == '(' || c == ')' || IsDigit(c) || c == ',' || c == '.' }

  /** The length of the leading run of whitespace. */
  function SpaceLen(s: string): (n: nat)
    ensures n <= |s|
    ensures forall i :: 0 <= i < n ==> IsSpace(s[i])
    ensures n < |s| ==> !IsSpace(s[n])
  {
    if s == [] || !IsSpace(s[0]) then 0 else 1 + SpaceLen(s[1..])
  }

  /** The length of the leading run of `[\(\)\d,\.]`. */
  function AmountLen(s: string): (n: nat)
    ensures n <= |s|
    ensures forall i :: 0 <= i < n ==> IsAmountClassChar(s[i])
    ensures n < |s| ==> !IsAmountClassChar(s[n])
  {
    if s == [] || !IsAmountClassChar(s[0]) then 0 else 1 + AmountLen(s[1..])
  }

  /** `\d{2}/\d{2}/\d{4}` at position `i`. */
  predicate IsDateAt(s: string, i: nat) {
    i + 10 <= |s| && IsDigit(s[i]) && IsDigit(s[i + 1]) && s[i + 2] == '/' && IsDigit(s[i + 3])
    && IsDigit(s[i + 4]) && s[i + 5] == '/' && AllDigits(s[i + 6..i + 10])
  }

  /**
   * `_DATE_NAME_LINE_RE.match`: a date, whitespace, `$` and an amount,
   * whitespace, then "Name:". No part can end early: the amount characters
   * are not whitespace and "Name:" does not start with whitespace, so each
   * run is maximal.
   */
  predicate DateNameLine(line: string) {
    IsDateAt(line, 0) && DollarAfterSpace(line[10..])
  }

  /** Whitespace, `$`, then an amount and the name label. */
  predicate DollarAfterSpace(t: string) {
    var w := SpaceLen(t);
    0 < w < |t| && t[w] == '$' && AmountThenName(t[w + 1..])
  }

  predicate AmountThenName(u: string) {
    var a := AmountLen(u);
    a > 0 && NameAfterSpace(u[a..])
  }

  predicate NameAfterSpace(v: string) {
    var w := SpaceLen(v);
    w > 0 && StartsWith(v[w..], "Name:")
  }

  lemma DateNameLineHasColon(line: string)
    requires DateNameLine(line)
    ensures ':' in line
  {
    var t := line[10..];
    var w := SpaceLen(t);
    var u := t[w + 1..];
    var a := AmountLen(u);
    var v := u[a..];
    var w2 := SpaceLen(v);
    assert v[w2..][4] == ':';
    InSuffix(v, w2, ':');
    InSuffix(u, a, ':');
    InSuffix(t, w + 1, ':');
    InSuffix(line, 10, ':');
  }
}
