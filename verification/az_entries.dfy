/**
 * Entries of the Arizona report (az_report_parser.py): the two search
 * patterns `_DATE_AMOUNT_RE` and `_STATE_ZIP_RE`, zip padding, the fields
 * `_build_entry` reads from one contributor's lines, the grouping of
 * Schedule C2 lines into contributors (`parse_contributions`) and the
 * splitting of expense lines into vendor entries (`_split_vendor_entries`).
 * The schedule's lines are given: reading them from the PDF is not part of
 * this model.
 */
module AzEntries {
  import opened Optional
  import opened Text
  import opened AzReport

  // ---------------------------------------------------------------- `_DATE_AMOUNT_RE`

  /** A `$` at `k` followed by a character of the amount class `[\(\)\d,\.]`. */
  predicate DollarAmountAt(s: string, k: nat) {
    k + 1 < |s| && s[k] == '$' && IsAmountClassChar(s[k + 1])
  }

  /** No line break in `s[j..k]`: what `.` may cross. */
  predicate NoNewline(s: string, j: nat, k: nat) {
    forall m :: j <= m < k && m < |s| ==> s[m] != '\n'
  }

  /**
   * The lazy `.*?\$` followed by the amount: the first `k >= j` where a `$`
   * and an amount character stand, unless a line break comes first.
   */
  function DollarFrom(s: string, j: nat): (r: Option<nat>)
    ensures r.Some? ==> j <= r.value && DollarAmountAt(s, r.value) && NoNewline(s, j, r.value)
    ensures r.Some? ==> forall k :: j <= k < r.value ==> !DollarAmountAt(s, k)
    ensures r.None? ==> forall k :: j <= k && NoNewline(s, j, k) ==> !DollarAmountAt(s, k)
    decreases |s| - j
  {
    if j >= |s| then None
    else if DollarAmountAt(s, j) then Some(j)
    else if s[j] == '\n' then None
    else DollarFrom(s, j + 1)
  }

  /** The two groups of a `_DATE_AMOUNT_RE` match. */
  datatype DateAmount = DateAmount(date: string, amount: string)

  /** `dd/dd/dddd`. */
  predicate IsDateText(d: string) { IsDateAt(d, 0) && |d| == 10 }

  /** A non-empty run of `[\(\)\d,\.]`. */
  predicate IsAmountText(a: string) {
    a != [] && forall i :: 0 <= i < |a| ==> IsAmountClassChar(a[i])
  }

  /** A match of the pattern can start at `i`. */
  ghost predicate DateAmountStartsAt(s: string, i: nat) {
    IsDateAt(s, i) && exists k :: i + 10 <= k && NoNewline(s, i + 10, k) && DollarAmountAt(s, k)
  }

  /** The match starting at `i`, when the date stands there. */
  function DateAmountAt(s: string, i: nat): (r: Option<DateAmount>)
    requires IsDateAt(s, i)
    ensures r.Some? <==> DateAmountStartsAt(s, i)
    ensures r.Some? ==> r.value.date == s[i..i + 10] && IsDateText(r.value.date) && IsAmountText(r.value.amount)
  {
    match DollarFrom(s, i + 10)
    case None => None
    case Some(k) =>
      var a := AmountLen(s[k + 1..]);
      assert a > 0 by { assert IsAmountClassChar(s[k + 1..][0]); }
      var amount := s[k + 1..k + 1 + a];
      assert forall m :: 0 <= m < a ==> amount[m] == s[k + 1..][m];
      var d := s[i..i + 10];
      assert d[6..10] == s[i + 6..i + 10];
      assert i + 10 <= k && NoNewline(s, i + 10, k) && DollarAmountAt(s, k);
      Some(DateAmount(d, amount))
  }

  /** `re.search` from position `i` on: the leftmost start wins. */
  function DateAmountFrom(s: string, i: nat): (r: Option<DateAmount>)
    ensures r.Some? ==> IsDateText(r.value.date) && IsAmountText(r.value.amount)
    decreases |s| - i
  {
    if i + 10 > |s| then None
    else if IsDateAt(s, i) && DateAmountAt(s, i).Some? then DateAmountAt(s, i)
    else DateAmountFrom(s, i + 1)
  }

  /** `_DATE_AMOUNT_RE.search(line)`. */
  function DateAmountSearch(line: string): (r: Option<DateAmount>)
    ensures r.Some? ==> IsDateText(r.value.date) && IsAmountText(r.value.amount)
  {
    DateAmountFrom(line, 0)
  }

  /** The search finds a match exactly when one can start somewhere. */
  lemma {:induction false} DateAmountFromComplete(s: string, i: nat)
    ensures DateAmountFrom(s, i).Some? <==> exists p :: i <= p && DateAmountStartsAt(s, p)
    decreases |s| - i
  {
    if i + 10 > |s| {
      forall p | i <= p ensures !DateAmountStartsAt(s, p) { }
    } else {
      DateAmountFromComplete(s, i + 1);
      if !(IsDateAt(s, i) && DateAmountAt(s, i).Some?) {
        assert !DateAmountStartsAt(s, i);
        forall p | i <= p && DateAmountStartsAt(s, p) ensures i + 1 <= p {
          if p == i { assert false; }
        }
      }
    }
  }

  lemma DateAmountSearchComplete(line: string)
    ensures DateAmountSearch(line).Some? <==> exists p :: DateAmountStartsAt(line, p)
  {
    DateAmountFromComplete(line, 0);
  }

  /** The date and the amount are what stands at the leftmost start. */
  lemma {:induction false} DateAmountFromLeftmost(s: string, i: nat) returns (p: nat)
    requires DateAmountFrom(s, i).Some?
    ensures i <= p && DateAmountStartsAt(s, p) && DateAmountFrom(s, i) == DateAmountAt(s, p)
    ensures forall q :: i <= q < p ==> !DateAmountStartsAt(s, q)
    decreases |s| - i
  {
    if IsDateAt(s, i) && DateAmountAt(s, i).Some? {
      p := i;
    } else {
      p := DateAmountFromLeftmost(s, i + 1);
      assert !DateAmountStartsAt(s, i);
    }
  }

  // ---------------------------------------------------------------- `_STATE_ZIP_RE`

  /** The length of the leading run of digits. */
  function DigitLen(s: string): (n: nat)
    ensures n <= |s|
    ensures forall i :: 0 <= i < n ==> IsDigit(s[i])
    ensures n < |s| ==> !IsDigit(s[n])
  {
    DigitRunEnd(s, 0)
  }

  /** The end of the run of digits that starts at `k`. */
  function DigitRunEnd(s: string, k: nat): (n: nat)
    requires k <= |s|
    ensures k <= n <= |s|
    ensures forall i :: k <= i < n ==> IsDigit(s[i])
    ensures n < |s| ==> !IsDigit(s[n])
    decreases |s| - k
  {
    if k == |s| || !IsDigit(s[k]) then k else DigitRunEnd(s, k + 1)
  }

  /** The leading digit run is determined by where the digits stop. */
  lemma DigitLenIs(s: string, n: nat)
    requires n <= |s| && (forall i :: 0 <= i < n ==> IsDigit(s[i])) && (n < |s| ==> !IsDigit(s[n]))
    ensures DigitLen(s) == n
  {
    DigitRunEndIs(s, 0, n);
  }

  lemma {:induction false} DigitRunEndIs(s: string, k: nat, n: nat)
    requires k <= n <= |s| && (forall i :: k <= i < n ==> IsDigit(s[i])) && (n < |s| ==> !IsDigit(s[n]))
    ensures DigitRunEnd(s, k) == n
    decreases n - k
  {
    if k < n {
      DigitRunEndIs(s, k + 1, n);
    }
  }

  /** A `\b` after a word character at `k`: the end, or a non-word character. */
  predicate BoundaryAt(s: string, k: nat) { k >= |s| || !IsWordChar(s[k]) }

  /**
   * `(\d{3,5}(?:-\d{4})?)\b` at the start of `u`. The digit run must be
   * maximal (a shorter run is followed by a digit, where neither `-` nor
   * `\b` can match), so it has 3 to 5 digits; the `-dddd` part is taken
   * when a boundary follows it, and otherwise the digits alone when a
   * boundary follows them.
   */
  function ZipAt(u: string): (r: Option<string>)
    ensures r.Some? ==> IsZip(r.value) && StartsWith(u, r.value)
  {
    var d := DigitLen(u);
    if d < 3 || d > 5 then None
    else if d + 5 <= |u| && u[d] == '-' && AllDigits(u[d + 1..d + 5]) && BoundaryAt(u, d + 5) then
      assert u[..d + 5][..d] == u[..d] && u[..d + 5][d + 1..] == u[d + 1..d + 5];
      Some(u[..d + 5])
    else if BoundaryAt(u, d) then Some(u[..d])
    else None
  }

  /** `\d{3,5}(?:-\d{4})?`. */
  predicate IsZip(z: string) {
    var d := DigitLen(z);
    3 <= d <= 5 && (|z| == d || (|z| == d + 5 && z[d] == '-' && AllDigits(z[d + 1..])))
  }

  /** The match of `\b([A-Z]{2})\s+` and the zip at `i`. */
  function StateZipAt(s: string, i: nat): (r: Option<(string, string)>)
    ensures r.Some? ==> IsStateCode(r.value.0) && IsZip(r.value.1)
  {
    if i + 2 <= |s| && IsUpper(s[i]) && IsUpper(s[i + 1]) && (i == 0 || !IsWordChar(s[i - 1])) then
      var t := s[i + 2..];
      var w := SpaceLen(t);
      if w == 0 then None
      else match ZipAt(t[w..])
        case None => None
        case Some(z) => Some((s[i..i + 2], z))
    else None
  }

  /** `re.search` from position `i` on. */
  function StateZipFrom(s: string, i: nat): (r: Option<(string, string)>)
    ensures r.Some? ==> IsStateCode(r.value.0) && IsZip(r.value.1)
    ensures r.None? ==> forall p :: i <= p ==> StateZipAt(s, p).None?
    decreases |s| - i
  {
    if i >= |s| then None
    else if StateZipAt(s, i).Some? then StateZipAt(s, i)
    else StateZipFrom(s, i + 1)
  }

  /** `_STATE_ZIP_RE.search(line).groups()`. */
  function StateZipSearch(line: string): (r: Option<(string, string)>)
    ensures r.Some? ==> IsStateCode(r.value.0) && IsZip(r.value.1)
    ensures r.None? ==> forall p :: StateZipAt(line, p).None?
  {
    StateZipFrom(line, 0)
  }

  // ---------------------------------------------------------------- zip padding

  /** `str.zfill(5)` on a string of digits: zeros in front up to five characters. */
  function ZFill5(s: string): (r: string)
    ensures |r| == if |s| < 5 then 5 else |s|
    ensures EndsWith(r, s)
  {
    var r := if |s| < 5 then Repeat('0', 5 - |s|) + s else s;
    assert r[|r| - |s|..] == s;
    r
  }

  /**
   * The zip clean-up in _build_entry: an all-digit zip shorter than five is
   * zero-filled to five; with a hyphen, the part before the first hyphen is.
   */
  function PadZip(zip: string): string
  {
    match SplitFirst(zip, '-')
    case Some((prefix, suffix)) =>
      if prefix != [] && AllDigits(prefix) && |prefix| < 5 then ZFill5(prefix) + "-" + suffix else zip
    case None =>
      if zip != [] && AllDigits(zip) && |zip| < 5 then ZFill5(zip) else zip
  }

  /** Five digits, optionally followed by `-` and four digits. */
  predicate IsPaddedZip(z: string) {
    DigitLen(z) == 5 && (|z| == 5 || (|z| == 10 && z[5] == '-' && AllDigits(z[6..])))
  }

  /** Zeros in front do not change the value of a digit string. */
  lemma {:induction false} LeadingZeros(n: nat, s: string)
    requires AllDigits(s)
    ensures AllDigits(Repeat('0', n) + s) && DigitsValue(Repeat('0', n) + s) == DigitsValue(s)
    decreases n + |s|
  {
    var t := Repeat('0', n) + s;
    if s != [] {
      assert t[..|t| - 1] == Repeat('0', n) + s[..|s| - 1];
      LeadingZeros(n, s[..|s| - 1]);
    } else if n > 0 {
      assert t[..|t| - 1] == Repeat('0', n - 1) + s;
      LeadingZeros(n - 1, s);
    }
  }

  /**
   * Every zip the pattern yields is padded to five digits, keeping its value
   * and its `-dddd` part.
   */
  lemma PadZipOfZip(z: string)
    requires IsZip(z)
    ensures IsPaddedZip(PadZip(z))
    ensures DigitsValue(PadZip(z)[..5]) == DigitsValue(z[..DigitLen(z)])
    ensures PadZip(z)[5..] == z[DigitLen(z)..]
  {
    if |z| == DigitLen(z) {
      PadPlainZip(z);
    } else {
      PadHyphenZip(z);
    }
  }

  lemma PadPlainZip(z: string)
    requires IsZip(z) && |z| == DigitLen(z)
    ensures IsPaddedZip(PadZip(z))
    ensures DigitsValue(PadZip(z)[..5]) == DigitsValue(z[..DigitLen(z)])
    ensures PadZip(z)[5..] == z[DigitLen(z)..]
  {
    assert AllDigits(z);
    PadDigits(z);
    assert z[..|z|] == z;
    assert PadZip(z)[..5] == PadZip(z);
  }

  lemma PadHyphenZip(z: string)
    requires IsZip(z) && |z| != DigitLen(z)
    ensures IsPaddedZip(PadZip(z))
    ensures DigitsValue(PadZip(z)[..5]) == DigitsValue(z[..DigitLen(z)])
    ensures PadZip(z)[5..] == z[DigitLen(z)..]
  {
    var d := DigitLen(z);
    LeadingDigits(z);
    var digits, suffix := z[..d], z[d + 1..];
    assert z == digits + "-" + suffix;
    assert z[d..] == "-" + suffix;
    PadHyphenatedZip(digits, suffix);
  }

  /** The leading digit run of a string is all digits. */
  lemma LeadingDigits(s: string)
    ensures AllDigits(s[..DigitLen(s)])
  {
    var d := DigitLen(s);
    forall i | 0 <= i < d ensures IsDigit(s[..d][i]) { assert s[..d][i] == s[i]; }
  }

  lemma PadHyphenatedZip(digits: string, suffix: string)
    requires AllDigits(digits) && 3 <= |digits| <= 5 && AllDigits(suffix) && |suffix| == 4
    ensures IsPaddedZip(PadZip(digits + "-" + suffix))
    ensures DigitsValue(PadZip(digits + "-" + suffix)[..5]) == DigitsValue(digits)
    ensures PadZip(digits + "-" + suffix)[5..] == "-" + suffix
  {
    PadHyphenatedForm(digits, suffix);
    ZFill5Digits(digits);
    PaddedShape(ZFill5(digits), suffix);
  }

  /** Three to five digits are zero-filled to five. */
  lemma PadDigits(digits: string)
    requires AllDigits(digits) && 3 <= |digits| <= 5
    ensures PadZip(digits) == ZFill5(digits)
    ensures IsPaddedZip(PadZip(digits)) && |PadZip(digits)| == 5
    ensures DigitsValue(PadZip(digits)) == DigitsValue(digits)
  {
    assert '-' !in digits;
    ZFill5Digits(digits);
    DigitLenAll(ZFill5(digits));
  }

  /** Zero-filling digits gives five digits of the same value. */
  lemma ZFill5Digits(digits: string)
    requires AllDigits(digits) && |digits| <= 5
    ensures AllDigits(ZFill5(digits)) && |ZFill5(digits)| == 5
    ensures DigitsValue(ZFill5(digits)) == DigitsValue(digits)
  {
    if |digits| < 5 {
      LeadingZeros(5 - |digits|, digits);
    }
  }

  /** Three to five digits, a hyphen and the rest: the digits are zero-filled to five. */
  lemma PadHyphenatedForm(digits: string, suffix: string)
    requires AllDigits(digits) && 0 < |digits| <= 5
    ensures PadZip(digits + "-" + suffix) == ZFill5(digits) + "-" + suffix
  {
    assert '-' !in digits;
    SplitFirstUnique(digits, '-', suffix);
  }

  lemma PaddedShape(filled: string, suffix: string)
    requires AllDigits(filled) && |filled| == 5 && AllDigits(suffix) && |suffix| == 4
    ensures IsPaddedZip(filled + "-" + suffix)
    ensures (filled + "-" + suffix)[..5] == filled && (filled + "-" + suffix)[5..] == "-" + suffix
  {
    var p := filled + "-" + suffix;
    assert p == filled + ("-" + suffix);
    DigitLenPrefix(filled, "-" + suffix);
    assert p[6..] == suffix;
  }

  lemma DigitLenAll(s: string)
    requires AllDigits(s)
    ensures DigitLen(s) == |s|
  {
    DigitLenIs(s, |s|);
  }

  lemma DigitLenPrefix(a: string, b: string)
    requires AllDigits(a) && (b == [] || !IsDigit(b[0]))
    ensures DigitLen(a + b) == |a|
  {
    assert forall i :: 0 <= i < |a| ==> IsDigit((a + b)[i]);
    assert |a| < |a + b| ==> !IsDigit((a + b)[|a|]);
    DigitLenIs(a + b, |a|);
  }

  // ---------------------------------------------------------------- one contribution

  /** The fields _build_entry reads from the lines after the date line. */
  datatype Details = Details(
    totalToDate: Option<real>,
    occupation: Option<string>,
    employer: Option<string>,
    transactionType: Option<string>,
    originalDate: Option<string>)

  const NO_DETAILS := Details(None, None, None, None, None)

  /**
   * One pass of the detail loop: a `$` line (unless it mentions "Original")
   * gives the total to date if none was read yet; otherwise the first label
   * the line holds sets its fields, later lines overriding earlier ones.
   */
  function DetailStep(d: Details, line: string): Details
  {
    if StartsWith(line, "$") && !Contains(line, "Original") then
      if d.totalToDate.None? then d.(totalToDate := ParseDecimal(line)) else d
    else if Contains(line, "Occupation:") then
      var split := SplitOccupationEmployer(Strip(SplitOnce(line, "Occupation:").0));
      d.(occupation := split.0, employer := split.1)
    else if Contains(line, "Trans. Type:") then
      d.(transactionType := Some(Strip(SplitOnce(line, "Trans. Type:").0)))
    else if Contains(line, "Original Date:") then
      d.(originalDate := NonEmpty(Strip(SplitOnce(line, "Original Date:").1)))
    else d
  }

  /** The detail loop over `lines`, in order. */
  function ScanDetails(lines: seq<string>): Details
  {
    if lines == [] then NO_DETAILS else DetailStep(ScanDetails(lines[..|lines| - 1]), lines[|lines| - 1])
  }

  /** What the entry shows as its transaction type. */
  function TransactionDisplay(transactionType: Option<string>, originalDate: Option<string>, amount: Option<real>): string
  {
    if transactionType.Some? && transactionType.value != [] && originalDate.Some? && originalDate.value != [] then
      transactionType.value + " " + originalDate.value
    else if transactionType.Some? && transactionType.value != [] then transactionType.value
    else if amount.Some? && amount.value < 0.0 then "Refunded Contribution"
    else "Contribution"
  }

  /** A contribution (AZContributionEntry without the unused `extra`). */
  datatype Entry = Entry(
    lastName: Option<string>,
    firstName: Option<string>,
    addressLine1: Option<string>,
    state: Option<string>,
    zipCode: Option<string>,
    occupation: Option<string>,
    employer: Option<string>,
    addressFull: Option<string>,
    date: string,
    amount: Option<real>,
    transactionType: string,
    totalToDate: Option<real>,
    rawText: string)

  /** The first line, from `i` on, where `_DATE_AMOUNT_RE` finds a match. */
  function FirstDateLine(lines: seq<string>, i: nat): (r: Option<nat>)
    ensures r.Some? ==> i <= r.value < |lines| && DateAmountSearch(lines[r.value]).Some?
    ensures r.Some? ==> forall k :: i <= k < r.value ==> DateAmountSearch(lines[k]).None?
    ensures r.None? ==> forall k :: i <= k < |lines| ==> DateAmountSearch(lines[k]).None?
    decreases |lines| - i
  {
    if i >= |lines| then None
    else if DateAmountSearch(lines[i]).Some? then Some(i)
    else FirstDateLine(lines, i + 1)
  }

  /** The part of an address line before its first comma, stripped. */
  function FirstAddressPart(line: string): string
  {
    match SplitFirst(line, ',')
    case None => Strip(line)
    case Some((before, _)) => Strip(before)
  }

  /** State and padded zip from the last address line, when the pattern finds them. */
  function StateAndZip(address: seq<string>): (Option<string>, Option<string>)
  {
    if address == [] then (None, None)
    else match StateZipSearch(address[|address| - 1])
      case None => (None, None)
      case Some((state, zip)) => (Some(state), Some(PadZip(zip)))
  }

  /** The entry built from `lines` whose first date line is `di`. */
  function EntryAt(lines: seq<string>, di: nat): Entry
    requires di < |lines| && DateAmountSearch(lines[di]).Some?
  {
    var name := SplitName(lines[0]);
    var address := if di >= 1 then lines[1..di] else [];
    var place := StateAndZip(address);
    var m := DateAmountSearch(lines[di]).value;
    var amount := ParseDecimal(m.amount);
    var d := ScanDetails(lines[di + 1..]);
    Entry(name.0, name.1,
      if address == [] then None else Some(FirstAddressPart(address[0])),
      place.0, place.1, d.occupation, d.employer,
      if address == [] then None else Some(Join(address, ", ")),
      m.date, amount,
      TransactionDisplay(d.transactionType, d.originalDate, amount),
      d.totalToDate, Join(lines, "\n"))
  }

  /** _build_entry: no entry without lines or without a date line. */
  function EntryOf(lines: seq<string>): Option<Entry>
  {
    if lines == [] then None
    else match FirstDateLine(lines, 0)
      case None => None
      case Some(di) => Some(EntryAt(lines, di))
  }

  /** _build_entry, step by step as the source runs it. */
  method BuildEntry(lines: seq<string>) returns (r: Option<Entry>)
    ensures r == EntryOf(lines)
  {
    if lines == [] {
      return None;
    }
    var found := FindDateLine(lines);
    if found.None? {
      return None;
    }
    var e := BuildEntryAt(lines, found.value);
    r := Some(e);
  }

  /** The rest of _build_entry once the date line `di` is found. */
  method BuildEntryAt(lines: seq<string>, di: nat) returns (e: Entry)
    requires di < |lines| && DateAmountSearch(lines[di]).Some?
    ensures e == EntryAt(lines, di)
  {
    var rawText := Join(lines, "\n");
    var name := SplitName(lines[0]);
    var address := if di >= 1 then lines[1..di] else [];
    var addressLine1, state, zip, addressFull := ReadAddress(address);
    var m := DateAmountSearch(lines[di]).value;
    var amount := ParseDecimal(m.amount);
    var d := ReadDetails(lines[di + 1..]);
    var display := TransactionDisplay(d.transactionType, d.originalDate, amount);
    e := Entry(name.0, name.1, addressLine1, state, zip, d.occupation, d.employer, addressFull,
      m.date, amount, display, d.totalToDate, rawText);
  }

  /** The first loop of _build_entry: the index of the first line with a date and an amount. */
  method FindDateLine(lines: seq<string>) returns (r: Option<nat>)
    ensures r == FirstDateLine(lines, 0)
  {
    var idx := 0;
    while idx < |lines|
      invariant idx <= |lines|
      invariant forall k :: 0 <= k < idx ==> DateAmountSearch(lines[k]).None?
    {
      if DateAmountSearch(lines[idx]).Some? {
        return Some(idx);
      }
      idx := idx + 1;
    }
    return None;
  }

  /** The address fields of _build_entry, from the lines between the name and the date line. */
  method ReadAddress(address: seq<string>)
    returns (addressLine1: Option<string>, state: Option<string>, zip: Option<string>, addressFull: Option<string>)
    ensures address == [] ==> addressLine1 == state == zip == addressFull == None
    ensures address != [] ==> addressLine1 == Some(FirstAddressPart(address[0])) && addressFull == Some(Join(address, ", "))
    ensures (state, zip) == StateAndZip(address)
  {
    addressLine1, state, zip, addressFull := None, None, None, None;
    if address != [] {
      addressFull := Some(Join(address, ", "));
      addressLine1 := Some(FirstAddressPart(address[0]));
      var found := StateZipSearch(address[|address| - 1]);
      if found.Some? {
        state := Some(found.value.0);
        zip := Some(PadZip(found.value.1));
      }
    }
  }

  /** The detail loop of _build_entry over the lines after the date line. */
  method ReadDetails(lines: seq<string>) returns (d: Details)
    ensures d == ScanDetails(lines)
  {
    var total: Option<real> := None;
    var occupation: Option<string> := None;
    var employer: Option<string> := None;
    var transactionType: Option<string> := None;
    var originalDate: Option<string> := None;
    var j := 0;
    while j < |lines|
      invariant j <= |lines|
      invariant Details(total, occupation, employer, transactionType, originalDate) == ScanDetails(lines[..j])
    {
      var line := lines[j];
      assert lines[..j + 1][..j] == lines[..j];
      if StartsWith(line, "$") && !Contains(line, "Original") {
        if total.None? {
          total := ParseDecimal(line);
        }
      } else if Contains(line, "Occupation:") {
        var before := Strip(SplitOnce(line, "Occupation:").0);
        var split := SplitOccupationEmployer(before);
        occupation, employer := split.0, split.1;
      } else if Contains(line, "Trans. Type:") {
        transactionType := Some(Strip(SplitOnce(line, "Trans. Type:").0));
      } else if Contains(line, "Original Date:") {
        originalDate := NonEmpty(Strip(SplitOnce(line, "Original Date:").1));
      }
      j := j + 1;
    }
    assert lines[..j] == lines;
    d := Details(total, occupation, employer, transactionType, originalDate);
  }

  /** There is an entry exactly when some line holds a date and an amount. */
  lemma EntryPresence(lines: seq<string>)
    ensures EntryOf(lines).Some? <==> exists k :: 0 <= k < |lines| && DateAmountSearch(lines[k]).Some?
  {
  }

  /** A zip code on an entry is always five digits, optionally with `-dddd`. */
  lemma EntryZipPadded(lines: seq<string>)
    requires EntryOf(lines).Some? && EntryOf(lines).value.zipCode.Some?
    ensures IsPaddedZip(EntryOf(lines).value.zipCode.value)
  {
    var di := FirstDateLine(lines, 0).value;
    var address := if di >= 1 then lines[1..di] else [];
    var found := StateZipSearch(address[|address| - 1]);
    PadZipOfZip(found.value.1);
  }

  /** A `$` line that can carry the total to date. */
  predicate IsTotalLine(line: string) { StartsWith(line, "$") && !Contains(line, "Original") }

  /** The total to date, read from the front: the first `$` line that parses. */
  function FirstTotal(lines: seq<string>): Option<real>
  {
    if lines == [] then None
    else if IsTotalLine(lines[0]) && ParseDecimal(lines[0]).Some? then ParseDecimal(lines[0])
    else FirstTotal(lines[1..])
  }

  lemma {:induction false} FirstTotalAppend(lines: seq<string>, line: string)
    ensures FirstTotal(lines + [line]) ==
      if FirstTotal(lines).Some? then FirstTotal(lines)
      else if IsTotalLine(line) then ParseDecimal(line) else None
  {
    if lines != [] {
      assert (lines + [line])[1..] == lines[1..] + [line];
      FirstTotalAppend(lines[1..], line);
    } else {
      assert [line][1..] == [];
    }
  }

  /** The total to date is the value of the first `$` line that parses. */
  lemma {:induction false} TotalIsFirst(lines: seq<string>)
    ensures ScanDetails(lines).totalToDate == FirstTotal(lines)
  {
    if lines != [] {
      var init := lines[..|lines| - 1];
      TotalIsFirst(init);
      FirstTotalAppend(init, lines[|lines| - 1]);
      assert init + [lines[|lines| - 1]] == lines;
    }
  }

  /** Without a "Trans. Type:" line no transaction type is read. */
  lemma {:induction false} NoTypeLine(lines: seq<string>)
    requires forall k :: 0 <= k < |lines| ==> !Contains(lines[k], "Trans. Type:")
    ensures ScanDetails(lines).transactionType.None?
  {
    if lines != [] {
      NoTypeLine(lines[..|lines| - 1]);
    }
  }

  /**
   * Without a transaction type, an entry is a "Refunded Contribution" when
   * its amount is negative and a "Contribution" otherwise.
   */
  lemma DisplayWithoutType(lines: seq<string>)
    requires EntryOf(lines).Some?
    requires forall k :: 0 <= k < |lines| ==> !Contains(lines[k], "Trans. Type:")
    ensures var e := EntryOf(lines).value;
      e.transactionType == if e.amount.Some? && e.amount.value < 0.0 then "Refunded Contribution" else "Contribution"
  {
    var di := FirstDateLine(lines, 0).value;
    var rest := lines[di + 1..];
    assert forall k :: 0 <= k < |rest| ==> rest[k] == lines[di + 1 + k];
    NoTypeLine(rest);
  }

  // ---------------------------------------------------------------- parse_contributions

  /** A line that ends Schedule C2 ("Total of Aggregate" already starts with "Total of"). */
  predicate IsScheduleEnd(line: string) {
    StartsWith(line, "Total of") || StartsWith(line, "Net Total") || StartsWith(line, "Total Small")
    || StartsWith(line, "Total of Aggregate")
  }

  /** The index of the first line that ends the schedule, or the number of lines. */
  function StopIndex(lines: seq<string>, i: nat): (r: nat)
    requires i <= |lines|
    ensures i <= r <= |lines|
    ensures forall k :: i <= k < r ==> !IsScheduleEnd(lines[k])
    ensures r < |lines| ==> IsScheduleEnd(lines[r])
    decreases |lines| - i
  {
    if i == |lines| || IsScheduleEnd(lines[i]) then i else StopIndex(lines, i + 1)
  }

  /**
   * The loop state after `lines`: the closed groups and the open one. A name
   * line closes the open group, if there is one, and opens the next.
   */
  function Grouping(lines: seq<string>): (seq<seq<string>>, seq<string>)
  {
    if lines == [] then ([], [])
    else
      var prev := Grouping(lines[..|lines| - 1]);
      var line := lines[|lines| - 1];
      if IsNameLine(line) && prev.1 != [] then (prev.0 + [prev.1], [line]) else (prev.0, prev.1 + [line])
  }

  /** The groups of lines, each handed to _build_entry. */
  function Groups(lines: seq<string>): seq<seq<string>>
  {
    var g := Grouping(lines);
    if g.1 != [] then g.0 + [g.1] else g.0
  }

  /** The entries of the groups that yield one, in order. */
  function EntriesOf(groups: seq<seq<string>>): seq<Entry>
  {
    if groups == [] then []
    else
      var prev := EntriesOf(groups[..|groups| - 1]);
      match EntryOf(groups[|groups| - 1])
      case None => prev
      case Some(e) => prev + [e]
  }

  /** parse_contributions over the schedule's lines. */
  method ParseContributions(lines: seq<string>) returns (entries: seq<Entry>)
    ensures entries == EntriesOf(Groups(lines[..StopIndex(lines, 0)]))
  {
    entries := [];
    var current: seq<string> := [];
    ghost var closed: seq<seq<string>> := [];
    var i := 0;
    while i < |lines|
      invariant i <= StopIndex(lines, 0)
      invariant Grouping(lines[..i]) == (closed, current)
      invariant entries == EntriesOf(closed)
    {
      var line := lines[i];
      if IsScheduleEnd(line) {
        break;
      }
      GroupingStep(lines, i);
      if IsNameLine(line) && current != [] {
        entries := AddEntry(entries, closed, current);
        closed := closed + [current];
        current := [];
        assert current + [line] == [line];
      }
      current := current + [line];
      i := i + 1;
    }
    assert i == StopIndex(lines, 0);
    if current != [] {
      entries := AddEntry(entries, closed, current);
    }
  }

  /** Build the entry of a closed group and keep it when there is one. */
  method AddEntry(entries: seq<Entry>, ghost closed: seq<seq<string>>, group: seq<string>) returns (r: seq<Entry>)
    requires entries == EntriesOf(closed)
    ensures r == EntriesOf(closed + [group])
  {
    var entry := BuildEntry(group);
    EntriesOfAppend(closed, group);
    r := if entry.Some? then entries + [entry.value] else entries;
  }

  lemma GroupingStep(lines: seq<string>, i: nat)
    requires i < |lines|
    ensures Grouping(lines[..i + 1]) ==
      var prev := Grouping(lines[..i]);
      if IsNameLine(lines[i]) && prev.1 != [] then (prev.0 + [prev.1], [lines[i]]) else (prev.0, prev.1 + [lines[i]])
  {
    assert lines[..i + 1][..i] == lines[..i];
  }

  lemma EntriesOfAppend(groups: seq<seq<string>>, g: seq<string>)
    ensures EntriesOf(groups + [g]) == if EntryOf(g).Some? then EntriesOf(groups) + [EntryOf(g).value] else EntriesOf(groups)
  {
    assert (groups + [g])[..|groups|] == groups;
  }

  /** The lines of the groups, in order. */
  function Flatten(groups: seq<seq<string>>): seq<string>
  {
    if groups == [] then [] else Flatten(groups[..|groups| - 1]) + groups[|groups| - 1]
  }

  lemma FlattenAppend(groups: seq<seq<string>>, g: seq<string>)
    ensures Flatten(groups + [g]) == Flatten(groups) + g
  {
    assert (groups + [g])[..|groups|] == groups;
  }

  /**
   * Grouping keeps every line once, in order; no group is empty; every group
   * but the first starts with a name line; and no group has a name line
   * after its first line.
   */
  lemma {:induction false} GroupingShape(lines: seq<string>)
    ensures GroupingShaped(lines, Grouping(lines))
  {
    if lines != [] {
      GroupingShape(lines[..|lines| - 1]);
      GroupingShapeStep(lines);
    }
  }

  /** The shape GroupingShape states, for the state `g` reached on `lines`. */
  predicate GroupingShaped(lines: seq<string>, g: (seq<seq<string>>, seq<string>)) {
    Flatten(g.0) + g.1 == lines
    && (forall k :: 0 <= k < |g.0| ==> g.0[k] != [])
    && (forall k :: 1 <= k < |g.0| ==> IsNameLine(g.0[k][0]))
    && (|g.0| > 0 && g.1 != [] ==> IsNameLine(g.1[0]))
    && (g.0 != [] ==> g.1 != [])
    && (forall k, j :: 0 <= k < |g.0| && 1 <= j < |g.0[k]| ==> !IsNameLine(g.0[k][j]))
    && (forall j :: 1 <= j < |g.1| ==> !IsNameLine(g.1[j]))
  }

  /** One more line keeps the shape. */
  lemma GroupingShapeStep(lines: seq<string>)
    requires lines != [] && GroupingShaped(lines[..|lines| - 1], Grouping(lines[..|lines| - 1]))
    ensures GroupingShaped(lines, Grouping(lines))
  {
    var prev := Grouping(lines[..|lines| - 1]);
    if IsNameLine(lines[|lines| - 1]) && prev.1 != [] {
      CloseGroupShaped(lines, prev);
    } else {
      ExtendGroupShaped(lines, prev);
    }
  }

  /** A name line after a non-empty open group closes it and opens a new one. */
  lemma CloseGroupShaped(lines: seq<string>, g: (seq<seq<string>>, seq<string>))
    requires lines != [] && GroupingShaped(lines[..|lines| - 1], g)
    requires IsNameLine(lines[|lines| - 1]) && g.1 != []
    ensures GroupingShaped(lines, (g.0 + [g.1], [lines[|lines| - 1]]))
  {
    assert lines == lines[..|lines| - 1] + [lines[|lines| - 1]];
    FlattenAppend(g.0, g.1);
    var gs := g.0 + [g.1];
    assert gs[..|g.0|] == g.0;
    forall k | 1 <= k < |gs|
      ensures IsNameLine(gs[k][0])
    {
      if k == |g.0| {
        assert gs[k] == g.1;
      }
    }
  }

  /** Any other line joins the open group. */
  lemma ExtendGroupShaped(lines: seq<string>, g: (seq<seq<string>>, seq<string>))
    requires lines != [] && GroupingShaped(lines[..|lines| - 1], g)
    requires !(IsNameLine(lines[|lines| - 1]) && g.1 != [])
    ensures GroupingShaped(lines, (g.0, g.1 + [lines[|lines| - 1]]))
  {
    var line := lines[|lines| - 1];
    assert lines == lines[..|lines| - 1] + [line];
    assert Flatten(g.0) + (g.1 + [line]) == (Flatten(g.0) + g.1) + [line];
  }

  /** The groups partition the lines they were made from. */
  lemma GroupsShape(lines: seq<string>)
    ensures Flatten(Groups(lines)) == lines
    ensures forall k :: 0 <= k < |Groups(lines)| ==> Groups(lines)[k] != []
    ensures forall k :: 1 <= k < |Groups(lines)| ==> IsNameLine(Groups(lines)[k][0])
    ensures forall k, j :: 0 <= k < |Groups(lines)| && 1 <= j < |Groups(lines)[k]| ==> !IsNameLine(Groups(lines)[k][j])
  {
    GroupingShape(lines);
    var g := Grouping(lines);
    if g.1 != [] {
      FlattenAppend(g.0, g.1);
    }
  }

  // ---------------------------------------------------------------- _split_vendor_entries

  /** A vendor entry: name line, address lines, date line and detail lines. */
  datatype VendorEntry = VendorEntry(name: string, address: seq<string>, dateLine: string, details: seq<string>)

  /** The lines an entry was made from, in order. */
  function EntryLines(e: VendorEntry): seq<string>
  {
    [e.name] + e.address + [e.dateLine] + e.details
  }

  function VendorLines(entries: seq<VendorEntry>): seq<string>
  {
    if entries == [] then [] else VendorLines(entries[..|entries| - 1]) + EntryLines(entries[|entries| - 1])
  }

  /** A detail label ("Memo:", "Category:", "Address:", "Trans. Type:") that ends an address. */
  predicate IsDetailLabelLine(line: string) {
    line != [] && ':' in line && SplitFirst(line, ':').value.0 in {"Memo", "Category", "Address", "Trans. Type"}
  }

  /**
   * The lookahead loop from `k`: the first line that is a date line, a
   * "Total" line or holds a colon, or the end.
   */
  function LookaheadFrom(lines: seq<string>, k: nat): (r: nat)
    requires k <= |lines|
    ensures k <= r <= |lines|
    decreases |lines| - k
  {
    if k == |lines| || DateNameLine(lines[k]) || StartsWith(lines[k], "Total") || ':' in lines[k] then k
    else LookaheadFrom(lines, k + 1)
  }

  /** Line `j` is a vendor line whose lookahead reaches a date line: the next entry starts there. */
  predicate StartsNextEntry(lines: seq<string>, j: nat)
    requires j < |lines|
  {
    LooksLikeVendorLine(lines[j]) &&
    var l := LookaheadFrom(lines, j + 1);
    l < |lines| && DateNameLine(lines[l])
  }

  /**
   * Entry `e` stands in `lines` from line `p` on, with the shape the loop
   * gives it, and its details run up to the end, a "Total" line or the
   * start of the next entry.
   */
  predicate WellFormedAt(lines: seq<string>, p: nat, e: VendorEntry) {
    var q := p + 1 + |e.address|;
    var end := q + 1 + |e.details|;
    end <= |lines| && lines[p..end] == EntryLines(e)
    && !StartsWith(e.name, "Total")
    && (forall a :: 0 <= a < |e.address| ==>
          !DateNameLine(e.address[a]) && !StartsWith(e.address[a], "Total") && !IsDetailLabelLine(e.address[a]))
    && DateNameLine(e.dateLine)
    && (forall j :: q + 1 <= j < end ==> !StartsWith(lines[j], "Total") && !StartsNextEntry(lines, j))
    && DetailsStopAt(lines, end)
  }

  /** _split_vendor_entries: cut the lines, in order, into vendor entries. */
  method SplitVendorEntries(lines: seq<string>) returns (entries: seq<VendorEntry>)
    ensures exists n: nat :: n <= |lines| && VendorLines(entries) == lines[..n] && SplitStopsAt(lines, n)
    ensures forall k :: 0 <= k < |entries| ==> WellFormedAt(lines, |VendorLines(entries[..k])|, entries[k])
  {
    entries := [];
    var idx := 0;
    while idx < |lines|
      invariant idx <= |lines|
      invariant VendorLines(entries) == lines[..idx]
      invariant forall k :: 0 <= k < |entries| ==> WellFormedAt(lines, |VendorLines(entries[..k])|, entries[k])
      decreases |lines| - idx
    {
      var found, e, end := ReadVendorEntry(lines, idx);
      if !found {
        assert SplitStopsAt(lines, idx);
        break;
      }
      AppendEntryLines(lines, entries, e, idx, end);
      entries := entries + [e];
      idx := end;
      if idx < |lines| && StartsWith(lines[idx], "Total") {
        assert SplitStopsAt(lines, idx);
        break;
      }
    }
    assert SplitStopsAt(lines, idx);
  }

  /** The outer loop stops at the end, at a "Total" line, or where no date line follows the address. */
  predicate SplitStopsAt(lines: seq<string>, n: nat) {
    n >= |lines| || StartsWith(lines[n], "Total") || !DatedAt(lines, AddressEnd(lines, n + 1))
  }

  /** An entry's details stop at the end, at a "Total" line, or where the next entry starts. */
  predicate DetailsStopAt(lines: seq<string>, end: nat) {
    end >= |lines| || StartsWith(lines[end], "Total") || StartsNextEntry(lines, end)
  }

  /**
   * One pass of the outer loop from line `start`: the name, the address
   * lines and the date line, then the details. Not found when the name is a
   * "Total" line or no date line follows the address.
   */
  method ReadVendorEntry(lines: seq<string>, start: nat) returns (found: bool, e: VendorEntry, end: nat)
    requires start < |lines|
    ensures found ==> start < end <= |lines| && lines[start..end] == EntryLines(e) && WellFormedAt(lines, start, e)
    ensures found ==> end < |lines| ==> StartsWith(lines[end], "Total") || StartsNextEntry(lines, end)
    ensures !found <==> StartsWith(lines[start], "Total") || !DatedAt(lines, AddressEnd(lines, start + 1))
  {
    var name := lines[start];
    e := VendorEntry(name, [], "", []);
    end := start;
    if StartsWith(name, "Total") {
      return false, e, end;
    }
    var address, dateIndex := ReadVendorAddress(lines, start + 1);
    if !DatedAt(lines, dateIndex) {
      return false, e, end;
    }
    var details;
    details, end := ReadVendorDetails(lines, dateIndex + 1);
    e := VendorEntry(name, address, lines[dateIndex], details);
    EntryWellFormed(lines, start, dateIndex, end, e);
    found := true;
  }

  /** Where the address that starts at `from` ends: a date line, a "Total" line, a detail label or the end. */
  function AddressEnd(lines: seq<string>, from: nat): (r: nat)
    requires from <= |lines|
    ensures from <= r <= |lines|
    decreases |lines| - from
  {
    if from == |lines| || DateNameLine(lines[from]) || StartsWith(lines[from], "Total") || IsDetailLabelLine(lines[from]) then from
    else AddressEnd(lines, from + 1)
  }

  /** Line `i` exists and is a date line. */
  predicate DatedAt(lines: seq<string>, i: nat) {
    i < |lines| && DateNameLine(lines[i])
  }

  /** The address loop: lines up to a date line, a "Total" line or a detail label. */
  method ReadVendorAddress(lines: seq<string>, from: nat) returns (address: seq<string>, idx: nat)
    requires from <= |lines|
    ensures idx == AddressEnd(lines, from) && address == lines[from..idx]
    ensures forall a :: 0 <= a < |address| ==>
      !DateNameLine(address[a]) && !StartsWith(address[a], "Total") && !IsDetailLabelLine(address[a])
  {
    address := [];
    idx := from;
    while idx < |lines| && !DateNameLine(lines[idx])
      invariant from <= idx <= |lines|
      invariant AddressEnd(lines, idx) == AddressEnd(lines, from)
      invariant address == lines[from..idx]
      decreases |lines| - idx
    {
      var nextLine := lines[idx];
      if StartsWith(nextLine, "Total") {
        break;
      }
      if IsDetailLabelLine(nextLine) {
        break;
      }
      LinesSnoc(lines, from, idx);
      address := address + [nextLine];
      idx := idx + 1;
    }
    forall j | from <= j < idx
      ensures !DateNameLine(lines[j]) && !StartsWith(lines[j], "Total") && !IsDetailLabelLine(lines[j])
    {
      AddressLine(lines, from, j);
    }
  }

  lemma LinesSnoc(lines: seq<string>, from: nat, idx: nat)
    requires from <= idx < |lines|
    ensures lines[from..idx + 1] == lines[from..idx] + [lines[idx]]
  {
  }

  /** Every line before the address end is an address line. */
  lemma {:induction false} AddressLine(lines: seq<string>, from: nat, j: nat)
    requires from <= |lines| && from <= j < AddressEnd(lines, from)
    ensures !DateNameLine(lines[j]) && !StartsWith(lines[j], "Total") && !IsDetailLabelLine(lines[j])
    decreases j - from
  {
    if j > from {
      AddressLine(lines, from + 1, j);
    }
  }

  /**
   * The detail loop: lines up to a "Total" line or a vendor line whose
   * lookahead reaches a date line.
   */
  method ReadVendorDetails(lines: seq<string>, from: nat) returns (details: seq<string>, idx: nat)
    requires from <= |lines|
    ensures from <= idx <= |lines| && details == lines[from..idx]
    ensures forall j :: from <= j < idx ==> !StartsWith(lines[j], "Total") && !StartsNextEntry(lines, j)
    ensures idx < |lines| ==> StartsWith(lines[idx], "Total") || StartsNextEntry(lines, idx)
  {
    details := [];
    idx := from;
    while idx < |lines|
      invariant from <= idx <= |lines|
      invariant details == lines[from..idx]
      invariant forall j :: from <= j < idx ==> !StartsWith(lines[j], "Total") && !StartsNextEntry(lines, j)
      decreases |lines| - idx
    {
      var stop := EndsDetails(lines, idx);
      if stop {
        break;
      }
      LinesSnoc(lines, from, idx);
      details := details + [lines[idx]];
      idx := idx + 1;
    }
  }

  /** One pass of the detail loop: a "Total" line, or a vendor line whose lookahead reaches a date line. */
  method EndsDetails(lines: seq<string>, idx: nat) returns (stop: bool)
    requires idx < |lines|
    ensures stop <==> StartsWith(lines[idx], "Total") || StartsNextEntry(lines, idx)
  {
    var line := lines[idx];
    if StartsWith(line, "Total") {
      return true;
    }
    stop := false;
    if LooksLikeVendorLine(line) {
      var lookahead := Lookahead(lines, idx + 1);
      if lookahead < |lines| && DateNameLine(lines[lookahead]) {
        stop := true;
      }
    }
  }

  /** The innermost loop: from `k`, skip lines up to a date line, a "Total" line or a line with a colon. */
  method Lookahead(lines: seq<string>, k: nat) returns (r: nat)
    requires k <= |lines|
    ensures r == LookaheadFrom(lines, k)
  {
    r := k;
    while r < |lines| && !DateNameLine(lines[r])
      invariant k <= r <= |lines|
      invariant LookaheadFrom(lines, r) == LookaheadFrom(lines, k)
      decreases |lines| - r
    {
      var probe := lines[r];
      if StartsWith(probe, "Total") {
        break;
      }
      if ':' in probe {
        break;
      }
      r := r + 1;
    }
  }

  lemma EntrySlice(lines: seq<string>, start: nat, dateIndex: nat, end: nat)
    requires start < dateIndex < end <= |lines|
    ensures lines[start..end] == [lines[start]] + lines[start + 1..dateIndex] + [lines[dateIndex]] + lines[dateIndex + 1..end]
  {
    assert lines[start..end] == lines[start..dateIndex] + lines[dateIndex..end];
    assert lines[start..dateIndex] == [lines[start]] + lines[start + 1..dateIndex];
    assert lines[dateIndex..end] == [lines[dateIndex]] + lines[dateIndex + 1..end];
  }

  /** The pieces the outer loop reads make a well-formed entry. */
  lemma EntryWellFormed(lines: seq<string>, start: nat, dateIndex: nat, end: nat, e: VendorEntry)
    requires start < dateIndex < end <= |lines|
    requires e.name == lines[start] && !StartsWith(e.name, "Total")
    requires e.address == lines[start + 1..dateIndex]
    requires forall a :: 0 <= a < |e.address| ==>
      !DateNameLine(e.address[a]) && !StartsWith(e.address[a], "Total") && !IsDetailLabelLine(e.address[a])
    requires e.dateLine == lines[dateIndex] && DateNameLine(e.dateLine)
    requires e.details == lines[dateIndex + 1..end]
    requires forall j :: dateIndex + 1 <= j < end ==> !StartsWith(lines[j], "Total") && !StartsNextEntry(lines, j)
    requires DetailsStopAt(lines, end)
    ensures lines[start..end] == EntryLines(e) && WellFormedAt(lines, start, e)
  {
    EntrySlice(lines, start, dateIndex, end);
  }

  lemma AppendEntryLines(lines: seq<string>, entries: seq<VendorEntry>, e: VendorEntry, start: nat, end: nat)
    requires start < end <= |lines| && lines[start..end] == EntryLines(e)
    requires VendorLines(entries) == lines[..start]
    requires forall k :: 0 <= k < |entries| ==> WellFormedAt(lines, |VendorLines(entries[..k])|, entries[k])
    requires WellFormedAt(lines, start, e)
    ensures VendorLines(entries + [e]) == lines[..end]
    ensures forall k :: 0 <= k < |entries| + 1 ==> WellFormedAt(lines, |VendorLines((entries + [e])[..k])|, (entries + [e])[k])
  {
    VendorLinesSnoc(entries, e);
    assert lines[..end] == lines[..start] + lines[start..end];
    forall k | 0 <= k < |entries| + 1
      ensures WellFormedAt(lines, |VendorLines((entries + [e])[..k])|, (entries + [e])[k])
    {
      SnocPrefix(entries, e, k);
    }
  }

  lemma VendorLinesSnoc(entries: seq<VendorEntry>, e: VendorEntry)
    ensures VendorLines(entries + [e]) == VendorLines(entries) + EntryLines(e)
  {
    assert (entries + [e])[..|entries|] == entries;
  }

  lemma SnocPrefix(entries: seq<VendorEntry>, e: VendorEntry, k: nat)
    requires k <= |entries|
    ensures (entries + [e])[..k] == entries[..k]
    ensures (entries + [e])[k] == if k < |entries| then entries[k] else e
  {
  }
}
