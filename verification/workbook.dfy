/**
 * Sheet naming when CSV files are combined into one Excel workbook
 * (finance_pipeline/csv_to_workbook.py). Each CSV file becomes one worksheet
 * named after the file's stem; the name is first made acceptable to Excel and
 * then made unique among the sheets already in the workbook. The worksheet
 * contents (the CSV rows) are not part of this model.
 */
module CsvWorkbook {
  import opened Text

  /** The characters Excel refuses in a sheet name: `: \ / ? * [ ]`. */
  const INVALID_SHEET_CHARS: set<char> := {':', '\\', '/', '?', '*', '[', ']'}
  /** Excel's limit on the length of a sheet name. */
  const MAX_SHEET_NAME: nat := 31

  function Take(s: string, n: nat): string { if |s| <= n then s else s[..n] }

  /** Every invalid character replaced by `_`. */
  function Substituted(name: string): (r: string)
    ensures |r| == |name|
    ensures forall i :: 0 <= i < |r| ==> r[i] !in INVALID_SHEET_CHARS
    ensures forall i :: 0 <= i < |r| ==> name[i] !in INVALID_SHEET_CHARS ==> r[i] == name[i]
  {
    seq(|name|, i requires 0 <= i < |name| => if name[i] in INVALID_SHEET_CHARS then '_' else name[i])
  }

  lemma StripKeepsValid(s: string)
    requires forall i :: 0 <= i < |s| ==> s[i] !in INVALID_SHEET_CHARS
    ensures forall i :: 0 <= i < |Strip(s)| ==> Strip(s)[i] !in INVALID_SHEET_CHARS
  {
    var l := LStrip(s);
    LStripRemovesSpace(s);
    RStripRemovesSpace(l);
    forall i | 0 <= i < |Strip(s)| ensures Strip(s)[i] !in INVALID_SHEET_CHARS {
      assert Strip(s)[i] == l[i] == s[|s| - |l| + i];
    }
  }

  /** A name Excel accepts as it stands and that the sanitiser would not touch. */
  predicate IsSafeSheetName(s: string) {
    0 < |s| <= MAX_SHEET_NAME && Stripped(s) && forall i :: 0 <= i < |s| ==> s[i] !in INVALID_SHEET_CHARS
  }

  /** safe_sheet_name: substitute, strip, fall back to "Sheet", truncate to 31. */
  function SafeSheetName(name: string): (r: string)
    ensures 0 < |r| <= MAX_SHEET_NAME
    ensures forall i :: 0 <= i < |r| ==> r[i] !in INVALID_SHEET_CHARS
    ensures Blank(Substituted(name)) ==> r == "Sheet"
    ensures !Blank(Substituted(name)) ==> StartsWith(Strip(Substituted(name)), r)
    ensures !Blank(Substituted(name)) && |Strip(Substituted(name))| <= MAX_SHEET_NAME ==> r == Strip(Substituted(name))
  {
    var title := Strip(Substituted(name));
    StripEmpty(Substituted(name));
    StripKeepsValid(Substituted(name));
    LStripRemovesSpace(Substituted(name));
    RStripRemovesSpace(LStrip(Substituted(name)));
    var t := if title == [] then "Sheet" else title;
    Take(t, MAX_SHEET_NAME)
  }

  /** A name that is already safe is kept unchanged, and only such a name is. */
  lemma SafeSheetNameFixed(name: string)
    ensures SafeSheetName(name) == name <==> IsSafeSheetName(name)
  {
    var sub := Substituted(name);
    if IsSafeSheetName(name) {
      assert sub == name;
      StripOfStripped(name);
      StripEmpty(name);
    }
    if SafeSheetName(name) == name {
      var title := Strip(sub);
      StripEmpty(sub);
      if title != [] {
        assert |title| <= |sub| == |name|;
        assert Take(title, MAX_SHEET_NAME) == name;
        assert title == name;
      }
    }
  }

  // ---------------------------------------------------------------- unique names

  /**
   * The name add_csv_to_workbook tries for counter `n` on a collision, as
   * written: the first 29 characters, `_`, the counter.
   */
  function Candidate(name: string, n: nat): (r: string)
    ensures n < 10 ==> |r| <= MAX_SHEET_NAME
  {
    Take(name, 29) + "_" + NatToString(n)
  }

  /**
   * Cutting to 29 characters leaves room for `_` and ONE digit only: from the
   * tenth collision on, a long name yields a 32-character sheet name, over
   * Excel's limit of 31.
   */
  lemma CandidateOverLong()
    ensures |Candidate(Repeat('a', 31), 10)| == 32 > MAX_SHEET_NAME
  {
    assert NatToString(10) == "10";
  }

  /**
   * The candidate as evidently intended: the name is cut short enough that
   * `_` and the counter still fit in 31 characters. For counters 1 to 9 it is
   * the candidate as written.
   */
  function BoundedCandidate(name: string, n: nat): (r: string)
    ensures |NatToString(n)| < MAX_SHEET_NAME ==> |r| <= MAX_SHEET_NAME
  {
    var digits := NatToString(n);
    var room := if |digits| < MAX_SHEET_NAME then MAX_SHEET_NAME - 1 - |digits| else 0;
    Take(name, room) + "_" + digits
  }

  lemma BoundedCandidateAgrees(name: string, n: nat)
    requires 1 <= n < 10
    ensures BoundedCandidate(name, n) == Candidate(name, n)
  {
  }

  /** The maximal run of digits at the end of `s`. */
  function TrailingDigits(s: string): string
  {
    if s != [] && IsDigit(s[|s| - 1]) then TrailingDigits(s[..|s| - 1]) + [s[|s| - 1]] else []
  }

  lemma {:induction false} TrailingDigitsAfterUnderscore(x: string, d: string)
    requires AllDigits(d)
    ensures TrailingDigits(x + "_" + d) == d
    decreases |d|
  {
    var s := x + "_" + d;
    if d != [] {
      assert s[..|s| - 1] == x + "_" + d[..|d| - 1];
      TrailingDigitsAfterUnderscore(x, d[..|d| - 1]);
    } else {
      assert s[|s| - 1] == '_';
    }
  }

  /** Different counters give different candidates. */
  lemma CandidateInjective(name: string, m: nat, n: nat)
    requires Candidate(name, m) == Candidate(name, n)
    ensures m == n
  {
    var dm := CandidateCounter(name, m);
    var dn := CandidateCounter(name, n);
    NatToStringInjective(m, n);
  }

  /** The counter is read back from the digits after the last `_` of its candidate. */
  lemma CandidateCounter(name: string, n: nat) returns (d: string)
    ensures d == NatToString(n) == TrailingDigits(Candidate(name, n))
  {
    d := NatToString(n);
    TrailingDigitsAfterUnderscore(Take(name, 29), d);
  }

  /** The candidates for counters 1 .. k-1. */
  ghost function Tried(name: string, k: nat): set<string>
  {
    if k <= 1 then {} else Tried(name, k - 1) + {Candidate(name, k - 1)}
  }

  lemma {:induction false} NotYetTried(name: string, k: nat, n: nat)
    requires n >= k
    ensures Candidate(name, n) !in Tried(name, k)
  {
    if k > 1 {
      if Candidate(name, n) == Candidate(name, k - 1) { CandidateInjective(name, n, k - 1); }
      NotYetTried(name, k - 1, n);
    }
  }

  /**
   * The counter loop of add_csv_to_workbook: the name itself when free,
   * otherwise the candidate for the least counter n >= 1 not yet taken.
   */
  method ChooseSheetName(name: string, taken: seq<string>) returns (r: string)
    ensures r !in taken
    ensures name !in taken ==> r == name
    ensures name in taken ==>
      exists n: nat :: 1 <= n && r == Candidate(name, n) && forall m :: 1 <= m < n ==> Candidate(name, m) in taken
  {
    r := name;
    if name in taken {
      var suffix := 1;
      var candidate := Candidate(name, suffix);
      ghost var names := set t | t in taken;
      while candidate in taken
        invariant suffix >= 1 && candidate == Candidate(name, suffix)
        invariant forall m :: 1 <= m < suffix ==> Candidate(name, m) in taken
        invariant Tried(name, suffix) <= names
        decreases |names - Tried(name, suffix)|
      {
        ghost var d := names - Tried(name, suffix);
        NotYetTried(name, suffix, suffix);
        assert candidate in d;
        assert names - Tried(name, suffix + 1) == d - {candidate};
        assert (d - {candidate}) + {candidate} == d;
        assert forall m :: 1 <= m < suffix + 1 ==> Candidate(name, m) in taken;
        suffix := suffix + 1;
        candidate := Candidate(name, suffix);
      }
      r := candidate;
      assert 1 <= suffix && r == Candidate(name, suffix);
    }
  }

  /**
   * A workbook's sheets, by name, in creation order. The worksheets'
   * cells are not modelled.
   */
  class Workbook {
    var sheetNames: seq<string>

    /** No two sheets share a name. */
    ghost predicate Valid()
      reads this
    {
      forall i, j :: 0 <= i < j < |sheetNames| ==> sheetNames[i] != sheetNames[j]
    }

    constructor ()
      ensures Valid() && sheetNames == []
    {
      sheetNames := [];
    }

    /**
     * add_csv_to_workbook: create a sheet named after `stem`, unique in the
     * workbook. `title` is the name passed to `create_sheet`; names are
     * compared with letter case, as `in workbook.sheetnames` does.
     */
    method AddCsvSheet(stem: string) returns (title: string)
      requires Valid()
      modifies this
      ensures Valid()
      ensures sheetNames == old(sheetNames) + [title]
      ensures title !in old(sheetNames)
      ensures SafeSheetName(stem) !in old(sheetNames) ==> title == SafeSheetName(stem)
      ensures SafeSheetName(stem) in old(sheetNames) ==>
        exists n: nat :: 1 <= n && title == Candidate(SafeSheetName(stem), n)
          && forall m :: 1 <= m < n ==> Candidate(SafeSheetName(stem), m) in old(sheetNames)
    {
      title := ChooseSheetName(SafeSheetName(stem), sheetNames);
      sheetNames := sheetNames + [title];
    }
  }
}
