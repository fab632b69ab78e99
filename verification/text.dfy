/** Optional values: Python's `None` beside a value. */
module Optional {
  datatype Option<T> = None | Some(value: T)
}

/**
 * Character classes and string operations shared by every parser in the
 * repository. Characters are assumed to be ASCII: whitespace is what Python's
 * `str.isspace` and the regular-expression class `\s` accept among ASCII
 * characters, and letter case is ASCII case.
 */
module Text {
  import opened Optional

  // ---------------------------------------------------------------- classes

  predicate IsSpace(c: char) {
    c == ' ' || c == '\t' || c == '\n' || c == '\r' || c == '\U{000B}' || c == '\U{000C}'
    || ('\U{001C}' <= c <= '\U{001F}')
  }
  predicate IsDigit(c: char) { '0' <= c <= '9' }
  predicate IsUpper(c: char) { 'A' <= c <= 'Z' }
  predicate IsLowerLetter(c: char) { 'a' <= c <= 'z' }
  predicate IsAlpha(c: char) { IsUpper(c) || IsLowerLetter(c) }
  /** The regular-expression class `\w` on ASCII. */
  predicate IsWordChar(c: char) { IsAlpha(c) || IsDigit(c) || c == '_' }

  predicate AllDigits(s: string) { forall i :: 0 <= i < |s| ==> IsDigit(s[i]) }
  predicate AllUpper(s: string) { forall i :: 0 <= i < |s| ==> IsUpper(s[i]) }
  predicate HasDigit(s: string) { exists i :: 0 <= i < |s| && IsDigit(s[i]) }
  predicate Blank(s: string) { forall i :: 0 <= i < |s| ==> IsSpace(s[i]) }

  /** A run of `lo` to `hi` ASCII digits, the regular expression `\d{lo,hi}`. */
  predicate DigitsBetween(s: string, lo: nat, hi: nat) { lo <= |s| <= hi && AllDigits(s) }

  /** Exactly two upper-case ASCII letters, `[A-Z]{2}`. */
  predicate IsStateCode(s: string) { |s| == 2 && AllUpper(s) }

  function ToLower(c: char): char { if IsUpper(c) then (c as int + 32) as char else c }
  function ToUpper(c: char): char { if IsLowerLetter(c) then (c as int - 32) as char else c }

  function Lower(s: string): (r: string)
    ensures |r| == |s| && forall i :: 0 <= i < |s| ==> r[i] == ToLower(s[i])
  {
    seq(|s|, i requires 0 <= i < |s| => ToLower(s[i]))
  }

  function Upper(s: string): (r: string)
    ensures |r| == |s| && forall i :: 0 <= i < |s| ==> r[i] == ToUpper(s[i])
  {
    seq(|s|, i requires 0 <= i < |s| => ToUpper(s[i]))
  }

  /** Lower-casing twice is lower-casing once. */
  lemma LowerIdempotent(s: string)
    ensures Lower(Lower(s)) == Lower(s)
  {
    assert forall i :: 0 <= i < |s| ==> ToLower(ToLower(s[i])) == ToLower(s[i]);
  }

  /** Upper-casing ignores an earlier lower-casing. */
  lemma UpperOfLower(s: string)
    ensures Upper(Lower(s)) == Upper(s)
  {
    assert forall i :: 0 <= i < |s| ==> ToUpper(ToLower(s[i])) == ToUpper(s[i]);
  }

  /** Lower-casing works character by character. */
  lemma LowerAppend(a: string, b: string)
    ensures Lower(a + b) == Lower(a) + Lower(b)
  {
  }

  /** Every occurrence of `a` replaced by `b`. */
  function ReplaceChar(s: string, a: char, b: char): (r: string)
    ensures |r| == |s| && forall i :: 0 <= i < |s| ==> r[i] == if s[i] == a then b else s[i]
  {
    seq(|s|, i requires 0 <= i < |s| => if s[i] == a then b else s[i])
  }

  /** Python's `s.replace(p, "")`: occurrences of `p` removed from left to right. */
  function RemoveAll(s: string, p: string): (r: string)
    requires p != []
    ensures |r| <= |s|
    ensures !Contains(s, p) ==> r == s
    decreases |s|
  {
    if s == [] then []
    else if StartsWith(s, p) then RemoveAll(s[|p|..], p)
    else [s[0]] + RemoveAll(s[1..], p)
  }

  /** Every character in `cs` removed. */
  function RemoveChars(s: string, cs: set<char>): (r: string)
    ensures forall i :: 0 <= i < |r| ==> r[i] !in cs
    ensures |r| <= |s|
  {
    if s == [] then []
    else if s[0] in cs then RemoveChars(s[1..], cs)
    else [s[0]] + RemoveChars(s[1..], cs)
  }

  lemma {:induction false} RemoveCharsAppend(a: string, b: string, cs: set<char>)
    ensures RemoveChars(a + b, cs) == RemoveChars(a, cs) + RemoveChars(b, cs)
  {
    if a == [] {
      assert a + b == b;
    } else {
      assert (a + b)[1..] == a[1..] + b;
      RemoveCharsAppend(a[1..], b, cs);
    }
  }

  lemma {:induction false} RemoveCharsNone(s: string, cs: set<char>)
    requires forall i :: 0 <= i < |s| ==> s[i] !in cs
    ensures RemoveChars(s, cs) == s
  {
    if s != [] {
      RemoveCharsNone(s[1..], cs);
    }
  }

  /** Removing commas from a run of digits and commas leaves digits only. */
  lemma {:induction false} RemoveCommasDigits(s: string)
    requires forall i :: 0 <= i < |s| ==> IsDigit(s[i]) || s[i] == ','
    ensures AllDigits(RemoveChars(s, {','}))
  {
    if s != [] {
      RemoveCommasDigits(s[1..]);
    }
  }

  function Repeat(c: char, n: nat): (r: string)
    ensures |r| == n && forall i :: 0 <= i < n ==> r[i] == c
  {
    seq(n, _ => c)
  }

  // ---------------------------------------------------------------- prefixes

  predicate StartsWith(s: string, p: string) { |p| <= |s| && s[..|p|] == p }
  predicate EndsWith(s: string, p: string) { |p| <= |s| && s[|s| - |p|..] == p }

  /** `p in s` for strings: `p` occurs somewhere in `s`. */
  predicate Contains(s: string, p: string)
    decreases |s|
  {
    StartsWith(s, p) || (s != [] && Contains(s[1..], p))
  }

  /** Python's `str.find`: the first index at which `p` occurs in `s`. */
  function IndexOf(s: string, p: string): (r: Option<nat>)
    ensures r.Some? <==> Contains(s, p)
    ensures r.Some? ==> r.value + |p| <= |s| && s[r.value..r.value + |p|] == p
    ensures r.Some? ==> forall j :: 0 <= j < r.value ==> !StartsWith(s[j..], p)
    decreases |s|
  {
    if StartsWith(s, p) then Some(0)
    else if s == [] then None
    else match IndexOf(s[1..], p)
      case None => None
      case Some(k) =>
        assert forall j :: 1 <= j <= k + 1 ==> s[j..] == s[1..][j - 1..];
        Some(k + 1)
  }

  /** A piece of `s` that lies inside the copy of `t` at `m` is the matching piece of `t`. */
  lemma SliceWithin(s: string, t: string, m: nat, a: nat, n: nat)
    requires m + |t| <= |s| && s[m..m + |t|] == t && m <= a && a + n <= m + |t|
    ensures s[a..a + n] == t[a - m..a - m + n]
  {
    forall k | a <= k < a + n ensures s[k] == t[k - m] {
      assert s[k] == s[m..m + |t|][k - m];
    }
  }

  lemma {:induction false} ContainsAt(s: string, p: string, i: nat)
    requires i + |p| <= |s| && s[i..i + |p|] == p
    ensures Contains(s, p)
    decreases i
  {
    if i > 0 {
      assert s[1..][i - 1..i - 1 + |p|] == p;
      ContainsAt(s[1..], p, i - 1);
    }
  }

  lemma ContainsSelf(a: string, p: string, b: string)
    ensures Contains(a + p + b, p)
  {
    var s := a + p + b;
    assert s[|a|..|a| + |p|] == p;
    ContainsAt(s, p, |a|);
  }

  lemma {:induction false} ContainsWitness(s: string, p: string) returns (i: nat)
    requires Contains(s, p)
    ensures i + |p| <= |s| && s[i..i + |p|] == p
    decreases |s|
  {
    if StartsWith(s, p) {
      i := 0;
    } else {
      var k := ContainsWitness(s[1..], p);
      assert s[k + 1..k + 1 + |p|] == s[1..][k..k + |p|];
      i := k + 1;
    }
  }

  lemma ContainsChar(s: string, c: char)
    ensures Contains(s, [c]) <==> c in s
  {
    if Contains(s, [c]) {
      var i := ContainsWitness(s, [c]);
      assert s[i] == c;
    }
    if c in s {
      var i :| 0 <= i < |s| && s[i] == c;
      assert s[i..i + 1] == [c];
      ContainsAt(s, [c], i);
    }
  }

  /** A substring of a substring is a substring. */
  lemma ContainsGrow(s: string, p: string, a: string, b: string)
    requires Contains(s, p)
    ensures Contains(a + s + b, p)
  {
    var i := ContainsWitness(s, p);
    var t := a + s + b;
    assert t[|a| + i..|a| + i + |p|] == s[i..i + |p|];
    ContainsAt(t, p, |a| + i);
  }

  /** Python's `s.split(sep, 1)` when `sep` occurs: the text before and after the first `sep`. */
  function SplitOnce(s: string, sep: string): (r: (string, string))
    requires Contains(s, sep)
    ensures s == r.0 + sep + r.1
    ensures sep != [] ==> !Contains(r.0, sep)
  {
    var i := IndexOf(s, sep).value;
    assert s == s[..i] + sep + s[i + |sep|..];
    NothingBeforeFirst(s, sep);
    (s[..i], s[i + |sep|..])
  }

  /** `p` occurs in `s` at index `j`. */
  predicate OccursAt(s: string, p: string, j: nat) { j + |p| <= |s| && s[j..j + |p|] == p }

  lemma NothingBeforeFirst(s: string, p: string)
    requires Contains(s, p)
    ensures p != [] ==> !Contains(s[..IndexOf(s, p).value], p)
  {
    var i := IndexOf(s, p).value;
    var before := s[..i];
    if p != [] {
      forall j: nat ensures !OccursAt(before, p, j) {
        if j + |p| <= |before| {
          assert !StartsWith(s[j..], p);
          assert s[j..][..|p|] == before[j..j + |p|];
        }
      }
      NoOccurrence(before, p);
    }
  }

  lemma {:induction false} NoOccurrence(s: string, p: string)
    requires forall j: nat :: !OccursAt(s, p, j)
    ensures !Contains(s, p)
    decreases |s|
  {
    assert !OccursAt(s, p, 0);
    if s != [] {
      forall j: nat ensures !OccursAt(s[1..], p, j) {
        assert !OccursAt(s, p, j + 1);
        if j + |p| <= |s[1..]| {
          assert s[1..][j..j + |p|] == s[j + 1..j + 1 + |p|];
        }
      }
      NoOccurrence(s[1..], p);
    }
  }

  // ---------------------------------------------------------------- whitespace

  function LStrip(s: string): (r: string)
    ensures |r| <= |s|
    ensures r == [] || !IsSpace(r[0])
    decreases |s|
  {
    if s != [] && IsSpace(s[0]) then LStrip(s[1..]) else s
  }

  function RStrip(s: string): (r: string)
    ensures |r| <= |s|
    ensures r == [] || !IsSpace(r[|r| - 1])
    decreases |s|
  {
    if s != [] && IsSpace(s[|s| - 1]) then RStrip(s[..|s| - 1]) else s
  }

  /** LStrip keeps a suffix of `s`; what it removes is whitespace. */
  lemma {:induction false} LStripRemovesSpace(s: string)
    ensures LStrip(s) == s[|s| - |LStrip(s)|..]
    ensures forall i :: 0 <= i < |s| - |LStrip(s)| ==> IsSpace(s[i])
    decreases |s|
  {
    if s != [] && IsSpace(s[0]) {
      LStripRemovesSpace(s[1..]);
      assert s[1..][|s| - 1 - |LStrip(s)|..] == s[|s| - |LStrip(s)|..];
    }
  }

  /** RStrip keeps a prefix of `s`; what it removes is whitespace. */
  lemma {:induction false} RStripRemovesSpace(s: string)
    ensures RStrip(s) == s[..|RStrip(s)|]
    ensures forall i :: |RStrip(s)| <= i < |s| ==> IsSpace(s[i])
    decreases |s|
  {
    if s != [] && IsSpace(s[|s| - 1]) {
      RStripRemovesSpace(s[..|s| - 1]);
      assert s[..|s| - 1][..|RStrip(s)|] == s[..|RStrip(s)|];
    }
  }

  /** Python's `str.strip()`. */
  function Strip(s: string): (r: string)
    ensures Stripped(r)
  {
    RStripRemovesSpace(LStrip(s));
    RStrip(LStrip(s))
  }

  /** Neither end of `s` is whitespace. */
  predicate Stripped(s: string) { s == [] || (!IsSpace(s[0]) && !IsSpace(s[|s| - 1])) }

  lemma StripOfStripped(s: string)
    requires Stripped(s)
    ensures Strip(s) == s
  {
  }

  lemma {:induction false} StripEmpty(s: string)
    ensures Strip(s) == [] <==> Blank(s)
  {
    LStripRemovesSpace(s);
    RStripRemovesSpace(LStrip(s));
  }

  /** Python's `s.strip(chars)`: characters of `cs` removed from both ends. */
  function StripSet(s: string, cs: set<char>): (r: string)
    ensures |r| <= |s|
    ensures r == [] || (r[0] !in cs && r[|r| - 1] !in cs)
    decreases |s|
  {
    if s == [] then []
    else if s[0] in cs then StripSet(s[1..], cs)
    else if s[|s| - 1] in cs then StripSet(s[..|s| - 1], cs)
    else s
  }

  /** No whitespace at all, and not empty: a token of `str.split()`. */
  predicate IsWord(w: string) { |w| > 0 && forall i :: 0 <= i < |w| ==> !IsSpace(w[i]) }

  /** The length of the leading run of non-whitespace characters. */
  function WordLen(s: string): (n: nat)
    ensures n <= |s|
    ensures forall i :: 0 <= i < n ==> !IsSpace(s[i])
    ensures n < |s| ==> IsSpace(s[n])
  {
    if s == [] || IsSpace(s[0]) then 0 else 1 + WordLen(s[1..])
  }

  /** Python's `str.split()`: the maximal runs of non-whitespace characters. */
  function Words(s: string): (r: seq<string>)
    ensures forall i :: 0 <= i < |r| ==> IsWord(r[i])
    decreases |s|
  {
    if s == [] then []
    else if IsSpace(s[0]) then Words(s[1..])
    else
      var n := WordLen(s);
      [s[..n]] + Words(s[n..])
  }

  /** Every character of a word is a character of the text. */
  lemma {:induction false} WordsChars(s: string)
    ensures forall i, c :: 0 <= i < |Words(s)| && c in Words(s)[i] ==> c in s
    decreases |s|
  {
    if s != [] {
      var n := if IsSpace(s[0]) then 1 else WordLen(s);
      WordsChars(s[n..]);
      forall i, c | 0 <= i < |Words(s)| && c in Words(s)[i] ensures c in s {
        if IsSpace(s[0]) {
          assert Words(s)[i] == Words(s[1..])[i];
          InSuffix(s, 1, c);
        } else if i == 0 {
          assert Words(s)[0] == s[..n];
          InPrefix(s, n, c);
        } else {
          assert Words(s)[i] == Words(s[n..])[i - 1];
          InSuffix(s, n, c);
        }
      }
    }
  }

  lemma InSuffix(s: string, n: nat, c: char)
    requires n <= |s| && c in s[n..]
    ensures c in s
  {
    var k :| 0 <= k < |s| - n && s[n..][k] == c;
    assert s[n + k] == c;
  }

  lemma InPrefix(s: string, n: nat, c: char)
    requires n <= |s| && c in s[..n]
    ensures c in s
  {
    var k :| 0 <= k < n && s[..n][k] == c;
    assert s[k] == c;
  }

  /** Python's `sep.join(ws)`. */
  function Join(ws: seq<string>, sep: string): string
  {
    if ws == [] then "" else if |ws| == 1 then ws[0] else ws[0] + sep + Join(ws[1..], sep)
  }

  /**
   * Whitespace appears only as single spaces between non-space characters:
   * no leading or trailing whitespace, no run of two, no tab or newline.
   */
  predicate Collapsed(s: string) {
    forall i :: 0 <= i < |s| && IsSpace(s[i]) ==> s[i] == ' ' && 0 < i < |s| - 1 && !IsSpace(s[i + 1])
  }

  /** `re.sub(r"\s+", " ", s.strip())`, which is `" ".join(s.split())`. */
  function CollapseSpace(s: string): (r: string)
    ensures Collapsed(r)
    ensures forall c :: c in r ==> c in s || c == ' '
  {
    var ws := Words(s);
    WordsChars(s);
    JoinCollapsed(ws);
    forall c | c in Join(ws, " ") ensures c in s || c == ' ' {
      JoinChars(ws, " ", c);
    }
    Join(ws, " ")
  }

  lemma {:induction false} JoinChars(ws: seq<string>, sep: string, c: char)
    requires c in Join(ws, sep)
    ensures c in sep || exists i :: 0 <= i < |ws| && c in ws[i]
  {
    if |ws| > 1 {
      if c !in ws[0] && c !in sep {
        JoinChars(ws[1..], sep, c);
        var i :| 0 <= i < |ws[1..]| && c in ws[1..][i];
        assert c in ws[i + 1];
      }
    }
  }

  lemma {:induction false} JoinFirst(ws: seq<string>, sep: string)
    requires |ws| > 0 && |ws[0]| > 0
    ensures |Join(ws, sep)| > 0 && Join(ws, sep)[0] == ws[0][0]
  {
  }

  lemma {:induction false} JoinCollapsed(ws: seq<string>)
    requires forall i :: 0 <= i < |ws| ==> IsWord(ws[i])
    ensures Collapsed(Join(ws, " "))
  {
    if |ws| > 1 {
      var w, j := ws[0], Join(ws[1..], " ");
      JoinCollapsed(ws[1..]);
      JoinFirst(ws[1..], " ");
      var s := w + " " + j;
      assert Join(ws, " ") == s;
      forall i | 0 <= i < |s| && IsSpace(s[i])
        ensures s[i] == ' ' && 0 < i < |s| - 1 && !IsSpace(s[i + 1])
      {
        if i > |w| {
          assert s[i] == j[i - |w| - 1];
          if i + 1 < |s| { assert s[i + 1] == j[i - |w|]; }
        }
      }
    }
  }

  lemma {:induction false} WordLenOfWord(w: string, t: string)
    requires IsWord(w) && (t == [] || IsSpace(t[0]))
    ensures WordLen(w + t) == |w|
    decreases |w|
  {
    if |w| > 1 {
      assert (w + t)[1..] == w[1..] + t;
      WordLenOfWord(w[1..], t);
    }
  }

  lemma {:induction false} WordsLeadingWord(w: string, t: string)
    requires IsWord(w) && (t == [] || IsSpace(t[0]))
    ensures Words(w + t) == [w] + Words(t)
  {
    WordLenOfWord(w, t);
    assert (w + t)[..|w|] == w && (w + t)[|w|..] == t;
  }

  /** Splitting words joined by single spaces gives the words back. */
  lemma {:induction false} WordsOfJoin(ws: seq<string>)
    requires forall i :: 0 <= i < |ws| ==> IsWord(ws[i])
    ensures Words(Join(ws, " ")) == ws
  {
    if |ws| == 1 {
      WordsLeadingWord(ws[0], "");
      assert ws[0] + "" == ws[0];
    } else if |ws| > 1 {
      WordsOfJoin(ws[1..]);
      WordsAfterWord(ws[0], Join(ws[1..], " "));
    }
  }

  /** A word and a space in front of a text add that word in front of its words. */
  lemma WordsAfterWord(w: string, j: string)
    requires IsWord(w)
    ensures Words(w + " " + j) == [w] + Words(j)
  {
    WordsLeadingWord(w, " " + j);
    assert (" " + j)[1..] == j;
    assert w + " " + j == w + (" " + j);
  }

  /** Collapsing whitespace twice is collapsing it once. */
  lemma CollapseSpaceIdempotent(s: string)
    ensures CollapseSpace(CollapseSpace(s)) == CollapseSpace(s)
  {
    WordsOfJoin(Words(s));
  }

  lemma {:induction false} WordsOfBlank(s: string)
    ensures Words(s) == [] <==> Blank(s)
    decreases |s|
  {
    if s != [] {
      WordsOfBlank(s[1..]);
      assert Blank(s) <==> IsSpace(s[0]) && Blank(s[1..]);
    }
  }

  lemma WordsOfWord(w: string)
    requires IsWord(w)
    ensures Words(w) == [w]
  {
    WordsLeadingWord(w, "");
    assert w + "" == w;
  }

  lemma JoinOne(w: string, sep: string)
    ensures Join([w], sep) == w
  {
  }

  /** Joining a head and a non-empty tail puts one separator between them. */
  lemma JoinCons(w: string, ws: seq<string>, sep: string)
    requires ws != []
    ensures Join([w] + ws, sep) == w + sep + Join(ws, sep)
  {
    assert ([w] + ws)[1..] == ws;
  }

  /** Join distributes over concatenation. */
  lemma {:induction false} JoinAppend(a: seq<string>, b: seq<string>, sep: string)
    requires a != [] && b != []
    ensures Join(a + b, sep) == Join(a, sep) + sep + Join(b, sep)
  {
    if |a| == 1 {
      assert (a + b)[1..] == b;
    } else {
      assert (a + b)[1..] == a[1..] + b;
      JoinAppend(a[1..], b, sep);
    }
  }

  /** A space after `x` ends its last word: the leading word is unchanged by what follows. */
  lemma {:induction false} WordLenBeforeSpace(x: string, y: string)
    requires WordLen(x) < |x| || y == [] || IsSpace(y[0])
    ensures WordLen(x + y) == WordLen(x)
  {
    if x != [] && !IsSpace(x[0]) {
      assert (x + y)[1..] == x[1..] + y;
      WordLenBeforeSpace(x[1..], y);
    }
  }

  /** Words on either side of a space stay apart. */
  lemma {:induction false} WordsAroundSpace(x: string, y: string)
    ensures Words(x + " " + y) == Words(x) + Words(y)
    decreases |x|
  {
    var s := x + " " + y;
    if x == [] {
      assert s[1..] == y;
    } else if IsSpace(x[0]) {
      assert s[1..] == x[1..] + " " + y;
      WordsAroundSpace(x[1..], y);
    } else {
      var n := WordLen(x);
      WordLenBeforeSpace(x, " " + y);
      assert s == x + (" " + y);
      assert s[..n] == x[..n];
      assert s[n..] == x[n..] + " " + y;
      WordsAroundSpace(x[n..], y);
    }
  }

  /** Whitespace at either end contributes no word. */
  lemma WordsOfStrip(s: string)
    ensures Words(Strip(s)) == Words(s)
  {
    WordsOfLStrip(s);
    WordsOfRStrip(LStrip(s));
  }

  lemma WordsOfRStrip(s: string)
    ensures Words(RStrip(s)) == Words(s)
  {
    var r := RStrip(s);
    var t := s[|r|..];
    RStripRemovesSpace(s);
    assert Blank(t) by {
      forall i | 0 <= i < |t| ensures IsSpace(t[i]) {
        assert t[i] == s[|r| + i];
      }
    }
    assert s == r + t;
    WordsTrailingBlank(r, t);
  }

  lemma {:induction false} WordsOfLStrip(s: string)
    ensures Words(LStrip(s)) == Words(s)
    decreases |s|
  {
    if s != [] && IsSpace(s[0]) {
      WordsOfLStrip(s[1..]);
    }
  }

  lemma {:induction false} WordsTrailingBlank(x: string, t: string)
    requires Blank(t)
    ensures Words(x + t) == Words(x)
    decreases |x|
  {
    var s := x + t;
    if x == [] {
      WordsOfBlank(t);
      assert s == t;
    } else if IsSpace(x[0]) {
      assert s[1..] == x[1..] + t;
      WordsTrailingBlank(x[1..], t);
    } else {
      var n := WordLen(x);
      WordLenBeforeSpace(x, t);
      assert s[..n] == x[..n];
      assert s[n..] == x[n..] + t;
      WordsTrailingBlank(x[n..], t);
    }
  }

  // ---------------------------------------------------------------- splitting on a character

  /** Python's `s.split(c)` for a single-character separator. */
  function SplitOn(s: string, c: char): (r: seq<string>)
    ensures |r| >= 1
    ensures forall i :: 0 <= i < |r| ==> c !in r[i]
  {
    if s == [] then [""]
    else
      var rest := SplitOn(s[1..], c);
      if s[0] == c then [""] + rest else [[s[0]] + rest[0]] + rest[1..]
  }

  lemma {:induction false} SplitOnNone(a: string, c: char)
    requires c !in a
    ensures SplitOn(a, c) == [a]
  {
    if a != [] {
      SplitOnNone(a[1..], c);
      assert [a[0]] + a[1..] == a;
    }
  }

  lemma {:induction false} SplitOnFirst(a: string, c: char, b: string)
    requires c !in a
    ensures SplitOn(a + [c] + b, c) == [a] + SplitOn(b, c)
  {
    if a == [] {
      assert ([c] + b)[1..] == b;
    } else {
      assert (a + [c] + b)[1..] == a[1..] + [c] + b;
      SplitOnFirst(a[1..], c, b);
      assert [a[0]] + a[1..] == a;
    }
  }

  /** The number of occurrences of `c` in `s` (Python's `s.count(c)`). */
  function CountChar(s: string, c: char): nat
  {
    if s == [] then 0 else (if s[0] == c then 1 else 0) + CountChar(s[1..], c)
  }

  /** Splitting on `c` yields one piece more than there are separators. */
  lemma {:induction false} SplitOnCount(s: string, c: char)
    ensures |SplitOn(s, c)| == CountChar(s, c) + 1
  {
    if s != [] {
      SplitOnCount(s[1..], c);
    }
  }

  /** Python's `s.split(c, 1)`: the text before the first `c` and the text after it. */
  function SplitFirst(s: string, c: char): (r: Option<(string, string)>)
    ensures r.None? <==> c !in s
    ensures r.Some? ==> s == r.value.0 + [c] + r.value.1 && c !in r.value.0
  {
    if s == [] then None
    else if s[0] == c then Some(([], s[1..]))
    else match SplitFirst(s[1..], c)
      case None => None
      case Some((a, b)) => Some(([s[0]] + a, b))
  }

  /** The split at the first separator is the only one whose left part has no separator. */
  lemma {:induction false} SplitFirstUnique(a: string, c: char, b: string)
    requires c !in a
    ensures SplitFirst(a + [c] + b, c) == Some((a, b))
  {
    var s := a + [c] + b;
    if a == [] {
      assert s[1..] == b;
    } else {
      assert s[0] == a[0] != c;
      assert s[1..] == a[1..] + [c] + b;
      SplitFirstUnique(a[1..], c, b);
      assert [a[0]] + a[1..] == a;
    }
  }

  // ---------------------------------------------------------------- decimal numbers

  function DigitValue(c: char): nat
    requires IsDigit(c)
  {
    c as int - '0' as int
  }

  function DigitChar(d: nat): (c: char)
    requires d < 10
    ensures IsDigit(c) && DigitValue(c) == d
  {
    ('0' as int + d) as char
  }

  /** The value of a string of decimal digits (`int(s)` on a digit string). */
  function DigitsValue(s: string): nat
    requires AllDigits(s)
  {
    if s == [] then 0 else 10 * DigitsValue(s[..|s| - 1]) + DigitValue(s[|s| - 1])
  }

  /** Python's `str(n)` for a natural number. */
  function NatToString(n: nat): (r: string)
    ensures |r| > 0 && AllDigits(r)
    ensures r[0] == '0' ==> n == 0
  {
    if n < 10 then [DigitChar(n)] else NatToString(n / 10) + [DigitChar(n % 10)]
  }

  /** Reading back what `str` wrote gives the number. */
  lemma {:induction false} NatToStringValue(n: nat)
    ensures DigitsValue(NatToString(n)) == n
  {
    if n >= 10 {
      var s := NatToString(n);
      assert s[..|s| - 1] == NatToString(n / 10);
      NatToStringValue(n / 10);
    }
  }

  lemma NatToStringInjective(m: nat, n: nat)
    requires NatToString(m) == NatToString(n)
    ensures m == n
  {
    NatToStringValue(m);
    NatToStringValue(n);
  }
}
