/**
 * Word positions on a disclosure page: the stable sort the splitter applies
 * to the words, the header finders that locate a schedule's column headings,
 * and the assigners that map a word's left edge to a column
 * (`disclosure_parser/split_schedules.py`).  Positions are exact reals: the
 * source only compares and subtracts them.
 */
module DisclosureLayout {
  import opened Optional
  import opened Text
  import opened DisclosureTokens

  /** A word of a PDF page: its text, its left edge and its top edge. */
  datatype Word = Word(text: string, x0: real, top: real)

  /** The six schedules that are rebuilt from word positions. */
  datatype Kind = KindA | KindB | KindC | KindD | KindE | KindF

  function ScheduleOf(k: Kind): Schedule
  {
    match k
    case KindA => ScheduleA
    case KindB => ScheduleB
    case KindC => ScheduleC
    case KindD => ScheduleD
    case KindE => ScheduleE
    case KindF => ScheduleF
  }

  function ColumnCount(k: Kind): nat
  {
    match k
    case KindA => 6
    case KindB => 6
    case KindC => 3
    case KindD => 5
    case KindE => 2
    case KindF => 3
  }

  /** `COLUMN_NAMES_A` … `COLUMN_NAMES_F`. */
  function ColumnNames(k: Kind): (r: seq<string>)
    ensures |r| == ColumnCount(k)
  {
    ScheduleColumns(ScheduleOf(k))
  }

  /** `HEADER_TOLERANCE`. */
  const HeaderTolerance: real := 3.0

  function Abs(x: real): real { if x < 0.0 then -x else x }

  // ---------------------------------------------------------------- sorting

  /**
   * `a` sorts strictly before `b`: by top edge, and when `byX` holds, words
   * with the same top edge by left edge (the keys `w["top"]` and
   * `(w["top"], w["x0"])`).
   */
  predicate Before(a: Word, b: Word, byX: bool)
  {
    a.top < b.top || (byX && a.top == b.top && a.x0 < b.x0)
  }

  predicate SortedBy(ws: seq<Word>, byX: bool)
  {
    forall i, j :: 0 <= i < j < |ws| ==> !Before(ws[j], ws[i], byX)
  }

  /** `w` placed after every word that does not sort after it. */
  function Insert(w: Word, sorted: seq<Word>, byX: bool): seq<Word>
  {
    if sorted == [] then [w]
    else if Before(w, sorted[0], byX) then [w] + sorted
    else [sorted[0]] + Insert(w, sorted[1..], byX)
  }

  lemma {:induction false} InsertMultiset(w: Word, sorted: seq<Word>, byX: bool)
    ensures multiset(Insert(w, sorted, byX)) == multiset(sorted) + multiset{w}
  {
    if sorted != [] && !Before(w, sorted[0], byX) {
      InsertMultiset(w, sorted[1..], byX);
      assert sorted == [sorted[0]] + sorted[1..];
    }
  }

  /** Every word of the result is `w` or a word of `sorted`. */
  lemma {:induction false} InsertFrom(w: Word, sorted: seq<Word>, byX: bool)
    ensures forall x :: x in Insert(w, sorted, byX) ==> x == w || x in sorted
  {
    if sorted != [] && !Before(w, sorted[0], byX) {
      InsertFrom(w, sorted[1..], byX);
    }
  }

  /** Nothing inserted after the first word sorts before it. */
  lemma InsertAfterHead(w: Word, sorted: seq<Word>, byX: bool)
    requires SortedBy(sorted, byX) && sorted != [] && !Before(w, sorted[0], byX)
    ensures forall x :: x in Insert(w, sorted[1..], byX) ==> !Before(x, sorted[0], byX)
  {
    InsertFrom(w, sorted[1..], byX);
    forall x | x in Insert(w, sorted[1..], byX) && x != w
      ensures !Before(x, sorted[0], byX)
    {
      var m :| 0 <= m < |sorted[1..]| && sorted[1..][m] == x;
      assert sorted[m + 1] == x;
    }
  }

  lemma {:induction false} InsertSorted(w: Word, sorted: seq<Word>, byX: bool)
    requires SortedBy(sorted, byX)
    ensures SortedBy(Insert(w, sorted, byX), byX)
  {
    if sorted != [] && !Before(w, sorted[0], byX) {
      var rest := Insert(w, sorted[1..], byX);
      assert SortedBy(sorted[1..], byX);
      InsertSorted(w, sorted[1..], byX);
      InsertAfterHead(w, sorted, byX);
      var r := [sorted[0]] + rest;
      forall i, j | 0 <= i < j < |r| ensures !Before(r[j], r[i], byX) {
        if i > 0 {
          assert r[j] == rest[j - 1] && r[i] == rest[i - 1];
        } else {
          assert r[j] == rest[j - 1] && r[j] in rest;
        }
      }
    }
  }

  /**
   * Python's `sorted` with the key above: an insertion sort that inserts
   * each word after the equal ones already placed, so it is stable as well.
   */
  function SortWords(ws: seq<Word>, byX: bool): seq<Word>
  {
    if ws == [] then [] else Insert(ws[|ws| - 1], SortWords(ws[..|ws| - 1], byX), byX)
  }

  /** The sorted words are the page's words, in order of the key. */
  lemma {:induction false} SortWordsSorted(ws: seq<Word>, byX: bool)
    ensures SortedBy(SortWords(ws, byX), byX)
    ensures multiset(SortWords(ws, byX)) == multiset(ws)
  {
    if ws != [] {
      var init := ws[..|ws| - 1];
      SortWordsSorted(init, byX);
      InsertSorted(ws[|ws| - 1], SortWords(init, byX), byX);
      InsertMultiset(ws[|ws| - 1], SortWords(init, byX), byX);
      assert ws == init + [ws[|ws| - 1]];
    }
  }

  /** Numbers in ascending order. */
  predicate AscendingReals(s: seq<real>) {
    forall i, j :: 0 <= i < j < |s| ==> s[i] <= s[j]
  }

  /** `sorted(xs)` on numbers: the same numbers, in ascending order. */
  function SortReals(xs: seq<real>): (r: seq<real>)
    ensures AscendingReals(r)
    ensures multiset(r) == multiset(xs)
  {
    if xs == [] then []
    else
      var init := xs[..|xs| - 1];
      assert xs == init + [xs[|xs| - 1]];
      InsertRealAscending(xs[|xs| - 1], SortReals(init));
      InsertReal(xs[|xs| - 1], SortReals(init))
  }

  /** `x` inserted before the first larger number: one more of `x`, nothing else new. */
  function InsertReal(x: real, sorted: seq<real>): (r: seq<real>)
    ensures multiset(r) == multiset(sorted) + multiset{x}
    ensures forall k :: 0 <= k < |r| ==> r[k] == x || r[k] in sorted
  {
    if sorted == [] then [x]
    else if x < sorted[0] then [x] + sorted
    else
      assert sorted == [sorted[0]] + sorted[1..];
      [sorted[0]] + InsertReal(x, sorted[1..])
  }

  /** Inserting into an ascending sequence keeps it ascending. */
  lemma {:induction false} InsertRealAscending(x: real, sorted: seq<real>)
    requires AscendingReals(sorted)
    ensures AscendingReals(InsertReal(x, sorted))
  {
    if sorted != [] && !(x < sorted[0]) {
      var rest := InsertReal(x, sorted[1..]);
      InsertRealAscending(x, sorted[1..]);
      forall k | 0 <= k < |rest| ensures sorted[0] <= rest[k] {
        if rest[k] != x {
          var j :| 0 <= j < |sorted[1..]| && sorted[1..][j] == rest[k];
          assert sorted[j + 1] == rest[k];
        }
      }
    }
  }

  // ---------------------------------------------------------------- column assignment

  /**
   * The limits `assign_schedule_*_column` compares a left edge with: each
   * column ends a little before the next column's heading starts.
   */
  function ColumnLimits(k: Kind, starts: seq<real>): (r: seq<real>)
    requires |starts| >= ColumnCount(k)
    ensures |r| == ColumnCount(k) - 1
  {
    match k
    case KindA => [starts[1] - 15.0, starts[2] - 5.0, starts[3] - 5.0, starts[4] - 5.0, starts[5] - 5.0]
    case KindB => [starts[1] - 15.0, starts[2] - 5.0, starts[3] - 5.0, starts[4] - 5.0, starts[5] - 5.0]
    case KindC => [starts[1] - 10.0, starts[2] - 5.0]
    case KindD => [starts[1] - 10.0, starts[2] - 5.0, starts[3] - 5.0, starts[4] - 5.0]
    case KindE => [starts[1] - 5.0]
    case KindF => [starts[1] - 5.0, starts[2] - 5.0]
  }

  /** The index of the first limit `x0` lies below; past the last limit, one more. */
  function FirstBelow(x0: real, limits: seq<real>): (r: nat)
    ensures r <= |limits|
    ensures forall i :: 0 <= i < r ==> limits[i] <= x0
    ensures r < |limits| ==> x0 < limits[r]
  {
    if limits == [] then 0
    else if x0 < limits[0] then 0
    else 1 + FirstBelow(x0, limits[1..])
  }

  /**
   * `assign_schedule_a_column` … `assign_schedule_f_column`: the column a
   * word with left edge `x0` falls in, as an index into `ColumnNames(k)`.
   */
  function AssignColumn(k: Kind, x0: real, starts: seq<real>): (r: nat)
    requires |starts| >= ColumnCount(k)
    ensures r < ColumnCount(k)
    ensures forall i :: 0 <= i < r ==> ColumnLimits(k, starts)[i] <= x0
    ensures r < ColumnCount(k) - 1 ==> x0 < ColumnLimits(k, starts)[r]
  {
    FirstBelow(x0, ColumnLimits(k, starts))
  }

  lemma {:induction false} FirstBelowMonotone(x: real, y: real, limits: seq<real>)
    requires x <= y
    ensures FirstBelow(x, limits) <= FirstBelow(y, limits)
  {
    if limits != [] && limits[0] <= x {
      FirstBelowMonotone(x, y, limits[1..]);
    }
  }

  /** A word further right never lands in a column further left. */
  lemma AssignColumnMonotone(k: Kind, x: real, y: real, starts: seq<real>)
    requires |starts| >= ColumnCount(k)
    requires x <= y
    ensures AssignColumn(k, x, starts) <= AssignColumn(k, y, starts)
  {
    FirstBelowMonotone(x, y, ColumnLimits(k, starts));
  }

  // ---------------------------------------------------------------- header finders

  /** The text the header finders compare: normalised and in lower case. */
  function Caption(w: Word): string { Lower(NormaliseWordText(w.text)) }

  /** A test a header finder applies to a caption. */
  datatype Test = Is(word: string) | Begins(prefix: string) | Has(part: string) | Either(first: string, second: string)

  predicate Passes(caption: string, t: Test)
  {
    match t
    case Is(word) => caption == word
    case Begins(prefix) => StartsWith(caption, prefix)
    case Has(part) => Contains(caption, part)
    case Either(first, second) => caption == first || caption == second
  }

  /** `w` is on the header line at `top` and its caption passes `t`. */
  predicate Matches(w: Word, top: real, t: Test)
  {
    Abs(w.top - top) < HeaderTolerance && Passes(Caption(w), t)
  }

  predicate AnyMatch(words: seq<Word>, top: real, t: Test)
  {
    exists i :: 0 <= i < |words| && Matches(words[i], top, t)
  }

  /** The least left edge among the words on the header line that pass `t`. */
  function MinX(words: seq<Word>, top: real, t: Test): (r: Option<real>)
    ensures r.None? <==> !AnyMatch(words, top, t)
  {
    if words == [] then None
    else
      var rest := MinX(words[1..], top, t);
      assert AnyMatch(words, top, t) <==> Matches(words[0], top, t) || AnyMatch(words[1..], top, t) by {
        assert forall i :: 1 <= i < |words| ==> words[i] == words[1..][i - 1];
      }
      if !Matches(words[0], top, t) then rest
      else if rest.None? || words[0].x0 <= rest.value then Some(words[0].x0)
      else rest
  }

  /** `MinX` is the left edge of a matching word. */
  lemma {:induction false} MinXAttained(words: seq<Word>, top: real, t: Test)
    ensures MinX(words, top, t).Some? ==>
      exists i :: 0 <= i < |words| && Matches(words[i], top, t) && words[i].x0 == MinX(words, top, t).value
  {
    if words != [] {
      var rest := words[1..];
      MinXAttained(rest, top, t);
      var m := MinX(words, top, t);
      if m.Some? && !(Matches(words[0], top, t) && m.value == words[0].x0) {
        var i :| 0 <= i < |rest| && Matches(rest[i], top, t) && rest[i].x0 == m.value;
        assert words[i + 1] == rest[i];
      }
    }
  }

  /** No matching word lies further left than `MinX`. */
  lemma {:induction false} MinXLeast(words: seq<Word>, top: real, t: Test)
    ensures MinX(words, top, t).Some? ==>
      forall i :: 0 <= i < |words| && Matches(words[i], top, t) ==> MinX(words, top, t).value <= words[i].x0
  {
    if words != [] {
      var rest := words[1..];
      MinXLeast(rest, top, t);
      MinXStep(words, top, t);
      var m := MinX(words, top, t);
      forall i | 1 <= i < |words| && Matches(words[i], top, t)
        ensures m.Some? && m.value <= words[i].x0
      {
        assert words[i] == rest[i - 1];
      }
    }
  }

  /** `MinX` is at most the first word's left edge when it matches, and at most `MinX` of the rest. */
  lemma MinXStep(words: seq<Word>, top: real, t: Test)
    requires words != []
    ensures Matches(words[0], top, t) ==> MinX(words, top, t).Some? && MinX(words, top, t).value <= words[0].x0
    ensures MinX(words[1..], top, t).Some? ==>
      MinX(words, top, t).Some? && MinX(words, top, t).value <= MinX(words[1..], top, t).value
  {
  }

  /** The left edges of the words on the header line that pass `t`, in page order. */
  function MatchingXs(words: seq<Word>, top: real, t: Test): (r: seq<real>)
    ensures r == [] <==> !AnyMatch(words, top, t)
  {
    if words == [] then []
    else
      var rest := MatchingXs(words[1..], top, t);
      assert forall i :: 1 <= i < |words| ==> words[i] == words[1..][i - 1];
      (if Matches(words[0], top, t) then [words[0].x0] else []) + rest
  }

  /** The heading word each finder looks for first. */
  function AnchorTest(k: Kind): Test
  {
    match k
    case KindA => Is("asset")
    case KindB => Is("asset")
    case KindC => Is("source")
    case KindD => Is("owner")
    case KindE => Is("position")
    case KindF => Is("date")
  }

  /** The headings that must share the anchor's line before the finder accepts it. */
  function RequiredTests(k: Kind): seq<Test>
  {
    match k
    case KindA => [Is("owner")]
    case KindB => [Is("owner"), Is("date")]
    case KindC => [Is("type"), Is("amount")]
    case KindD => [Is("creditor"), Has("amount")]
    case KindE => [Either("name", "organization")]
    case KindF => [Begins("parties"), Has("terms")]
  }

  /** `w` is an anchor whose line carries every required heading. */
  predicate Qualifies(k: Kind, words: seq<Word>, w: Word)
  {
    Passes(Caption(w), AnchorTest(k))
    && forall j :: 0 <= j < |RequiredTests(k)| ==> AnyMatch(words, w.top, RequiredTests(k)[j])
  }

  /**
   * What a header finder gives back: no header, a header line whose column
   * starts it found, or the `ValueError` that `min()` raises on a heading the
   * line lacks.
   */
  datatype HeaderResult = NoHeader | MissingHeading | Header(top: real, starts: seq<real>)

  /** The column starts read off the header line at `top`, once its anchor qualified. */
  function HeaderAt(k: Kind, words: seq<Word>, top: real): (r: HeaderResult)
    requires AnyMatch(words, top, AnchorTest(k))
    requires forall j :: 0 <= j < |RequiredTests(k)| ==> AnyMatch(words, top, RequiredTests(k)[j])
    ensures r.Header? ==> r.top == top && |r.starts| == ColumnCount(k)
    ensures k in {KindC, KindE, KindF} ==> r.Header?
  {
    match k
    case KindA =>
      assert AnyMatch(words, top, RequiredTests(k)[0]);
      var asset := MinX(words, top, Is("asset")).value;
      var owner := MinX(words, top, Is("owner")).value;
      var value := MinX(words, top, Is("value"));
      if value.None? then MissingHeading
      else
        var incomes := SortReals(MatchingXs(words, top, Begins("income")));
        if incomes == [] then NoHeader
        else
          var incomeType := incomes[0];
          var income := if |incomes| > 1 then incomes[1] else incomeType + 80.0;
          var tx := MinX(words, top, Begins("tx"));
          if tx.None? then NoHeader
          else Header(top, [asset, owner, value.value, incomeType, income, tx.value])
    case KindB =>
      assert AnyMatch(words, top, RequiredTests(k)[0]) && AnyMatch(words, top, RequiredTests(k)[1]);
      var asset := MinX(words, top, Is("asset")).value;
      var owner := MinX(words, top, Is("owner")).value;
      var date := MinX(words, top, Is("date")).value;
      var tx := MinX(words, top, Begins("tx"));
      var amount := MinX(words, top, Begins("amount"));
      var cap := MinX(words, top, Begins("cap"));
      if tx.None? || amount.None? || cap.None? then NoHeader
      else Header(top, [asset, owner, date, tx.value, amount.value, cap.value])
    case KindC =>
      assert AnyMatch(words, top, RequiredTests(k)[0]) && AnyMatch(words, top, RequiredTests(k)[1]);
      Header(top, [MinX(words, top, Is("source")).value, MinX(words, top, Is("type")).value,
                   MinX(words, top, Is("amount")).value])
    case KindD =>
      assert AnyMatch(words, top, RequiredTests(k)[0]) && AnyMatch(words, top, RequiredTests(k)[1]);
      var date := MinX(words, top, Begins("date"));
      var kind := MinX(words, top, Is("type"));
      if date.None? || kind.None? then MissingHeading
      else Header(top, [MinX(words, top, Is("owner")).value, MinX(words, top, Is("creditor")).value,
                        date.value, kind.value, MinX(words, top, Has("amount")).value])
    case KindE =>
      assert AnyMatch(words, top, RequiredTests(k)[0]);
      Header(top, [MinX(words, top, Is("position")).value, MinX(words, top, Either("name", "organization")).value])
    case KindF =>
      assert AnyMatch(words, top, RequiredTests(k)[0]) && AnyMatch(words, top, RequiredTests(k)[1]);
      Header(top, [MinX(words, top, Is("date")).value, MinX(words, top, Begins("parties")).value,
                   MinX(words, top, Has("terms")).value])
  }

  /** The index of the first word of `order` that qualifies, or `|order|`. */
  function FirstAnchor(k: Kind, order: seq<Word>, words: seq<Word>): (r: nat)
    ensures r <= |order|
    ensures forall i :: 0 <= i < r ==> !Qualifies(k, words, order[i])
    ensures r < |order| ==> Qualifies(k, words, order[r])
  {
    if order == [] then 0
    else if Qualifies(k, words, order[0]) then 0
    else
      var r := 1 + FirstAnchor(k, order[1..], words);
      assert forall i :: 1 <= i < |order| ==> order[i] == order[1..][i - 1];
      r
  }

  /**
   * `find_schedule_a_header` … `find_schedule_f_header`: the words are
   * scanned by top edge and the first anchor whose line carries the
   * required headings decides the result, which may still be `None`
   * (Schedules A and B) or a `min()` error (Schedules A and D).
   */
  function FindHeader(k: Kind, words: seq<Word>): (r: HeaderResult)
    ensures r.Header? ==> |r.starts| == ColumnCount(k)
  {
    var order := SortWords(words, false);
    var i := FirstAnchor(k, order, words);
    if i == |order| then NoHeader
    else
      var anchor := order[i];
      SortWordsSorted(words, false);
      assert anchor in multiset(words);
      var m :| 0 <= m < |words| && words[m] == anchor;
      assert Matches(words[m], anchor.top, AnchorTest(k));
      HeaderAt(k, words, anchor.top)
  }

  /**
   * The header line the finder settles on is the topmost qualifying anchor:
   * a page without one has no header, and Schedules C, E and F always find
   * theirs when it exists.
   */
  lemma FindHeaderTopmost(k: Kind, words: seq<Word>)
    ensures (forall i :: 0 <= i < |words| ==> !Qualifies(k, words, words[i])) ==> FindHeader(k, words) == NoHeader
    ensures FindHeader(k, words).Header? ==>
      (exists i :: 0 <= i < |words| && Qualifies(k, words, words[i]) && words[i].top == FindHeader(k, words).top)
      && forall i :: 0 <= i < |words| && Qualifies(k, words, words[i]) ==> FindHeader(k, words).top <= words[i].top
    ensures k in {KindC, KindE, KindF} && (exists i :: 0 <= i < |words| && Qualifies(k, words, words[i])) ==>
      FindHeader(k, words).Header?
  {
    var order := SortWords(words, false);
    var a := FirstAnchor(k, order, words);
    AnchorTopmost(k, words);
    AnchorIsWord(k, words);
    assert FindHeader(k, words) == if a == |order| then NoHeader else HeaderAt(k, words, order[a].top);
  }

  /** No qualifying word lies above the first qualifying word in top-edge order. */
  lemma AnchorTopmost(k: Kind, words: seq<Word>)
    ensures var order := SortWords(words, false);
      var a := FirstAnchor(k, order, words);
      forall i :: 0 <= i < |words| && Qualifies(k, words, words[i]) ==> a < |order| && order[a].top <= words[i].top
  {
    var order := SortWords(words, false);
    var a := FirstAnchor(k, order, words);
    SortWordsSorted(words, false);
    forall i | 0 <= i < |words| && Qualifies(k, words, words[i])
      ensures a < |order| && order[a].top <= words[i].top
    {
      assert words[i] in multiset(order);
      var m :| 0 <= m < |order| && order[m] == words[i];
      assert a <= m;
      assert !Before(order[m], order[a], false) || a == m;
    }
  }

  /** The first qualifying word in top-edge order is one of the page's words. */
  lemma AnchorIsWord(k: Kind, words: seq<Word>)
    ensures var order := SortWords(words, false);
      var a := FirstAnchor(k, order, words);
      a < |order| ==> exists m :: 0 <= m < |words| && words[m] == order[a] && Qualifies(k, words, words[m])
  {
    var order := SortWords(words, false);
    var a := FirstAnchor(k, order, words);
    SortWordsSorted(words, false);
    if a < |order| {
      assert order[a] in multiset(words);
      var m :| 0 <= m < |words| && words[m] == order[a];
    }
  }
}
