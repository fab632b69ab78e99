/**
 * The page segmenters `parse_schedule_a_page` … `parse_schedule_f_page` of
 * `disclosure_parser/split_schedules.py`.  The words below a schedule's
 * header line are visited by top edge and then left edge; a word whose top
 * edge lies within the row tolerance of the current row joins it, in the
 * column its left edge (and, for Schedules A and B, its shape) picks,
 * otherwise it starts a new row.  The visit ends at the marker of the next
 * schedule or at a footer word.
 */
module DisclosurePages {
  import opened Optional
  import opened Text
  import opened DisclosureTokens
  import opened DisclosureLayout

  /** `ROW_TOLERANCE` for Schedules A and B, `ROW_TOLERANCE_C` … `ROW_TOLERANCE_F` for the rest. */
  function RowTolerance(k: Kind): real { if k == KindA || k == KindB then 12.0 else 6.0 }

  /** How far below the header line's top edge the data words begin. */
  function DataOffset(k: Kind): real { if k == KindD then 15.0 else 5.0 }

  /** The letter of the schedule that follows `k`. */
  function NextLetter(k: Kind): char
  {
    match k
    case KindA => 'B'
    case KindB => 'C'
    case KindC => 'D'
    case KindD => 'E'
    case KindE => 'F'
    case KindF => 'G'
  }

  // ---------------------------------------------------------------- the next schedule's marker

  /** Word `i` of the page (in page order) marks the start of the next schedule. */
  predicate IsMarker(k: Kind, words: seq<Word>, i: nat)
    requires i < |words|
  {
    var text := NormaliseWordText(words[i].text);
    var letter := NextLetter(k);
    match k
    case KindA => Contains(text, "B:")
    case KindB => StartsWith(text, "S C:") || text == "C:"
    case _ =>
      StartsWith(text, "S " + [letter]) || text == [letter, ':']
      || (text == "S" && i + 1 < |words| && StartsWith(NormaliseWordText(words[i + 1].text), [letter]))
  }

  /** The top edges of the markers among the first `n` words, in page order. */
  function MarkerTops(k: Kind, words: seq<Word>, n: nat): seq<real>
    requires n <= |words|
  {
    if n == 0 then []
    else MarkerTops(k, words, n - 1) + (if IsMarker(k, words, n - 1) then [words[n - 1].top] else [])
  }

  /** `min(xs) if xs else None`. */
  function Least(xs: seq<real>): (r: Option<real>)
    ensures r.None? <==> xs == []
    ensures r.Some? ==> r.value in xs && forall i :: 0 <= i < |xs| ==> r.value <= xs[i]
  {
    if xs == [] then None
    else
      var rest := Least(xs[1..]);
      assert forall i :: 1 <= i < |xs| ==> xs[i] == xs[1..][i - 1];
      if rest.None? || xs[0] <= rest.value then Some(xs[0]) else rest
  }

  /** `cutoff_top`: the top edge of the highest marker on the page, if any. */
  function Cutoff(k: Kind, words: seq<Word>): Option<real>
  {
    Least(MarkerTops(k, words, |words|))
  }

  /** The collected tops are exactly the tops of the marker words among the first `n`. */
  lemma {:induction false} MarkerTopsExactly(k: Kind, words: seq<Word>, n: nat, t: real)
    requires n <= |words|
    ensures t in MarkerTops(k, words, n) <==> exists i :: 0 <= i < n && IsMarker(k, words, i) && words[i].top == t
  {
    if n > 0 {
      MarkerTopsExactly(k, words, n - 1, t);
    }
  }

  /**
   * There is a cutoff exactly when some word is a marker, and it is the top
   * edge of a marker word with no marker word above it.
   */
  lemma CutoffIsHighestMarker(k: Kind, words: seq<Word>)
    ensures Cutoff(k, words).None? <==> forall i :: 0 <= i < |words| ==> !IsMarker(k, words, i)
    ensures Cutoff(k, words).Some? ==>
      (exists i :: 0 <= i < |words| && IsMarker(k, words, i) && words[i].top == Cutoff(k, words).value)
      && forall i :: 0 <= i < |words| && IsMarker(k, words, i) ==> Cutoff(k, words).value <= words[i].top
  {
    var tops := MarkerTops(k, words, |words|);
    forall i | 0 <= i < |words| && IsMarker(k, words, i) ensures words[i].top in tops {
      MarkerTopsExactly(k, words, |words|, words[i].top);
    }
    if Cutoff(k, words).Some? {
      MarkerTopsExactly(k, words, |words|, Cutoff(k, words).value);
      forall i | 0 <= i < |words| && IsMarker(k, words, i)
        ensures Cutoff(k, words).value <= words[i].top
      {
        var j :| 0 <= j < |tops| && tops[j] == words[i].top;
      }
    }
  }

  /** `bool(cutoff_top)`: a marker was seen, and its top edge is not zero. */
  predicate Reached(cutoff: Option<real>)
  {
    cutoff.Some? && cutoff.value != 0.0
  }

  // ---------------------------------------------------------------- per-word decisions

  /** The words below the header line, in page order. */
  function DataWords(words: seq<Word>, below: real): (r: seq<Word>)
    ensures forall i :: 0 <= i < |r| ==> r[i].top > below
  {
    if words == [] then []
    else (if words[0].top > below then [words[0]] else []) + DataWords(words[1..], below)
  }

  /** The data words in the order the segmenter visits them. */
  function Order(k: Kind, words: seq<Word>, headerTop: real): seq<Word>
  {
    SortWords(DataWords(words, headerTop + DataOffset(k)), true)
  }

  /** What the segmenter does with a word whose normalised text is not empty. */
  datatype Action = Keep | Skip | Stop

  function WordAction(k: Kind, text: string): Action
  {
    var lowered := Lower(text);
    match k
    case KindA =>
      if StartsWith(text, "*") || StartsWith(lowered, "asset class details") || StartsWith(lowered, "for the complete") then Stop
      else if StartsWith(lowered, "https://") then Skip
      else Keep
    case KindD =>
      if StartsWith(lowered, "https://") || StartsWith(lowered, "* asset class") || lowered == "liability" then Skip
      else Keep
    case _ =>
      if StartsWith(lowered, "https://") || StartsWith(lowered, "* asset class") then Skip
      else Keep
  }

  /**
   * A link is skipped on every schedule, and only Schedule A's segmenter
   * ever stops at a word.
   */
  lemma WordActionLinksAndStops(k: Kind, text: string)
    ensures StartsWith(Lower(text), "https://") ==> WordAction(k, text) == Skip
    ensures WordAction(k, text) == Stop ==> k == KindA
  {
    var lowered := Lower(text);
    if StartsWith(lowered, "https://") {
      assert lowered[0] == 'h' == ToLower(text[0]);
    }
  }

  /**
   * Schedule A's rerouting: a word under a column whose classifier rejects
   * it goes to the asset column instead.
   */
  function RouteA(column: nat, text: string): (r: nat)
    requires column < 6
    ensures r < 6
    ensures r == column || r == 0
    ensures r == 1 ==> IsOwnerToken(text)
    ensures r == 2 ==> IsValueToken(text)
    ensures r == 3 ==> IsIncomeTypeToken(text)
    ensures r == 4 ==> IsIncomeAmountToken(text) || IsIncomeTypeToken(text)
    ensures r == 5 ==> Lower(Strip(text)) in {"yes", "no"}
  {
    if column == 1 && !IsOwnerToken(text) then 0
    else if column == 2 && !IsValueToken(text) then 0
    else if column == 3 && !IsIncomeTypeToken(text) then 0
    else if column == 4 && !(IsIncomeAmountToken(text) || IsIncomeTypeToken(text)) then 0
    else if column == 5 && Lower(Strip(text)) !in {"yes", "no"} then 0
    else column
  }

  /**
   * Schedule B's rerouting: a word under the owner, date, type or amount
   * column that does not look like one is tried against the other
   * classifiers and ends up in the asset column when none accepts it.
   */
  function RouteB(column: nat, text: string): (r: nat)
    requires column < 6
    ensures r < 6
    ensures r == 1 ==> IsOwnerToken(text)
    ensures r == 2 ==> IsDateToken(text)
    ensures r == 3 ==> IsTxTypeToken(text)
    ensures r == 4 ==> IsTransactionAmountToken(text)
    ensures r == 5 ==> column == 5
  {
    if column == 1 && !IsOwnerToken(text) then
      if IsDateToken(text) then 2
      else if IsTxTypeToken(text) then 3
      else if IsTransactionAmountToken(text) then 4
      else 0
    else if column == 2 && !IsDateToken(text) then
      if IsOwnerToken(text) then 1
      else if IsTxTypeToken(text) then 3
      else if IsTransactionAmountToken(text) then 4
      else 0
    else if column == 3 && !IsTxTypeToken(text) then
      if IsDateToken(text) then 2
      else if IsTransactionAmountToken(text) then 4
      else 0
    else if column == 4 && !IsTransactionAmountToken(text) then 0
    else column
  }

  /** The column a kept word goes to. */
  function Route(k: Kind, text: string, x0: real, starts: seq<real>): (r: nat)
    requires |starts| >= ColumnCount(k)
    ensures r < ColumnCount(k)
    ensures k == KindB && IsScheduleBDescriptionFragment(text) ==> r == 0
    ensures k !in {KindA, KindB} ==> r == AssignColumn(k, x0, starts)
  {
    var column := AssignColumn(k, x0, starts);
    match k
    case KindA => RouteA(column, text)
    case KindB => if IsScheduleBDescriptionFragment(text) then 0 else RouteB(column, text)
    case _ => column
  }

  /** What one turn of the word loop does with a word. */
  datatype Turn = Halt | Pass | Put(top: real, column: nat, text: string)

  /**
   * The decisions of one turn: a word at or below the line just above the
   * next schedule's marker, or a footer word, ends the loop; an empty word
   * or a link is passed over; any other word goes to its column.
   */
  function TurnOf(k: Kind, starts: seq<real>, cutoff: Option<real>, w: Word): (r: Turn)
    requires |starts| >= ColumnCount(k)
    ensures cutoff.Some? && w.top >= cutoff.value - 1.0 ==> r == Halt
    ensures r.Put? ==> r.top == w.top && r.column < ColumnCount(k) && r.text == NormaliseWordText(w.text) && r.text != ""
  {
    if cutoff.Some? && w.top >= cutoff.value - 1.0 then Halt
    else
      var text := NormaliseWordText(w.text);
      if text == "" then Pass
      else
        match WordAction(k, text)
        case Stop => Halt
        case Skip => Pass
        case Keep => Put(w.top, Route(k, text, w.x0, starts), text)
  }

  /** The turns for a sequence of words. */
  function Turns(k: Kind, starts: seq<real>, cutoff: Option<real>, ws: seq<Word>): (r: seq<Turn>)
    requires |starts| >= ColumnCount(k)
    ensures |r| == |ws| && forall i :: 0 <= i < |r| ==> r[i] == TurnOf(k, starts, cutoff, ws[i])
    ensures Fits(r, ColumnCount(k))
  {
    seq(|ws|, i requires 0 <= i < |ws| => TurnOf(k, starts, cutoff, ws[i]))
  }

  /** Every turn that places a word names one of `n` columns. */
  predicate Fits(turns: seq<Turn>, n: nat)
  {
    forall i :: 0 <= i < |turns| && turns[i].Put? ==> turns[i].column < n
  }

  // ---------------------------------------------------------------- the segmenter's state

  /**
   * The loop state of a segmenter: the finished rows, the words of the row
   * being built (one list per column), that row's top edge, and whether the
   * loop has broken off.
   */
  datatype Segment = Segment(rows: seq<seq<string>>, current: seq<seq<string>>, currentTop: Option<real>, stopped: bool)

  function Empty(n: nat): (r: seq<seq<string>>)
    ensures |r| == n && forall c :: 0 <= c < n ==> r[c] == []
  {
    seq(n, _ => [])
  }

  /** `any(current[col] for col in …)`. */
  predicate AnyWords(current: seq<seq<string>>)
  {
    exists c :: 0 <= c < |current| && current[c] != []
  }

  /** Each column's words joined with spaces and cleaned. */
  function Flush(current: seq<seq<string>>): (r: seq<string>)
    ensures |r| == |current|
  {
    seq(|current|, c requires 0 <= c < |current| => Clean(Join(current[c], " ")))
  }

  /** Every row, finished or not, has one entry per column. */
  predicate WellShaped(s: Segment, n: nat)
  {
    |s.current| == n && forall i :: 0 <= i < |s.rows| ==> |s.rows[i]| == n
  }

  /** The state before the first word: no rows, an empty current row, no top edge. */
  function Initial(n: nat): (r: Segment)
    ensures WellShaped(r, n)
  {
    Segment([], Empty(n), None, false)
  }

  /** The rows once the loop is over: the last row is flushed when it holds a word. */
  function Finish(s: Segment): (r: seq<seq<string>>)
    ensures WellShaped(s, |s.current|) ==> forall i :: 0 <= i < |r| ==> |r[i]| == |s.current|
  {
    if AnyWords(s.current) then s.rows + [Flush(s.current)] else s.rows
  }

  /** The current row is flushed (when it holds a word) and a new, empty one starts at `top`. */
  function Open(s: Segment, top: real): (r: Segment)
    ensures |r.current| == |s.current|
    ensures WellShaped(s, |s.current|) ==> WellShaped(r, |s.current|)
  {
    s.(rows := Finish(s), current := Empty(|s.current|), currentTop := Some(top))
  }

  /**
   * A word's text placed in `column`: it joins the current row when its top
   * edge is within `tol` of the row's, and otherwise opens a new row.
   */
  function Place(s: Segment, top: real, column: nat, text: string, tol: real): (r: Segment)
    requires column < |s.current|
    ensures |r.current| == |s.current|
    ensures WellShaped(s, |s.current|) ==> WellShaped(r, |s.current|)
  {
    var t := if s.currentTop.None? || Abs(top - s.currentTop.value) > tol then Open(s, top) else s;
    t.(current := t.current[column := t.current[column] + [text]])
  }

  /**
   * A word joins the current row exactly when a row is open and its top
   * edge lies within `tol` of that row's; the row's top edge changes only
   * when a new row starts, and a new row first flushes the old one.
   */
  lemma PlaceJoins(s: Segment, top: real, column: nat, text: string, tol: real)
    requires column < |s.current|
    ensures var r := Place(s, top, column, text, tol);
      var joins := s.currentTop.Some? && Abs(top - s.currentTop.value) <= tol;
      (joins ==> r.rows == s.rows && r.currentTop == s.currentTop
                 && r.current == s.current[column := s.current[column] + [text]])
      && (!joins ==> r.rows == Finish(s) && r.currentTop == Some(top)
                     && r.current == Empty(|s.current|)[column := [text]])
  {
    assert Empty(|s.current|)[column] + [text] == [text];
  }

  /** One turn of the loop; after the loop has broken off nothing changes. */
  function Step(s: Segment, t: Turn, tol: real): (r: Segment)
    requires t.Put? ==> t.column < |s.current|
    ensures |r.current| == |s.current|
    ensures WellShaped(s, |s.current|) ==> WellShaped(r, |s.current|)
  {
    if s.stopped then s
    else
      match t
      case Halt => s.(stopped := true)
      case Pass => s
      case Put(top, column, text) => Place(s, top, column, text, tol)
  }

  /** The loop run over the turns `ts`. */
  function Run(s: Segment, ts: seq<Turn>, tol: real): (r: Segment)
    requires Fits(ts, |s.current|)
    ensures |r.current| == |s.current|
    ensures WellShaped(s, |s.current|) ==> WellShaped(r, |s.current|)
  {
    if ts == [] then s
    else
      var init := ts[..|ts| - 1];
      assert Fits(init, |s.current|) by {
        assert forall i :: 0 <= i < |init| ==> init[i] == ts[i];
      }
      Step(Run(s, init, tol), ts[|ts| - 1], tol)
  }

  /** The rows a segmenter builds before its schedule-specific clean-up. */
  function PageRows(k: Kind, words: seq<Word>, starts: seq<real>, headerTop: real): seq<seq<string>>
    requires |starts| >= ColumnCount(k)
  {
    Finish(Run(Initial(ColumnCount(k)), Turns(k, starts, Cutoff(k, words), Order(k, words, headerTop)), RowTolerance(k)))
  }

  /** Every row the segmenter builds has one cell per column of its schedule. */
  lemma PageRowsShape(k: Kind, words: seq<Word>, starts: seq<real>, headerTop: real)
    requires |starts| >= ColumnCount(k)
    ensures forall i :: 0 <= i < |PageRows(k, words, starts, headerTop)| ==> |PageRows(k, words, starts, headerTop)[i]| == ColumnCount(k)
  {
  }

  /** The turns before and after any point of turns that fit still fit. */
  lemma FitsParts(ts: seq<Turn>, n: nat, i: nat)
    requires Fits(ts, n) && i <= |ts|
    ensures Fits(ts[..i], n) && Fits(ts[i..], n)
  {
    assert forall j :: 0 <= j < i ==> ts[..i][j] == ts[j];
    assert forall j :: 0 <= j < |ts| - i ==> ts[i..][j] == ts[i + j];
  }

  /** Once the loop has broken off, no later turn changes anything. */
  lemma {:induction false} RunStopped(s: Segment, ts: seq<Turn>, tol: real)
    requires Fits(ts, |s.current|) && s.stopped
    ensures Run(s, ts, tol) == s
  {
    if ts != [] {
      FitsParts(ts, |s.current|, |ts| - 1);
      RunStopped(s, ts[..|ts| - 1], tol);
    }
  }

  /** Running `a + b` is running `a`, then `b`. */
  lemma {:induction false} RunAppend(s: Segment, a: seq<Turn>, b: seq<Turn>, tol: real)
    requires Fits(a, |s.current|) && Fits(b, |s.current|) && Fits(a + b, |s.current|)
    ensures Run(s, a + b, tol) == Run(Run(s, a, tol), b, tol)
  {
    if b == [] {
      assert a + b == a;
    } else {
      var init := b[..|b| - 1];
      assert (a + b)[..|a + b| - 1] == a + init;
      FitsParts(b, |s.current|, |b| - 1);
      FitsParts(a + b, |s.current|, |a + b| - 1);
      RunAppend(s, a, init, tol);
    }
  }

  /** When the loop breaks off at turn `i`, the turns after it are never looked at. */
  lemma BreakAt(s: Segment, ts: seq<Turn>, i: nat, tol: real)
    requires Fits(ts, |s.current|)
    requires i < |ts| && ts[i] == Halt
    ensures Fits(ts[..i], |s.current|)
    ensures Run(s, ts, tol) == Run(s, ts[..i], tol).(stopped := true)
  {
    FitsParts(ts, |s.current|, i);
    FitsParts(ts, |s.current|, i + 1);
    assert ts[..i + 1][..i] == ts[..i];
    assert ts == ts[..i + 1] + ts[i + 1..];
    RunAppend(s, ts[..i + 1], ts[i + 1..], tol);
    var stopped := Run(s, ts[..i + 1], tol);
    RunStopped(stopped, ts[i + 1..], tol);
    var before := Run(s, ts[..i], tol);
    assert before.stopped ==> before == before.(stopped := true);
  }

  /** One more turn run is one more step. */
  lemma RunStep(s: Segment, ts: seq<Turn>, i: nat, tol: real)
    requires Fits(ts, |s.current|) && i < |ts|
    ensures Fits(ts[..i], |s.current|) && Fits(ts[..i + 1], |s.current|)
    ensures Run(s, ts[..i + 1], tol) == Step(Run(s, ts[..i], tol), ts[i], tol)
  {
    FitsParts(ts, |s.current|, i);
    FitsParts(ts, |s.current|, i + 1);
    assert ts[..i + 1][..i] == ts[..i];
  }

  /**
   * The row-building half of the word loop of `parse_schedule_*_page`:
   * each turn ends the loop, passes, or places its word, and the last row
   * is flushed at the end.
   */
  method BuildRows(n: nat, tol: real, turns: seq<Turn>) returns (rows: seq<seq<string>>)
    requires Fits(turns, n)
    ensures rows == Finish(Run(Initial(n), turns, tol))
  {
    ghost var s0 := Initial(n);
    assert turns[..|turns|] == turns;
    rows := [];
    var current := Empty(n);
    var currentTop: Option<real> := None;
    var i := 0;
    while i < |turns|
      invariant i <= |turns|
      invariant Fits(turns[..i], n)
      invariant Run(s0, turns[..i], tol) == Segment(rows, current, currentTop, false)
    {
      RunStep(s0, turns, i, tol);
      match turns[i] {
        case Halt =>
          BreakAt(s0, turns, i, tol);
          assert Finish(Run(s0, turns, tol)) == Finish(Segment(rows, current, currentTop, false));
          break;
        case Pass =>
        case Put(top, column, text) =>
          if currentTop.None? || Abs(top - currentTop.value) > tol {
            if AnyWords(current) {
              rows := rows + [Flush(current)];
            }
            current := Empty(n);
            currentTop := Some(top);
          }
          current := current[column := current[column] + [text]];
      }
      i := i + 1;
    }
    if AnyWords(current) {
      rows := rows + [Flush(current)];
    }
  }

  /**
   * `parse_schedule_*_page` up to its clean-up: the next schedule's
   * markers bound the page, and the word loop builds the rows.
   */
  method SegmentPage(k: Kind, words: seq<Word>, starts: seq<real>, headerTop: real)
    returns (rows: seq<seq<string>>, reached: bool)
    requires |starts| >= ColumnCount(k)
    ensures rows == PageRows(k, words, starts, headerTop)
    ensures reached == Reached(Cutoff(k, words))
  {
    var tops: seq<real> := [];
    for i := 0 to |words|
      invariant tops == MarkerTops(k, words, i)
    {
      if IsMarker(k, words, i) {
        tops := tops + [words[i].top];
      }
    }
    var cutoff := Least(tops);
    rows := BuildRows(ColumnCount(k), RowTolerance(k), Turns(k, starts, cutoff, Order(k, words, headerTop)));
    reached := cutoff.Some? && cutoff.value != 0.0;
  }

  // ---------------------------------------------------------------- what the marker cuts off

  /** The words whose top edge lies above `line`, in order. */
  function Above(ws: seq<Word>, line: real): (r: seq<Word>)
    ensures forall i :: 0 <= i < |r| ==> r[i].top < line
  {
    if ws == [] then []
    else Above(ws[..|ws| - 1], line) + (if ws[|ws| - 1].top < line then [ws[|ws| - 1]] else [])
  }

  lemma {:induction false} AboveConcat(a: seq<Word>, b: seq<Word>, line: real)
    ensures Above(a + b, line) == Above(a, line) + Above(b, line)
  {
    if b == [] {
      assert a + b == a;
    } else {
      assert (a + b)[..|a + b| - 1] == a + b[..|b| - 1];
      AboveConcat(a, b[..|b| - 1], line);
    }
  }

  lemma {:induction false} AboveAll(ws: seq<Word>, line: real)
    requires forall i :: 0 <= i < |ws| ==> ws[i].top < line
    ensures Above(ws, line) == ws
  {
    if ws != [] {
      AboveAll(ws[..|ws| - 1], line);
      assert ws[..|ws| - 1] + [ws[|ws| - 1]] == ws;
    }
  }

  lemma {:induction false} AboveNone(ws: seq<Word>, line: real)
    requires forall i :: 0 <= i < |ws| ==> ws[i].top >= line
    ensures Above(ws, line) == []
  {
    if ws != [] {
      AboveNone(ws[..|ws| - 1], line);
    }
  }

  /** The index of the first word at or below `line`, or `|ws|`. */
  function FirstAtOrBelow(ws: seq<Word>, line: real): (r: nat)
    ensures r <= |ws|
    ensures forall i :: 0 <= i < r ==> ws[i].top < line
    ensures r < |ws| ==> ws[r].top >= line
  {
    if ws == [] || ws[0].top >= line then 0 else 1 + FirstAtOrBelow(ws[1..], line)
  }

  /** A word above the line just over the marker is decided as if there were no marker. */
  lemma TurnsAboveCut(k: Kind, starts: seq<real>, c: real, ws: seq<Word>)
    requires |starts| >= ColumnCount(k)
    requires forall i :: 0 <= i < |ws| ==> ws[i].top < c - 1.0
    ensures Turns(k, starts, Some(c), ws) == Turns(k, starts, None, ws)
  {
    forall i | 0 <= i < |ws|
      ensures TurnOf(k, starts, Some(c), ws[i]) == TurnOf(k, starts, None, ws[i])
    {
    }
  }

  /** On words in top-edge order, the words above a line are those before the first word at or below it. */
  lemma AboveSorted(ws: seq<Word>, line: real)
    requires SortedBy(ws, true)
    ensures Above(ws, line) == ws[..FirstAtOrBelow(ws, line)]
  {
    var p := FirstAtOrBelow(ws, line);
    assert ws == ws[..p] + ws[p..];
    AboveConcat(ws[..p], ws[p..], line);
    AboveAll(ws[..p], line);
    forall i | 0 <= i < |ws[p..]|
      ensures ws[p..][i].top >= line
    {
      assert !Before(ws[p + i], ws[p], true);
    }
    AboveNone(ws[p..], line);
  }

  lemma TurnsPrefix(k: Kind, starts: seq<real>, cutoff: Option<real>, ws: seq<Word>, p: nat)
    requires |starts| >= ColumnCount(k) && p <= |ws|
    ensures Turns(k, starts, cutoff, ws)[..p] == Turns(k, starts, cutoff, ws[..p])
  {
  }

  /**
   * On words in top-edge order, the marker at `c` acts as a cut: the rows
   * are those of the words above the line `c - 1`, read with no marker.
   */
  lemma CutByMarker(k: Kind, starts: seq<real>, c: real, ws: seq<Word>)
    requires |starts| >= ColumnCount(k)
    requires SortedBy(ws, true)
    ensures Finish(Run(Initial(ColumnCount(k)), Turns(k, starts, Some(c), ws), RowTolerance(k)))
         == Finish(Run(Initial(ColumnCount(k)), Turns(k, starts, None, Above(ws, c - 1.0)), RowTolerance(k)))
  {
    var p := FirstAtOrBelow(ws, c - 1.0);
    AboveSorted(ws, c - 1.0);
    TurnsAboveCut(k, starts, c, ws[..p]);
    TurnsPrefix(k, starts, Some(c), ws, p);
    FinishUpTo(Initial(ColumnCount(k)), Turns(k, starts, Some(c), ws), p, RowTolerance(k));
  }

  /** Turns up to the first halt, or all of them when none halts, finish with the same rows as the whole run. */
  lemma FinishUpTo(s: Segment, ts: seq<Turn>, p: nat, tol: real)
    requires Fits(ts, |s.current|)
    requires p == |ts| || (p < |ts| && ts[p] == Halt)
    ensures Fits(ts[..p], |s.current|)
    ensures Finish(Run(s, ts, tol)) == Finish(Run(s, ts[..p], tol))
  {
    if p == |ts| {
      assert ts[..p] == ts;
    } else {
      BreakAt(s, ts, p, tol);
    }
  }

  /**
   * The next schedule's marker bounds what a page contributes: the rows
   * are exactly those built from the data words lying above the line one
   * unit over the highest marker, as if there were no marker.
   */
  lemma WindowDecides(k: Kind, words: seq<Word>, starts: seq<real>, headerTop: real)
    requires |starts| >= ColumnCount(k)
    requires Cutoff(k, words).Some?
    ensures PageRows(k, words, starts, headerTop)
         == Finish(Run(Initial(ColumnCount(k)),
                       Turns(k, starts, None, Above(Order(k, words, headerTop), Cutoff(k, words).value - 1.0)),
                       RowTolerance(k)))
  {
    SortWordsSorted(DataWords(words, headerTop + DataOffset(k)), true);
    CutByMarker(k, starts, Cutoff(k, words).value, Order(k, words, headerTop));
  }

  // ---------------------------------------------------------------- clean-up after the loop

  /** `any(row)`: some cell is not empty. */
  predicate Filled(row: seq<string>)
  {
    exists c :: 0 <= c < |row| && row[c] != ""
  }

  /** `[row for row in rows if any(row)]`. */
  function KeepFilled(rows: seq<seq<string>>): (r: seq<seq<string>>)
    ensures forall i :: 0 <= i < |r| ==> Filled(r[i]) && r[i] in rows
  {
    if rows == [] then []
    else
      var rest := KeepFilled(rows[..|rows| - 1]);
      rest + (if Filled(rows[|rows| - 1]) then [rows[|rows| - 1]] else [])
  }

  /** `re.match(r'^([A-Z])\s*:', s)`: a capital letter, optional whitespace, then a colon. */
  predicate LetterLabel(s: string)
  {
    s != [] && IsUpper(s[0]) && StartsWith(LStrip(s[1..]), ":")
  }

  /** A Schedule A row holding nothing but a lettered sub-label such as `D: …` in its asset cell. */
  predicate IsLabelRow(row: seq<string>)
  {
    |row| > 0 && row[0] != "" && (forall c :: 1 <= c < |row| ==> row[c] == "") && LetterLabel(row[0])
  }

  /** One turn of Schedule A's merge loop: a label row is appended to the previous row's asset cell. */
  function MergeStep(merged: seq<seq<string>>, row: seq<string>): (r: seq<seq<string>>)
    requires forall i :: 0 <= i < |merged| ==> |merged[i]| > 0
    requires |row| > 0
    ensures forall i :: 0 <= i < |r| ==> |r[i]| > 0
  {
    if merged != [] && IsLabelRow(row) then
      var last := merged[|merged| - 1];
      merged[..|merged| - 1] + [last[0 := last[0] + "\n" + row[0]]]
    else merged + [row]
  }

  /** Schedule A's merge loop over the rows. */
  function MergedLabelRows(rows: seq<seq<string>>): (r: seq<seq<string>>)
    requires forall i :: 0 <= i < |rows| ==> |rows[i]| > 0
    ensures forall i :: 0 <= i < |r| ==> |r[i]| > 0
  {
    if rows == [] then [] else MergeStep(MergedLabelRows(rows[..|rows| - 1]), rows[|rows| - 1])
  }

  /** The first cell of every row. */
  function Firsts(rows: seq<seq<string>>): (r: seq<string>)
    requires forall i :: 0 <= i < |rows| ==> |rows[i]| > 0
    ensures |r| == |rows| && forall i :: 0 <= i < |r| ==> r[i] == rows[i][0]
  {
    seq(|rows|, i requires 0 <= i < |rows| => rows[i][0])
  }

  /** One merge step appends its row's asset cell to the asset text, after a newline. */
  lemma MergeStepJoins(merged: seq<seq<string>>, row: seq<string>)
    requires forall i :: 0 <= i < |merged| ==> |merged[i]| > 0
    requires merged != [] && |row| > 0
    ensures Join(Firsts(MergeStep(merged, row)), "\n") == Join(Firsts(merged), "\n") + "\n" + row[0]
  {
    var after := MergeStep(merged, row);
    var last := merged[|merged| - 1];
    if IsLabelRow(row) {
      if |merged| == 1 {
        assert Firsts(after) == [last[0] + "\n" + row[0]];
        assert Firsts(merged) == [last[0]];
      } else {
        var front := Firsts(merged[..|merged| - 1]);
        assert Firsts(merged) == front + [last[0]];
        assert Firsts(after) == front + [last[0] + "\n" + row[0]];
        JoinAppend(front, [last[0]], "\n");
        JoinAppend(front, [last[0] + "\n" + row[0]], "\n");
      }
    } else {
      assert Firsts(after) == Firsts(merged) + [row[0]];
      JoinAppend(Firsts(merged), [row[0]], "\n");
    }
  }

  /**
   * Merging loses no asset text and keeps it in order: the asset cells
   * joined by newlines read the same before and after.
   */
  lemma {:induction false} MergeKeepsAssetText(rows: seq<seq<string>>)
    requires forall i :: 0 <= i < |rows| ==> |rows[i]| > 0
    ensures |MergedLabelRows(rows)| <= |rows|
    ensures rows != [] ==> MergedLabelRows(rows) != []
    ensures Join(Firsts(MergedLabelRows(rows)), "\n") == Join(Firsts(rows), "\n")
  {
    if rows != [] {
      var init := rows[..|rows| - 1];
      var row := rows[|rows| - 1];
      MergeKeepsAssetText(init);
      assert Firsts(rows) == Firsts(init) + [row[0]];
      if init == [] {
        assert MergedLabelRows(rows) == [row];
      } else {
        MergeStepJoins(MergedLabelRows(init), row);
        JoinAppend(Firsts(init), [row[0]], "\n");
      }
    }
  }

  /** Schedule A's merge loop, as the source writes it. */
  method MergeLabelRows(rows: seq<seq<string>>) returns (merged: seq<seq<string>>)
    requires forall i :: 0 <= i < |rows| ==> |rows[i]| > 0
    ensures merged == MergedLabelRows(rows)
  {
    merged := [];
    for i := 0 to |rows|
      invariant merged == MergedLabelRows(rows[..i])
    {
      assert rows[..i + 1][..i] == rows[..i];
      var row := rows[i];
      if merged != [] && IsLabelRow(row) {
        var last := merged[|merged| - 1];
        merged := merged[..|merged| - 1] + [last[0 := last[0] + "\n" + row[0]]];
      } else {
        merged := merged + [row];
      }
    }
    assert rows[..|rows|] == rows;
  }

  /** `SCHEDULE_B_HEADER_TOKENS`. */
  const ScheduleBHeaderTokens: set<string> := {
    "type", "tx. type", "tx type", "amount", "cap. gains > $200?",
    "cap gains > $200?", "gains > $200?", "type gains > $200?"
  }

  /** A Schedule B row the segmenter keeps: not empty, not a stray header line. */
  predicate KeepScheduleBRow(row: seq<string>)
    requires |row| == 6
  {
    Filled(row)
    && Lower(Strip(row[0])) !in ScheduleBHeaderTokens
    && !(row[0] == "" && row[1] == "" && row[2] == "" && Lower(row[3]) == "type"
         && row[4] == "" && row[5] != "" && Contains(Lower(row[5]), "gains"))
  }

  function FilterScheduleB(rows: seq<seq<string>>): (r: seq<seq<string>>)
    requires forall i :: 0 <= i < |rows| ==> |rows[i]| == 6
    ensures forall i :: 0 <= i < |r| ==> |r[i]| == 6 && KeepScheduleBRow(r[i]) && r[i] in rows
  {
    if rows == [] then []
    else
      var rest := FilterScheduleB(rows[..|rows| - 1]);
      rest + (if KeepScheduleBRow(rows[|rows| - 1]) then [rows[|rows| - 1]] else [])
  }

  /** Merging changes only asset cells, so every row keeps its width. */
  lemma {:induction false} MergedWidth(rows: seq<seq<string>>, n: nat)
    requires n > 0 && forall i :: 0 <= i < |rows| ==> |rows[i]| == n
    ensures forall i :: 0 <= i < |MergedLabelRows(rows)| ==> |MergedLabelRows(rows)[i]| == n
  {
    if rows != [] {
      MergedWidth(rows[..|rows| - 1], n);
    }
  }

  /** The schedule-specific clean-up of the segmented rows. */
  function Tidy(k: Kind, rows: seq<seq<string>>): seq<seq<string>>
    requires forall i :: 0 <= i < |rows| ==> |rows[i]| == ColumnCount(k)
  {
    match k
    case KindA => assert ColumnCount(k) == 6; KeepFilled(MergedLabelRows(rows))
    case KindB => assert ColumnCount(k) == 6; FilterScheduleB(rows)
    case _ => KeepFilled(rows)
  }

  /** After the clean-up every row has one cell per column and some cell filled. */
  lemma TidyShape(k: Kind, rows: seq<seq<string>>)
    requires forall i :: 0 <= i < |rows| ==> |rows[i]| == ColumnCount(k)
    ensures forall i :: 0 <= i < |Tidy(k, rows)| ==> |Tidy(k, rows)[i]| == ColumnCount(k) && Filled(Tidy(k, rows)[i])
  {
    if k == KindA {
      MergedWidth(rows, 6);
    }
  }

  /**
   * `parse_schedule_*_page`: the rows of one page below its header line and
   * above the next schedule's marker, cleaned up, and whether the marker
   * was seen (a marker at top edge zero counts as unseen, as `bool(0.0)` is
   * false).
   */
  method ParseSchedulePage(k: Kind, words: seq<Word>, starts: seq<real>, headerTop: real)
    returns (rows: seq<seq<string>>, reached: bool)
    requires |starts| >= ColumnCount(k)
    ensures rows == Tidy(k, PageRows(k, words, starts, headerTop))
    ensures forall i :: 0 <= i < |rows| ==> |rows[i]| == ColumnCount(k) && Filled(rows[i])
    ensures reached <==> Cutoff(k, words).Some? && Cutoff(k, words).value != 0.0
  {
    var raw;
    raw, reached := SegmentPage(k, words, starts, headerTop);
    PageRowsShape(k, words, starts, headerTop);
    TidyShape(k, raw);
    match k {
      case KindA =>
        var merged := MergeLabelRows(raw);
        rows := KeepFilled(merged);
      case KindB =>
        rows := FilterScheduleB(raw);
      case _ =>
        rows := KeepFilled(raw);
    }
  }
}
