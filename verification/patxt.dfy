/**
 * Ragged-row normalisation of the Pennsylvania text export (pa_txt_parser.py).
 * The CSV tokeniser and byte decoding are outside the model: the input is the
 * sequence of rows the tokeniser yields, each a sequence of cells. The output
 * is a table whose rows all have the same width, with generated column names.
 */
module PaText {
  import opened Text

  /** A data frame: column names and rows; the empty frame has neither. */
  datatype Table = Table(columns: seq<string>, rows: seq<seq<string>>)

  function StripCells(row: seq<string>): (r: seq<string>)
    ensures |r| == |row| && forall i :: 0 <= i < |row| ==> r[i] == Strip(row[i])
  {
    seq(|row|, i requires 0 <= i < |row| => Strip(row[i]))
  }

  /** No cell has any text (also true of a row without cells). */
  predicate AllEmpty(row: seq<string>) { forall i :: 0 <= i < |row| ==> row[i] == "" }

  /** The rows kept, in input order: cells stripped, rows without a non-empty cell dropped. */
  function KeptRows(raw: seq<seq<string>>): seq<seq<string>>
  {
    if raw == [] then []
    else
      var kept := KeptRows(raw[..|raw| - 1]);
      var cleaned := StripCells(raw[|raw| - 1]);
      if AllEmpty(cleaned) then kept else kept + [cleaned]
  }

  lemma KeptRowsStep(raw: seq<seq<string>>, i: nat)
    requires i < |raw|
    ensures KeptRows(raw[..i + 1]) ==
      if AllEmpty(StripCells(raw[i])) then KeptRows(raw[..i]) else KeptRows(raw[..i]) + [StripCells(raw[i])]
  {
    assert raw[..i + 1][..i] == raw[..i];
  }

  /** The widest row's width (0 for no rows). */
  function MaxWidth(rows: seq<seq<string>>): nat
  {
    if rows == [] then 0
    else
      var m := MaxWidth(rows[..|rows| - 1]);
      if |rows[|rows| - 1]| > m then |rows[|rows| - 1]| else m
  }

  lemma MaxWidthStep(rows: seq<seq<string>>, row: seq<string>)
    ensures MaxWidth(rows + [row]) == if |row| > MaxWidth(rows) then |row| else MaxWidth(rows)
  {
    assert (rows + [row])[..|rows|] == rows;
  }

  /** The row extended with empty cells up to `width`. */
  function PadRow(row: seq<string>, width: nat): seq<string>
  {
    if |row| < width then row + seq(width - |row|, _ => "") else row
  }

  /** "Column 1" through "Column n". */
  function ColumnNames(n: nat): seq<string>
  {
    seq(n, i requires 0 <= i < n => "Column " + NatToString(i + 1))
  }

  /**
   * The loop of parse_txt_bytes after the tokeniser: strip every cell, drop
   * blank rows, pad the rest to the widest row and name the columns.
   */
  method NormaliseRows(raw: seq<seq<string>>) returns (t: Table)
    ensures KeptRows(raw) == [] ==> t == Table([], [])
    ensures KeptRows(raw) != [] ==> t.columns == ColumnNames(MaxWidth(KeptRows(raw)))
    ensures |t.rows| == |KeptRows(raw)|
    ensures forall i :: 0 <= i < |t.rows| ==> t.rows[i] == PadRow(KeptRows(raw)[i], MaxWidth(KeptRows(raw)))
    ensures forall i :: 0 <= i < |t.rows| ==> |t.rows[i]| == |t.columns|
  {
    var rows: seq<seq<string>> := [];
    var maxCols := 0;
    var i := 0;
    while i < |raw|
      invariant 0 <= i <= |raw|
      invariant rows == KeptRows(raw[..i])
      invariant maxCols == MaxWidth(rows)
    {
      KeptRowsStep(raw, i);
      var cleaned := StripCells(raw[i]);
      if !AllEmpty(cleaned) {
        maxCols := if |cleaned| > maxCols then |cleaned| else maxCols;
        MaxWidthStep(rows, cleaned);
        rows := rows + [cleaned];
      }
      i := i + 1;
    }
    assert raw[..i] == raw;
    if rows == [] {
      return Table([], []);
    }
    ghost var kept := rows;
    MaxWidthBound(kept);
    var j := 0;
    while j < |rows|
      invariant 0 <= j <= |rows| == |kept|
      invariant forall k :: 0 <= k < j ==> rows[k] == PadRow(kept[k], maxCols)
      invariant forall k :: j <= k < |rows| ==> rows[k] == kept[k]
    {
      if |rows[j]| < maxCols {
        rows := rows[j := rows[j] + seq(maxCols - |rows[j]|, _ => "")];
      }
      j := j + 1;
    }
    t := Table(ColumnNames(maxCols), rows);
  }

  /** Every row fits within the widest width, and some row attains it. */
  lemma {:induction false} MaxWidthBound(rows: seq<seq<string>>)
    ensures forall i :: 0 <= i < |rows| ==> |rows[i]| <= MaxWidth(rows)
    ensures rows != [] ==> exists i :: 0 <= i < |rows| && |rows[i]| == MaxWidth(rows)
  {
    if rows != [] {
      var init := rows[..|rows| - 1];
      MaxWidthBound(init);
      assert forall i :: 0 <= i < |init| ==> rows[i] == init[i];
      if init != [] && MaxWidth(rows) == MaxWidth(init) {
        var i :| 0 <= i < |init| && |init[i]| == MaxWidth(init);
        assert |rows[i]| == MaxWidth(rows);
      } else {
        assert |rows[|rows| - 1]| == MaxWidth(rows);
      }
    }
  }

  /** Padding keeps the row's cells in front and fills the rest with empty cells. */
  lemma PadRowShape(row: seq<string>, width: nat)
    requires |row| <= width
    ensures |PadRow(row, width)| == width
    ensures PadRow(row, width)[..|row|] == row
    ensures forall i :: |row| <= i < width ==> PadRow(row, width)[i] == ""
  {
  }

  /** Every kept row has a non-empty cell, and all its cells are stripped. */
  lemma {:induction false} KeptRowsClean(raw: seq<seq<string>>)
    ensures forall k :: 0 <= k < |KeptRows(raw)| ==>
      !AllEmpty(KeptRows(raw)[k]) && forall c :: 0 <= c < |KeptRows(raw)[k]| ==> Stripped(KeptRows(raw)[k][c])
  {
    if raw != [] {
      KeptRowsClean(raw[..|raw| - 1]);
    }
  }

  /** Every input row with a non-blank cell is kept, stripped. */
  lemma {:induction false} KeptRowsComplete(raw: seq<seq<string>>, i: nat)
    requires i < |raw| && !AllEmpty(StripCells(raw[i]))
    ensures StripCells(raw[i]) in KeptRows(raw)
  {
    var init := raw[..|raw| - 1];
    if i < |init| {
      assert raw[i] == init[i];
      KeptRowsComplete(init, i);
    }
  }

  /** The kept rows come from input rows in strictly increasing positions: input order is kept. */
  lemma {:induction false} KeptRowsOrigin(raw: seq<seq<string>>) returns (idx: seq<nat>)
    ensures |idx| == |KeptRows(raw)|
    ensures forall k :: 0 <= k < |idx| ==> idx[k] < |raw| && KeptRows(raw)[k] == StripCells(raw[idx[k]])
    ensures forall k, l :: 0 <= k < l < |idx| ==> idx[k] < idx[l]
  {
    if raw == [] {
      idx := [];
    } else {
      var init := raw[..|raw| - 1];
      var prev := KeptRowsOrigin(init);
      var last := StripCells(raw[|raw| - 1]);
      idx := if AllEmpty(last) then prev else prev + [|raw| - 1];
      OriginStep(raw, prev, idx);
    }
  }

  lemma OriginStep(raw: seq<seq<string>>, prev: seq<nat>, idx: seq<nat>)
    requires raw != []
    requires |prev| == |KeptRows(raw[..|raw| - 1])|
    requires forall k :: 0 <= k < |prev| ==> prev[k] < |raw| - 1 && KeptRows(raw[..|raw| - 1])[k] == StripCells(raw[prev[k]])
    requires forall k, l :: 0 <= k < l < |prev| ==> prev[k] < prev[l]
    requires idx == if AllEmpty(StripCells(raw[|raw| - 1])) then prev else prev + [|raw| - 1]
    ensures |idx| == |KeptRows(raw)|
    ensures forall k :: 0 <= k < |idx| ==> idx[k] < |raw| && KeptRows(raw)[k] == StripCells(raw[idx[k]])
    ensures forall k, l :: 0 <= k < l < |idx| ==> idx[k] < idx[l]
  {
  }

  /** Blank rows contribute nothing: a row whose cells are all blank is dropped. */
  lemma BlankRowDropped(raw: seq<seq<string>>, row: seq<string>)
    requires forall c :: 0 <= c < |row| ==> Blank(row[c])
    ensures KeptRows(raw + [row]) == KeptRows(raw)
  {
    assert (raw + [row])[..|raw|] == raw;
    forall c | 0 <= c < |row| ensures StripCells(row)[c] == "" {
      StripEmpty(row[c]);
    }
  }
}
