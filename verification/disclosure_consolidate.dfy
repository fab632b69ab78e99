/**
 * The record consolidators `consolidate_schedule_a`, `_b`, `_d`, `_e` and
 * `_f` of `disclosure_parser/split_schedules.py`.  Each walks the segmented
 * rows once, padded or cut to the schedule's width, keeping one open
 * record: a row either opens a new record (closing the open one), is
 * merged cell by cell into the open record, or is dropped.  The five
 * functions differ only in how a row's role is decided and in the joiner
 * each column uses; Schedule B's result is finally rid of noise rows.
 */
module DisclosureConsolidation {
  import opened Optional
  import opened Text
  import opened DisclosureTokens
  import opened DisclosureLayout
  import opened DisclosurePages

  // ---------------------------------------------------------------- cells

  /** `list(row[:n]) + [""] * max(0, n - len(row))`. */
  function Fit(row: seq<string>, n: nat): (r: seq<string>)
    ensures |r| == n && forall c :: 0 <= c < n ==> r[c] == (if c < |row| then row[c] else "")
  {
    seq(n, c requires 0 <= c < n => if c < |row| then row[c] else "")
  }

  /** `f"{existing}{joiner}{piece}" if existing else piece`. */
  function Glue(existing: string, piece: string, sep: string): string
  {
    if existing == "" then piece else existing + sep + piece
  }

  /** A continuation cell merged into a record cell: nothing happens when the cell is empty. */
  function Append(existing: string, piece: string, sep: string): string
  {
    if piece == "" then existing else Glue(existing, piece, sep)
  }

  /** Merging only ever extends a record cell, and the merged cell ends up inside it. */
  lemma AppendKeeps(existing: string, piece: string, sep: string, x: string)
    ensures StartsWith(Append(existing, piece, sep), existing)
    ensures Contains(existing, x) ==> Contains(Append(existing, piece, sep), x)
    ensures piece != "" ==> Contains(Append(existing, piece, sep), piece)
  {
    var r := Append(existing, piece, sep);
    if piece != "" {
      if existing == "" {
        ContainsSelf([], piece, []);
        assert [] + piece + [] == r;
      } else {
        ContainsSelf(existing + sep, piece, []);
        assert existing + sep + piece + [] == r;
      }
    }
    if Contains(existing, x) {
      if piece != "" && existing != "" {
        ContainsGrow(existing, x, [], sep + piece);
        assert [] + existing + (sep + piece) == r;
      }
    }
    assert r[..|existing|] == existing;
  }

  // ---------------------------------------------------------------- the loop, for any schedule

  /** How a continuation row's cell is merged: not at all, or appended after a separator. */
  datatype Joint = Kept | Joined(sep: string)

  /** What a row does: opens a record, is merged into the open one, or is dropped. */
  datatype Role = Opens | Joins | Drops

  /** The loop state: the closed records (`consolidated`) and the open one (`current`). */
  datatype Acc = Acc(done: seq<seq<string>>, current: Option<seq<string>>)

  /** Every row has `n` cells. */
  predicate Rect(rows: seq<seq<string>>, n: nat)
  {
    forall i :: 0 <= i < |rows| ==> |rows[i]| == n
  }

  predicate Shaped(acc: Acc, n: nat)
  {
    Rect(acc.done, n) && (acc.current.Some? ==> |acc.current.value| == n)
  }

  /** A continuation row merged into the open record, column by column. */
  function Merge(record: seq<string>, row: seq<string>, joints: seq<Joint>): (r: seq<string>)
    requires |record| == |row| == |joints|
    ensures |r| == |record|
  {
    seq(|record|, c requires 0 <= c < |record| => MergeCell(record[c], row[c], joints[c]))
  }

  /** One column of a merge. */
  function MergeCell(existing: string, piece: string, joint: Joint): string
  {
    match joint
    case Kept => existing
    case Joined(sep) => Append(existing, piece, sep)
  }

  /** The records once the loop is over: the open record, if any, is closed. */
  function Close(acc: Acc): (r: seq<seq<string>>)
    ensures |r| == |acc.done| + (if acc.current.Some? then 1 else 0)
  {
    if acc.current.Some? then acc.done + [acc.current.value] else acc.done
  }

  /** One turn of the loop. */
  function Apply(acc: Acc, row: seq<string>, role: Role, joints: seq<Joint>): (r: Acc)
    requires Shaped(acc, |joints|) && |row| == |joints|
    ensures Shaped(r, |joints|)
  {
    match role
    case Opens => Acc(Close(acc), Some(row))
    case Drops => acc
    case Joins => if acc.current.Some? then acc.(current := Some(Merge(acc.current.value, row, joints))) else acc
  }

  /** The loop over `rows`, each with its role. */
  function Replay(rows: seq<seq<string>>, roles: seq<Role>, joints: seq<Joint>): (r: Acc)
    requires |roles| == |rows| && Rect(rows, |joints|)
    ensures Shaped(r, |joints|)
  {
    if rows == [] then Acc([], None)
    else Apply(Replay(rows[..|rows| - 1], roles[..|roles| - 1], joints), rows[|rows| - 1], roles[|roles| - 1], joints)
  }

  /** A row is only ever merged once some earlier row has opened a record. */
  predicate JoinsAfterOpen(roles: seq<Role>)
  {
    forall i :: 0 <= i < |roles| && roles[i] == Joins ==> Opens in roles[..i]
  }

  /** The rows that open records, in order. */
  function Openers(rows: seq<seq<string>>, roles: seq<Role>): (r: seq<seq<string>>)
    requires |roles| == |rows|
  {
    if rows == [] then []
    else
      Openers(rows[..|rows| - 1], roles[..|roles| - 1])
      + (if roles[|roles| - 1] == Opens then [rows[|rows| - 1]] else [])
  }

  /** A record covers its opening row: kept cells are equal, joined cells begin with the row's. */
  predicate Covers(record: seq<string>, opener: seq<string>, joints: seq<Joint>)
  {
    |record| == |opener| == |joints|
    && forall c :: 0 <= c < |joints| ==>
         StartsWith(record[c], opener[c]) && (joints[c].Kept? ==> record[c] == opener[c])
  }

  lemma MergeCovers(record: seq<string>, row: seq<string>, opener: seq<string>, joints: seq<Joint>)
    requires |row| == |joints| && Covers(record, opener, joints)
    ensures Covers(Merge(record, row, joints), opener, joints)
  {
    var m := Merge(record, row, joints);
    forall c | 0 <= c < |joints|
      ensures StartsWith(m[c], opener[c]) && (joints[c].Kept? ==> m[c] == opener[c])
    {
      if joints[c].Joined? {
        AppendKeeps(record[c], row[c], joints[c].sep, "");
        assert m[c][..|record[c]|] == record[c];
        assert m[c][..|opener[c]|] == m[c][..|record[c]|][..|opener[c]|];
      }
    }
  }

  /** The loop's state after `rows`, in terms of the opening rows seen so far. */
  predicate Tracks(acc: Acc, openers: seq<seq<string>>, joints: seq<Joint>)
  {
    |Close(acc)| == |openers|
    && (acc.current.Some? <==> openers != [])
    && forall j :: 0 <= j < |openers| ==> Covers(Close(acc)[j], openers[j], joints)
  }

  lemma {:induction false} ReplayTracks(rows: seq<seq<string>>, roles: seq<Role>, joints: seq<Joint>)
    requires |roles| == |rows| && Rect(rows, |joints|)
    ensures Tracks(Replay(rows, roles, joints), Openers(rows, roles), joints)
  {
    if rows != [] {
      var init := rows[..|rows| - 1];
      var initRoles := roles[..|roles| - 1];
      var row := rows[|rows| - 1];
      var before := Replay(init, initRoles, joints);
      var ops := Openers(init, initRoles);
      ReplayTracks(init, initRoles, joints);
      var after := Replay(rows, roles, joints);
      match roles[|roles| - 1] {
        case Opens =>
          assert Close(after) == Close(before) + [row];
          assert Covers(row, row, joints) by {
            forall c | 0 <= c < |joints| ensures StartsWith(row[c], row[c]) {
              assert row[c][..|row[c]|] == row[c];
            }
          }
        case Drops =>
        case Joins =>
          if before.current.Some? {
            var last := |Close(before)| - 1;
            assert Close(after) == Close(before)[last := Merge(before.current.value, row, joints)];
            MergeCovers(before.current.value, row, ops[last], joints);
          }
      }
    }
  }

  /** Which open record a merged cell went into is still there at the end. */
  predicate Holds(acc: Acc, x: string, c: int)
  {
    exists j :: 0 <= j < |Close(acc)| && 0 <= c < |Close(acc)[j]| && Contains(Close(acc)[j][c], x)
  }

  /** A cell the loop keeps: a non-empty cell of an opening row, or of a merged row in a joined column. */
  predicate Carried(rows: seq<seq<string>>, roles: seq<Role>, joints: seq<Joint>, i: int, c: int)
    requires |roles| == |rows| && Rect(rows, |joints|)
  {
    0 <= i < |rows| && 0 <= c < |joints| && rows[i][c] != ""
    && (roles[i] == Opens || (roles[i] == Joins && joints[c].Joined?))
  }

  lemma HoldsAfterApply(acc: Acc, row: seq<string>, role: Role, joints: seq<Joint>, x: string, c: nat)
    requires Shaped(acc, |joints|) && |row| == |joints| && c < |joints|
    requires Holds(acc, x, c)
    ensures Holds(Apply(acc, row, role, joints), x, c)
  {
    var j :| 0 <= j < |Close(acc)| && 0 <= c < |Close(acc)[j]| && Contains(Close(acc)[j][c], x);
    var after := Apply(acc, row, role, joints);
    match role {
      case Opens =>
        assert Close(after)[j] == Close(acc)[j];
      case Drops =>
      case Joins =>
        if acc.current.Some? && j == |acc.done| {
          var m := Merge(acc.current.value, row, joints);
          assert Close(after)[j] == m;
          if joints[c].Joined? {
            AppendKeeps(acc.current.value[c], row[c], joints[c].sep, x);
          }
        } else {
          assert Close(after)[j] == Close(acc)[j];
        }
    }
  }

  lemma HoldsNew(acc: Acc, row: seq<string>, role: Role, joints: seq<Joint>, c: nat)
    requires Shaped(acc, |joints|) && |row| == |joints| && c < |joints| && row[c] != ""
    requires role == Opens || (role == Joins && joints[c].Joined? && acc.current.Some?)
    ensures Holds(Apply(acc, row, role, joints), row[c], c)
  {
    var after := Apply(acc, row, role, joints);
    var j := |Close(after)| - 1;
    if role == Opens {
      assert Close(after)[j] == row;
      ContainsSelf([], row[c], []);
      assert [] + row[c] + [] == row[c];
    } else {
      assert Close(after)[j] == Merge(acc.current.value, row, joints);
      AppendKeeps(acc.current.value[c], row[c], joints[c].sep, "");
    }
  }

  /** Roles that merge only after an opening row keep that property on every prefix. */
  lemma JoinsAfterOpenPrefix(roles: seq<Role>, i: nat)
    requires JoinsAfterOpen(roles) && i <= |roles|
    ensures JoinsAfterOpen(roles[..i])
  {
    forall m | 0 <= m < i && roles[..i][m] == Joins
      ensures Opens in roles[..i][..m]
    {
      assert roles[..i][..m] == roles[..m];
    }
  }

  lemma {:induction false} ReplayOpen(rows: seq<seq<string>>, roles: seq<Role>, joints: seq<Joint>)
    requires |roles| == |rows| && Rect(rows, |joints|)
    ensures Replay(rows, roles, joints).current.Some? <==> Opens in roles
  {
    if rows != [] {
      var initRoles := roles[..|roles| - 1];
      ReplayOpen(rows[..|rows| - 1], initRoles, joints);
      assert roles == initRoles + [roles[|roles| - 1]];
    }
  }

  /**
   * No cell the loop keeps is lost: every non-empty cell of an opening row,
   * and every non-empty cell of a merged row in a joined column, lies in
   * the same column of some record.
   */
  lemma {:induction false} ReplayKeepsCells(rows: seq<seq<string>>, roles: seq<Role>, joints: seq<Joint>)
    requires |roles| == |rows| && Rect(rows, |joints|) && JoinsAfterOpen(roles)
    ensures forall i, c :: Carried(rows, roles, joints, i, c) ==> Holds(Replay(rows, roles, joints), rows[i][c], c)
  {
    if rows != [] {
      var n := |rows| - 1;
      var init := rows[..n];
      var initRoles := roles[..n];
      var before := Replay(init, initRoles, joints);
      JoinsAfterOpenPrefix(roles, n);
      ReplayKeepsCells(init, initRoles, joints);
      forall i, c | Carried(rows, roles, joints, i, c)
        ensures Holds(Replay(rows, roles, joints), rows[i][c], c)
      {
        if i < n {
          assert Carried(init, initRoles, joints, i, c);
          HoldsAfterApply(before, rows[n], roles[n], joints, rows[i][c], c);
        } else {
          if roles[n] == Joins {
            ReplayOpen(init, initRoles, joints);
          }
          HoldsNew(before, rows[n], roles[n], joints, c);
        }
      }
    }
  }

  /** With no opening row the loop keeps nothing. */
  lemma {:induction false} ReplayNoOpeners(rows: seq<seq<string>>, roles: seq<Role>, joints: seq<Joint>)
    requires |roles| == |rows| && Rect(rows, |joints|)
    requires Opens !in roles
    ensures Replay(rows, roles, joints) == Acc([], None)
  {
    if rows != [] {
      assert roles[..|roles| - 1] <= roles;
      ReplayNoOpeners(rows[..|rows| - 1], roles[..|roles| - 1], joints);
    }
  }

  // ---------------------------------------------------------------- the five schedules

  /** The joiner of each column of a consolidated schedule (Schedule A never merges the value). */
  function Joints(k: Kind): (r: seq<Joint>)
    requires k != KindC
    ensures |r| == ColumnCount(k)
  {
    match k
    case KindA => [Joined("\n"), Joined("\n"), Kept, Joined("\n"), Joined("\n"), Joined("\n")]
    case KindB => [Joined("\n"), Joined("\n"), Joined(" "), Joined(" "), Joined(" "), Joined(" ")]
    case KindD => [Joined("\n"), Joined("\n"), Joined(" "), Joined("\n"), Joined(" ")]
    case KindE => [Joined(" "), Joined(" ")]
    case KindF => [Joined(" "), Joined("\n"), Joined(" ")]
  }

  /**
   * `VALUE_TOKEN_PATTERN.search(s)`: `Less than $…`, `More than $…` and
   * `$…` all contain a dollar sign followed by a digit or comma; the last
   * alternative is `None`, in any case.
   */
  predicate ValuePatternFound(s: string)
  {
    HasDollarAmount(s) || Contains(Lower(s), "none")
  }

  /** `value and (VALUE_TOKEN_PATTERN.search(value) or value.lower() == "none")`. */
  predicate LooksLikeValue(value: string)
  {
    value != "" && (ValuePatternFound(value) || Lower(value) == "none")
  }

  /** Schedule A: a row opens a record when its value cell looks like a value, or is the first non-empty one. */
  predicate OpensRecordA(value: string, hasCurrent: bool)
  {
    value != "" && (LooksLikeValue(value) || !hasCurrent)
  }

  /** Schedule B's `is_new`: a short owner code other than an `L:` label, or a date, type or amount. */
  predicate IsNewB(row: seq<string>)
    requires |row| == 6
  {
    (row[1] != "" && !StartsWith(row[1], "L:") && |row[1]| <= 4) || row[2] != "" || row[3] != "" || row[4] != ""
  }

  /** Schedule D's decision, as the source writes it, amount test included. */
  predicate OpensRecordD(row: seq<string>, hasCurrent: bool)
    requires |row| == 5
  {
    var named := row[0] != "" || row[1] != "" || row[2] != "";
    var amountNew := LooksLikeValue(row[4]);
    var isNew :=
      if amountNew && named then true
      else if amountNew && !hasCurrent then true
      else named;
    isNew || !hasCurrent
  }

  /** The amount test never changes Schedule D's decision. */
  lemma OpensRecordIff(row: seq<string>, hasCurrent: bool)
    requires |row| == 5
    ensures OpensRecordD(row, hasCurrent) <==> row[0] != "" || row[1] != "" || row[2] != "" || !hasCurrent
  {
  }

  /** The role of a fitted row, given whether a record is open. */
  function RoleOf(k: Kind, row: seq<string>, hasCurrent: bool): (r: Role)
    requires k != KindC && |row| == ColumnCount(k)
    ensures r == Joins ==> hasCurrent
  {
    match k
    case KindA =>
      if OpensRecordA(row[2], hasCurrent) then Opens
      else if !hasCurrent then Drops
      else Joins
    case KindB =>
      if IsScheduleBDescriptionFragment(row[0]) then (if hasCurrent then Joins else Drops)
      else if IsNewB(row) || !hasCurrent then Opens
      else Joins
    case KindD =>
      if OpensRecordD(row, hasCurrent) then Opens else Joins
    case _ =>
      if Filled(row) || !hasCurrent then Opens else Joins
  }

  /** The roles of fitted rows, each decided by whether an earlier row opened a record. */
  function Roles(k: Kind, rows: seq<seq<string>>): (r: seq<Role>)
    requires k != KindC && Rect(rows, ColumnCount(k))
    ensures |r| == |rows|
  {
    if rows == [] then []
    else
      var init := Roles(k, rows[..|rows| - 1]);
      init + [RoleOf(k, rows[|rows| - 1], Opens in init)]
  }

  lemma {:induction false} RolesJoinAfterOpen(k: Kind, rows: seq<seq<string>>)
    requires k != KindC && Rect(rows, ColumnCount(k))
    ensures JoinsAfterOpen(Roles(k, rows))
  {
    if rows != [] {
      var init := rows[..|rows| - 1];
      var r := Roles(k, rows);
      RolesJoinAfterOpen(k, init);
      forall i | 0 <= i < |r| && r[i] == Joins
        ensures Opens in r[..i]
      {
        assert r[..|r| - 1] == Roles(k, init);
        if i < |r| - 1 {
          assert r[..i] == Roles(k, init)[..i];
        } else {
          assert r[..i] == Roles(k, init);
        }
      }
    }
  }

  /** Every input row padded or cut to the schedule's width. */
  function Fitted(k: Kind, rows: seq<seq<string>>): (r: seq<seq<string>>)
    ensures |r| == |rows| && Rect(r, ColumnCount(k))
    ensures forall i :: 0 <= i < |rows| ==> r[i] == Fit(rows[i], ColumnCount(k))
  {
    seq(|rows|, i requires 0 <= i < |rows| => Fit(rows[i], ColumnCount(k)))
  }

  /** The records the loop builds, before Schedule B's noise filter. */
  function Records(k: Kind, rows: seq<seq<string>>): seq<seq<string>>
    requires k != KindC
  {
    var fitted := Fitted(k, rows);
    Close(Replay(fitted, Roles(k, fitted), Joints(k)))
  }

  /** `[row for row in records if not is_noise_schedule_b_row(row)]`. */
  function DropNoise(records: seq<seq<string>>): (r: seq<seq<string>>)
    ensures forall i :: 0 <= i < |r| ==> r[i] in records && !IsNoiseScheduleBRow(r[i])
  {
    if records == [] then []
    else
      var last := records[|records| - 1];
      DropNoise(records[..|records| - 1]) + (if IsNoiseScheduleBRow(last) then [] else [last])
  }

  /** What `consolidate_schedule_*` returns. */
  function ConsolidatedRows(k: Kind, rows: seq<seq<string>>): seq<seq<string>>
    requires k != KindC
  {
    if k == KindB then DropNoise(Records(k, rows)) else Records(k, rows)
  }

  /** One more row of the loop, with the role it is given. */
  lemma ConsolidateStep(k: Kind, fitted: seq<seq<string>>, i: nat)
    requires k != KindC && Rect(fitted, ColumnCount(k)) && i < |fitted|
    ensures var before := Roles(k, fitted[..i]);
            var role := RoleOf(k, fitted[i], Opens in before);
            && Roles(k, fitted[..i + 1]) == before + [role]
            && (Opens in Roles(k, fitted[..i + 1]) <==> Opens in before || role == Opens)
            && Replay(fitted[..i + 1], Roles(k, fitted[..i + 1]), Joints(k))
               == Apply(Replay(fitted[..i], before, Joints(k)), fitted[i], role, Joints(k))
  {
    assert fitted[..i + 1][..i] == fitted[..i];
  }

  /**
   * `consolidate_schedule_a`, `_b`, `_d`, `_e` and `_f`: the loop keeping
   * the open record in `current` and the closed ones in `consolidated`.
   */
  method Consolidate(k: Kind, rows: seq<seq<string>>) returns (out: seq<seq<string>>)
    requires k != KindC
    ensures out == ConsolidatedRows(k, rows)
  {
    ghost var fitted := Fitted(k, rows);
    var consolidated: seq<seq<string>> := [];
    var current: Option<seq<string>> := None;
    for i := 0 to |rows|
      invariant Replay(fitted[..i], Roles(k, fitted[..i]), Joints(k)) == Acc(consolidated, current)
    {
      consolidated, current := Advance(k, rows, fitted, i, consolidated, current);
    }
    assert fitted[..|rows|] == fitted;
    if current.Some? {
      consolidated := consolidated + [current.value];
    }
    out := consolidated;
    if k == KindB {
      out := DropNoise(out);
    }
  }

  /** One turn of that loop: the state after `i` rows becomes the state after `i + 1`. */
  method Advance(k: Kind, rows: seq<seq<string>>, ghost fitted: seq<seq<string>>, i: nat,
                 consolidated: seq<seq<string>>, current: Option<seq<string>>)
    returns (consolidated': seq<seq<string>>, current': Option<seq<string>>)
    requires k != KindC && fitted == Fitted(k, rows) && i < |rows|
    requires Replay(fitted[..i], Roles(k, fitted[..i]), Joints(k)) == Acc(consolidated, current)
    ensures Replay(fitted[..i + 1], Roles(k, fitted[..i + 1]), Joints(k)) == Acc(consolidated', current')
  {
    var row := Fit(rows[i], ColumnCount(k));
    ConsolidateStep(k, fitted, i);
    ReplayOpen(fitted[..i], Roles(k, fitted[..i]), Joints(k));
    consolidated', current' := Absorb(k, consolidated, current, row);
  }

  /**
   * The body of that loop for one (padded) row: a new record closes the
   * open one, a dropped row leaves both alone, a continuation row is merged
   * into the open record one `if cell: current[i] = …` at a time.
   */
  method Absorb(k: Kind, consolidated: seq<seq<string>>, current: Option<seq<string>>, row: seq<string>)
    returns (consolidated': seq<seq<string>>, current': Option<seq<string>>)
    requires k != KindC && Shaped(Acc(consolidated, current), ColumnCount(k)) && |row| == ColumnCount(k)
    ensures Acc(consolidated', current') == Apply(Acc(consolidated, current), row, RoleOf(k, row, current.Some?), Joints(k))
  {
    var joints := Joints(k);
    consolidated', current' := consolidated, current;
    var role := RoleOf(k, row, current.Some?);
    match role {
      case Opens =>
        if current.Some? {
          consolidated' := consolidated + [current.value];
        }
        current' := Some(row);
      case Drops =>
      case Joins =>
        var record := current.value;
        for c := 0 to |joints|
          invariant |record| == |joints|
          invariant forall d :: 0 <= d < c ==> record[d] == MergeCell(current.value[d], row[d], joints[d])
          invariant forall d :: c <= d < |joints| ==> record[d] == current.value[d]
        {
          if joints[c].Joined? && row[c] != "" {
            record := record[c := Glue(record[c], row[c], joints[c].sep)];
          }
        }
        assert record == Merge(current.value, row, joints);
        current' := Some(record);
    }
  }

  // ---------------------------------------------------------------- what the consolidators promise

  /** A row's role is decided by the rows before it alone. */
  lemma {:induction false} RolesPrefix(k: Kind, rows: seq<seq<string>>, i: nat)
    requires k != KindC && Rect(rows, ColumnCount(k)) && i <= |rows|
    ensures Roles(k, rows)[..i] == Roles(k, rows[..i])
  {
    if i < |rows| {
      var init := rows[..|rows| - 1];
      RolesPrefix(k, init, i);
      assert init[..i] == rows[..i];
      assert Roles(k, rows)[..i] == Roles(k, init)[..i];
    } else {
      assert rows[..i] == rows;
    }
  }

  /** The role of row `i`, decided by whether one of the rows before it opened a record. */
  lemma RolesAt(k: Kind, rows: seq<seq<string>>, i: nat)
    requires k != KindC && Rect(rows, ColumnCount(k)) && i < |rows|
    ensures Roles(k, rows)[i] == RoleOf(k, rows[i], Opens in Roles(k, rows)[..i])
  {
    RolesPrefix(k, rows, i + 1);
    RolesPrefix(k, rows, i);
    assert rows[..i + 1][..i] == rows[..i];
    assert Roles(k, rows)[i] == Roles(k, rows[..i + 1])[i];
  }

  /** Every opening row is one of the rows, and had the role `Opens`. */
  lemma {:induction false} OpenersFrom(rows: seq<seq<string>>, roles: seq<Role>)
    requires |roles| == |rows|
    ensures forall j :: 0 <= j < |Openers(rows, roles)| ==>
              exists i :: 0 <= i < |rows| && roles[i] == Opens && rows[i] == Openers(rows, roles)[j]
  {
    if rows != [] {
      var n := |rows| - 1;
      OpenersFrom(rows[..n], roles[..n]);
      var o := Openers(rows, roles);
      var head := Openers(rows[..n], roles[..n]);
      assert o == head + (if roles[n] == Opens then [rows[n]] else []);
      forall j | 0 <= j < |o|
        ensures exists i :: 0 <= i < |rows| && roles[i] == Opens && rows[i] == o[j]
      {
        if j < |head| {
          var i :| 0 <= i < n && roles[..n][i] == Opens && rows[..n][i] == head[j];
          assert o[j] == head[j];
          assert roles[i] == Opens && rows[i] == o[j];
        } else {
          assert roles[n] == Opens && rows[n] == o[j];
        }
      }
    } else {
      assert Openers(rows, roles) == [];
    }
  }

  /** Every record the loop builds has the schedule's width. */
  lemma ConsolidatedShape(k: Kind, rows: seq<seq<string>>)
    requires k != KindC
    ensures Rect(ConsolidatedRows(k, rows), ColumnCount(k))
  {
    var records := Records(k, rows);
    assert Rect(records, ColumnCount(k));
    if k == KindB {
      forall i | 0 <= i < |DropNoise(records)|
        ensures |DropNoise(records)[i]| == ColumnCount(k)
      {
        assert DropNoise(records)[i] in records;
      }
    }
  }

  /**
   * One record per opening row, in order: each record begins, column by
   * column, with the cells of the row that opened it, and a column that is
   * never merged (Schedule A's value) is exactly that row's cell.
   */
  lemma RecordsFollowOpeners(k: Kind, rows: seq<seq<string>>)
    requires k != KindC
    ensures var fitted := Fitted(k, rows);
            var openers := Openers(fitted, Roles(k, fitted));
            && |Records(k, rows)| == |openers|
            && forall j :: 0 <= j < |openers| ==> Covers(Records(k, rows)[j], openers[j], Joints(k))
  {
    var fitted := Fitted(k, rows);
    ReplayTracks(fitted, Roles(k, fitted), Joints(k));
  }

  /**
   * No kept cell is lost: every non-empty cell of an opening row, and every
   * non-empty cell of a merged row in a merged column, lies inside the same
   * column of some record.
   */
  lemma RecordsKeepCells(k: Kind, rows: seq<seq<string>>)
    requires k != KindC
    ensures var fitted := Fitted(k, rows);
            forall i, c :: Carried(fitted, Roles(k, fitted), Joints(k), i, c) ==>
              exists j :: 0 <= j < |Records(k, rows)| && 0 <= c < |Records(k, rows)[j]|
                          && Contains(Records(k, rows)[j][c], fitted[i][c])
  {
    var fitted := Fitted(k, rows);
    var roles := Roles(k, fitted);
    var acc := Replay(fitted, roles, Joints(k));
    var records := Records(k, rows);
    assert records == Close(acc);
    RolesJoinAfterOpen(k, fitted);
    ReplayKeepsCells(fitted, roles, Joints(k));
    forall i, c | Carried(fitted, roles, Joints(k), i, c)
      ensures exists j :: 0 <= j < |records| && 0 <= c < |records[j]| && Contains(records[j][c], fitted[i][c])
    {
      assert Holds(acc, fitted[i][c], c);
    }
  }

  /**
   * Schedules D, E and F drop no row and merge every column, so every
   * non-empty cell of the input ends up in the same column of some record.
   */
  lemma NothingLost(k: Kind, rows: seq<seq<string>>)
    requires k == KindD || k == KindE || k == KindF
    ensures forall i, c :: 0 <= i < |rows| && 0 <= c < |rows[i]| && c < ColumnCount(k) && rows[i][c] != "" ==>
              exists j :: 0 <= j < |Records(k, rows)| && 0 <= c < |Records(k, rows)[j]|
                          && Contains(Records(k, rows)[j][c], rows[i][c])
  {
    var fitted := Fitted(k, rows);
    var roles := Roles(k, fitted);
    var records := Records(k, rows);
    RecordsKeepCells(k, rows);
    forall i, c | 0 <= i < |rows| && 0 <= c < |rows[i]| && c < ColumnCount(k) && rows[i][c] != ""
      ensures exists j :: 0 <= j < |records| && 0 <= c < |records[j]| && Contains(records[j][c], rows[i][c])
    {
      RolesAt(k, fitted, i);
      assert fitted[i][c] == rows[i][c];
      assert Carried(fitted, roles, Joints(k), i, c);
    }
  }

  /**
   * Schedules D, E and F: the first row always opens a record, and a later
   * row opens one exactly when it names a new holding (D: an owner, a
   * creditor or a date; E and F: any non-empty cell).
   */
  lemma OpensExactly(k: Kind, rows: seq<seq<string>>, i: nat)
    requires k == KindD || k == KindE || k == KindF
    requires i < |rows|
    ensures var fitted := Fitted(k, rows);
            Roles(k, fitted)[i] == Opens <==>
              i == 0 || (if k == KindD then fitted[i][0] != "" || fitted[i][1] != "" || fitted[i][2] != ""
                         else Filled(fitted[i]))
  {
    var fitted := Fitted(k, rows);
    var roles := Roles(k, fitted);
    RolesAt(k, fitted, i);
    if i > 0 {
      RolesAt(k, fitted, 0);
      assert roles[..i][0] == Opens;
    }
    if k == KindD {
      OpensRecordIff(fitted[i], Opens in roles[..i]);
    }
  }

  /** Schedule A: every record carries the non-empty value of the row that opened it. */
  lemma RecordsHaveValues(rows: seq<seq<string>>)
    ensures forall j :: 0 <= j < |Records(KindA, rows)| ==> Records(KindA, rows)[j][2] != ""
  {
    var fitted := Fitted(KindA, rows);
    var roles := Roles(KindA, fitted);
    var openers := Openers(fitted, roles);
    RecordsFollowOpeners(KindA, rows);
    OpenersFrom(fitted, roles);
    forall j | 0 <= j < |Records(KindA, rows)|
      ensures Records(KindA, rows)[j][2] != ""
    {
      assert Covers(Records(KindA, rows)[j], openers[j], Joints(KindA));
      var i :| 0 <= i < |fitted| && roles[i] == Opens && fitted[i] == openers[j];
      RolesAt(KindA, fitted, i);
    }
  }

  /** Rows whose role is `Drops` before any other row leave the loop's result unchanged. */
  lemma {:induction false} ReplaySkipsDropped(rows: seq<seq<string>>, roles: seq<Role>, joints: seq<Joint>, f: nat)
    requires |roles| == |rows| && Rect(rows, |joints|) && f <= |rows|
    requires forall i :: 0 <= i < f ==> roles[i] == Drops
    ensures Replay(rows, roles, joints) == Replay(rows[f..], roles[f..], joints)
  {
    if |rows| == f {
      ReplayNoOpeners(rows, roles, joints);
      assert rows[f..] == [];
    } else {
      var n := |rows| - 1;
      ReplaySkipsDropped(rows[..n], roles[..n], joints, f);
      assert rows[f..][..n - f] == rows[..n][f..];
      assert roles[f..][..n - f] == roles[..n][f..];
    }
  }

  /** The last role, decided by whether an earlier row opened a record. */
  lemma RolesSnoc(k: Kind, rows: seq<seq<string>>)
    requires k != KindC && Rect(rows, ColumnCount(k)) && rows != []
    ensures var init := rows[..|rows| - 1];
            Roles(k, rows) == Roles(k, init) + [RoleOf(k, rows[|rows| - 1], Opens in Roles(k, init))]
  {
  }

  /** Rows whose role is `Drops` before any other row leave the later rows' roles unchanged. */
  lemma {:induction false} RolesSkipDropped(k: Kind, rows: seq<seq<string>>, f: nat)
    requires k != KindC && Rect(rows, ColumnCount(k)) && f <= |rows|
    requires forall i :: 0 <= i < f ==> Roles(k, rows)[i] == Drops
    ensures Roles(k, rows)[f..] == Roles(k, rows[f..])
  {
    hide Roles, RoleOf;
    if |rows| > f {
      var n := |rows| - 1;
      var init := rows[..n];
      var tail := rows[f..];
      var head := Roles(k, init);
      var later := Roles(k, init[f..]);
      assert Roles(k, rows) == head + [RoleOf(k, rows[n], Opens in head)] by {
        RolesSnoc(k, rows);
      }
      assert Roles(k, tail) == later + [RoleOf(k, rows[n], Opens in later)] by {
        assert tail[..|tail| - 1] == init[f..] && tail[|tail| - 1] == rows[n];
        RolesSnoc(k, tail);
      }
      assert forall i :: 0 <= i < f ==> head[i] == Drops by {
        RolesPrefix(k, rows, n);
      }
      RolesSkipDropped(k, init, f);
      assert (Opens in head) == (Opens in later) by {
        assert head == head[..f] + head[f..];
        assert Opens !in head[..f];
      }
    } else {
      assert rows[f..] == [];
    }
  }

  /** Schedule A: fitted rows without a value, before any with one, are dropped. */
  lemma LeadingRolesDrop(fitted: seq<seq<string>>, f: nat)
    requires Rect(fitted, ColumnCount(KindA)) && f <= |fitted|
    requires forall i :: 0 <= i < f ==> fitted[i][2] == ""
    ensures forall i :: 0 <= i < f ==> Roles(KindA, fitted)[i] == Drops
    ensures f < |fitted| && fitted[f][2] != "" ==> Roles(KindA, fitted)[f] == Opens
  {
    hide LooksLikeValue, IsScheduleBDescriptionFragment, IsNewB, OpensRecordD, Filled;
    var roles := Roles(KindA, fitted);
    forall i | 0 <= i < f
      ensures roles[i] != Opens
    {
      RolesAt(KindA, fitted, i);
    }
    forall i | 0 <= i < f
      ensures roles[i] == Drops
    {
      assert Opens !in roles[..i];
      RolesAt(KindA, fitted, i);
    }
    if f < |fitted| {
      assert Opens !in roles[..f];
      RolesAt(KindA, fitted, f);
    }
  }

  /** Fitting works row by row, so it commutes with dropping leading rows. */
  lemma FittedSuffix(k: Kind, rows: seq<seq<string>>, f: nat)
    requires f <= |rows|
    ensures Fitted(k, rows)[f..] == Fitted(k, rows[f..])
  {
    hide Fit;
  }

  /** Leading rows whose role is `Drops` contribute nothing to the records. */
  lemma RecordsSkipDropped(k: Kind, rows: seq<seq<string>>, f: nat)
    requires k != KindC && f <= |rows|
    requires forall i :: 0 <= i < f ==> Roles(k, Fitted(k, rows))[i] == Drops
    ensures Records(k, rows) == Records(k, rows[f..])
  {
    var fitted := Fitted(k, rows);
    FittedSuffix(k, rows, f);
    RolesSkipDropped(k, fitted, f);
    ReplaySkipsDropped(fitted, Roles(k, fitted), Joints(k), f);
  }

  /**
   * Schedule A: every row before the first with a value is dropped, so the
   * records are those of the rows from the first valued row on; that row
   * opens the first record, and a table without values gives none.
   */
  lemma LeadingRowsDropped(rows: seq<seq<string>>, f: nat)
    requires f <= |rows|
    requires forall i :: 0 <= i < f ==> 2 >= |rows[i]| || rows[i][2] == ""
    requires f < |rows| ==> 2 < |rows[f]| && rows[f][2] != ""
    ensures forall i :: 0 <= i < f ==> Roles(KindA, Fitted(KindA, rows))[i] == Drops
    ensures f < |rows| ==> Roles(KindA, Fitted(KindA, rows))[f] == Opens
    ensures Records(KindA, rows) == Records(KindA, rows[f..])
    ensures f == |rows| ==> Records(KindA, rows) == []
  {
    var fitted := Fitted(KindA, rows);
    assert forall i :: 0 <= i < f ==> fitted[i][2] == "";
    assert f < |rows| ==> fitted[f][2] != "";
    LeadingRolesDrop(fitted, f);
    RecordsSkipDropped(KindA, rows, f);
    if f == |rows| {
      assert rows[f..] == [];
    }
  }

  /** Schedule B's filter keeps every record that is not noise, in order. */
  lemma {:induction false} DropNoiseKeeps(records: seq<seq<string>>)
    ensures forall r :: r in records && !IsNoiseScheduleBRow(r) ==> r in DropNoise(records)
  {
    if records != [] {
      var init := records[..|records| - 1];
      DropNoiseKeeps(init);
      forall r | r in records && !IsNoiseScheduleBRow(r)
        ensures r in DropNoise(records)
      {
        if r in init {
          assert r in DropNoise(init);
        } else {
          assert r == records[|records| - 1];
        }
      }
    }
  }

  /**
   * Schedule B: the result holds exactly the records whose cleaned asset
   * name is empty or has three letters in a row.
   */
  lemma ScheduleBClean(rows: seq<seq<string>>)
    ensures forall r :: r in ConsolidatedRows(KindB, rows) <==>
              r in Records(KindB, rows) && (Clean(r[0]) == "" || HasLetterRun(Clean(r[0])))
  {
    var records := Records(KindB, rows);
    DropNoiseKeeps(records);
    ConsolidatedShape(KindB, rows);
    forall r | r in records
      ensures !IsNoiseScheduleBRow(r) <==> Clean(r[0]) == "" || HasLetterRun(Clean(r[0]))
    {
      NoiseRowIff(r);
    }
    forall r | r in ConsolidatedRows(KindB, rows)
      ensures r in records && !IsNoiseScheduleBRow(r)
    {
      var i :| 0 <= i < |DropNoise(records)| && DropNoise(records)[i] == r;
    }
  }
}
