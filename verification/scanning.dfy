/**
 * The data loop both parsers share: walk the lines (pasted text lines, or the cells of
 * spreadsheet rows) from a start index, let a step turn each into at most one row and the
 * channel it carries on, and collect the rows in line order.
 */
module Scanning {
  import opened Options
  import opened Text
  import opened Rows
  import opened Extract

  /** What one data line gives: a row or nothing, and the channel carried to the next line. */
  datatype LineResult = LineResult(row: Option<Row>, carried: string)

  /** The loop state: the rows so far and the carried channel. */
  datatype Scan = Scan(rows: seq<Row>, current: string)

  function Advance(s: Scan, r: LineResult): Scan {
    Scan(s.rows + (if r.row.Some? then [r.row.value] else []), r.carried)
  }

  /**
   * The loop over lines `lo` up to `hi`, starting with no rows and no channel. The step is
   * a parameter, so the bookkeeping of the loop is stated apart from what one line gives.
   */
  function ScanLines<T>(lines: seq<T>, lo: nat, hi: nat, step: (T, nat, string) -> LineResult): Scan
    requires lo <= hi <= |lines|
    decreases hi
  {
    if hi == lo then Scan([], "")
    else
      var s := ScanLines(lines, lo, hi - 1, step);
      Advance(s, step(lines[hi - 1], hi - 1, s.current))
  }

  // ------------------------------------------------------------ what the loop keeps

  /** The line each row of the scan came from: in range, in line order, and that line's step. */
  ghost function Origins<T>(lines: seq<T>, lo: nat, hi: nat, step: (T, nat, string) -> LineResult): (o: seq<nat>)
    requires lo <= hi <= |lines|
    ensures |o| == |ScanLines(lines, lo, hi, step).rows|
    ensures forall k :: 0 <= k < |o| ==> lo <= o[k] < hi
    ensures forall k, l :: 0 <= k < l < |o| ==> o[k] < o[l]
    ensures forall k :: 0 <= k < |o| ==>
      step(lines[o[k]], o[k], ScanLines(lines, lo, o[k], step).current).row
      == Some(ScanLines(lines, lo, hi, step).rows[k])
    decreases hi
  {
    if hi == lo then []
    else
      var o := Origins(lines, lo, hi - 1, step);
      var s := ScanLines(lines, lo, hi - 1, step);
      if step(lines[hi - 1], hi - 1, s.current).row.Some? then o + [hi - 1] else o
  }

  /**
   * No row is lost: a line is an origin exactly when its step, given the channel carried
   * into it, gives a row, and that row is then one of the scan's rows.
   */
  lemma {:induction false} ScanComplete<T>(lines: seq<T>, lo: nat, hi: nat, step: (T, nat, string) -> LineResult, i: nat)
    requires lo <= hi <= |lines|
    ensures i in Origins(lines, lo, hi, step)
      <==> lo <= i < hi && step(lines[i], i, ScanLines(lines, lo, i, step).current).row.Some?
    ensures lo <= i < hi && step(lines[i], i, ScanLines(lines, lo, i, step).current).row.Some? ==>
      step(lines[i], i, ScanLines(lines, lo, i, step).current).row.value in ScanLines(lines, lo, hi, step).rows
    decreases hi
  {
    if hi > lo {
      ScanComplete(lines, lo, hi - 1, step, i);
      var s := ScanLines(lines, lo, hi - 1, step);
      assert ScanLines(lines, lo, hi, step) == Advance(s, step(lines[hi - 1], hi - 1, s.current));
    }
  }

  /** A property of every row a step can give holds of every row of the scan. */
  lemma {:induction false} ScanKeeps<T>(lines: seq<T>, lo: nat, hi: nat,
                                     step: (T, nat, string) -> LineResult, keep: Row -> bool)
    requires lo <= hi <= |lines|
    requires forall raw, i, current :: step(raw, i, current).row.Some? ==> keep(step(raw, i, current).row.value)
    ensures forall r :: r in ScanLines(lines, lo, hi, step).rows ==> keep(r)
    decreases hi
  {
    if hi > lo {
      ScanKeeps(lines, lo, hi - 1, step, keep);
    }
  }

  /**
   * When a step carries `value(line)` on from each line that `sets` one and passes the
   * channel it was given on from every other line, the channel after the lines `lo` up to
   * `hi` is the value of the last line that sets one, or "" when none does.
   */
  lemma {:induction false} ScanCarries<T>(lines: seq<T>, lo: nat, hi: nat,
                                       step: (T, nat, string) -> LineResult, sets: T -> bool, value: T -> string)
    requires lo <= hi <= |lines|
    requires forall raw, i, current :: step(raw, i, current).carried == if sets(raw) then value(raw) else current
    ensures var j := LastWhere(lines, lo, hi, sets);
      ScanLines(lines, lo, hi, step).current == if j < 0 then "" else value(lines[j])
    decreases hi
  {
    if hi > lo {
      ScanCarries(lines, lo, hi - 1, step, sets, value);
    }
  }

  /** No two rows share an id. */
  predicate DistinctIds(rows: seq<Row>) {
    forall k, l :: 0 <= k < l < |rows| ==> rows[k].id != rows[l].id
  }

  /** When the step stamps each row with the id of its line, the scan's ids are distinct. */
  lemma ScanIdsDistinct<T>(lines: seq<T>, lo: nat, hi: nat,
                        step: (T, nat, string) -> LineResult, stamp: nat -> string)
    requires lo <= hi <= |lines|
    requires forall raw, i, current :: step(raw, i, current).row.Some? ==> step(raw, i, current).row.value.id == RowId(i, stamp)
    ensures DistinctIds(ScanLines(lines, lo, hi, step).rows)
  {
    var o := Origins(lines, lo, hi, step);
    var rows := ScanLines(lines, lo, hi, step).rows;
    forall k, l | 0 <= k < l < |rows|
      ensures rows[k].id != rows[l].id
    {
      assert rows[k].id == RowId(o[k], stamp);
      assert rows[l].id == RowId(o[l], stamp);
      if rows[k].id == rows[l].id {
        RowIdInjective(o[k], o[l], stamp);
      }
    }
  }

  /** The scan gives at most one row per line. */
  lemma {:induction false} ScanLength<T>(lines: seq<T>, lo: nat, hi: nat, step: (T, nat, string) -> LineResult)
    requires lo <= hi <= |lines|
    ensures |ScanLines(lines, lo, hi, step).rows| <= hi - lo
    decreases hi
  {
    if hi > lo {
      ScanLength(lines, lo, hi - 1, step);
    }
  }

  /** The data loop over the lines from `lo` on: push each line's row, if any, and carry its channel. */
  method ScanData<T>(lines: seq<T>, lo: nat, step: (T, nat, string) -> LineResult)
    returns (rows: seq<Row>, currentChannel: string)
    requires lo <= |lines|
    ensures Scan(rows, currentChannel) == ScanLines(lines, lo, |lines|, step)
  {
    rows := [];
    currentChannel := "";
    var i := lo;
    while i < |lines|
      invariant lo <= i <= |lines|
      invariant Scan(rows, currentChannel) == ScanLines(lines, lo, i, step)
    {
      var out := step(lines[i], i, currentChannel);
      if out.row.Some? {
        rows := rows + [out.row.value];
      } else {
        assert rows + [] == rows;
      }
      currentChannel := out.carried;
      i := i + 1;
    }
  }
}
