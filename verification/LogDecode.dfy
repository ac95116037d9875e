/** The decoders of main.py: the interface filter over log lines, the laser
    header, the fixed-layout laser and pose rows read through
    `np.genfromtxt`, the max-range sentinel, and the obstacle points computed
    from the poses and the beam angles. A log is its lines; a generator that
    `next()` advances is the sequence without its head. */
module LogDecode {
  import opened Wrappers
  import opened Text
  import opened Decimal
  import opened NumPy

  // ---------------------------------------------------------------------
  // read_log

  /** A line belongs to `iface` when it has more than three whitespace
      tokens and token 3 is the interface name. */
  predicate OnInterface(line: string, iface: string) {
    var ts := Split(line);
    |ts| > 3 && ts[3] == iface
  }

  /** `read_log`: the lines of the interface, in file order. */
  function ReadLog(lines: seq<string>, iface: string): (r: seq<string>)
    ensures |r| <= |lines|
    ensures forall k :: 0 <= k < |r| ==> r[k] in lines && OnInterface(r[k], iface)
  {
    if lines == [] then []
    else (if OnInterface(lines[0], iface) then [lines[0]] else []) + ReadLog(lines[1..], iface)
  }

  /** A line is yielded exactly when it is in the log and on the interface;
      in particular a line with three tokens or fewer never is. */
  lemma {:induction false} ReadLogMembers(lines: seq<string>, iface: string, line: string)
    ensures line in ReadLog(lines, iface) <==> line in lines && OnInterface(line, iface)
  {
    if lines != [] {
      ReadLogMembers(lines[1..], iface, line);
      assert lines == [lines[0]] + lines[1..];
    }
  }

  /** Filtering keeps file order: the filter of a concatenation is the
      concatenation of the filters. */
  lemma {:induction false} ReadLogAppend(a: seq<string>, b: seq<string>, iface: string)
    ensures ReadLog(a + b, iface) == ReadLog(a, iface) + ReadLog(b, iface)
  {
    if a != [] {
      var head := if OnInterface(a[0], iface) then [a[0]] else [];
      assert (a + b)[0] == a[0] && (a + b)[1..] == a[1..] + b;
      assert ReadLog(a + b, iface) == head + ReadLog(a[1..] + b, iface);
      ReadLogAppend(a[1..], b, iface);
      assert ReadLog(a, iface) == head + ReadLog(a[1..], iface);
      var x, y := ReadLog(a[1..], iface), ReadLog(b, iface);
      assert head + (x + y) == (head + x) + y;
    } else {
      assert a + b == b;
    }
  }

  /** One line on its own is yielded exactly when it is on the interface. */
  lemma ReadLogOne(line: string, iface: string)
    ensures ReadLog([line], iface) == if OnInterface(line, iface) then [line] else []
  {
    assert [line][1..] == [];
  }

  /** The lines around a yielded line are filtered on their own: the output
      is the file's interface lines in the file's order. */
  lemma ReadLogOrder(a: seq<string>, line: string, b: seq<string>, iface: string)
    ensures ReadLog(a + [line] + b, iface)
            == ReadLog(a, iface) + (if OnInterface(line, iface) then [line] else []) + ReadLog(b, iface)
  {
    ReadLogAppend(a + [line], b, iface);
    ReadLogAppend(a, [line], iface);
    ReadLogOne(line, iface);
  }

  /** Filtering the output again by the same interface changes nothing. */
  lemma {:induction false} ReadLogIdempotent(lines: seq<string>, iface: string)
    ensures ReadLog(ReadLog(lines, iface), iface) == ReadLog(lines, iface)
  {
    if lines != [] {
      var head := if OnInterface(lines[0], iface) then [lines[0]] else [];
      ReadLogAppend(head, ReadLog(lines[1..], iface), iface);
      ReadLogOne(lines[0], iface);
      ReadLogIdempotent(lines[1..], iface);
    }
  }

  // ---------------------------------------------------------------------
  // get_laser_dimensions

  const LaserDimensionNames: seq<string> := ["lx", "ly", "la", "sx", "sy"]

  lemma LaserDimensionNamesDistinct()
    ensures forall a, b :: 0 <= a < b < |LaserDimensionNames| ==> LaserDimensionNames[a] != LaserDimensionNames[b]
  {
    var ns := LaserDimensionNames;
    assert ns[0][1] == 'x' && ns[1][1] == 'y' && ns[2][1] == 'a' && ns[3][1] == 'x' && ns[4][1] == 'y';
    assert ns[0][0] == 'l' && ns[1][0] == 'l' && ns[2][0] == 'l' && ns[3][0] == 's' && ns[4][0] == 's';
  }

  /** `{name: float(value) for name, value in zip(names, values)}` with
      Python's `float` given as a parameter: `None` where it raises
      ValueError on text that is not a number, `Some(None)` for `"nan"`. */
  function ZipFloats(names: seq<string>, values: seq<string>, float: string -> Option<Num>)
    : (r: Result<map<string, Num>>)
    requires |names| == |values|
    ensures r.Ok? <==> forall k :: 0 <= k < |values| ==> float(values[k]).Some?
    ensures r.Err? ==> r.error == ValueError
    ensures r.Ok? ==> r.value.Keys == set k | 0 <= k < |names| :: names[k]
    decreases |names|
  {
    if names == [] then Ok(map[])
    else
      var n := |names| - 1;
      var d :- ZipFloats(names[..n], values[..n], float);
      match float(values[n])
      case None => Err(ValueError)
      case Some(v) =>
        assert (set k | 0 <= k < |names| :: names[k]) == (set k | 0 <= k < n :: names[..n][k]) + {names[n]};
        Ok(d[names[n] := v])
  }

  /** With distinct names every name maps to the value of its partner. */
  lemma {:induction false} ZipFloatsValues(names: seq<string>, values: seq<string>, float: string -> Option<Num>, k: nat)
    requires |names| == |values| && k < |names|
    requires forall a, b :: 0 <= a < b < |names| ==> names[a] != names[b]
    requires ZipFloats(names, values, float).Ok?
    ensures ZipFloats(names, values, float).value[names[k]] == float(values[k]).value
    decreases |names|
  {
    var n := |names| - 1;
    if k < n {
      ZipFloatsValues(names[..n], values[..n], float, k);
    }
  }

  /** `get_laser_dimensions`: `next()` on an empty iterator raises
      StopIteration; otherwise tokens 7..11 of the first line only. */
  function GetLaserDimensions(laserLines: seq<string>, float: string -> Option<Num>): (r: Result<map<string, Num>>)
    ensures r.Err? ==> r.error == StopIteration || r.error == ValueError
    ensures r.Ok? ==> r.value.Keys <= set k | 0 <= k < |LaserDimensionNames| :: LaserDimensionNames[k]
  {
    if laserLines == [] then Err(StopIteration)
    else
      var values := Slice(Split(laserLines[0]), 7, 12);
      ZipFloats(LaserDimensionNames[..|values|], values, float)
  }

  /** The header maps `lx, ly, la, sx, sy`, in order, to the numbers in tokens
      7..11 of the first line; a shorter line gives fewer entries instead of
      an error; a token that is not a number raises ValueError; no line after
      the first is read, and without a first line `next()` raises
      StopIteration. */
  lemma GetLaserDimensionsSpec(laserLines: seq<string>, float: string -> Option<Num>)
    ensures laserLines == [] <==> GetLaserDimensions(laserLines, float) == Err(StopIteration)
    ensures laserLines != [] ==> GetLaserDimensions(laserLines, float) == GetLaserDimensions([laserLines[0]], float)
    ensures laserLines != [] ==>
      var values := Slice(Split(laserLines[0]), 7, 12);
      var d := GetLaserDimensions(laserLines, float);
      && |values| <= 5
      && (d.Ok? <==> forall k :: 0 <= k < |values| ==> float(values[k]).Some?)
      && (d.Err? ==> d.error == ValueError)
      && (d.Ok? ==> d.value.Keys == set k | 0 <= k < |values| :: LaserDimensionNames[k])
      && (d.Ok? ==> forall k :: 0 <= k < |values| ==> d.value[LaserDimensionNames[k]] == float(values[k]).value)
  {
    if laserLines != [] {
      var values := Slice(Split(laserLines[0]), 7, 12);
      var names := LaserDimensionNames[..|values|];
      assert GetLaserDimensions(laserLines, float) == ZipFloats(names, values, float);
      assert laserLines[0] == [laserLines[0]][0];
      LaserDimensionNamesDistinct();
      assert forall k :: 0 <= k < |values| ==> names[k] == LaserDimensionNames[k];
      if ZipFloats(names, values, float).Ok? {
        forall k | 0 <= k < |values|
          ensures ZipFloats(names, values, float).value[names[k]] == float(values[k]).value
        {
          ZipFloatsValues(names, values, float, k);
        }
      }
    }
  }

  // ---------------------------------------------------------------------
  // np.genfromtxt

  /** The line has every column `cols` asks for. */
  predicate RowFits(line: string, cols: seq<nat>) {
    forall j :: 0 <= j < |cols| ==> cols[j] < |Split(line)|
  }

  /** `np.genfromtxt(lines, usecols=cols)` before numpy squeezes the result:
      one row per line holding the selected whitespace-separated columns, each
      read by the conversion `float` (None, that is NaN, for text that is not
      a number); a line too short for the columns makes the whole call raise
      ValueError. */
  function GenFromText(lines: seq<string>, cols: seq<nat>, float: string -> Num): (r: Result<seq<seq<Num>>>)
    ensures r.Ok? <==> forall i :: 0 <= i < |lines| ==> RowFits(lines[i], cols)
    ensures r.Err? ==> r.error == ValueError
    ensures r.Ok? ==> |r.value| == |lines|
    ensures r.Ok? ==> forall i :: 0 <= i < |lines| ==> |r.value[i]| == |cols|
    ensures r.Ok? ==> forall i, j :: 0 <= i < |lines| && 0 <= j < |cols| ==>
      cols[j] < |Split(lines[i])| && r.value[i][j] == float(Split(lines[i])[cols[j]])
  {
    if forall i :: 0 <= i < |lines| ==> RowFits(lines[i], cols) then
      Ok(seq(|lines|, i requires 0 <= i < |lines| =>
        seq(|cols|, j requires 0 <= j < |cols| => float(Split(lines[i])[cols[j]]))))
    else Err(ValueError)
  }

  // ---------------------------------------------------------------------
  // get_laser_data

  /** `[0] + list(range(7, 735))`. */
  const LaserColumns: seq<nat> := [0] + seq(728, j => j + 7)

  /** One decoded scan: the seven metadata columns (`scan_id` and `count`
      cast to int64) and the 361 ranges and intensities. */
  datatype LaserRow = LaserRow(
    time: Num, scanId: int, minAngle: Num, maxAngle: Num, resolution: Num,
    maxRange: Num, count: int, ranges: seq<Num>, intensities: seq<Num>)

  /** `np.where(r >= max_range, np.nan, r)`. */
  function Sentinel(ranges: seq<Num>, maxRange: Num): (r: seq<Num>)
    ensures |r| == |ranges|
    ensures forall k :: 0 <= k < |r| && r[k].Some? ==> r[k] == ranges[k]
  {
    seq(|ranges|, k requires 0 <= k < |ranges| => if Ge(ranges[k], maxRange) then None else ranges[k])
  }

  /** A range at or beyond the maximum, the maximum itself included, becomes
      missing; a range strictly below it is kept; a missing range stays
      missing, and the length does not change. */
  lemma SentinelRule(ranges: seq<Num>, maxRange: Num, k: nat)
    requires k < |ranges|
    ensures |Sentinel(ranges, maxRange)| == |ranges|
    ensures ranges[k].Some? && maxRange.Some? && ranges[k].value >= maxRange.value
            ==> Sentinel(ranges, maxRange)[k].None?
    ensures ranges[k].Some? && maxRange.Some? && ranges[k].value < maxRange.value
            ==> Sentinel(ranges, maxRange)[k] == ranges[k]
    ensures ranges[k].None? ==> Sentinel(ranges, maxRange)[k].None?
    ensures maxRange.None? ==> Sentinel(ranges, maxRange)[k] == ranges[k]
  {
  }

  /** Applying the sentinel a second time changes nothing. */
  lemma SentinelIdempotent(ranges: seq<Num>, maxRange: Num)
    ensures Sentinel(Sentinel(ranges, maxRange), maxRange) == Sentinel(ranges, maxRange)
  {
  }

  /** The scan decoded from one `genfromtxt` row. */
  function LaserRowOf(row: seq<Num>, maxRange: Num): LaserRow
    requires |row| == |LaserColumns| && row[1].Some? && row[6].Some?
  {
    LaserRow(row[0], Trunc(row[1].value), row[2], row[3], row[4], row[5], Trunc(row[6].value),
             Sentinel(Strided(row, 7), maxRange), Strided(row, 8))
  }

  /** `get_laser_data`. The first laser line is discarded. With fewer than
      two rows left numpy squeezes the array to one dimension and the slice
      `[:, :7]` raises IndexError; a NaN `scan_id` or `count` cannot be cast
      to int64 (ValueError); the first row's `max_range` is the sentinel of
      every row. */
  function GetLaserData(laserLines: seq<string>, float: string -> Num): (r: Result<seq<LaserRow>>)
    ensures r.Err? ==> r.error == StopIteration || r.error == ValueError || r.error == IndexError
    ensures r.Ok? ==> |r.value| == |laserLines| - 1 >= 2
    ensures r.Ok? ==> forall i :: 0 <= i < |r.value| ==> |r.value[i].ranges| == |r.value[i].intensities| == 361
  {
    if laserLines == [] then Err(StopIteration)
    else
      var rows :- GenFromText(laserLines[1..], LaserColumns, float);
      if |rows| < 2 then Err(IndexError)
      else if exists i :: 0 <= i < |rows| && (rows[i][1].None? || rows[i][6].None?) then Err(ValueError)
      else
        var maxRange := rows[0][5];
        Ok(seq(|rows|, i requires 0 <= i < |rows| => LaserRowOf(rows[i], maxRange)))
  }

  /** Column `j` of the selection is token `j + 6` of the line, after the
      time in column 0. */
  lemma LaserColumnsLayout()
    ensures |LaserColumns| == 729 && LaserColumns[0] == 0
    ensures forall j :: 1 <= j < 729 ==> LaserColumns[j] == j + 6
  {
  }

  /** A laser line fits the selection exactly when it has 735 tokens or
      more. */
  lemma LaserRowFits(line: string)
    ensures RowFits(line, LaserColumns) <==> |Split(line)| >= 735
  {
    LaserColumnsLayout();
    assert LaserColumns[728] == 734;
  }

  /** When `get_laser_data` fails, and with which error. */
  lemma GetLaserDataErrors(laserLines: seq<string>, float: string -> Num)
    ensures laserLines == [] ==> GetLaserData(laserLines, float) == Err(StopIteration)
    ensures laserLines != [] && (exists i :: 1 <= i < |laserLines| && |Split(laserLines[i])| < 735)
            ==> GetLaserData(laserLines, float) == Err(ValueError)
    ensures 1 <= |laserLines| < 3 && (forall i :: 1 <= i < |laserLines| ==> |Split(laserLines[i])| >= 735)
            ==> GetLaserData(laserLines, float) == Err(IndexError)
    ensures GetLaserData(laserLines, float).Ok? <==>
      && |laserLines| >= 3
      && (forall i :: 1 <= i < |laserLines| ==> |Split(laserLines[i])| >= 735)
      && (forall i :: 1 <= i < |laserLines| ==>
            float(Split(laserLines[i])[7]).Some? && float(Split(laserLines[i])[12]).Some?)
  {
    assert |LaserColumns| == 729 && LaserColumns[1] == 7 && LaserColumns[6] == 12;
    if laserLines != [] {
      var body := laserLines[1..];
      forall i | 0 <= i < |body| ensures RowFits(body[i], LaserColumns) <==> |Split(body[i])| >= 735 {
        LaserRowFits(body[i]);
      }
      if (exists i :: 1 <= i < |laserLines| && |Split(laserLines[i])| < 735) {
        var i :| 1 <= i < |laserLines| && |Split(laserLines[i])| < 735;
        assert body[i - 1] == laserLines[i];
      }
      var g := GenFromText(body, LaserColumns, float);
      if g.Ok? {
        forall i | 0 <= i < |body|
          ensures g.value[i][1] == float(Split(body[i])[7]) && g.value[i][6] == float(Split(body[i])[12])
        {
        }
        if |body| >= 2 && GetLaserData(laserLines, float).Err? {
          var i :| 0 <= i < |body| && (g.value[i][1].None? || g.value[i][6].None?);
          assert laserLines[i + 1] == body[i];
        }
      }
    }
  }

  /** Each decoded scan, row `i` coming from laser line `i + 1`: time from
      token 0, `scan_id` and `count` from tokens 7 and 12 truncated to
      integers, the angles, resolution and maximum from tokens 8..11; range
      `k` from token `13 + 2k` with the sentinel of the first row's maximum
      (token 11 of line 1) applied, and intensity `k` from token `14 + 2k`,
      361 of each. */
  lemma GetLaserDataRow(laserLines: seq<string>, float: string -> Num, i: nat, k: nat)
    requires GetLaserData(laserLines, float).Ok?
    requires i < |GetLaserData(laserLines, float).value| && k < 361
    ensures |GetLaserData(laserLines, float).value| == |laserLines| - 1 >= 2
    ensures var ts := Split(laserLines[i + 1]);
      var m := float(Split(laserLines[1])[11]);
      var row := GetLaserData(laserLines, float).value[i];
      && |ts| >= 735
      && row.time == float(ts[0])
      && float(ts[7]).Some? && row.scanId == Trunc(float(ts[7]).value)
      && row.minAngle == float(ts[8]) && row.maxAngle == float(ts[9])
      && row.resolution == float(ts[10]) && row.maxRange == float(ts[11])
      && float(ts[12]).Some? && row.count == Trunc(float(ts[12]).value)
      && |row.ranges| == 361 && |row.intensities| == 361
      && row.ranges[k] == (if Ge(float(ts[13 + 2 * k]), m) then None else float(ts[13 + 2 * k]))
      && row.intensities[k] == float(ts[14 + 2 * k])
  {
    LaserColumnsLayout();
    var body := laserLines[1..];
    var rows := GenFromText(body, LaserColumns, float).value;
    assert body[i] == laserLines[i + 1] && body[0] == laserLines[1];
    assert LaserColumns[728] == 734 && |Split(body[i])| >= 735;
    assert rows[0][5] == float(Split(body[0])[11]);
    assert GetLaserData(laserLines, float).value[i] == LaserRowOf(rows[i], rows[0][5]);
    LaserRowFields(rows[i], Split(body[i]), rows[0][5], float, k);
  }

  /** The scan decoded from a row read out of the tokens `ts` of a laser
      line. */
  lemma LaserRowFields(row: seq<Num>, ts: seq<string>, maxRange: Num, float: string -> Num, k: nat)
    requires |row| == |LaserColumns| && |ts| >= 735 && k < 361
    requires forall j :: 0 <= j < |LaserColumns| ==> row[j] == float(ts[LaserColumns[j]])
    requires row[1].Some? && row[6].Some?
    ensures var r := LaserRowOf(row, maxRange);
      && r.time == float(ts[0])
      && float(ts[7]).Some? && r.scanId == Trunc(float(ts[7]).value)
      && r.minAngle == float(ts[8]) && r.maxAngle == float(ts[9])
      && r.resolution == float(ts[10]) && r.maxRange == float(ts[11])
      && float(ts[12]).Some? && r.count == Trunc(float(ts[12]).value)
      && |r.ranges| == 361 && |r.intensities| == 361
      && r.ranges[k] == (if Ge(float(ts[13 + 2 * k]), maxRange) then None else float(ts[13 + 2 * k]))
      && r.intensities[k] == float(ts[14 + 2 * k])
  {
    LaserColumnsLayout();
    assert row[7 + 2 * k] == float(ts[13 + 2 * k]);
    assert row[8 + 2 * k] == float(ts[14 + 2 * k]);
  }

  // ---------------------------------------------------------------------
  // get_position_data

  const PositionColumns: seq<nat> := [0, 7, 8, 9, 10, 11, 12]

  /** One decoded pose. */
  datatype Pose = Pose(time: Num, px: Num, py: Num, pa: Num, vx: Num, vy: Num, va: Num)

  /** `get_position_data`: the first position2d line is discarded; with fewer
      than two rows left numpy squeezes the array to one dimension and the
      DataFrame constructor rejects its shape (ValueError). */
  function GetPositionData(positionLines: seq<string>, float: string -> Num): (r: Result<seq<Pose>>)
    ensures r.Err? ==> r.error == StopIteration || r.error == ValueError
    ensures r.Ok? ==> |r.value| == |positionLines| - 1 >= 2
  {
    if positionLines == [] then Err(StopIteration)
    else
      var rows :- GenFromText(positionLines[1..], PositionColumns, float);
      if |rows| < 2 then Err(ValueError)
      else Ok(seq(|rows|, i requires 0 <= i < |rows| =>
        Pose(rows[i][0], rows[i][1], rows[i][2], rows[i][3], rows[i][4], rows[i][5], rows[i][6])))
  }

  /** Pose `i` comes from position2d line `i + 1`, in order: the time from
      token 0 and `px, py, pa, vx, vy, va` from tokens 7..12. The call
      succeeds exactly when at least two lines follow the first and each has
      13 tokens or more. */
  lemma GetPositionDataSpec(positionLines: seq<string>, float: string -> Num)
    ensures positionLines == [] ==> GetPositionData(positionLines, float) == Err(StopIteration)
    ensures GetPositionData(positionLines, float).Ok? <==>
      |positionLines| >= 3 && forall i :: 1 <= i < |positionLines| ==> |Split(positionLines[i])| >= 13
    ensures GetPositionData(positionLines, float).Err? && positionLines != [] ==>
      GetPositionData(positionLines, float).error == ValueError
    ensures GetPositionData(positionLines, float).Ok? ==>
      var poses := GetPositionData(positionLines, float).value;
      && |poses| == |positionLines| - 1
      && forall i :: 0 <= i < |poses| ==>
           var ts := Split(positionLines[i + 1]);
           poses[i] == Pose(float(ts[0]), float(ts[7]), float(ts[8]), float(ts[9]),
                            float(ts[10]), float(ts[11]), float(ts[12]))
  {
    if positionLines != [] {
      var body := positionLines[1..];
      forall i | 0 <= i < |body| ensures RowFits(body[i], PositionColumns) <==> |Split(body[i])| >= 13 {
        assert PositionColumns[6] == 12;
      }
      if !(forall i :: 1 <= i < |positionLines| ==> |Split(positionLines[i])| >= 13) {
        var i :| 1 <= i < |positionLines| && |Split(positionLines[i])| < 13;
        assert body[i - 1] == positionLines[i];
      }
      if GetPositionData(positionLines, float).Ok? {
        forall i | 0 <= i < |body| ensures body[i] == positionLines[i + 1] {
        }
      }
    }
  }

  // ---------------------------------------------------------------------
  // get_obstacle_data and polar_to_cartesian

  /** `v.repeat(n).reshape(-1, n)`: row `i` is `n` copies of `v[i]`. numpy
      cannot infer the `-1` axis when `n` is 0 (ValueError). */
  function Repeat(v: seq<Num>, n: nat): (r: Result<Grid>)
    ensures r.Ok? <==> n > 0
    ensures r.Err? ==> r.error == ValueError
    ensures r.Ok? ==> r.value.Shaped() && r.value.rows == |v| && r.value.cols == n
    ensures r.Ok? ==> forall i, k :: 0 <= i < |v| && 0 <= k < n ==> r.value.cells[i][k] == v[i]
  {
    if n == 0 then Err(ValueError)
    else Ok(Grid(|v|, n, seq(|v|, i requires 0 <= i < |v| => seq(n, k => v[i]))))
  }

  /** The row-major flattening of a 2-D array. */
  function Flatten(rows: seq<seq<Num>>): seq<Num>
    decreases |rows|
  {
    if rows == [] then [] else rows[0] + Flatten(rows[1..])
  }

  /** `n` copies of one value. */
  function Copies(x: Num, n: nat): seq<Num> {
    if n == 0 then [] else [x] + Copies(x, n - 1)
  }

  /** `v.repeat(n)`: each element `n` times in a row, in order. */
  function RepeatEach(v: seq<Num>, n: nat): seq<Num>
    decreases |v|
  {
    if v == [] then [] else Copies(v[0], n) + RepeatEach(v[1..], n)
  }

  lemma {:induction false} CopiesAre(x: Num, n: nat)
    ensures Copies(x, n) == seq(n, k => x)
  {
    if n > 0 {
      CopiesAre(x, n - 1);
      assert seq(n, k => x) == [x] + seq(n - 1, k => x);
    }
  }

  /** The rows of `Repeat(v, n)`, read in order, are `v.repeat(n)`: the
      reshape only cuts the repeated array into rows of `n`. */
  lemma {:induction false} RepeatFlattens(v: seq<Num>, n: nat)
    requires n > 0
    ensures Flatten(Repeat(v, n).value.cells) == RepeatEach(v, n)
    decreases |v|
  {
    if v != [] {
      var cells := Repeat(v, n).value.cells;
      RepeatFlattens(v[1..], n);
      CopiesAre(v[0], n);
      assert cells[0] == seq(n, k => v[0]);
      assert cells[1..] == Repeat(v[1..], n).value.cells;
    }
  }

  /** A 1-D array seen by broadcasting as a single row. */
  function AsRow(v: seq<Num>): (g: Grid)
    ensures g.Shaped() && g.rows == 1 && g.cols == |v|
  {
    Grid(1, |v|, [v])
  }

  /** `np.stack` of equal-length 1-D arrays; no arrays, or arrays of
      different lengths, raise ValueError. */
  function Stack(rows: seq<seq<Num>>): (r: Result<Grid>)
    ensures r.Ok? <==> |rows| > 0 && forall i :: 0 <= i < |rows| ==> |rows[i]| == |rows[0]|
    ensures r.Err? ==> r.error == ValueError
    ensures r.Ok? ==> r.value.Shaped() && r.value.cells == rows && r.value.cols == |rows[0]|
  {
    if |rows| > 0 && forall i :: 0 <= i < |rows| ==> |rows[i]| == |rows[0]| then
      Ok(Grid(|rows|, |rows[0]|, rows))
    else Err(ValueError)
  }

  /** An elementwise ufunc on a 2-D array. */
  function MapGrid(f: real -> real, g: Grid): (r: Grid)
    requires g.Shaped()
    ensures r.Shaped() && r.rows == g.rows && r.cols == g.cols
    ensures forall i, k :: 0 <= i < g.rows && 0 <= k < g.cols ==> r.cells[i][k] == Apply(f, g.cells[i][k])
  {
    Grid(g.rows, g.cols, seq(g.rows, i requires 0 <= i < g.rows =>
      seq(g.cols, k requires 0 <= k < g.cols => Apply(f, g.cells[i][k]))))
  }

  /** `polar_to_cartesian`: `r * cos(theta)` and `r * sin(theta)`, both
      broadcast; incompatible shapes raise ValueError. */
  function PolarToCartesian(r: Grid, theta: Grid, cos: real -> real, sin: real -> real): (xy: Result<(Grid, Grid)>)
    requires r.Shaped() && theta.Shaped()
    ensures xy.Ok? <==> BroadcastDim(r.rows, theta.rows).Some? && BroadcastDim(r.cols, theta.cols).Some?
    ensures xy.Err? ==> xy.error == ValueError
    ensures xy.Ok? ==> xy.value.0.Shaped() && xy.value.1.Shaped()
    ensures xy.Ok? ==> xy.value.0.rows == xy.value.1.rows == BroadcastDim(r.rows, theta.rows).value
    ensures xy.Ok? ==> xy.value.0.cols == xy.value.1.cols == BroadcastDim(r.cols, theta.cols).value
  {
    var x := Broadcast(r, MapGrid(cos, theta), Mul);
    var y := Broadcast(r, MapGrid(sin, theta), Mul);
    if x.Err? then Err(x.error) else Ok((x.value, y.value))
  }

  /** Point `k` of a polar pair is `r * cos(theta)`, `r * sin(theta)` of the
      elements broadcasting pairs with it. */
  lemma PolarToCartesianAt(r: Grid, theta: Grid, cos: real -> real, sin: real -> real, i: nat, k: nat)
    requires r.Shaped() && theta.Shaped()
    requires PolarToCartesian(r, theta, cos, sin).Ok?
    requires i < PolarToCartesian(r, theta, cos, sin).value.0.rows
    requires k < PolarToCartesian(r, theta, cos, sin).value.0.cols
    ensures var xy := PolarToCartesian(r, theta, cos, sin).value;
      var rv := r.cells[Pick(i, r.rows)][Pick(k, r.cols)];
      var t := theta.cells[Pick(i, theta.rows)][Pick(k, theta.cols)];
      && xy.0.cells[i][k] == Mul(rv, Apply(cos, t))
      && xy.1.cells[i][k] == Mul(rv, Apply(sin, t))
  {
    var xy := PolarToCartesian(r, theta, cos, sin).value;
    var rows := BroadcastDim(r.rows, theta.rows).value;
    var cols := BroadcastDim(r.cols, theta.cols).value;
    var ti, tk := Pick(i, theta.rows), Pick(k, theta.cols);
    assert ti < theta.rows && tk < theta.cols;
    assert xy.0 == Broadcast(r, MapGrid(cos, theta), Mul).value;
    assert xy.1 == Broadcast(r, MapGrid(sin, theta), Mul).value;
  }

  /** One row of the obstacle table: the scan time and the obstacle points. */
  datatype ObstacleRow = ObstacleRow(time: Num, obsX: seq<Num>, obsY: seq<Num>)

  /** The pose column `pa`, `px` or `py` as an array. */
  function Headings(poses: seq<Pose>): seq<Num> {
    seq(|poses|, i requires 0 <= i < |poses| => poses[i].pa)
  }

  function Xs(poses: seq<Pose>): seq<Num> {
    seq(|poses|, i requires 0 <= i < |poses| => poses[i].px)
  }

  function Ys(poses: seq<Pose>): seq<Num> {
    seq(|poses|, i requires 0 <= i < |poses| => poses[i].py)
  }

  /** The beam angles: `np.linspace` over the first scan's angle range. */
  function BeamAngles(first: LaserRow): Result<seq<Num>> {
    Linspace(first.minAngle, first.maxAngle, first.count)
  }

  /** The laser ranges as one array (`np.stack`). */
  function RangeRows(laser: seq<LaserRow>): seq<seq<Num>> {
    seq(|laser|, i requires 0 <= i < |laser| => laser[i].ranges)
  }

  /** The bearings `pa.repeat(n).reshape((-1, n)) + laser_angles`: row `i`
      column `k` is the heading of pose `i` plus beam angle `k`. Without beam
      angles the reshape raises ValueError. */
  function Bearings(poses: seq<Pose>, angles: seq<Num>): (r: Result<Grid>)
    ensures r.Ok? <==> |angles| > 0
    ensures r.Err? ==> r.error == ValueError
    ensures r.Ok? ==> r.value.Shaped() && r.value.rows == |poses| && r.value.cols == |angles|
    ensures r.Ok? ==> forall i, k :: 0 <= i < |poses| && 0 <= k < |angles| ==>
      r.value.cells[i][k] == Add(poses[i].pa, angles[k])
  {
    var pa :- Repeat(Headings(poses), |angles|);
    var b := Broadcast(pa, AsRow(angles), Add);
    assert b.Ok?;
    b
  }

  /** `v.repeat(c).reshape(-1, c) + rel` with `c` the width of `rel`: the
      pose coordinate `v[i]` added to every point of computed row `i`. */
  function Offset(v: seq<Num>, rel: Grid): (r: Result<Grid>)
    requires rel.Shaped()
    ensures r.Ok? <==> rel.cols > 0 && BroadcastDim(|v|, rel.rows).Some?
    ensures r.Err? ==> r.error == ValueError
    ensures r.Ok? ==> r.value.Shaped() && r.value.rows == BroadcastDim(|v|, rel.rows).value && r.value.cols == rel.cols
    ensures r.Ok? ==> forall i, k :: 0 <= i < r.value.rows && 0 <= k < rel.cols ==>
      r.value.cells[i][k] == Add(v[Pick(i, |v|)], rel.cells[Pick(i, rel.rows)][k])
  {
    var column :- Repeat(v, rel.cols);
    var sum := Broadcast(column, rel, Add);
    if sum.Err? then Err(ValueError)
    else
      sum
  }

  /** `zip(times, xs, ys)` into obstacle rows: as many as the shortest. */
  function ZipRows(times: seq<Num>, xs: Grid, ys: Grid): (r: seq<ObstacleRow>)
    requires xs.Shaped() && ys.Shaped()
    ensures |r| == Min3(|times|, xs.rows, ys.rows)
    ensures forall i :: 0 <= i < |r| ==> r[i] == ObstacleRow(times[i], xs.cells[i], ys.cells[i])
  {
    var n := Min3(|times|, xs.rows, ys.rows);
    seq(n, i requires 0 <= i < n => ObstacleRow(times[i], xs.cells[i], ys.cells[i]))
  }

  function Min3(a: nat, b: nat, c: nat): (m: nat)
    ensures m <= a && m <= b && m <= c && (m == a || m == b || m == c)
  {
    if a <= b && a <= c then a else if b <= c then b else c
  }

  /** The scan times. */
  function Times(laser: seq<LaserRow>): seq<Num> {
    seq(|laser|, i requires 0 <= i < |laser| => laser[i].time)
  }

  /** `get_obstacle_data`. `loc[0]` of an empty table raises KeyError; the
      output pairs each scan's time with a row of the computed points, as
      far as both go (`zip`). */
  function GetObstacleData(poses: seq<Pose>, laser: seq<LaserRow>, cos: real -> real, sin: real -> real)
    : (r: Result<seq<ObstacleRow>>)
    ensures r.Err? ==> (r.error == KeyError <==> laser == [])
    ensures r.Err? ==> r.error == KeyError || r.error == ValueError
    ensures r.Ok? ==> |r.value| <= |laser|
  {
    if laser == [] then Err(KeyError)
    else
      match RelativePoints(poses, laser, cos, sin)
      case Err(e) => Err(e)
      case Ok(rel) =>
        match Offset(Xs(poses), rel.0)
        case Err(e) => Err(e)
        case Ok(obsX) =>
          match Offset(Ys(poses), rel.1)
          case Err(e) => Err(e)
          case Ok(obsY) => Ok(ZipRows(Times(laser), obsX, obsY))
  }

  /** The first steps of `get_obstacle_data`: the beam angles of the first
      scan, the bearings, the stacked ranges, and the points relative to each
      pose from `polar_to_cartesian`. */
  function RelativePoints(poses: seq<Pose>, laser: seq<LaserRow>, cos: real -> real, sin: real -> real)
    : (r: Result<(Grid, Grid)>)
    requires laser != []
    ensures r.Err? ==> r.error == ValueError
    ensures r.Ok? ==> r.value.0.Shaped() && r.value.1.Shaped() && r.value.0.rows == r.value.1.rows
    ensures r.Ok? ==> r.value.0.cols == r.value.1.cols
  {
    var angles :- BeamAngles(laser[0]);
    var bearings :- Bearings(poses, angles);
    var ranges :- Stack(RangeRows(laser));
    PolarToCartesian(ranges, bearings, cos, sin)
  }

  /** Relative point `k` of row `i` is the range that broadcasting pairs with
      it turned by the heading of the pose plus the beam angle it pairs with. */
  lemma RelativePointAt(poses: seq<Pose>, laser: seq<LaserRow>, cos: real -> real, sin: real -> real, i: nat, k: nat)
    requires laser != [] && RelativePoints(poses, laser, cos, sin).Ok?
    requires i < RelativePoints(poses, laser, cos, sin).value.0.rows
    requires k < RelativePoints(poses, laser, cos, sin).value.0.cols
    ensures BeamAngles(laser[0]).Ok? && |BeamAngles(laser[0]).value| == laser[0].count
    ensures var angles := BeamAngles(laser[0]).value;
      var p, n, w, l := |poses|, |laser|, |laser[0].ranges|, laser[0].count;
      && Pick(i, p) < p && Pick(i, n) < n && Pick(k, w) < |laser[Pick(i, n)].ranges| && Pick(k, l) < l
      && var range := laser[Pick(i, n)].ranges[Pick(k, w)];
         var bearing := Add(poses[Pick(i, p)].pa, angles[Pick(k, l)]);
         var rel := RelativePoints(poses, laser, cos, sin).value;
         && rel.0.cells[i][k] == Mul(range, Apply(cos, bearing))
         && rel.1.cells[i][k] == Mul(range, Apply(sin, bearing))
  {
    var angles := BeamAngles(laser[0]).value;
    var bearings := Bearings(poses, angles).value;
    var ranges := Stack(RangeRows(laser)).value;
    assert RelativePoints(poses, laser, cos, sin) == PolarToCartesian(ranges, bearings, cos, sin);
    PolarToCartesianAt(ranges, bearings, cos, sin, i, k);
    assert ranges.cells == RangeRows(laser);
  }

  /** Broadcasting the pose column against the computed rows keeps their
      number of rows. */
  lemma BroadcastAbsorbs(n: nat, p: nat)
    requires BroadcastDim(n, p).Some?
    ensures BroadcastDim(p, BroadcastDim(n, p).value) == Some(BroadcastDim(n, p).value)
  {
  }

  /** When `get_obstacle_data` succeeds. With N scans of width W, P poses
      and L = `count` beam angles from the first scan: the scans must all
      have width W, there must be a beam, the scan and pose counts must
      broadcast (equal, or one of them 1), and W and L must broadcast to a
      non-empty width; any other shape raises ValueError. */
  lemma GetObstacleDataOk(poses: seq<Pose>, laser: seq<LaserRow>, cos: real -> real, sin: real -> real)
    ensures laser == [] ==> GetObstacleData(poses, laser, cos, sin) == Err(KeyError)
    ensures laser != [] ==>
      var r := GetObstacleData(poses, laser, cos, sin);
      var n, p, w, l := |laser|, |poses|, |laser[0].ranges|, laser[0].count;
      && (r.Ok? <==>
            && l >= 1 && w >= 1
            && (forall i :: 0 <= i < n ==> |laser[i].ranges| == w)
            && BroadcastDim(n, p).Some? && BroadcastDim(w, l).Some?)
      && (r.Err? ==> r.error == ValueError)
  {
    if laser != [] {
      var n, p, w, l := |laser|, |poses|, |laser[0].ranges|, laser[0].count;
      var angles := BeamAngles(laser[0]);
      var ranges := Stack(RangeRows(laser));
      assert ranges.Ok? <==> forall i :: 0 <= i < n ==> |laser[i].ranges| == w by {
        assert forall i :: 0 <= i < n ==> RangeRows(laser)[i] == laser[i].ranges;
      }
      if angles.Ok? && l >= 1 && ranges.Ok? {
        var bearings := Bearings(poses, angles.value);
        var rel := PolarToCartesian(ranges.value, bearings.value, cos, sin);
        if rel.Ok? {
          BroadcastAbsorbs(n, p);
        }
      }
    }
  }

  /** The result has one row per scan as far as the computed rows go, each
      carrying that scan's time and as many points as the broadcast width of
      the scans and the beams. */
  lemma GetObstacleDataRows(poses: seq<Pose>, laser: seq<LaserRow>, cos: real -> real, sin: real -> real)
    requires GetObstacleData(poses, laser, cos, sin).Ok?
    ensures laser != [] && BroadcastDim(|laser|, |poses|).Some?
    ensures BroadcastDim(|laser[0].ranges|, laser[0].count).Some?
    ensures var r := GetObstacleData(poses, laser, cos, sin).value;
      var n, rows := |laser|, BroadcastDim(|laser|, |poses|).value;
      && |r| == (if n < rows then n else rows)
      && forall i :: 0 <= i < |r| ==>
           && r[i].time == laser[i].time
           && |r[i].obsX| == |r[i].obsY| == BroadcastDim(|laser[0].ranges|, laser[0].count).value
  {
    GetObstacleDataOk(poses, laser, cos, sin);
    var n, p := |laser|, |poses|;
    var angles := BeamAngles(laser[0]).value;
    var bearings := Bearings(poses, angles).value;
    var ranges := Stack(RangeRows(laser)).value;
    var rel := PolarToCartesian(ranges, bearings, cos, sin).value;
    BroadcastAbsorbs(n, p);
  }

  /** Point `k` of obstacle row `i` is the pose position plus the range
      turned by the bearing: `px + r * cos(pa + angle)` and
      `py + r * sin(pa + angle)`, taking the pose, the scan, the range and
      the beam angle that broadcasting pairs with (i, k). A missing range,
      or a missing coordinate, gives a missing point. */
  lemma GetObstacleDataPoint(poses: seq<Pose>, laser: seq<LaserRow>, cos: real -> real, sin: real -> real, i: nat, k: nat)
    requires GetObstacleData(poses, laser, cos, sin).Ok?
    requires i < |GetObstacleData(poses, laser, cos, sin).value|
    requires k < |GetObstacleData(poses, laser, cos, sin).value[i].obsX|
    ensures laser != [] && BeamAngles(laser[0]).Ok? && |BeamAngles(laser[0]).value| == laser[0].count
    ensures var angles := BeamAngles(laser[0]).value;
      var p, n, w, l := |poses|, |laser|, |laser[0].ranges|, laser[0].count;
      && Pick(i, p) < p && Pick(i, n) < n && Pick(k, w) < |laser[Pick(i, n)].ranges| && Pick(k, l) < l
      && var pose := poses[Pick(i, p)];
         var range := laser[Pick(i, n)].ranges[Pick(k, w)];
         var bearing := Add(pose.pa, angles[Pick(k, l)]);
         var row := GetObstacleData(poses, laser, cos, sin).value[i];
         && k < |row.obsY|
         && row.obsX[k] == Add(pose.px, Mul(range, Apply(cos, bearing)))
         && row.obsY[k] == Add(pose.py, Mul(range, Apply(sin, bearing)))
  {
    var rel := RelativePoints(poses, laser, cos, sin).value;
    var obsX := Offset(Xs(poses), rel.0).value;
    var obsY := Offset(Ys(poses), rel.1).value;
    assert GetObstacleData(poses, laser, cos, sin).value == ZipRows(Times(laser), obsX, obsY);
    assert i < obsX.rows && obsX.rows <= rel.0.rows;
    assert Pick(i, rel.0.rows) == i;
    RelativePointAt(poses, laser, cos, sin, i, k);
  }

  /** The shape a well-formed log gives: as many poses as scans, 361 ranges
      in every scan and a `count` of 361. Then there is one obstacle row per
      scan, carrying its time and 361 points. */
  lemma GetObstacleDataAligned(poses: seq<Pose>, laser: seq<LaserRow>, cos: real -> real, sin: real -> real)
    requires |laser| == |poses| > 0
    requires laser[0].count == 361 && forall j :: 0 <= j < |laser| ==> |laser[j].ranges| == 361
    ensures GetObstacleData(poses, laser, cos, sin).Ok?
    ensures |GetObstacleData(poses, laser, cos, sin).value| == |laser|
    ensures forall i :: 0 <= i < |laser| ==>
      var row := GetObstacleData(poses, laser, cos, sin).value[i];
      row.time == laser[i].time && |row.obsX| == 361 && |row.obsY| == 361
  {
    GetObstacleDataOk(poses, laser, cos, sin);
    GetObstacleDataRows(poses, laser, cos, sin);
  }

  /** In that shape, point `k` of row `i` is pose `i`'s position plus range
      `k` of scan `i` turned by the bearing `pa + min + k * (max - min) / 360`,
      with the angles of the first scan; a missing range gives a missing
      point. */
  lemma GetObstacleDataBearing(poses: seq<Pose>, laser: seq<LaserRow>, cos: real -> real, sin: real -> real, i: nat, k: nat)
    requires |laser| == |poses| && i < |laser| && k < 361
    requires laser[0].count == 361 && forall j :: 0 <= j < |laser| ==> |laser[j].ranges| == 361
    requires laser[0].minAngle.Some? && laser[0].maxAngle.Some?
    ensures GetObstacleData(poses, laser, cos, sin).Ok?
    ensures i < |GetObstacleData(poses, laser, cos, sin).value|
    ensures var row := GetObstacleData(poses, laser, cos, sin).value[i];
      var lo, hi := laser[0].minAngle.value, laser[0].maxAngle.value;
      var range := laser[i].ranges[k];
      var bearing := Add(poses[i].pa, Some(EvenAngle(lo, hi, 361, k)));
      && k < |row.obsX| && k < |row.obsY|
      && row.obsX[k] == Add(poses[i].px, Mul(range, Apply(cos, bearing)))
      && row.obsY[k] == Add(poses[i].py, Mul(range, Apply(sin, bearing)))
      && (range.None? ==> row.obsX[k].None? && row.obsY[k].None?)
  {
    GetObstacleDataAligned(poses, laser, cos, sin);
    GetObstacleDataPoint(poses, laser, cos, sin, i, k);
    BeamAngleAt(laser[0], k);
    assert Pick(i, |poses|) == i && Pick(i, |laser|) == i && Pick(k, 361) == k;
  }

  /** Beam angle `k` of 361 is `min + k * (max - min) / 360`. */
  lemma BeamAngleAt(first: LaserRow, k: nat)
    requires first.count == 361 && k < 361
    requires first.minAngle.Some? && first.maxAngle.Some?
    ensures BeamAngles(first).Ok? && |BeamAngles(first).value| == 361
    ensures var lo, hi := first.minAngle.value, first.maxAngle.value;
      BeamAngles(first).value[k] == Some(EvenAngle(lo, hi, 361, k))
  {
    var lo, hi := first.minAngle.value, first.maxAngle.value;
    LinspaceFormula(lo, hi, 361, k);
    assert first.minAngle == Some(lo) && first.maxAngle == Some(hi);
    var a := BeamAngles(first).value[k];
    assert a == Linspace(Some(lo), Some(hi), 361).value[k];
    assert a.Some? && a.value == EvenAngle(lo, hi, 361, k);
    assert a == Some(a.value);
  }

  /** With a `count` of 1 `np.linspace` gives the single angle `min`, and
      every point of a scan is computed with the bearing `pa + min`. */
  lemma GetObstacleDataOneBeam(poses: seq<Pose>, laser: seq<LaserRow>, cos: real -> real, sin: real -> real, i: nat, k: nat)
    requires |laser| == |poses| && i < |laser| && k < 361
    requires laser[0].count == 1 && forall j :: 0 <= j < |laser| ==> |laser[j].ranges| == 361
    requires laser[0].minAngle.Some? && laser[0].maxAngle.Some?
    ensures GetObstacleData(poses, laser, cos, sin).Ok?
    ensures var row := GetObstacleData(poses, laser, cos, sin).value[i];
      var bearing := Add(poses[i].pa, laser[0].minAngle);
      && |row.obsX| == 361
      && row.obsX[k] == Add(poses[i].px, Mul(laser[i].ranges[k], Apply(cos, bearing)))
      && row.obsY[k] == Add(poses[i].py, Mul(laser[i].ranges[k], Apply(sin, bearing)))
  {
    GetObstacleDataOk(poses, laser, cos, sin);
    GetObstacleDataRows(poses, laser, cos, sin);
    GetObstacleDataPoint(poses, laser, cos, sin, i, k);
    LinspaceFormula(laser[0].minAngle.value, laser[0].maxAngle.value, 1, 0);
    assert laser[0].minAngle == Some(laser[0].minAngle.value);
  }
}
