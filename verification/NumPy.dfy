/** The numpy and pandas semantics the decoders rely on: float64 values with
    NaN, `np.linspace`, broadcasting of elementwise operations, and the
    truncating cast to an integer. Values are exact reals: binary rounding and
    infinities are not modelled. */
module NumPy {
  import opened Wrappers

  /** A float64 value; None stands for NaN. */
  type Num = Option<real>

  function Add(a: Num, b: Num): (r: Num)
    ensures r.Some? <==> a.Some? && b.Some?
  {
    if a.Some? && b.Some? then Some(a.value + b.value) else None
  }

  function Sub(a: Num, b: Num): (r: Num)
    ensures r.Some? <==> a.Some? && b.Some?
  {
    if a.Some? && b.Some? then Some(a.value - b.value) else None
  }

  function Mul(a: Num, b: Num): (r: Num)
    ensures r.Some? <==> a.Some? && b.Some?
  {
    if a.Some? && b.Some? then Some(a.value * b.value) else None
  }

  /** An elementwise ufunc such as `np.cos`: NaN in, NaN out. */
  function Apply(f: real -> real, a: Num): (r: Num)
    ensures r.Some? <==> a.Some?
  {
    if a.Some? then Some(f(a.value)) else None
  }

  /** `a >= b`; every comparison with NaN is false. */
  predicate Ge(a: Num, b: Num) {
    a.Some? && b.Some? && a.value >= b.value
  }

  /** `int(x)` of a float, and the cast of a float column to int64:
      truncation toward zero (64-bit overflow is not modelled). */
  function Trunc(x: real): (n: int)
    ensures 0.0 <= x ==> n as real <= x < n as real + 1.0
    ensures x < 0.0 ==> n as real - 1.0 < x <= n as real
  {
    if x >= 0.0 then x.Floor else -((-x).Floor)
  }

  /** `np.linspace(start, stop, num)`: `num` values from `start` to `stop`
      inclusive, computed as numpy does: `k * step + start` with
      `step = (stop - start) / (num - 1)`, the last value overwritten by
      `stop`; for `num == 1` the single value is `0 * (stop - start) + start`.
      A negative `num` raises ValueError. */
  function Linspace(start: Num, stop: Num, num: int): (r: Result<seq<Num>>)
    ensures r.Err? <==> num < 0
    ensures r.Err? ==> r.error == ValueError
    ensures r.Ok? ==> |r.value| == num
  {
    if num < 0 then Err(ValueError)
    else if num == 0 then Ok([])
    else if num == 1 then Ok([Add(Mul(Some(0.0), Sub(stop, start)), start)])
    else
      var delta := Sub(stop, start);
      var step := if delta.Some? then Some(delta.value / (num - 1) as real) else None;
      Ok(seq(num, k => if k == num - 1 then stop else Add(Mul(Some(k as real), step), start)))
  }

  /** For finite ends the values are exactly evenly spaced:
      value `k` is `start + k * (stop - start) / (num - 1)`, the last one is
      `stop` itself, and a single value is `start`. */
  lemma LinspaceFormula(start: real, stop: real, num: int, k: nat)
    requires 1 <= num && k < num
    ensures Linspace(Some(start), Some(stop), num).Ok?
    ensures Linspace(Some(start), Some(stop), num).value[k] == Some(EvenAngle(start, stop, num, k))
  {
    var r := Linspace(Some(start), Some(stop), num).value;
    assert EvenAngle(start, stop, num, k) == start + k as real * LinspaceStep(start, stop, num);
    if num > 1 {
      var d := stop - start;
      var n := (num - 1) as real;
      assert LinspaceStep(start, stop, num) == d / n;
      if k == num - 1 {
        assert k as real == n;
        assert n * (d / n) == d;
        assert start + k as real * LinspaceStep(start, stop, num) == stop;
        assert r[k] == Some(stop);
      } else {
        assert r[k] == Add(Mul(Some(k as real), Some(d / n)), Some(start));
        var m := Mul(Some(k as real), Some(d / n));
        assert m.Some? && m.value == k as real * (d / n);
        var a := Add(m, Some(start));
        assert a.Some? && a.value == k as real * (d / n) + start;
        assert a.value == start + k as real * LinspaceStep(start, stop, num);
        assert r[k] == a;
        assert a == Some(a.value);
      }
    }
  }

  /** The spacing of `np.linspace` for finite ends (0 for a single value). */
  function LinspaceStep(start: real, stop: real, num: int): real {
    if num <= 1 then 0.0 else (stop - start) / (num - 1) as real
  }

  /** Angle `k` of `count` evenly spaced ones from `lo` to `hi`. */
  function EvenAngle(lo: real, hi: real, count: int, k: nat): real {
    lo + k as real * LinspaceStep(lo, hi, count)
  }

  /** The size of an axis after broadcasting two axes: equal sizes, or one of
      them is 1; anything else raises ValueError. */
  function BroadcastDim(a: nat, b: nat): (r: Option<nat>)
    ensures r.Some? <==> a == b || a == 1 || b == 1
    ensures r.Some? ==> (a == 1 || a == r.value) && (b == 1 || b == r.value)
  {
    if a == b then Some(a) else if a == 1 then Some(b) else if b == 1 then Some(a) else None
  }

  /** The element of an axis of size `dim` that broadcasting reads at index `i`. */
  function Pick(i: nat, dim: nat): nat {
    if dim == 1 then 0 else i
  }

  /** A two-dimensional float array; `cols` is kept apart from `cells` so that
      an array with no rows still has a width. */
  datatype Grid = Grid(rows: nat, cols: nat, cells: seq<seq<Num>>) {
    predicate Shaped() {
      |cells| == rows && forall i :: 0 <= i < rows ==> |cells[i]| == cols
    }
  }

  /** An elementwise binary operation on two 2-D arrays with broadcasting. */
  function Broadcast(a: Grid, b: Grid, op: (Num, Num) -> Num): (r: Result<Grid>)
    requires a.Shaped() && b.Shaped()
    ensures r.Ok? <==> BroadcastDim(a.rows, b.rows).Some? && BroadcastDim(a.cols, b.cols).Some?
    ensures r.Err? ==> r.error == ValueError
    ensures r.Ok? ==> r.value.Shaped()
    ensures r.Ok? ==> r.value.rows == BroadcastDim(a.rows, b.rows).value
    ensures r.Ok? ==> r.value.cols == BroadcastDim(a.cols, b.cols).value
    ensures r.Ok? ==> forall i, k :: 0 <= i < r.value.rows && 0 <= k < r.value.cols ==>
      r.value.cells[i][k] == op(a.cells[Pick(i, a.rows)][Pick(k, a.cols)], b.cells[Pick(i, b.rows)][Pick(k, b.cols)])
  {
    var rows, cols := BroadcastDim(a.rows, b.rows), BroadcastDim(a.cols, b.cols);
    if rows.None? || cols.None? then Err(ValueError)
    else
      var m, n := rows.value, cols.value;
      Ok(Grid(m, n, seq(m, i requires 0 <= i < m =>
        seq(n, k requires 0 <= k < n =>
          op(a.cells[Pick(i, a.rows)][Pick(k, a.cols)], b.cells[Pick(i, b.rows)][Pick(k, b.cols)])))))
  }

  /** An elementwise binary operation on two 1-D arrays with broadcasting. */
  function Broadcast1(a: seq<Num>, b: seq<Num>, op: (Num, Num) -> Num): (r: Result<seq<Num>>)
    ensures r.Ok? <==> BroadcastDim(|a|, |b|).Some?
    ensures r.Err? ==> r.error == ValueError
    ensures r.Ok? ==> |r.value| == BroadcastDim(|a|, |b|).value
    ensures r.Ok? ==> forall k :: 0 <= k < |r.value| ==> r.value[k] == op(a[Pick(k, |a|)], b[Pick(k, |b|)])
  {
    match BroadcastDim(|a|, |b|)
    case None => Err(ValueError)
    case Some(n) => Ok(seq(n, k requires 0 <= k < n => op(a[Pick(k, |a|)], b[Pick(k, |b|)])))
  }

  /** `row[start::2]`. */
  function Strided<T>(row: seq<T>, start: nat): (r: seq<T>)
    requires start <= |row|
    ensures |r| == (|row| - start + 1) / 2
    ensures forall k :: 0 <= k < |r| ==> r[k] == row[start + 2 * k]
  {
    seq((|row| - start + 1) / 2, k requires 0 <= k < (|row| - start + 1) / 2 => row[start + 2 * k])
  }

  /** `np.broadcast_to` along the rows: a single row repeated `m` times; an
      array that already has `m` rows is left alone. */
  function StretchRows(g: Grid, m: nat): (r: Grid)
    requires g.Shaped() && (g.rows == 1 || g.rows == m)
    ensures r.Shaped() && r.rows == m && r.cols == g.cols
  {
    if g.rows == m then g else Grid(m, g.cols, seq(m, i => g.cells[0]))
  }

  /** `np.broadcast_to` along the columns: a single column repeated `n`
      times in every row. */
  function StretchCols(g: Grid, n: nat): (r: Grid)
    requires g.Shaped() && (g.cols == 1 || g.cols == n)
    ensures r.Shaped() && r.rows == g.rows && r.cols == n
  {
    if g.cols == n then g
    else Grid(g.rows, n, seq(g.rows, i requires 0 <= i < g.rows => seq(n, k => g.cells[i][0])))
  }

  /** An operation applied cell by cell to two arrays of one shape. */
  function Cellwise(a: Grid, b: Grid, op: (Num, Num) -> Num): (r: Grid)
    requires a.Shaped() && b.Shaped() && a.rows == b.rows && a.cols == b.cols
    ensures r.Shaped() && r.rows == a.rows && r.cols == a.cols
  {
    Grid(a.rows, a.cols, seq(a.rows, i requires 0 <= i < a.rows =>
      seq(a.cols, k requires 0 <= k < a.cols => op(a.cells[i][k], b.cells[i][k]))))
  }

  /** Broadcasting is stretching both operands to the common shape, first
      along the rows and then along the columns, and then applying the
      operation cell by cell. */
  lemma BroadcastStretches(a: Grid, b: Grid, op: (Num, Num) -> Num)
    requires a.Shaped() && b.Shaped()
    requires BroadcastDim(a.rows, b.rows).Some? && BroadcastDim(a.cols, b.cols).Some?
    ensures var m, n := BroadcastDim(a.rows, b.rows).value, BroadcastDim(a.cols, b.cols).value;
      Broadcast(a, b, op) == Ok(Cellwise(StretchCols(StretchRows(a, m), n), StretchCols(StretchRows(b, m), n), op))
  {
    var m, n := BroadcastDim(a.rows, b.rows).value, BroadcastDim(a.cols, b.cols).value;
    var sa, sb := StretchCols(StretchRows(a, m), n), StretchCols(StretchRows(b, m), n);
    var r, c := Broadcast(a, b, op).value, Cellwise(sa, sb, op);
    assert r.cells == c.cells by {
      forall i | 0 <= i < m ensures r.cells[i] == c.cells[i] {
        forall k | 0 <= k < n ensures r.cells[i][k] == c.cells[i][k] {
          StretchedCell(a, m, n, i, k);
          StretchedCell(b, m, n, i, k);
        }
      }
    }
  }

  /** Cell `(i, k)` of an array stretched to `m` by `n` is the cell it was
      stretched from. */
  lemma StretchedCell(g: Grid, m: nat, n: nat, i: nat, k: nat)
    requires g.Shaped() && (g.rows == 1 || g.rows == m) && (g.cols == 1 || g.cols == n) && i < m && k < n
    ensures StretchCols(StretchRows(g, m), n).cells[i][k] == g.cells[Pick(i, g.rows)][Pick(k, g.cols)]
  {
    assert StretchRows(g, m).cells[i] == g.cells[Pick(i, g.rows)];
  }

  /** `np.broadcast_to` for a 1-D array: a single element repeated `n` times. */
  function Stretch1(v: seq<Num>, n: nat): (r: seq<Num>)
    requires |v| == 1 || |v| == n
    ensures |r| == n
  {
    if |v| == n then v else seq(n, k => v[0])
  }

  /** 1-D broadcasting is stretching both operands to the common length and
      applying the operation element by element. */
  lemma Broadcast1Stretches(a: seq<Num>, b: seq<Num>, op: (Num, Num) -> Num)
    requires BroadcastDim(|a|, |b|).Some?
    ensures var n := BroadcastDim(|a|, |b|).value;
      var sa, sb := Stretch1(a, n), Stretch1(b, n);
      Broadcast1(a, b, op) == Ok(seq(n, k requires 0 <= k < n => op(sa[k], sb[k])))
  {
    var n := BroadcastDim(|a|, |b|).value;
    var sa, sb := Stretch1(a, n), Stretch1(b, n);
    var r, c := Broadcast1(a, b, op).value, seq(n, k requires 0 <= k < n => op(sa[k], sb[k]));
    forall k | 0 <= k < n ensures r[k] == c[k] {
      assert sa[k] == a[Pick(k, |a|)] && sb[k] == b[Pick(k, |b|)];
    }
    assert r == c;
  }

  /** Every other element, from the first on. */
  function EveryOther<T>(s: seq<T>): seq<T>
    decreases |s|
  {
    if |s| <= 1 then s else [s[0]] + EveryOther(s[2..])
  }

  /** `row[start::2]` drops the first `start` elements and then keeps every
      other one. */
  lemma {:induction false} StridedEveryOther<T>(row: seq<T>, start: nat)
    requires start <= |row|
    ensures Strided(row, start) == EveryOther(row[start..])
    decreases |row| - start
  {
    var s := row[start..];
    if |s| > 1 {
      StridedEveryOther(row, start + 2);
      assert s[2..] == row[start + 2..];
      assert Strided(row, start) == [row[start]] + Strided(row, start + 2);
    }
  }
}
