/** extract_path_scans.py: a log file read through one shared cursor. A
    forward search for the next line that contains a token advances the
    cursor past the line it returns. The extractor reads the laser
    configuration, then alternates "next position2d line" and "next laser
    line" searches, decoding each line's numbers with the number lexer, and
    finally turns every matched scan and pose in place from (r, theta) to
    (r cos theta, r sin theta). */
module PathScans {
  import opened Wrappers
  import opened Text
  import opened NumberRegex
  import opened NumPy

  const RangerName: string := "laser"
  const PositionName: string := "position2d"

  // ---------------------------------------------------------------------
  // The shared cursor

  /** A line a search returned: where it is, the line, and the index of the
      token's first occurrence in it. */
  datatype Hit = Hit(index: nat, line: string, pos: nat)

  /** The first line at or after `from` that contains `token`. */
  function NextHit(lines: seq<string>, from: nat, token: string): (h: Option<Hit>)
    requires from <= |lines|
    ensures h.Some? ==> from <= h.value.index < |lines| && h.value.line == lines[h.value.index]
    decreases |lines| - from
  {
    if from == |lines| then None
    else match Find(lines[from], token)
      case Some(p) => Some(Hit(from, lines[from], p))
      case None => NextHit(lines, from + 1, token)
  }

  /** The line found is the first one at or after `from` that contains the
      token, and `pos` is the token's first occurrence in it; every line
      skipped does not contain the token; nothing is found only when no line
      from `from` on contains it. */
  lemma {:induction false} NextHitIsFirst(lines: seq<string>, from: nat, token: string)
    requires from <= |lines|
    ensures var h := NextHit(lines, from, token);
      && (h.Some? ==> Find(h.value.line, token) == Some(h.value.pos))
      && (h.Some? ==> forall j :: from <= j < h.value.index ==> !Contains(lines[j], token))
      && (h.None? ==> forall j :: from <= j < |lines| ==> !Contains(lines[j], token))
    decreases |lines| - from
  {
    if from < |lines| && Find(lines[from], token).None? {
      NextHitIsFirst(lines, from + 1, token);
    }
  }

  /** Conversely, a line that contains the token, with no such line between
      `from` and it, is the line found. */
  lemma {:induction false} NextHitFinds(lines: seq<string>, from: nat, i: nat, token: string)
    requires from <= i < |lines| && Contains(lines[i], token)
    requires forall j :: from <= j < i ==> !Contains(lines[j], token)
    ensures NextHit(lines, from, token).Some? && NextHit(lines, from, token).value.index == i
    decreases i - from
  {
    if from < i {
      NextHitFinds(lines, from + 1, i, token);
    }
  }

  /** Where the cursor stands after a search: just past the line found, or
      at the end of the file. */
  function After(lines: seq<string>, h: Option<Hit>): (c: nat)
    requires h.Some? ==> h.value.index < |lines|
    ensures c <= |lines|
  {
    match h
    case Some(hit) => hit.index + 1
    case None => |lines|
  }

  /** An open log file: its lines and the position of the next unread line. */
  class LogFile {
    const lines: seq<string>
    var cursor: nat

    constructor(lines: seq<string>)
      ensures this.lines == lines && cursor == 0
    {
      this.lines := lines;
      cursor := 0;
    }

    /** `NextTokenLine`: reads lines until one contains `token` and returns
        it with the index of the token's first occurrence, or nothing once
        the file is exhausted. The cursor ends just past the returned line,
        or at the end. */
    method NextTokenLine(token: string) returns (found: Option<(string, nat)>)
      requires cursor <= |lines|
      modifies this
      ensures cursor == After(lines, NextHit(lines, old(cursor), token))
      ensures found == match NextHit(lines, old(cursor), token)
                       case None => None
                       case Some(h) => Some((h.line, h.pos))
    {
      while cursor < |lines|
        invariant old(cursor) <= cursor <= |lines|
        invariant NextHit(lines, old(cursor), token) == NextHit(lines, cursor, token)
        decreases |lines| - cursor
      {
        var line := lines[cursor];
        cursor := cursor + 1;
        var pos := Find(line, token);
        if pos.Some? {
          return Some((line, pos.value));
        }
      }
      return None;
    }
  }

  /** A search reads nothing before `from`: files that agree from there on
      give the same answer. */
  lemma {:induction false} NextHitReadsSuffix(a: seq<string>, b: seq<string>, from: nat, token: string)
    requires from <= |a| == |b|
    requires forall j :: from <= j < |a| ==> a[j] == b[j]
    ensures NextHit(a, from, token) == NextHit(b, from, token)
    decreases |a| - from
  {
    if from < |a| {
      NextHitReadsSuffix(a, b, from + 1, token);
    }
  }

  // ---------------------------------------------------------------------
  // The alternating search

  /** One turn of the loop: a position2d line and, if one follows, the next
      laser line after it. */
  datatype Sample = Sample(pose: Hit, scan: Option<Hit>)

  /** The lines the loop consumes from `from` on: it searches a position2d
      line, then a laser line after it, and starts over after that laser
      line; it stops when either search fails. */
  function Samples(lines: seq<string>, from: nat): (ss: seq<Sample>)
    requires from <= |lines|
    ensures |ss| <= |lines| - from
    decreases |lines| - from
  {
    match NextHit(lines, from, PositionName)
    case None => []
    case Some(p) =>
      match NextHit(lines, p.index + 1, RangerName)
      case None => [Sample(p, None)]
      case Some(s) => [Sample(p, Some(s))] + Samples(lines, s.index + 1)
  }

  /** Turn `j` of the loop: its pose line is a position2d line, the first
      one at or after `from` for the first turn; its scan line, present on
      every turn but the last, is the first laser line after its pose line. */
  lemma SampleAt(lines: seq<string>, from: nat, j: nat)
    requires from <= |lines| && j < |Samples(lines, from)|
    ensures var ss := Samples(lines, from); var s := ss[j];
      && from <= s.pose.index < |lines|
      && s.pose.line == lines[s.pose.index]
      && Find(s.pose.line, PositionName) == Some(s.pose.pos)
      && (j == 0 ==> forall m :: from <= m < s.pose.index ==> !Contains(lines[m], PositionName))
      && (j < |ss| - 1 ==> s.scan.Some?)
      && (s.scan.Some? ==>
            && s.pose.index < s.scan.value.index < |lines|
            && s.scan.value.line == lines[s.scan.value.index]
            && Find(s.scan.value.line, RangerName) == Some(s.scan.value.pos)
            && (forall m :: s.pose.index < m < s.scan.value.index ==> !Contains(lines[m], RangerName)))
  {
    SamplePoseAt(lines, from, j);
    SampleScanAt(lines, from, j);
  }

  /** The pose line of turn `j`, here `t`. */
  lemma {:induction false} SamplePoseOf(lines: seq<string>, from: nat, j: nat, t: Sample)
    requires from <= |lines| && j < |Samples(lines, from)| && t == Samples(lines, from)[j]
    ensures && from <= t.pose.index < |lines|
            && t.pose.line == lines[t.pose.index]
            && Find(t.pose.line, PositionName) == Some(t.pose.pos)
            && (j == 0 ==> forall m :: from <= m < t.pose.index ==> !Contains(lines[m], PositionName))
    decreases |lines| - from
  {
    var p := NextHit(lines, from, PositionName).value;
    if j == 0 {
      SamplesHead(lines, from, p);
      NextHitIsFirst(lines, from, PositionName);
    } else {
      var s := NextHit(lines, p.index + 1, RangerName).value;
      SamplesTurn(lines, from, p, s);
      assert t == Samples(lines, s.index + 1)[j - 1];
      SamplePoseOf(lines, s.index + 1, j - 1, t);
    }
  }

  /** The pose line of turn `j`. */
  lemma SamplePoseAt(lines: seq<string>, from: nat, j: nat)
    requires from <= |lines| && j < |Samples(lines, from)|
    ensures var s := Samples(lines, from)[j];
      && from <= s.pose.index < |lines|
      && s.pose.line == lines[s.pose.index]
      && Find(s.pose.line, PositionName) == Some(s.pose.pos)
      && (j == 0 ==> forall m :: from <= m < s.pose.index ==> !Contains(lines[m], PositionName))
  {
    SamplePoseOf(lines, from, j, Samples(lines, from)[j]);
  }

  /** The scan line of a turn, when it has one, is the first laser line
      after its pose line. */
  predicate ScanFollows(lines: seq<string>, t: Sample) {
    t.scan.Some? ==>
      && t.pose.index < t.scan.value.index < |lines|
      && t.scan.value.line == lines[t.scan.value.index]
      && Find(t.scan.value.line, RangerName) == Some(t.scan.value.pos)
      && (forall m :: t.pose.index < m < t.scan.value.index ==> !Contains(lines[m], RangerName))
  }

  /** The laser line found after a pose line follows it. */
  lemma FoundScanFollows(lines: seq<string>, p: Hit, s: Hit)
    requires p.index < |lines| && NextHit(lines, p.index + 1, RangerName) == Some(s)
    ensures ScanFollows(lines, Sample(p, Some(s)))
  {
    NextHitIsFirst(lines, p.index + 1, RangerName);
  }

  /** The scan line of turn `j`, here `t`, of the `n` turns from `from`. */
  lemma {:induction false} SampleScanOf(lines: seq<string>, from: nat, j: nat, t: Sample, n: nat)
    requires from <= |lines| && n == |Samples(lines, from)| && j < n && t == Samples(lines, from)[j]
    ensures (j < n - 1 ==> t.scan.Some?) && ScanFollows(lines, t)
    decreases |lines| - from
  {
    var p := NextHit(lines, from, PositionName).value;
    match NextHit(lines, p.index + 1, RangerName)
    case None =>
      SamplesLast(lines, from, p);
    case Some(s) =>
      SamplesTurn(lines, from, p, s);
      if j > 0 {
        assert t == Samples(lines, s.index + 1)[j - 1] && |Samples(lines, s.index + 1)| == n - 1;
        SampleScanOf(lines, s.index + 1, j - 1, t, n - 1);
      } else {
        FoundScanFollows(lines, p, s);
      }
  }

  /** The scan line of turn `j`. */
  lemma SampleScanAt(lines: seq<string>, from: nat, j: nat)
    requires from <= |lines| && j < |Samples(lines, from)|
    ensures var ss := Samples(lines, from); var s := ss[j];
      && (j < |ss| - 1 ==> s.scan.Some?)
      && (s.scan.Some? ==>
            && s.pose.index < s.scan.value.index < |lines|
            && s.scan.value.line == lines[s.scan.value.index]
            && Find(s.scan.value.line, RangerName) == Some(s.scan.value.pos)
            && (forall m :: s.pose.index < m < s.scan.value.index ==> !Contains(lines[m], RangerName)))
  {
    SampleScanOf(lines, from, j, Samples(lines, from)[j], |Samples(lines, from)|);
  }

  /** Turn `u` follows turn `t`: `t` has a scan line, and the pose line of
      `u` is the first position2d line after it. */
  predicate PoseFollows(lines: seq<string>, t: Sample, u: Sample) {
    && t.scan.Some?
    && t.scan.value.index < u.pose.index < |lines|
    && (forall m :: t.scan.value.index < m < u.pose.index ==> !Contains(lines[m], PositionName))
  }

  /** The position2d line found after a scan line follows it. */
  lemma FoundPoseFollows(lines: seq<string>, p: Hit, s: Hit, u: Sample)
    requires s.index < |lines| && NextHit(lines, s.index + 1, PositionName) == Some(u.pose)
    ensures PoseFollows(lines, Sample(p, Some(s)), u)
  {
    NextHitIsFirst(lines, s.index + 1, PositionName);
  }

  /** Between turns `j` and `j + 1`, here `t` and `u`. */
  lemma {:induction false} SampleGapOf(lines: seq<string>, from: nat, j: nat, t: Sample, u: Sample)
    requires from <= |lines| && j + 1 < |Samples(lines, from)|
    requires t == Samples(lines, from)[j] && u == Samples(lines, from)[j + 1]
    ensures PoseFollows(lines, t, u)
    decreases |lines| - from
  {
    var p := NextHit(lines, from, PositionName).value;
    var s := NextHit(lines, p.index + 1, RangerName).value;
    SamplesTurn(lines, from, p, s);
    var rest := Samples(lines, s.index + 1);
    assert t == ([Sample(p, Some(s))] + rest)[j] && u == rest[j];
    if j == 0 {
      SamplesHead(lines, s.index + 1, NextHit(lines, s.index + 1, PositionName).value);
      FoundPoseFollows(lines, p, s, u);
    } else {
      assert t == rest[j - 1];
      SampleGapOf(lines, s.index + 1, j - 1, t, u);
    }
  }

  /** Between turns: the pose line of turn `j + 1` is the first position2d
      line after the scan line of turn `j`. */
  lemma SampleGap(lines: seq<string>, from: nat, j: nat)
    requires from <= |lines| && j + 1 < |Samples(lines, from)|
    ensures var ss := Samples(lines, from);
      && ss[j].scan.Some?
      && ss[j].scan.value.index < ss[j + 1].pose.index < |lines|
      && (forall m :: ss[j].scan.value.index < m < ss[j + 1].pose.index ==> !Contains(lines[m], PositionName))
  {
    SampleGapOf(lines, from, j, Samples(lines, from)[j], Samples(lines, from)[j + 1]);
  }

  /** Pose lines of later turns come later in the file, after the scan lines
      of earlier turns. */
  lemma {:induction false} PoseIndicesIncrease(lines: seq<string>, from: nat, a: nat, b: nat)
    requires from <= |lines| && a <= b < |Samples(lines, from)|
    ensures var ss := Samples(lines, from);
      && ss[a].pose.index <= ss[b].pose.index
      && (a < b ==> ss[a].scan.Some? && ss[a].scan.value.index < ss[b].pose.index)
    decreases b - a
  {
    if a < b {
      SampleAt(lines, from, a);
      SampleGap(lines, from, a);
      PoseIndicesIncrease(lines, from, a + 1, b);
    }
  }

  /** A position2d line between a pose line and its scan line is skipped:
      it is the pose line of no turn. */
  lemma SkippedPoseLine(lines: seq<string>, from: nat, j: nat, m: nat)
    requires from <= |lines| && j < |Samples(lines, from)|
    requires Samples(lines, from)[j].scan.Some?
    requires Samples(lines, from)[j].pose.index < m < Samples(lines, from)[j].scan.value.index
    ensures forall t :: 0 <= t < |Samples(lines, from)| ==> Samples(lines, from)[t].pose.index != m
  {
    var ss := Samples(lines, from);
    SampleAt(lines, from, j);
    forall t | 0 <= t < |ss| ensures ss[t].pose.index != m {
      if t < j {
        PoseIndicesIncrease(lines, from, t, j);
      } else if t > j {
        PoseIndicesIncrease(lines, from, j, t);
      }
    }
  }

  /** A laser line between a scan line and the next pose line is skipped: it
      is the scan line of no turn. */
  lemma SkippedScanLine(lines: seq<string>, from: nat, j: nat, m: nat)
    requires from <= |lines| && j + 1 < |Samples(lines, from)|
    requires Samples(lines, from)[j].scan.Some?
    requires Samples(lines, from)[j].scan.value.index < m < Samples(lines, from)[j + 1].pose.index
    ensures forall t :: 0 <= t < |Samples(lines, from)| && Samples(lines, from)[t].scan.Some?
              ==> Samples(lines, from)[t].scan.value.index != m
  {
    var ss := Samples(lines, from);
    SampleScanAt(lines, from, j);
    forall t | 0 <= t < |ss| && ss[t].scan.Some? ensures ss[t].scan.value.index != m {
      if t < j {
        PoseIndicesIncrease(lines, from, t, j);
      } else if t > j {
        SampleScanAt(lines, from, t);
        SampleGap(lines, from, j);
        PoseIndicesIncrease(lines, from, j + 1, t);
      }
    }
  }

  /** The turns read nothing before `from`. */
  lemma {:induction false} SamplesReadSuffix(a: seq<string>, b: seq<string>, from: nat)
    requires from <= |a| == |b|
    requires forall j :: from <= j < |a| ==> a[j] == b[j]
    ensures Samples(a, from) == Samples(b, from)
    decreases |a| - from
  {
    NextHitReadsSuffix(a, b, from, PositionName);
    match NextHit(a, from, PositionName)
    case None =>
    case Some(p) =>
      NextHitReadsSuffix(a, b, p.index + 1, RangerName);
      match NextHit(a, p.index + 1, RangerName)
      case None =>
        SamplesLast(a, from, p);
        SamplesLast(b, from, p);
      case Some(s) =>
        SamplesTurn(a, from, p, s);
        SamplesTurn(b, from, p, s);
        SamplesReadSuffix(a, b, s.index + 1);
  }

  // ---------------------------------------------------------------------
  // Decoding one line

  /** `line[0:pos-1]`: the text before the interface name without its last
      character. For `pos == 0` the stop -1 counts from the end. */
  function Head(line: string, pos: nat): string {
    if pos >= 1 then Slice(line, 0, pos - 1)
    else Slice(line, 0, if |line| == 0 then 0 else |line| - 1)
  }

  /** `line[start:]`. */
  function Tail(line: string, start: nat): string {
    Slice(line, start, |line|)
  }

  /** The numbers of the text after an interface name and the space after it. */
  function Body(line: string, pos: nat, name: string, lex: string -> seq<real>): seq<real> {
    lex(Tail(line, pos + |name| + 1))
  }

  /** One turn's pose: the time stamp and the position and velocity. */
  datatype PoseSample = PoseSample(time: real, x: real, y: real, th: real, vx: real, vy: real, vth: real)

  /** The laser configuration: the angle range of the beams and the range
      at and beyond which a reading counts as no return. */
  datatype RangerConf = RangerConf(minAngle: real, maxAngle: real, maxDist: real)

  /** A pose line: the time stamp is the first number before the interface
      name; the pose and velocity are numbers 3 to 8 after it (the three
      before them are the device index and the message type and subtype).
      Too few numbers raise IndexError. */
  function DecodePose(line: string, pos: nat, lex: string -> seq<real>): (r: Result<PoseSample>)
    ensures r.Ok? <==> |lex(Head(line, pos))| >= 1 && |Body(line, pos, PositionName, lex)| >= 9
    ensures r.Err? ==> r.error == IndexError
    ensures r.Ok? ==> var head, nums := lex(Head(line, pos)), Body(line, pos, PositionName, lex);
      r.value == PoseSample(head[0], nums[3], nums[4], nums[5], nums[6], nums[7], nums[8])
  {
    var head := lex(Head(line, pos));
    if |head| < 1 then Err(IndexError)
    else
      var nums := Body(line, pos, PositionName, lex);
      if |nums| < 9 then Err(IndexError)
      else Ok(PoseSample(head[0], nums[3], nums[4], nums[5], nums[6], nums[7], nums[8]))
  }

  /** The configuration line: numbers 4, 5 and 7 after the interface name.
      Fewer than eight numbers raise IndexError. */
  function DecodeConf(line: string, pos: nat, lex: string -> seq<real>): (r: Result<RangerConf>)
    ensures r.Ok? <==> |Body(line, pos, RangerName, lex)| >= 8
    ensures r.Err? ==> r.error == IndexError
    ensures r.Ok? ==> var nums := Body(line, pos, RangerName, lex);
      r.value == RangerConf(nums[4], nums[5], nums[7])
  {
    var nums := Body(line, pos, RangerName, lex);
    if |nums| < 8 then Err(IndexError)
    else Ok(RangerConf(nums[4], nums[5], nums[7]))
  }

  /** The readings below the maximum range; the others become NaN. */
  function Kept(values: seq<real>, maxDist: real): (r: seq<Num>)
    ensures |r| == |values|
  {
    seq(|values|, k requires 0 <= k < |values| => if values[k] < maxDist then Some(values[k]) else None)
  }

  /** `np.add(v, d)` for a scalar `d`. */
  function Shift(v: seq<Num>, d: real): (r: seq<Num>)
    ensures |r| == |v|
    ensures forall k :: 0 <= k < |v| ==> r[k] == Add(v[k], Some(d))
  {
    seq(|v|, k requires 0 <= k < |v| => Add(v[k], Some(d)))
  }

  /** `f(np.add(angle, th))` for one angle. */
  function Along(angle: Num, th: real, f: real -> real): (r: Num)
    ensures r.Some? <==> angle.Some?
    ensures angle.Some? ==> r.value == f(angle.value + th)
  {
    Apply(f, Add(angle, Some(th)))
  }

  /** One coordinate of a scan's points: `np.multiply(readings,
      f(np.add(angles, th)))` moved by `d`, with readings and angles
      broadcast against each other. */
  function Points(kept: seq<Num>, angles: seq<Num>, th: real, d: real, f: real -> real): (r: Result<seq<Num>>)
    ensures r.Ok? <==> BroadcastDim(|kept|, |angles|).Some?
    ensures r.Err? ==> r.error == ValueError
    ensures r.Ok? ==> |r.value| == BroadcastDim(|kept|, |angles|).value
  {
    var along := seq(|angles|, k requires 0 <= k < |angles| => Along(angles[k], th, f));
    match Broadcast1(kept, along, Mul)
    case Err(e) => Err(e)
    case Ok(v) => Ok(Shift(v, d))
  }

  /** With one reading per angle, point `k` is the reading projected along
      angle `k` turned by `th` and moved by `d`; a missing reading gives a
      missing point. */
  lemma PointsAt(kept: seq<Num>, angles: seq<Num>, th: real, d: real, f: real -> real, k: nat)
    requires |kept| == |angles| && k < |kept| && angles[k].Some?
    ensures Points(kept, angles, th, d, f).Ok?
    ensures Points(kept, angles, th, d, f).value[k]
            == if kept[k].Some? then Some(d + kept[k].value * f(angles[k].value + th)) else None
  {
    var along := seq(|angles|, j requires 0 <= j < |angles| => Along(angles[j], th, f));
    var v := Broadcast1(kept, along, Mul).value;
    assert Points(kept, angles, th, d, f).value == Shift(v, d);
    assert Pick(k, |kept|) == k && Pick(k, |along|) == k;
    assert v[k] == Mul(kept[k], along[k]);
    var c := f(angles[k].value + th);
    assert along[k] == Some(c);
    if kept[k].Some? {
      var x := kept[k].value * c;
      assert v[k].Some? && v[k].value == kept[k].value * along[k].value;
      assert v[k].value == x;
      var p := Shift(v, d)[k];
      assert p.Some? && p.value == v[k].value + d;
      assert p == Some(d + x);
      assert d + x == d + kept[k].value * f(angles[k].value + th);
      assert Points(kept, angles, th, d, f).value[k] == p;
    }
  }

  /** The numbers of a scan line after the interface name: number 8 is the
      beam count, the readings are every other number from number 9 on. The
      beams are evenly spread over the configured angle range, turned by the
      pose heading, and each reading is projected and moved by the pose
      position. Fewer than nine numbers raise IndexError; a negative beam
      count, or a reading count that does not broadcast against it, raises
      ValueError. */
  function ScanOf(nums: seq<real>, pose: PoseSample, conf: RangerConf,
                  cos: real -> real, sin: real -> real): (r: Result<(seq<Num>, seq<Num>)>)
    ensures r.Ok? <==> |nums| >= 9 && Trunc(nums[8]) >= 0
                       && BroadcastDim(|Strided(nums, 9)|, Trunc(nums[8])).Some?
    ensures r.Err? ==> r.error == if |nums| < 9 then IndexError else ValueError
    ensures r.Ok? ==> |r.value.0| == |r.value.1| == BroadcastDim(|Strided(nums, 9)|, Trunc(nums[8])).value
  {
    if |nums| < 9 then Err(IndexError)
    else
      var kept := Kept(Strided(nums, 9), conf.maxDist);
      var angles :- Linspace(Some(conf.minAngle), Some(conf.maxAngle), Trunc(nums[8]));
      var xs :- Points(kept, angles, pose.th, pose.x, cos);
      Ok((xs, Points(kept, angles, pose.th, pose.y, sin).value))
  }

  /** A reading `v` projected on an axis whose cosine (or sine) is `c`, from
      the coordinate `d`: no point when the reading is not below `maxDist`. */
  function Reach(v: real, maxDist: real, d: real, c: real): Num {
    if v < maxDist then Some(d + v * c) else None
  }

  lemma ReachOf(p: Num, v: real, maxDist: real, d: real, c: real)
    requires v < maxDist && p.Some? && p.value == d + v * c
    ensures p == Reach(v, maxDist, d, c)
  {
  }

  /** When there is one reading per beam, point `k` of a scan is the reading
      projected along beam `k`'s bearing from the pose, with beam `k` at
      `minAngle + k * (maxAngle - minAngle) / (count - 1)`, and a reading at or
      beyond the maximum range gives no point. */
  lemma ScanPoint(nums: seq<real>, pose: PoseSample, conf: RangerConf,
                  cos: real -> real, sin: real -> real, k: nat)
    requires |nums| >= 9 && |Strided(nums, 9)| == Trunc(nums[8]) && k < |Strided(nums, 9)|
    ensures var v := Strided(nums, 9)[k];
      var bearing := EvenAngle(conf.minAngle, conf.maxAngle, Trunc(nums[8]), k) + pose.th;
      var r := ScanOf(nums, pose, conf, cos, sin);
      && r.Ok? && k < |r.value.0| == |r.value.1|
      && r.value.0[k] == Reach(v, conf.maxDist, pose.x, cos(bearing))
      && r.value.1[k] == Reach(v, conf.maxDist, pose.y, sin(bearing))
  {
    var n := Trunc(nums[8]);
    var v := Strided(nums, 9)[k];
    var bearing := EvenAngle(conf.minAngle, conf.maxAngle, n, k) + pose.th;
    var kept := Kept(Strided(nums, 9), conf.maxDist);
    assert kept[k] == if v < conf.maxDist then Some(v) else None;
    LinspaceFormula(conf.minAngle, conf.maxAngle, n, k);
    var angles := Linspace(Some(conf.minAngle), Some(conf.maxAngle), n).value;
    assert angles[k].value + pose.th == bearing;
    PointReach(kept, angles, pose.th, pose.x, cos, k, v, conf.maxDist, bearing);
    PointReach(kept, angles, pose.th, pose.y, sin, k, v, conf.maxDist, bearing);
    var r := ScanOf(nums, pose, conf, cos, sin);
    assert r.value.0 == Points(kept, angles, pose.th, pose.x, cos).value;
    assert r.value.1 == Points(kept, angles, pose.th, pose.y, sin).value;
  }

  /** Point `k` of one coordinate, for a reading `v` kept when it is below
      `maxDist` and an angle that, turned by `th`, is `bearing`. */
  lemma PointReach(kept: seq<Num>, angles: seq<Num>, th: real, d: real, f: real -> real, k: nat,
                   v: real, maxDist: real, bearing: real)
    requires |kept| == |angles| && k < |kept| && angles[k].Some? && angles[k].value + th == bearing
    requires kept[k] == if v < maxDist then Some(v) else None
    ensures Points(kept, angles, th, d, f).Ok?
    ensures Points(kept, angles, th, d, f).value[k] == Reach(v, maxDist, d, f(bearing))
  {
    PointsAt(kept, angles, th, d, f, k);
    if v < maxDist {
      ReachOf(Points(kept, angles, th, d, f).value[k], v, maxDist, d, f(bearing));
    }
  }

  /** A scan line. */
  function DecodeScan(line: string, pos: nat, pose: PoseSample, conf: RangerConf,
                      lex: string -> seq<real>, cos: real -> real, sin: real -> real): Result<(seq<Num>, seq<Num>)> {
    ScanOf(Body(line, pos, RangerName, lex), pose, conf, cos, sin)
  }

  // ---------------------------------------------------------------------
  // Collecting the turns

  /** The extractor's two result dicts: the pose lists and the per-scan
      point arrays. */
  datatype Path = Path(time: seq<real>, x: seq<real>, y: seq<real>, th: seq<real>,
                       vx: seq<real>, vy: seq<real>, vth: seq<real>)
  datatype Obs = Obs(x: seq<seq<Num>>, y: seq<seq<Num>>)
  datatype Scans = Scans(path: Path, obs: Obs)

  const Empty: Scans := Scans(Path([], [], [], [], [], [], []), Obs([], []))

  /** The shape the extractor keeps: the pose lists have one length, there
      are as many x as y arrays, each scan's x and y arrays have one length,
      and there are no more scans than poses. */
  predicate Consistent(s: Scans) {
    var p := s.path;
    && |p.time| == |p.x| == |p.y| == |p.th| == |p.vx| == |p.vy| == |p.vth|
    && |s.obs.x| == |s.obs.y| <= |p.x|
    && forall i :: 0 <= i < |s.obs.x| ==> |s.obs.x[i]| == |s.obs.y[i]|
  }

  /** Appending a pose to every pose list. */
  function AddPose(s: Scans, p: PoseSample): (r: Scans)
    requires Consistent(s)
    ensures Consistent(r) && r.obs == s.obs
    ensures r.path.time == s.path.time + [p.time]
    ensures r.path.x == s.path.x + [p.x] && r.path.y == s.path.y + [p.y] && r.path.th == s.path.th + [p.th]
    ensures r.path.vx == s.path.vx + [p.vx] && r.path.vy == s.path.vy + [p.vy] && r.path.vth == s.path.vth + [p.vth]
  {
    var q := s.path;
    s.(path := Path(q.time + [p.time], q.x + [p.x], q.y + [p.y], q.th + [p.th],
                    q.vx + [p.vx], q.vy + [p.vy], q.vth + [p.vth]))
  }

  /** Appending a scan's x and y arrays, once its pose is in. */
  function AddScan(s: Scans, xy: (seq<Num>, seq<Num>)): (r: Scans)
    requires Consistent(s) && |s.obs.x| < |s.path.x| && |xy.0| == |xy.1|
    ensures Consistent(r) && r.path == s.path
    ensures r.obs.x == s.obs.x + [xy.0] && r.obs.y == s.obs.y + [xy.1]
  {
    s.(obs := Obs(s.obs.x + [xy.0], s.obs.y + [xy.1]))
  }

  /** The number of turns that found a scan line. */
  function ScanCount(ss: seq<Sample>): (c: nat)
    ensures c <= |ss|
  {
    if ss == [] then 0 else (if ss[0].scan.Some? then 1 else 0) + ScanCount(ss[1..])
  }

  /** The loop body applied to the turns in order: each pose is decoded and
      appended, then its scan (decoded against that pose) is appended; the
      first decoding error ends the extraction. */
  function Fold(acc: Scans, ss: seq<Sample>, conf: RangerConf, lex: string -> seq<real>, cos: real -> real, sin: real -> real)
    : (r: Result<Scans>)
    requires Consistent(acc)
    ensures r.Err? ==> r.error == IndexError || r.error == ValueError
    decreases |ss|
  {
    if ss == [] then Ok(acc)
    else
      var pose :- DecodePose(ss[0].pose.line, ss[0].pose.pos, lex);
      var withPose := AddPose(acc, pose);
      match ss[0].scan
      case None => Fold(withPose, ss[1..], conf, lex, cos, sin)
      case Some(h) =>
        var xy :- DecodeScan(h.line, h.pos, pose, conf, lex, cos, sin);
        Fold(AddScan(withPose, xy), ss[1..], conf, lex, cos, sin)
  }

  /** Every turn adds one pose and every scan one pair of arrays, keeping
      the shape consistent; the only errors are the decoders' IndexError and
      ValueError. */
  lemma {:induction false} FoldShape(acc: Scans, ss: seq<Sample>, conf: RangerConf, lex: string -> seq<real>,
                                     cos: real -> real, sin: real -> real)
    requires Consistent(acc)
    ensures var r := Fold(acc, ss, conf, lex, cos, sin);
      && (r.Ok? ==> Consistent(r.value))
      && (r.Ok? ==> |r.value.path.x| == |acc.path.x| + |ss|)
      && (r.Ok? ==> |r.value.obs.x| == |acc.obs.x| + ScanCount(ss))
      && (r.Err? ==> r.error == IndexError || r.error == ValueError)
    decreases |ss|
  {
    if ss != [] {
      var pose := DecodePose(ss[0].pose.line, ss[0].pose.pos, lex);
      if pose.Ok? {
        var withPose := AddPose(acc, pose.value);
        match ss[0].scan
        case None =>
          FoldShape(withPose, ss[1..], conf, lex, cos, sin);
        case Some(h) =>
          var xy := DecodeScan(h.line, h.pos, pose.value, conf, lex, cos, sin);
          if xy.Ok? {
            FoldShape(AddScan(withPose, xy.value), ss[1..], conf, lex, cos, sin);
          }
      }
    }
  }

  /** Every turn but the last has a scan, so there is at most one pose more
      than there are scans. */
  lemma {:induction false} SamplesScanCount(lines: seq<string>, from: nat)
    requires from <= |lines|
    ensures |Samples(lines, from)| <= ScanCount(Samples(lines, from)) + 1
    decreases |lines| - from
  {
    match NextHit(lines, from, PositionName)
    case None =>
    case Some(p) =>
      match NextHit(lines, p.index + 1, RangerName)
      case None =>
      case Some(s) =>
        var rest := Samples(lines, s.index + 1);
        var ss := [Sample(p, Some(s))] + rest;
        assert Samples(lines, from) == ss;
        assert ss[1..] == rest;
        SamplesScanCount(lines, s.index + 1);
  }

  /** Pose `i` of the collected lists. */
  function PoseEntry(s: Scans, i: nat): PoseSample
    requires Consistent(s) && i < |s.path.x|
  {
    var p := s.path;
    PoseSample(p.time[i], p.x[i], p.y[i], p.th[i], p.vx[i], p.vy[i], p.vth[i])
  }

  /** The fold only appends: every pose and scan collected before it is kept. */
  lemma {:induction false} FoldKeeps(acc: Scans, ss: seq<Sample>, conf: RangerConf, lex: string -> seq<real>,
                                     cos: real -> real, sin: real -> real)
    requires Consistent(acc) && Fold(acc, ss, conf, lex, cos, sin).Ok?
    ensures var r := Fold(acc, ss, conf, lex, cos, sin).value;
      && acc.path.time <= r.path.time && acc.path.x <= r.path.x && acc.path.y <= r.path.y
      && acc.path.th <= r.path.th && acc.path.vx <= r.path.vx && acc.path.vy <= r.path.vy
      && acc.path.vth <= r.path.vth && acc.obs.x <= r.obs.x && acc.obs.y <= r.obs.y
    decreases |ss|
  {
    if ss != [] {
      var pose := DecodePose(ss[0].pose.line, ss[0].pose.pos, lex).value;
      var withPose := AddPose(acc, pose);
      match ss[0].scan
      case None =>
        FoldKeeps(withPose, ss[1..], conf, lex, cos, sin);
      case Some(h) =>
        var xy := DecodeScan(h.line, h.pos, pose, conf, lex, cos, sin).value;
        FoldKeeps(AddScan(withPose, xy), ss[1..], conf, lex, cos, sin);
    }
  }

  /** The fold keeps every pose collected before it. */
  lemma FoldKeepsPose(acc: Scans, ss: seq<Sample>, conf: RangerConf, lex: string -> seq<real>,
                      cos: real -> real, sin: real -> real, i: nat)
    requires Consistent(acc) && Fold(acc, ss, conf, lex, cos, sin).Ok? && i < |acc.path.x|
    ensures var r := Fold(acc, ss, conf, lex, cos, sin).value;
      Consistent(r) && i < |r.path.x| && PoseEntry(r, i) == PoseEntry(acc, i)
  {
    FoldShape(acc, ss, conf, lex, cos, sin);
    FoldKeeps(acc, ss, conf, lex, cos, sin);
  }

  /** The state the fold goes on from after the first turn. */
  function FoldNext(acc: Scans, t: Sample, conf: RangerConf, lex: string -> seq<real>,
                    cos: real -> real, sin: real -> real): (r: Scans)
    requires Consistent(acc) && DecodePose(t.pose.line, t.pose.pos, lex).Ok?
    requires t.scan.Some? ==>
      DecodeScan(t.scan.value.line, t.scan.value.pos, DecodePose(t.pose.line, t.pose.pos, lex).value, conf, lex, cos, sin).Ok?
    ensures Consistent(r)
  {
    var withPose := AddPose(acc, DecodePose(t.pose.line, t.pose.pos, lex).value);
    match t.scan
    case None => withPose
    case Some(h) =>
      AddScan(withPose, DecodeScan(h.line, h.pos, DecodePose(t.pose.line, t.pose.pos, lex).value, conf, lex, cos, sin).value)
  }

  /** A successful fold decoded its first turn and went on from `FoldNext`. */
  lemma FoldFirst(acc: Scans, ss: seq<Sample>, conf: RangerConf, lex: string -> seq<real>,
                  cos: real -> real, sin: real -> real)
    requires Consistent(acc) && ss != [] && Fold(acc, ss, conf, lex, cos, sin).Ok?
    ensures DecodePose(ss[0].pose.line, ss[0].pose.pos, lex).Ok?
    ensures ss[0].scan.Some? ==>
      DecodeScan(ss[0].scan.value.line, ss[0].scan.value.pos, DecodePose(ss[0].pose.line, ss[0].pose.pos, lex).value,
                 conf, lex, cos, sin).Ok?
    ensures Fold(acc, ss, conf, lex, cos, sin) == Fold(FoldNext(acc, ss[0], conf, lex, cos, sin), ss[1..], conf, lex, cos, sin)
  {
  }

  /** The first turn of a fold that gave `r` decoded its pose line, and that
      pose follows the poses collected before. */
  lemma FoldPoseHere(acc: Scans, ss: seq<Sample>, conf: RangerConf, lex: string -> seq<real>,
                     cos: real -> real, sin: real -> real, r: Scans)
    requires Consistent(acc) && Fold(acc, ss, conf, lex, cos, sin) == Ok(r) && ss != []
    ensures Consistent(r) && |acc.path.x| < |r.path.x|
    ensures DecodePose(ss[0].pose.line, ss[0].pose.pos, lex) == Ok(PoseEntry(r, |acc.path.x|))
  {
    FoldFirst(acc, ss, conf, lex, cos, sin);
    var next := FoldNext(acc, ss[0], conf, lex, cos, sin);
    assert DecodePose(ss[0].pose.line, ss[0].pose.pos, lex) == Ok(PoseEntry(next, |acc.path.x|));
    FoldKeepsPose(next, ss[1..], conf, lex, cos, sin, |acc.path.x|);
  }

  /** Turn `j` of a fold that gave `r`, here `t`, decoded its pose line,
      and that pose is entry `i` of `r`, `j` after the poses collected
      before. */
  lemma {:induction false} FoldPoseOf(acc: Scans, ss: seq<Sample>, conf: RangerConf, lex: string -> seq<real>,
                                      cos: real -> real, sin: real -> real, j: nat, r: Scans, t: Sample, i: nat)
    requires Consistent(acc) && Fold(acc, ss, conf, lex, cos, sin) == Ok(r) && j < |ss|
    requires t == ss[j] && i == |acc.path.x| + j
    ensures Consistent(r) && i < |r.path.x|
    ensures DecodePose(t.pose.line, t.pose.pos, lex) == Ok(PoseEntry(r, i))
    decreases j
  {
    if j == 0 {
      FoldPoseHere(acc, ss, conf, lex, cos, sin, r);
    } else {
      FoldFirst(acc, ss, conf, lex, cos, sin);
      var next := FoldNext(acc, ss[0], conf, lex, cos, sin);
      assert |next.path.x| == |acc.path.x| + 1;
      assert ss[1..][j - 1] == t;
      FoldPoseOf(next, ss[1..], conf, lex, cos, sin, j - 1, r, t, i);
    }
  }

  /** Turn `j` of a fold that gave `r` decoded its pose line, and that pose
      is entry `j` after the poses collected before. */
  lemma FoldPose(acc: Scans, ss: seq<Sample>, conf: RangerConf, lex: string -> seq<real>,
                 cos: real -> real, sin: real -> real, j: nat, r: Scans)
    requires Consistent(acc) && Fold(acc, ss, conf, lex, cos, sin) == Ok(r) && j < |ss|
    ensures Consistent(r) && |acc.path.x| + j < |r.path.x|
    ensures DecodePose(ss[j].pose.line, ss[j].pose.pos, lex) == Ok(PoseEntry(r, |acc.path.x| + j))
  {
    FoldPoseOf(acc, ss, conf, lex, cos, sin, j, r, ss[j], |acc.path.x| + j);
  }

  /** The first turn of a fold that gave `r`, when it has a scan line,
      decoded that line against its pose, and the two arrays follow the
      scans collected before. */
  lemma FoldScanHere(acc: Scans, ss: seq<Sample>, conf: RangerConf, lex: string -> seq<real>,
                     cos: real -> real, sin: real -> real, r: Scans)
    requires Consistent(acc) && Fold(acc, ss, conf, lex, cos, sin) == Ok(r) && ss != [] && ss[0].scan.Some?
    ensures Consistent(r) && |acc.obs.x| < |r.obs.x|
    ensures DecodePose(ss[0].pose.line, ss[0].pose.pos, lex).Ok?
    ensures var h, pose := ss[0].scan.value, DecodePose(ss[0].pose.line, ss[0].pose.pos, lex).value;
      DecodeScan(h.line, h.pos, pose, conf, lex, cos, sin) == Ok((r.obs.x[|acc.obs.x|], r.obs.y[|acc.obs.x|]))
  {
    FoldFirst(acc, ss, conf, lex, cos, sin);
    var next := FoldNext(acc, ss[0], conf, lex, cos, sin);
    var h, pose := ss[0].scan.value, DecodePose(ss[0].pose.line, ss[0].pose.pos, lex).value;
    assert DecodeScan(h.line, h.pos, pose, conf, lex, cos, sin) == Ok((next.obs.x[|acc.obs.x|], next.obs.y[|acc.obs.x|]));
    FoldShape(next, ss[1..], conf, lex, cos, sin);
    FoldKeeps(next, ss[1..], conf, lex, cos, sin);
  }

  /** Turn `j` of a fold that gave `r`, here `t`, when it has a scan line,
      decoded that line against its own pose, and the two arrays are scan
      entry `i` of `r`, `ScanCount(ss[..j])` after the scans collected
      before. */
  lemma {:induction false} FoldScanOf(acc: Scans, ss: seq<Sample>, conf: RangerConf, lex: string -> seq<real>,
                                      cos: real -> real, sin: real -> real, j: nat, r: Scans, t: Sample, i: nat)
    requires Consistent(acc) && Fold(acc, ss, conf, lex, cos, sin) == Ok(r) && j < |ss| && ss[j].scan.Some?
    requires t == ss[j] && i == |acc.obs.x| + ScanCount(ss[..j])
    ensures Consistent(r) && i < |r.obs.x|
    ensures DecodePose(t.pose.line, t.pose.pos, lex).Ok?
    ensures DecodeScan(t.scan.value.line, t.scan.value.pos, DecodePose(t.pose.line, t.pose.pos, lex).value, conf, lex, cos, sin)
            == Ok((r.obs.x[i], r.obs.y[i]))
    decreases j
  {
    if j == 0 {
      assert ss[..0] == [];
      FoldScanHere(acc, ss, conf, lex, cos, sin, r);
    } else {
      FoldFirst(acc, ss, conf, lex, cos, sin);
      var next := FoldNext(acc, ss[0], conf, lex, cos, sin);
      var here := if ss[0].scan.Some? then 1 else 0;
      assert |next.obs.x| == |acc.obs.x| + here;
      assert ss[1..][j - 1] == t;
      assert ss[..j][0] == ss[0] && ss[..j][1..] == ss[1..][..j - 1];
      assert ScanCount(ss[..j]) == here + ScanCount(ss[1..][..j - 1]);
      FoldScanOf(next, ss[1..], conf, lex, cos, sin, j - 1, r, t, i);
    }
  }

  /** Turn `j` of a fold that gave `r`, when it has a scan line, decoded
      that line against its own pose, and the two arrays are scan entry
      `ScanCount(ss[..j])` after the scans collected before. */
  lemma FoldScan(acc: Scans, ss: seq<Sample>, conf: RangerConf, lex: string -> seq<real>,
                 cos: real -> real, sin: real -> real, j: nat, r: Scans)
    requires Consistent(acc) && Fold(acc, ss, conf, lex, cos, sin) == Ok(r) && j < |ss| && ss[j].scan.Some?
    ensures Consistent(r) && |acc.obs.x| + ScanCount(ss[..j]) < |r.obs.x|
    ensures DecodePose(ss[j].pose.line, ss[j].pose.pos, lex).Ok?
    ensures var h, pose := ss[j].scan.value, DecodePose(ss[j].pose.line, ss[j].pose.pos, lex).value;
      var i := |acc.obs.x| + ScanCount(ss[..j]);
      DecodeScan(h.line, h.pos, pose, conf, lex, cos, sin) == Ok((r.obs.x[i], r.obs.y[i]))
  {
    FoldScanOf(acc, ss, conf, lex, cos, sin, j, r, ss[j], |acc.obs.x| + ScanCount(ss[..j]));
  }

  /** Turns that all found a scan line hold as many scans as turns. */
  lemma {:induction false} ScanCountAll(ss: seq<Sample>)
    requires forall m :: 0 <= m < |ss| ==> ss[m].scan.Some?
    ensures ScanCount(ss) == |ss|
  {
    if ss != [] {
      ScanCountAll(ss[1..]);
    }
  }

  /** Counting the scans of two runs of turns. */
  lemma {:induction false} ScanCountAppend(a: seq<Sample>, b: seq<Sample>)
    ensures ScanCount(a + b) == ScanCount(a) + ScanCount(b)
  {
    if a == [] {
      assert a + b == b;
    } else {
      ScanCountAppend(a[1..], b);
      assert (a + b)[0] == a[0] && (a + b)[1..] == a[1..] + b;
    }
  }

  /** Every turn before turn `j` found a scan line, so the scan of turn `j`
      is scan `j`; a turn holds a scan when its index is below the number of
      scans. */
  lemma SamplesScanBefore(lines: seq<string>, from: nat, j: nat)
    requires from <= |lines| && j < |Samples(lines, from)|
    ensures ScanCount(Samples(lines, from)[..j]) == j
    ensures j < ScanCount(Samples(lines, from)) ==> Samples(lines, from)[j].scan.Some?
  {
    var ss := Samples(lines, from);
    forall m | 0 <= m < j ensures ss[..j][m].scan.Some? {
      SampleScanAt(lines, from, m);
    }
    ScanCountAll(ss[..j]);
    if j == |ss| - 1 {
      ScanCountAppend(ss[..j], [ss[j]]);
      assert ss[..j] + [ss[j]] == ss;
    } else {
      SampleScanAt(lines, from, j);
    }
  }

  // ---------------------------------------------------------------------
  // The final rewrite

  /** `r * np.cos(theta)` for arrays of one length. */
  function Turn(r: seq<Num>, theta: seq<Num>, f: real -> real): (t: seq<Num>)
    requires |r| == |theta|
    ensures |t| == |r|
  {
    seq(|r|, k requires 0 <= k < |r| => Mul(r[k], Apply(f, theta[k])))
  }

  /** `x * f(y)`: a polar pair turned into one Cartesian coordinate. */
  function Project(r: real, theta: real, f: real -> real): real {
    r * f(theta)
  }

  /** The poses with new x and y lists. */
  function Moved(p: Path, x: seq<real>, y: seq<real>): Path {
    Path(p.time, x, y, p.th, p.vx, p.vy, p.vth)
  }

  /** Round `i` of the final loop: scan `i` and pose `i` have their x and y
      replaced by `x * cos(y)` and `x * sin(y)` of their current values. */
  function Round(w: Scans, i: nat, cos: real -> real, sin: real -> real): (r: Scans)
    requires Consistent(w) && i < |w.obs.x|
    ensures Consistent(r) && |r.obs.x| == |w.obs.x| && |r.path.x| == |w.path.x|
  {
    Scans(Moved(w.path, w.path.x[i := Project(w.path.x[i], w.path.y[i], cos)],
                        w.path.y[i := Project(w.path.x[i], w.path.y[i], sin)]),
          Obs(w.obs.x[i := Turn(w.obs.x[i], w.obs.y[i], cos)],
              w.obs.y[i := Turn(w.obs.x[i], w.obs.y[i], sin)]))
  }

  /** The state after the first `n` rounds of the final loop: pose and scan
      `i < n` turned from polar to Cartesian, the rest as collected. */
  function RewriteUpTo(s: Scans, n: nat, cos: real -> real, sin: real -> real): (r: Scans)
    requires Consistent(s) && n <= |s.obs.x|
    ensures Consistent(r) && |r.obs.x| == |s.obs.x| && |r.path.x| == |s.path.x|
  {
    var p, o := s.path, s.obs;
    Scans(Moved(p, seq(|p.x|, i requires 0 <= i < |p.x| => if i < n then Project(p.x[i], p.y[i], cos) else p.x[i]),
                   seq(|p.y|, i requires 0 <= i < |p.y| => if i < n then Project(p.x[i], p.y[i], sin) else p.y[i])),
          Obs(seq(|o.x|, i requires 0 <= i < |o.x| => if i < n then Turn(o.x[i], o.y[i], cos) else o.x[i]),
              seq(|o.y|, i requires 0 <= i < |o.y| => if i < n then Turn(o.x[i], o.y[i], sin) else o.y[i])))
  }

  /** The final loop: every scan, and the pose of the same index. */
  function Rewrite(s: Scans, cos: real -> real, sin: real -> real): (r: Scans)
    requires Consistent(s)
    ensures Consistent(r) && |r.path.x| == |s.path.x| && |r.obs.x| == |s.obs.x|
  {
    RewriteUpTo(s, |s.obs.x|, cos, sin)
  }

  /** Round `n`, run in place on the state after `n` rounds, gives the state
      after `n + 1` rounds: a round reads only its own entries, which no
      earlier round has touched. */
  lemma RoundStep(s: Scans, n: nat, cos: real -> real, sin: real -> real)
    requires Consistent(s) && n < |s.obs.x|
    ensures Round(RewriteUpTo(s, n, cos, sin), n, cos, sin) == RewriteUpTo(s, n + 1, cos, sin)
  {
    var w := RewriteUpTo(s, n, cos, sin);
    var a, b := Round(w, n, cos, sin), RewriteUpTo(s, n + 1, cos, sin);
    assert w.path.x[n] == s.path.x[n] && w.path.y[n] == s.path.y[n];
    assert w.obs.x[n] == s.obs.x[n] && w.obs.y[n] == s.obs.y[n];
    assert a.path.x == b.path.x;
    assert a.path.y == b.path.y;
    assert a.obs.x == b.obs.x;
    assert a.obs.y == b.obs.y;
  }

  /** The rewrite keeps the shape, converts the poses that have a scan,
      leaves a trailing pose without one as it was, and converts each scan
      point on its own. */
  lemma RewriteEffect(s: Scans, cos: real -> real, sin: real -> real)
    requires Consistent(s)
    ensures var r := Rewrite(s, cos, sin);
      && Consistent(r)
      && |r.path.x| == |s.path.x| && |r.obs.x| == |s.obs.x|
      && r.path.time == s.path.time && r.path.th == s.path.th
      && r.path.vx == s.path.vx && r.path.vy == s.path.vy && r.path.vth == s.path.vth
      && (forall i :: |s.obs.x| <= i < |s.path.x| ==> r.path.x[i] == s.path.x[i] && r.path.y[i] == s.path.y[i])
      && (forall i :: 0 <= i < |s.obs.x| ==>
            && r.path.x[i] == s.path.x[i] * cos(s.path.y[i])
            && r.path.y[i] == s.path.x[i] * sin(s.path.y[i])
            && |r.obs.x[i]| == |s.obs.x[i]|
            && (forall k :: 0 <= k < |s.obs.x[i]| ==>
                  && r.obs.x[i][k] == Mul(s.obs.x[i][k], Apply(cos, s.obs.y[i][k]))
                  && r.obs.y[i][k] == Mul(s.obs.x[i][k], Apply(sin, s.obs.y[i][k]))))
  {
  }

  /** A pose with its x and y turned into `x * cos(y)` and `x * sin(y)`. */
  function TurnedPose(p: PoseSample, cos: real -> real, sin: real -> real): PoseSample {
    p.(x := Project(p.x, p.y, cos), y := Project(p.x, p.y, sin))
  }

  /** Pose `j` after the rewrite: turned when it has a scan, as it was
      otherwise. */
  lemma RewritePoseAt(s: Scans, j: nat, cos: real -> real, sin: real -> real)
    requires Consistent(s) && j < |s.path.x|
    ensures var r := Rewrite(s, cos, sin); j < |r.path.x|
    ensures PoseEntry(Rewrite(s, cos, sin), j)
            == if j < |s.obs.x| then TurnedPose(PoseEntry(s, j), cos, sin) else PoseEntry(s, j)
  {
    RewriteEffect(s, cos, sin);
  }

  /** Scan `j` after the rewrite: each point `(x, y)` turned into
      `(x * cos(y), x * sin(y))`. */
  lemma RewriteScanAt(s: Scans, j: nat, cos: real -> real, sin: real -> real)
    requires Consistent(s) && j < |s.obs.x|
    ensures var r := Rewrite(s, cos, sin); j < |r.obs.x|
    ensures var r := Rewrite(s, cos, sin);
      && r.obs.x[j] == Turn(s.obs.x[j], s.obs.y[j], cos)
      && r.obs.y[j] == Turn(s.obs.x[j], s.obs.y[j], sin)
  {
    RewriteEffect(s, cos, sin);
  }

  // ---------------------------------------------------------------------
  // The extractor

  /** The configuration line: the second line that contains "laser". */
  function ConfHit(lines: seq<string>): (c: Option<Hit>)
    ensures c.Some? ==> c.value.index < |lines| && c.value.line == lines[c.value.index]
  {
    match NextHit(lines, 0, RangerName)
    case None => None
    case Some(first) => NextHit(lines, first.index + 1, RangerName)
  }

  /** The position of the turns' first search: past the position2d line
      that follows the configuration line. */
  function TurnsStart(lines: seq<string>, c: Hit): (start: nat)
    requires c.index < |lines|
    ensures start <= |lines|
  {
    After(lines, NextHit(lines, c.index + 1, PositionName))
  }

  /** The turns from `start` on, collected and then rewritten. */
  function Turns(lines: seq<string>, start: nat, conf: RangerConf, lex: string -> seq<real>,
                 cos: real -> real, sin: real -> real): Result<Scans>
    requires start <= |lines|
  {
    var collected :- Fold(Empty, Samples(lines, start), conf, lex, cos, sin);
    FoldShape(Empty, Samples(lines, start), conf, lex, cos, sin);
    Ok(Rewrite(collected, cos, sin))
  }

  /** `ExtractPathScans` as a function of the file's lines (None when the
      file does not exist): a missing file gives empty results; the first
      laser line is skipped and the second is the configuration, and when
      either is missing, subscripting None raises TypeError; the next
      position2d line is skipped too; then the turns are decoded and
      collected, and the final loop rewrites them. */
  function Extraction(file: Option<seq<string>>, lex: string -> seq<real>, cos: real -> real, sin: real -> real)
    : (r: Result<Scans>)
    ensures r.Err? ==> r.error == TypeError || r.error == IndexError || r.error == ValueError
    ensures r.Ok? ==> Consistent(r.value)
  {
    match file
    case None => Ok(Empty)
    case Some(lines) =>
      match ConfHit(lines)
      case None => Err(TypeError)
      case Some(c) =>
        var conf :- DecodeConf(c.line, c.pos, lex);
        Turns(lines, TurnsStart(lines, c), conf, lex, cos, sin)
  }

  /** The cursor finds the configuration line with two searches for "laser",
      the second one starting where the first left the cursor. */
  lemma ConfSearch(lines: seq<string>)
    ensures ConfHit(lines) == NextHit(lines, After(lines, NextHit(lines, 0, RangerName)), RangerName)
  {
  }

  /** A missing file gives empty results. Otherwise a successful extraction
      keeps the shape: the pose lists have one length, and there are as many
      poses as scans or one pose more, the last one without a scan. */
  lemma ExtractionShape(file: Option<seq<string>>, lex: string -> seq<real>, cos: real -> real, sin: real -> real)
    ensures file.None? ==> Extraction(file, lex, cos, sin) == Ok(Empty)
    ensures var r := Extraction(file, lex, cos, sin);
      r.Ok? ==> Consistent(r.value) && |r.value.obs.x| <= |r.value.path.x| <= |r.value.obs.x| + 1
  {
    if file.Some? && ConfHit(file.value).Some? {
      var lines, c := file.value, ConfHit(file.value).value;
      var conf := DecodeConf(c.line, c.pos, lex);
      if conf.Ok? {
        var start := TurnsStart(lines, c);
        FoldShape(Empty, Samples(lines, start), conf.value, lex, cos, sin);
        SamplesScanCount(lines, start);
      }
    }
  }

  /** The extraction raises TypeError exactly when fewer than two lines
      contain "laser": the decoders raise only IndexError and ValueError. */
  lemma ExtractionTypeError(lines: seq<string>, lex: string -> seq<real>, cos: real -> real, sin: real -> real)
    ensures Extraction(Some(lines), lex, cos, sin) == Err(TypeError)
            <==> !exists a, b :: 0 <= a < b < |lines| && Contains(lines[a], RangerName) && Contains(lines[b], RangerName)
  {
    ConfHitFound(lines);
    if ConfHit(lines).Some? {
      var c := ConfHit(lines).value;
      var conf := DecodeConf(c.line, c.pos, lex);
      if conf.Ok? {
        FoldShape(Empty, Samples(lines, TurnsStart(lines, c)), conf.value, lex, cos, sin);
      }
    }
  }

  /** There is a configuration line exactly when two lines contain "laser". */
  lemma ConfHitFound(lines: seq<string>)
    ensures ConfHit(lines).Some?
            <==> exists a, b :: 0 <= a < b < |lines| && Contains(lines[a], RangerName) && Contains(lines[b], RangerName)
  {
    NextHitIsFirst(lines, 0, RangerName);
    var first := NextHit(lines, 0, RangerName);
    if first.Some? {
      var i := first.value.index;
      NextHitIsFirst(lines, i + 1, RangerName);
      var second := NextHit(lines, i + 1, RangerName);
      if second.Some? {
        assert Contains(lines[i], RangerName) && Contains(lines[second.value.index], RangerName);
      } else {
        forall a, b | 0 <= a < b < |lines| && Contains(lines[a], RangerName)
          ensures !Contains(lines[b], RangerName)
        {
          assert i <= a;
        }
      }
    }
  }

  /** The first laser line is read and ignored: a file whose first line
      containing "laser" is replaced by any other line containing it gives
      the same extraction. */
  lemma ExtractionIgnoresFirstLaserLine(a: seq<string>, b: seq<string>, i: nat,
                                        lex: string -> seq<real>, cos: real -> real, sin: real -> real)
    requires |a| == |b| && i < |a|
    requires Contains(a[i], RangerName) && Contains(b[i], RangerName)
    requires forall j :: 0 <= j < i ==> !Contains(a[j], RangerName)
    requires forall j :: 0 <= j < |a| && j != i ==> a[j] == b[j]
    ensures Extraction(Some(a), lex, cos, sin) == Extraction(Some(b), lex, cos, sin)
  {
    NextHitFinds(a, 0, i, RangerName);
    NextHitFinds(b, 0, i, RangerName);
    NextHitReadsSuffix(a, b, i + 1, RangerName);
    assert ConfHit(a) == ConfHit(b);
    if ConfHit(a).Some? {
      var c := ConfHit(a).value;
      NextHitReadsSuffix(a, b, c.index + 1, PositionName);
      var start := TurnsStart(a, c);
      assert start == TurnsStart(b, c);
      SamplesReadSuffix(a, b, start);
    }
  }

  /** The decoded configuration line of an extraction. */
  function ExtractionConf(lines: seq<string>, lex: string -> seq<real>): Result<RangerConf>
    requires ConfHit(lines).Some?
  {
    DecodeConf(ConfHit(lines).value.line, ConfHit(lines).value.pos, lex)
  }

  /** The turns of an extraction. */
  function ExtractionTurns(lines: seq<string>): seq<Sample>
    requires ConfHit(lines).Some?
  {
    Samples(lines, TurnsStart(lines, ConfHit(lines).value))
  }

  /** The lists an extraction collects before the final rewrite. */
  lemma ExtractionCollects(lines: seq<string>, lex: string -> seq<real>, cos: real -> real, sin: real -> real)
    requires Extraction(Some(lines), lex, cos, sin).Ok?
    ensures ConfHit(lines).Some? && ExtractionConf(lines, lex).Ok?
    ensures Fold(Empty, ExtractionTurns(lines), ExtractionConf(lines, lex).value, lex, cos, sin).Ok?
    ensures var s := Fold(Empty, ExtractionTurns(lines), ExtractionConf(lines, lex).value, lex, cos, sin).value;
      && Consistent(s)
      && Extraction(Some(lines), lex, cos, sin).value == Rewrite(s, cos, sin)
  {
    FoldShape(Empty, ExtractionTurns(lines), ExtractionConf(lines, lex).value, lex, cos, sin);
  }

  /** Pose `j` of an extraction: the time, heading and velocities are those
      decoded from the pose line of turn `j`; its x and y are the decoded
      position turned by `x * cos(y)` and `x * sin(y)` when the turn has a
      scan, and left as decoded for a trailing turn without one. */
  lemma ExtractionPose(lines: seq<string>, lex: string -> seq<real>, cos: real -> real, sin: real -> real, j: nat)
    requires Extraction(Some(lines), lex, cos, sin).Ok?
    requires j < |Extraction(Some(lines), lex, cos, sin).value.path.x|
    ensures ConfHit(lines).Some? && j < |ExtractionTurns(lines)|
    ensures var t := ExtractionTurns(lines)[j].pose; DecodePose(t.line, t.pos, lex).Ok?
    ensures var t := ExtractionTurns(lines)[j].pose;
      var p := DecodePose(t.line, t.pos, lex).value;
      var r := Extraction(Some(lines), lex, cos, sin).value;
      PoseEntry(r, j) == if j < |r.obs.x| then TurnedPose(p, cos, sin) else p
  {
    ExtractionCollects(lines, lex, cos, sin);
    var conf, ss := ExtractionConf(lines, lex).value, ExtractionTurns(lines);
    var s := Fold(Empty, ss, conf, lex, cos, sin).value;
    FoldShape(Empty, ss, conf, lex, cos, sin);
    assert j < |s.path.x| == |ss|;
    FoldPose(Empty, ss, conf, lex, cos, sin, j, s);
    RewritePoseAt(s, j, cos, sin);
  }

  /** Scan `j` of the rewritten fold of turns whose first `j` all have a
      scan: the scan line of turn `j` decoded against its pose, then turned. */
  lemma CollectedScan(ss: seq<Sample>, conf: RangerConf, lex: string -> seq<real>,
                      cos: real -> real, sin: real -> real, j: nat)
    requires Fold(Empty, ss, conf, lex, cos, sin).Ok?
    requires j < |ss| && ss[j].scan.Some? && ScanCount(ss[..j]) == j
    ensures DecodePose(ss[j].pose.line, ss[j].pose.pos, lex).Ok?
    ensures var h, p := ss[j].scan.value, DecodePose(ss[j].pose.line, ss[j].pose.pos, lex).value;
      DecodeScan(h.line, h.pos, p, conf, lex, cos, sin).Ok?
    ensures var h, p := ss[j].scan.value, DecodePose(ss[j].pose.line, ss[j].pose.pos, lex).value;
      var xy := DecodeScan(h.line, h.pos, p, conf, lex, cos, sin).value;
      var s := Fold(Empty, ss, conf, lex, cos, sin).value;
      && Consistent(s) && j < |s.obs.x| && |xy.0| == |xy.1|
      && Rewrite(s, cos, sin).obs.x[j] == Turn(xy.0, xy.1, cos)
      && Rewrite(s, cos, sin).obs.y[j] == Turn(xy.0, xy.1, sin)
  {
    var s := Fold(Empty, ss, conf, lex, cos, sin).value;
    FoldScan(Empty, ss, conf, lex, cos, sin, j, s);
    RewriteScanAt(s, j, cos, sin);
  }

  /** Scan `j` of an extraction comes from the scan line of turn `j`,
      decoded against that turn's pose; the final loop then treats each
      decoded point `(x, y)` as the polar pair `(r, theta)` and replaces it
      by `x * cos(y)` and `x * sin(y)`. */
  lemma ExtractionScan(lines: seq<string>, lex: string -> seq<real>, cos: real -> real, sin: real -> real, j: nat)
    requires Extraction(Some(lines), lex, cos, sin).Ok?
    requires j < |Extraction(Some(lines), lex, cos, sin).value.obs.x|
    ensures ConfHit(lines).Some? && ExtractionConf(lines, lex).Ok?
    ensures j < |ExtractionTurns(lines)| && ExtractionTurns(lines)[j].scan.Some?
    ensures var t := ExtractionTurns(lines)[j]; DecodePose(t.pose.line, t.pose.pos, lex).Ok?
    ensures var t := ExtractionTurns(lines)[j];
      var p := DecodePose(t.pose.line, t.pose.pos, lex).value;
      DecodeScan(t.scan.value.line, t.scan.value.pos, p, ExtractionConf(lines, lex).value, lex, cos, sin).Ok?
    ensures var t := ExtractionTurns(lines)[j];
      var p := DecodePose(t.pose.line, t.pose.pos, lex).value;
      var xy := DecodeScan(t.scan.value.line, t.scan.value.pos, p, ExtractionConf(lines, lex).value, lex, cos, sin).value;
      var r := Extraction(Some(lines), lex, cos, sin).value;
      |xy.0| == |xy.1| && r.obs.x[j] == Turn(xy.0, xy.1, cos) && r.obs.y[j] == Turn(xy.0, xy.1, sin)
  {
    ExtractionCollects(lines, lex, cos, sin);
    var c := ConfHit(lines).value;
    var conf, ss := ExtractionConf(lines, lex).value, ExtractionTurns(lines);
    var s := Fold(Empty, ss, conf, lex, cos, sin).value;
    FoldShape(Empty, ss, conf, lex, cos, sin);
    SamplesScanBefore(lines, TurnsStart(lines, c), j);
    CollectedScan(ss, conf, lex, cos, sin, j);
  }

  /** Point `k` of a scan line decoded against `pose`, when the line has one
      reading per beam: `ScanPoint` for the numbers after "laser". With
      `ExtractionScan` this gives point `k` of scan `j` of an extraction. */
  lemma DecodedPoint(line: string, pos: nat, pose: PoseSample, conf: RangerConf, lex: string -> seq<real>,
                     cos: real -> real, sin: real -> real, k: nat)
    ensures var nums := Body(line, pos, RangerName, lex);
      |nums| >= 9 && |Strided(nums, 9)| == Trunc(nums[8]) && k < |Strided(nums, 9)| ==>
        var xy := DecodeScan(line, pos, pose, conf, lex, cos, sin);
        var v := Strided(nums, 9)[k];
        var bearing := EvenAngle(conf.minAngle, conf.maxAngle, Trunc(nums[8]), k) + pose.th;
        && xy.Ok? && k < |xy.value.0| == |xy.value.1|
        && xy.value.0[k] == Reach(v, conf.maxDist, pose.x, cos(bearing))
        && xy.value.1[k] == Reach(v, conf.maxDist, pose.y, sin(bearing))
  {
    var nums := Body(line, pos, RangerName, lex);
    if |nums| >= 9 && |Strided(nums, 9)| == Trunc(nums[8]) && k < |Strided(nums, 9)| {
      ScanPoint(nums, pose, conf, cos, sin, k);
    }
  }

  /** Without a position2d line there are no turns. */
  lemma SamplesEnd(lines: seq<string>, from: nat)
    requires from <= |lines| && NextHit(lines, from, PositionName).None?
    ensures Samples(lines, from) == []
  {
  }

  /** The first turn has the next position2d line as its pose. */
  lemma SamplesHead(lines: seq<string>, from: nat, h: Hit)
    requires from <= |lines| && NextHit(lines, from, PositionName) == Some(h)
    ensures Samples(lines, from) != [] && Samples(lines, from)[0].pose == h
  {
  }

  /** A position2d line with no laser line after it is the last turn. */
  lemma SamplesLast(lines: seq<string>, from: nat, h: Hit)
    requires from <= |lines| && NextHit(lines, from, PositionName) == Some(h)
    requires NextHit(lines, h.index + 1, RangerName).None?
    ensures Samples(lines, from) == [Sample(h, None)]
  {
  }

  /** A turn with both lines found comes first, and the search resumes after
      its laser line. */
  lemma SamplesTurn(lines: seq<string>, from: nat, h: Hit, s: Hit)
    requires from <= |lines|
    requires NextHit(lines, from, PositionName) == Some(h)
    requires NextHit(lines, h.index + 1, RangerName) == Some(s)
    ensures Samples(lines, from) == [Sample(h, Some(s))] + Samples(lines, s.index + 1)
  {
  }

  /** Without a position2d line from `from` on, the fold ends with what it has. */
  lemma FoldEnd(acc: Scans, lines: seq<string>, from: nat, conf: RangerConf, lex: string -> seq<real>,
                cos: real -> real, sin: real -> real)
    requires Consistent(acc) && from <= |lines| && NextHit(lines, from, PositionName).None?
    ensures Fold(acc, Samples(lines, from), conf, lex, cos, sin) == Ok(acc)
  {
    SamplesEnd(lines, from);
  }

  /** A turn whose pose line does not decode ends the fold with its error. */
  lemma FoldPoseError(acc: Scans, lines: seq<string>, from: nat, h: Hit, conf: RangerConf, lex: string -> seq<real>,
                      cos: real -> real, sin: real -> real)
    requires Consistent(acc) && from <= |lines| && NextHit(lines, from, PositionName) == Some(h)
    requires DecodePose(h.line, h.pos, lex).Err?
    ensures Fold(acc, Samples(lines, from), conf, lex, cos, sin) == Err(DecodePose(h.line, h.pos, lex).error)
  {
    SamplesHead(lines, from, h);
  }

  /** A last turn without a scan appends its pose. */
  lemma FoldPoseOnly(acc: Scans, lines: seq<string>, from: nat, h: Hit, pose: PoseSample, conf: RangerConf,
                     lex: string -> seq<real>, cos: real -> real, sin: real -> real)
    requires Consistent(acc) && from <= |lines| && NextHit(lines, from, PositionName) == Some(h)
    requires NextHit(lines, h.index + 1, RangerName).None? && DecodePose(h.line, h.pos, lex) == Ok(pose)
    ensures Fold(acc, Samples(lines, from), conf, lex, cos, sin) == Ok(AddPose(acc, pose))
  {
    SamplesLast(lines, from, h);
  }

  /** A turn whose scan line does not decode ends the fold with its error. */
  lemma FoldScanError(acc: Scans, lines: seq<string>, from: nat, h: Hit, s: Hit, pose: PoseSample, conf: RangerConf,
                      lex: string -> seq<real>, cos: real -> real, sin: real -> real)
    requires Consistent(acc) && from <= |lines| && NextHit(lines, from, PositionName) == Some(h)
    requires NextHit(lines, h.index + 1, RangerName) == Some(s) && DecodePose(h.line, h.pos, lex) == Ok(pose)
    requires DecodeScan(s.line, s.pos, pose, conf, lex, cos, sin).Err?
    ensures Fold(acc, Samples(lines, from), conf, lex, cos, sin)
            == Err(DecodeScan(s.line, s.pos, pose, conf, lex, cos, sin).error)
  {
    SamplesTurn(lines, from, h, s);
  }

  /** A complete turn appends its pose and its scan, and the fold goes on
      after its laser line. */
  lemma FoldTurn(acc: Scans, lines: seq<string>, from: nat, h: Hit, s: Hit, pose: PoseSample, xy: (seq<Num>, seq<Num>),
                 conf: RangerConf, lex: string -> seq<real>, cos: real -> real, sin: real -> real)
    requires Consistent(acc) && from <= |lines| && NextHit(lines, from, PositionName) == Some(h)
    requires NextHit(lines, h.index + 1, RangerName) == Some(s) && DecodePose(h.line, h.pos, lex) == Ok(pose)
    requires DecodeScan(s.line, s.pos, pose, conf, lex, cos, sin) == Ok(xy)
    ensures Fold(acc, Samples(lines, from), conf, lex, cos, sin)
            == Fold(AddScan(AddPose(acc, pose), xy), Samples(lines, s.index + 1), conf, lex, cos, sin)
  {
    SamplesTurn(lines, from, h, s);
    var rest := Samples(lines, s.index + 1);
    assert ([Sample(h, Some(s))] + rest)[1..] == rest;
  }

  /** What one round of the search loop ends with: the loop stops with the
      lists it has, goes on from a new cursor, or fails with a decoding
      error. */
  datatype Outcome = Stop(last: Scans) | Go(next: Scans, cursor: nat) | Fail(error: PyError)

  /** One round from line `from` on: the next position2d line and the next
      laser line after it, decoded and appended; a missing line stops the
      loop and a line that does not decode fails it. */
  function RoundFrom(lines: seq<string>, from: nat, scans: Scans, conf: RangerConf, lex: string -> seq<real>,
                     cos: real -> real, sin: real -> real): (r: Outcome)
    requires from <= |lines| && Consistent(scans)
    ensures r.Stop? ==> Consistent(r.last)
    ensures r.Go? ==> from < r.cursor <= |lines| && Consistent(r.next)
  {
    match NextHit(lines, from, PositionName)
    case None => Stop(scans)
    case Some(h) =>
      match DecodePose(h.line, h.pos, lex)
      case Err(e) => Fail(e)
      case Ok(pose) =>
        match NextHit(lines, h.index + 1, RangerName)
        case None => Stop(AddPose(scans, pose))
        case Some(s) =>
          match DecodeScan(s.line, s.pos, pose, conf, lex, cos, sin)
          case Err(e) => Fail(e)
          case Ok(xy) => Go(AddScan(AddPose(scans, pose), xy), s.index + 1)
  }

  /** Folding the turns from `from` on is one round and then, if the round
      goes on, folding the turns from its new cursor. */
  lemma RoundFold(lines: seq<string>, from: nat, scans: Scans, conf: RangerConf, lex: string -> seq<real>,
                  cos: real -> real, sin: real -> real)
    requires from <= |lines| && Consistent(scans)
    ensures Fold(scans, Samples(lines, from), conf, lex, cos, sin)
            == match RoundFrom(lines, from, scans, conf, lex, cos, sin)
               case Stop(last) => Ok(last)
               case Go(next, cursor) => Fold(next, Samples(lines, cursor), conf, lex, cos, sin)
               case Fail(e) => Err(e)
  {
    match NextHit(lines, from, PositionName)
    case None =>
      assert RoundFrom(lines, from, scans, conf, lex, cos, sin) == Stop(scans);
      FoldEnd(scans, lines, from, conf, lex, cos, sin);
    case Some(h) =>
      match DecodePose(h.line, h.pos, lex)
      case Err(e) =>
        assert RoundFrom(lines, from, scans, conf, lex, cos, sin) == Fail(e);
        FoldPoseError(scans, lines, from, h, conf, lex, cos, sin);
      case Ok(pose) =>
        match NextHit(lines, h.index + 1, RangerName)
        case None =>
          assert RoundFrom(lines, from, scans, conf, lex, cos, sin) == Stop(AddPose(scans, pose));
          FoldPoseOnly(scans, lines, from, h, pose, conf, lex, cos, sin);
        case Some(s) =>
          match DecodeScan(s.line, s.pos, pose, conf, lex, cos, sin)
          case Err(e) =>
            assert RoundFrom(lines, from, scans, conf, lex, cos, sin) == Fail(e);
            FoldScanError(scans, lines, from, h, s, pose, conf, lex, cos, sin);
          case Ok(xy) =>
            assert RoundFrom(lines, from, scans, conf, lex, cos, sin) == Go(AddScan(AddPose(scans, pose), xy), s.index + 1);
            FoldTurn(scans, lines, from, h, s, pose, xy, conf, lex, cos, sin);
  }

  /** One round of the search loop of `ExtractPathScans`: it takes a
      position2d line and then a laser line from the cursor on and decodes
      them. A search that comes back empty leaves the cursor at the end. */
  method TakeTurn(f: LogFile, scans: Scans, conf: RangerConf, lex: string -> seq<real>,
                  cos: real -> real, sin: real -> real) returns (r: Outcome)
    requires f.cursor <= |f.lines| && Consistent(scans)
    modifies f
    ensures r == RoundFrom(f.lines, old(f.cursor), scans, conf, lex, cos, sin)
    ensures r.Stop? ==> f.cursor == |f.lines|
    ensures r.Go? ==> f.cursor == r.cursor
  {
    ghost var before := f.cursor;
    var positionLine := f.NextTokenLine(PositionName);
    if positionLine.None? {
      return Stop(scans);
    }
    ghost var h := NextHit(f.lines, before, PositionName).value;
    ghost var mid := f.cursor;
    assert mid == h.index + 1 && positionLine.value == (h.line, h.pos);
    var pose := DecodePose(positionLine.value.0, positionLine.value.1, lex);
    if pose.Err? {
      return Fail(pose.error);
    }
    var rangerLine := f.NextTokenLine(RangerName);
    if rangerLine.None? {
      return Stop(AddPose(scans, pose.value));
    }
    ghost var s := NextHit(f.lines, mid, RangerName).value;
    assert f.cursor == s.index + 1 && rangerLine.value == (s.line, s.pos);
    var xy := DecodeScan(rangerLine.value.0, rangerLine.value.1, pose.value, conf, lex, cos, sin);
    if xy.Err? {
      return Fail(xy.error);
    }
    return Go(AddScan(AddPose(scans, pose.value), xy.value), f.cursor);
  }

  /** The search loop of `ExtractPathScans`: rounds from the cursor on until
      a search comes back empty or a line does not decode. */
  method CollectTurns(f: LogFile, conf: RangerConf, lex: string -> seq<real>, cos: real -> real, sin: real -> real)
    returns (result: Result<Scans>)
    requires f.cursor <= |f.lines|
    modifies f
    ensures result == Fold(Empty, Samples(f.lines, old(f.cursor)), conf, lex, cos, sin)
    ensures result.Ok? ==> f.cursor == |f.lines|
  {
    ghost var target := Fold(Empty, Samples(f.lines, f.cursor), conf, lex, cos, sin);
    var scans := Empty;
    var more := true;
    while more
      invariant f.cursor <= |f.lines| && Consistent(scans)
      invariant more ==> target == Fold(scans, Samples(f.lines, f.cursor), conf, lex, cos, sin)
      invariant !more ==> target == Ok(scans) && f.cursor == |f.lines|
      decreases if more then 1 else 0, |f.lines| - f.cursor
    {
      RoundFold(f.lines, f.cursor, scans, conf, lex, cos, sin);
      var r := TakeTurn(f, scans, conf, lex, cos, sin);
      match r
      case Fail(e) =>
        return Err(e);
      case Stop(last) =>
        scans, more := last, false;
      case Go(next, _) =>
        scans := next;
    }
    return Ok(scans);
  }

  /** The final loop of `ExtractPathScans`. */
  method RewriteAll(scans: Scans, cos: real -> real, sin: real -> real) returns (r: Scans)
    requires Consistent(scans)
    ensures r == Rewrite(scans, cos, sin)
  {
    var pathX, pathY := scans.path.x, scans.path.y;
    var obsX, obsY := scans.obs.x, scans.obs.y;
    var i := 0;
    while i < |obsX|
      invariant 0 <= i <= |scans.obs.x| == |obsX|
      invariant Scans(Moved(scans.path, pathX, pathY), Obs(obsX, obsY)) == RewriteUpTo(scans, i, cos, sin)
    {
      ghost var w := Scans(Moved(scans.path, pathX, pathY), Obs(obsX, obsY));
      var r, theta := obsX[i], obsY[i];
      obsX := obsX[i := Turn(r, theta, cos)];
      obsY := obsY[i := Turn(r, theta, sin)];
      var pr, pt := pathX[i], pathY[i];
      pathX := pathX[i := Project(pr, pt, cos)];
      pathY := pathY[i := Project(pr, pt, sin)];
      assert Scans(Moved(scans.path, pathX, pathY), Obs(obsX, obsY)) == Round(w, i, cos, sin);
      RoundStep(scans, i, cos, sin);
      i := i + 1;
    }
    return Scans(Moved(scans.path, pathX, pathY), Obs(obsX, obsY));
  }

  /** `ExtractPathScans(filename, th0)`: reads the file through one cursor,
      with the loop and the final rewrite of the source. The heading `th0`
      is never read. */
  method ExtractPathScans(file: Option<seq<string>>, th0: real, lex: string -> seq<real>, cos: real -> real, sin: real -> real)
    returns (result: Result<Scans>)
    ensures result == Extraction(file, lex, cos, sin)
  {
    if file.None? {
      return Ok(Empty);
    }
    ghost var lines := file.value;
    var f := new LogFile(file.value);
    var first := f.NextTokenLine(RangerName);
    var confLine := f.NextTokenLine(RangerName);
    ConfSearch(lines);
    if confLine.None? {
      return Err(TypeError);
    }
    ghost var c := ConfHit(lines).value;
    var conf := DecodeConf(confLine.value.0, confLine.value.1, lex);
    if conf.Err? {
      return Err(conf.error);
    }
    var header := f.NextTokenLine(PositionName);
    ghost var start := f.cursor;
    assert start == TurnsStart(lines, c);
    var collected := CollectTurns(f, conf.value, lex, cos, sin);
    FoldShape(Empty, Samples(lines, start), conf.value, lex, cos, sin);
    if collected.Err? {
      return Err(collected.error);
    }
    var rewritten := RewriteAll(collected.value, cos, sin);
    return Ok(rewritten);
  }
}
