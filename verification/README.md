# playerstage log decoding, modelled in Dafny

Two programs in this repository turn Player/Stage simulator logs into robot
poses and laser obstacle points.

- `main.py` reads a log through interface filters. It decodes:
  - the laser header;
  - the fixed-layout laser rows, with the max-range "no return" sentinel;
  - the pose rows.

  It then computes, for every scan, the obstacle points from the pose
  heading and evenly spaced beam angles. `get_log_files` numbers the log
  files of each directory.
- `extract_path_scans.py` reads a log through one shared file cursor. It
  takes the laser configuration, then alternates "next position2d line"
  and "next laser line" searches. It pulls numbers out of each line with a
  regular expression, appends the poses and scan points to lists, and
  finally rewrites both lists in place from polar to Cartesian form.

The model is organised in modules:
- `Wrappers` holds `Option`, and `Result` with the Python exceptions that
  the code can raise.
- `Text` holds `str.split()` and `str.find`. It also holds a single-space
  join, which the programs never call: it is there only to state the round
  trip of `str.split()`.
- `Decimal` holds decimal digit strings and `float()` on plain decimal
  notation.
- `NumberRegex` is a character scanner for `re.findall(r"[-+]?\d*\.\d+|\d+", s)`.
- `NumPy` holds float64 values with NaN as `None`, `np.linspace`,
  broadcasting, `[start::2]` and the truncating integer cast.
- `LogCatalog` holds `get_log_files`.
- `LogDecode` holds the rest of `main.py`.
- `PathScans` holds `extract_path_scans.py`.

`main.py` is pure, so it becomes functions and lemmas over sequences. A
generator that `next()` advances is the sequence without its head.
`extract_path_scans.py` is imperative:
- the open file is the class `PathScans.LogFile`, with the cursor as a
  field;
- `NextTokenLine` is a method with a `while` loop;
- the extractor's `while not finish` loop and its final in-place `for` loop
  are methods with invariants.

Each method is proved equal to a specification function (`NextHit`,
`Fold` over `Samples`, `Rewrite`, `Extraction`). Lemmas then connect those
functions to the lines of the log:
- `SampleAt` gives the lines each turn reads;
- `ExtractionPose` and `ExtractionScan` give pose j and scan j of the result
  as the decoded lines of turn j, after the final loop;
- `DecodePose`, `DecodeConf` and `DecodedPoint` give the numbers each
  decoded value is taken from.

Values are exact: a float is a `real` and NaN is `None`. `cos`, `sin` and
the text-to-float conversion used by `np.genfromtxt` are parameters. The
extractor takes the number lexer as a parameter `lex`; the source's lexer is
`NumberRegex.Numbers`, and `NumberRegex.NumbersAreFloats` shows that the
lexer and `float()` agree on every text it matches.

Two quirks of the source are stated as lemmas:
- the integer alternative of the lexer drops a leading sign
  (`NumberRegex.NegativeIntegerLosesSign`), while `float()` keeps it;
- the final loop leaves a trailing pose that has no scan in polar form
  (`PathScans.RewriteEffect`);
- the final loop reads the Cartesian points and positions it has just
  computed as polar pairs `(r, theta)` and converts them again
  (`PathScans.ExtractionPose`, `PathScans.ExtractionScan`).

## Model

| member | source | states |
|---|---|---|
| Text.Split | main.py:34 | every token of `str.split()` is non-empty and holds no whitespace |
| Text.SplitJoin | main.py:34 | splitting the single-space join of whitespace-free tokens gives the tokens back, so no token is lost, merged or reordered |
| Text.FindFrom | extract_path_scans.py:85 | the index returned is where the token occurs, no earlier index at or after the start has it, and nothing is returned only when it occurs nowhere |
| Text.Slice | extract_path_scans.py:24 | a Python slice with clipped bounds: its length and that element k is element a+k |
| Decimal.DecomposeRender | extract_path_scans.py:24 | reading the text of a well-formed literal back gives the literal itself |
| Decimal.ParseFloat | extract_path_scans.py:24 | `float()` accepts a text only when it is the text of a well-formed literal, and then returns that literal's value |
| Decimal.ParseFloatOfLiteral | extract_path_scans.py:24 | `float()` accepts the text of every well-formed literal and returns its value |
| NumberRegex.DigitRun | extract_path_scans.py:24 | the run counted is made of digits and is not followed by a digit (the greedy `\d*`) |
| NumberRegex.DigitRunIs | extract_path_scans.py:24 | any digit block that is not followed by a digit is the run |
| NumberRegex.MatchAt | extract_path_scans.py:24 | a match is a well-formed, non-empty literal that fits in the text |
| NumberRegex.MatchIsText | extract_path_scans.py:24 | the characters at a match are the text of the matched literal |
| NumberRegex.FindAll | extract_path_scans.py:24 | `re.findall` returns one text per match |
| NumberRegex.Numbers | extract_path_scans.py:24 | `map(float, re.findall(...))` gives one number per match |
| NumberRegex.NumbersAreFloats | extract_path_scans.py:24 | `float()` accepts every text `findall` returns and gives the value of that match, one number per match |
| NumberRegex.FractionLexes | extract_path_scans.py:24 | a literal with digits after its point lexes as exactly itself |
| NumberRegex.WholeLexes | extract_path_scans.py:24 | a literal without digits after its point lexes as its unsigned digit run alone |
| NumberRegex.LiteralNumbers | extract_path_scans.py:24 | one literal on its own yields one number: its value, or its digits' value with the sign dropped when nothing follows the point |
| NumberRegex.NegativeIntegerLosesSign | extract_path_scans.py:24 | `-5` lexes as 5 |
| NumberRegex.NegativeIntegerParses | extract_path_scans.py:24 | while `float("-5")` is -5 |
| NumPy.Trunc | extract_path_scans.py:58 | `int()` of a float truncates toward zero |
| NumPy.Linspace | main.py:68-69 | a negative count raises ValueError; otherwise there are exactly `count` values |
| NumPy.LinspaceFormula | main.py:68-69 | for finite ends value k of `np.linspace(lo, hi, n)` is `lo + k (hi - lo) / (n - 1)`, and a single value is `lo` |
| NumPy.BroadcastDim | main.py:71 | two axes broadcast exactly when they are equal or one is 1, and the result is the other |
| NumPy.BroadcastStretches | main.py:71-84 | an elementwise operation on broadcastable arrays stretches both to the common shape, a 1-wide axis repeated, and then applies the operation cell by cell |
| NumPy.Broadcast1Stretches | extract_path_scans.py:60-64 | the same for 1-D arrays: a 1-element operand is repeated to the other's length |
| NumPy.StridedEveryOther | main.py:47-48 | `row[start::2]` drops the first `start` elements and then keeps every other one, starting with the first |
| LogCatalog.LastDot | main.py:26 | the index of the last point of a name, or nothing when there is none |
| LogCatalog.Stem | main.py:26 | the stem is the name up to its last point, when that point neither starts nor ends the name and nothing after it is a point; otherwise the whole name |
| LogCatalog.NatText | main.py:27 | `str(n)` is a non-empty digit string whose value is n |
| LogCatalog.KeyInjective | main.py:27 | the key `"<group> <i>"` determines the group and the number |
| LogCatalog.RunIndices | main.py:26-29 | every file gets a number, starting at 1 |
| LogCatalog.RunIndicesPrefix | main.py:26-29 | numbering more files does not renumber the files already seen |
| LogCatalog.RunIndexIsRunLength | main.py:26-29 | a file's number is the length of the maximal run of equal group names that ends at it, so a group that returns after another starts again at 1 |
| LogCatalog.RunIndexStep | main.py:29 | the next file of the same group gets the next number |
| LogCatalog.RunIndexDistance | main.py:29 | inside one run the numbers grow by one per file |
| LogCatalog.DictOfKeys | main.py:27-29 | the dict's keys are exactly the keys produced |
| LogCatalog.DictOfLastWins | main.py:27-29 | a key maps to the path of the last file that produced it |
| LogCatalog.DictOfSize | main.py:27-29 | no more keys than files, and as many when the keys are distinct |
| LogCatalog.GetLogFilesSize | main.py:24-29 | at most one entry per file, and exactly one per file when each group's files are listed together |
| LogCatalog.ContiguousKeysDiffer | main.py:26-29 | in such a listing no two files share a key |
| LogCatalog.ContiguousSpan | main.py:26 | in such a listing every file between two files of one group has that group |
| LogCatalog.GetLogFilesEntry | main.py:24-29 | every file's key is in the dict, mapped to that file when no later file gets the same key |
| LogCatalog.GetLogFiles | main.py:24-29 | every value of the dict is the path of one of the files |
| LogDecode.ReadLog | main.py:32-34 | the output is no longer than the log, and every line in it is from the log and on the interface |
| LogDecode.ReadLogMembers | main.py:34 | a line is yielded exactly when it is in the log, has more than three tokens and token 3 is the interface |
| LogDecode.ReadLogAppend | main.py:34 | the filter of a concatenation is the concatenation of the filters, so file order is kept |
| LogDecode.ReadLogOne | main.py:34 | one line is yielded exactly when it is on the interface |
| LogDecode.ReadLogOrder | main.py:34 | the lines before and after a line are filtered on their own, around it |
| LogDecode.ReadLogIdempotent | main.py:34 | filtering the output again by the same interface changes nothing |
| LogDecode.LaserDimensionNamesDistinct | main.py:38 | the five dimension names are distinct |
| LogDecode.ZipFloats | main.py:40 | the comprehension raises ValueError exactly when a value is not a float literal; otherwise its keys are the zipped names, and a `nan` text gives a NaN entry |
| LogDecode.ZipFloatsValues | main.py:40 | with distinct names each name maps to its partner's number |
| LogDecode.GetLaserDimensions | main.py:37-40 | the only errors are StopIteration and ValueError, and the keys are among `lx, ly, la, sx, sy` |
| LogDecode.GetLaserDimensionsSpec | main.py:37-40 | without a line `next()` raises StopIteration; otherwise only the first line is read, and `lx, ly, la, sx, sy` map in order to tokens 7..11, a shorter line giving fewer entries and a non-number ValueError |
| LogDecode.GenFromText | main.py:45 | a line too short for the columns raises ValueError; otherwise one row per line, and cell j of row i is the conversion of token `cols[j]` of line i |
| LogDecode.Sentinel | main.py:55 | the length is kept, and a value that is not NaN afterwards is the value that was there |
| LogDecode.SentinelRule | main.py:55 | a range at or above the maximum, the maximum itself included, becomes NaN; a range below it is kept; the length is kept |
| LogDecode.SentinelIdempotent | main.py:55 | applying the sentinel twice is applying it once |
| LogDecode.LaserColumnsLayout | main.py:45 | the columns read are token 0 and tokens 7..734 |
| LogDecode.GetLaserDataErrors | main.py:43-56 | without a first line StopIteration; a short row ValueError; fewer than two rows IndexError; success exactly when there are two rows or more, all long enough, with numeric `scan_id` and `count` |
| LogDecode.GetLaserData | main.py:43-56 | the only errors are StopIteration, ValueError and IndexError; a success has one row per laser line after the first, at least two, each with 361 ranges and 361 intensities |
| LogDecode.GetLaserDataRow | main.py:44-55 | row i comes from laser line i + 1: the metadata is taken from tokens 0 and 7..12; there are 361 ranges from tokens 13, 15, ... with the first row's maximum as sentinel, and 361 intensities from tokens 14, 16, ... |
| LogDecode.GetPositionData | main.py:59-63 | the only errors are StopIteration and ValueError; a success has one pose per line after the first, at least two |
| LogDecode.GetPositionDataSpec | main.py:59-63 | the first line is discarded; success exactly when at least two lines follow, each with 13 tokens or more; pose i holds tokens 0 and 7..12 of line i + 1, in order |
| LogDecode.RepeatFlattens | main.py:71 | for a positive count n, the row-major flattening of `v.repeat(n).reshape(-1, n)` is `v.repeat(n)`: each element n times in a row, in order |
| LogDecode.PolarToCartesian | main.py:83-84 | succeeds exactly when the shapes broadcast; both results have the broadcast shape |
| LogDecode.PolarToCartesianAt | main.py:83-84 | element (i, k) is `r cos(theta)` and `r sin(theta)` of the elements paired with it |
| LogDecode.Bearings | main.py:70-71 | element (i, k) is `pa` of pose i plus beam angle k; no beam angles raise ValueError |
| LogDecode.Offset | main.py:74-76 | the pose coordinate of row i is added to every relative point of that row |
| LogDecode.RelativePoints | main.py:67-73 | the relative x and y grids have one shape |
| LogDecode.RelativePointAt | main.py:67-73 | relative point (i, k) is the paired range turned by the paired pose heading plus beam angle |
| LogDecode.GetObstacleData | main.py:66-80 | KeyError exactly among the failures with an empty laser table, every other failure ValueError; no more rows than scans |
| LogDecode.GetObstacleDataOk | main.py:66-80 | an empty table raises KeyError; success exactly when there is a beam, the scans are non-empty and of one width, scans and poses broadcast, and width and beam count broadcast; any other failure is ValueError |
| LogDecode.GetObstacleDataRows | main.py:77-80 | as many rows as the fewer of the scans and the broadcast row count, each with that scan's time and as many points as the ranges and beams broadcast to |
| LogDecode.GetObstacleDataPoint | main.py:66-84 | point (i, k) is `px + r cos(pa + angle)`, `py + r sin(pa + angle)` for the pose, scan, range and beam angle that broadcasting pairs with it |
| LogDecode.GetObstacleDataAligned | main.py:66-80 | with as many poses as scans and 361 beams and ranges, there is one row per scan, with its time and 361 points |
| LogDecode.GetObstacleDataBearing | main.py:66-84 | then beam k of pose i has bearing `pa_i + min + k (max - min) / 360`, and a missing range gives a missing point |
| LogDecode.BeamAngleAt | main.py:68-69 | beam angle k of 361 is `min + k (max - min) / 360` |
| LogDecode.GetObstacleDataOneBeam | main.py:68-84 | with a count of 1 every point uses the bearing `pa + min` |
| PathScans.NextHit | extract_path_scans.py:83-88 | a line found is at or after the start and is that line of the file |
| PathScans.NextHitIsFirst | extract_path_scans.py:83-88 | the line found contains the token at `pos`, its first occurrence; every line skipped lacks the token; nothing is found only when no line left has it |
| PathScans.NextHitFinds | extract_path_scans.py:83-88 | conversely, the first line left that contains the token is the one found |
| PathScans.LogFile.NextTokenLine | extract_path_scans.py:83-88 | returns the line `NextHit` finds and its `pos`, or nothing; the cursor ends just past that line, or at the end |
| PathScans.NextHitReadsSuffix | extract_path_scans.py:84 | a search reads nothing before the cursor |
| PathScans.Samples | extract_path_scans.py:34-68 | the loop makes no more turns than there are lines left |
| PathScans.SampleAt | extract_path_scans.py:34-68 | turn j has a position2d pose line, the first one for turn 0; every turn but the last has a scan line, the first laser line after its pose line |
| PathScans.SamplePoseAt | extract_path_scans.py:36 | the pose line half of that |
| PathScans.SampleScanAt | extract_path_scans.py:50 | the scan line half of that |
| PathScans.SampleGap | extract_path_scans.py:36 | the pose line of turn j + 1 is the first position2d line after the scan line of turn j |
| PathScans.PoseIndicesIncrease | extract_path_scans.py:34-68 | later turns come later in the file |
| PathScans.SkippedPoseLine | extract_path_scans.py:50 | a position2d line between a pose line and its scan line enters no turn |
| PathScans.SkippedScanLine | extract_path_scans.py:36 | a laser line between a scan line and the next pose line enters no turn |
| PathScans.SamplesReadSuffix | extract_path_scans.py:34-68 | the turns read nothing before the cursor |
| PathScans.DecodePose | extract_path_scans.py:39-47 | decoding succeeds exactly when a number precedes the name and nine follow it, otherwise IndexError; the time is the first number before the name, and x, y, th, vx, vy, vth are numbers 3 to 8 after it |
| PathScans.DecodeConf | extract_path_scans.py:24-28 | decoding succeeds exactly when eight numbers follow the name, otherwise IndexError; minAngle, maxAngle and maxDist are numbers 4, 5 and 7 |
| PathScans.Along | extract_path_scans.py:60-61 | `f(angle + th)`, NaN for a NaN angle |
| PathScans.Points | extract_path_scans.py:60-64 | succeeds exactly when readings and angles broadcast, else ValueError |
| PathScans.PointsAt | extract_path_scans.py:60-64 | with one reading per angle, point k is `d + r_k f(angle_k + th)`, and NaN for a NaN reading |
| PathScans.ScanOf | extract_path_scans.py:53-64 | fewer than nine numbers raise IndexError; a negative count, or readings that do not broadcast against it, raise ValueError; x and y have one length |
| PathScans.ScanPoint | extract_path_scans.py:53-64 | reading k is number 9 + 2k; it is kept exactly when below `maxDist`; beam k is at `min + k (max - min) / (n - 1)` with n from number 8; the point is the pose position plus the reading along the bearing |
| PathScans.DecodedPoint | extract_path_scans.py:53-64 | the same for a scan line: the numbers after the interface name, point k decoded against the pose |
| PathScans.AddPose | extract_path_scans.py:40-47 | the pose's seven fields are appended to the seven pose lists, and the scans are unchanged |
| PathScans.AddScan | extract_path_scans.py:63-64 | the two arrays are appended to the x and y scan lists, and the poses are unchanged |
| PathScans.Fold | extract_path_scans.py:34-68 | the only errors of the loop body are IndexError and ValueError |
| PathScans.FoldShape | extract_path_scans.py:34-68 | each turn adds one pose, each scan one pair of arrays, the shape is kept, and the only errors are IndexError and ValueError |
| PathScans.FoldKeeps | extract_path_scans.py:40-64 | the loop only appends: every list collected before is a prefix of the list after |
| PathScans.FoldPose | extract_path_scans.py:36-47 | on success pose j after the poses collected before is the decoded pose line of turn j |
| PathScans.FoldScan | extract_path_scans.py:50-64 | on success the scan of turn j, after the scans collected before and the scans of the turns before j, is its scan line decoded against turn j's pose |
| PathScans.SamplesScanCount | extract_path_scans.py:34-68 | there is at most one turn more than there are scans |
| PathScans.SamplesScanBefore | extract_path_scans.py:34-68 | every turn before turn j has a scan, so turn j's scan is scan j |
| PathScans.RoundFold | extract_path_scans.py:34-68 | folding the turns from a line on is one round of the loop, then the fold from the cursor that round leaves |
| PathScans.TakeTurn | extract_path_scans.py:35-68 | one pass of the loop body through the cursor computes that round, and leaves the cursor where the round says, or at the end when the loop stops |
| PathScans.CollectTurns | extract_path_scans.py:33-68 | the loop returns the fold of the turns from the cursor on, and on success leaves the cursor at the end of the file |
| PathScans.Rewrite | extract_path_scans.py:70-79 | the rewrite keeps the lists consistent and keeps the number of poses and scans |
| PathScans.RoundStep | extract_path_scans.py:70-79 | round n, done in place after n rounds, gives the state after n + 1 rounds |
| PathScans.RewriteEffect | extract_path_scans.py:70-79 | the rewrite converts pose i and scan i for every i below the number of scans, pointwise, and leaves a trailing pose without a scan and every other list as they were |
| PathScans.RewritePoseAt | extract_path_scans.py:76-79 | pose j after the rewrite has x and y turned as a polar pair when pose j has a scan, and is unchanged otherwise |
| PathScans.RewriteScanAt | extract_path_scans.py:71-74 | scan j after the rewrite is `x cos(y)` and `x sin(y)` of scan j, element by element |
| PathScans.RewriteAll | extract_path_scans.py:70-79 | the in-place loop computes the rewrite |
| PathScans.ConfHit | extract_path_scans.py:19-22 | the configuration line is a line of the file |
| PathScans.ConfSearch | extract_path_scans.py:19-22 | the configuration line is what two searches for "laser" on the one cursor return |
| PathScans.ConfHitFound | extract_path_scans.py:19-22 | there is a configuration line exactly when two lines contain "laser" |
| PathScans.Extraction | extract_path_scans.py:5-81 | the only errors are TypeError, IndexError and ValueError, and a success keeps the lists' shape |
| PathScans.ExtractionShape | extract_path_scans.py:5-81 | a missing file gives empty results; a success has pose lists of one length, with as many poses as scans or one more |
| PathScans.ExtractionTypeError | extract_path_scans.py:19-24 | TypeError is raised exactly when fewer than two lines contain "laser" |
| PathScans.ExtractionIgnoresFirstLaserLine | extract_path_scans.py:18-19 | the first laser line is read and ignored: replacing it changes nothing |
| PathScans.ExtractionCollects | extract_path_scans.py:24-79 | a successful extraction decoded its configuration line and the turns after it, and its result is the rewrite of what the loop collected |
| PathScans.CollectedScan | extract_path_scans.py:50-74 | when every turn before j has a scan, scan j of the rewritten lists is turn j's scan line decoded against its pose, then turned |
| PathScans.ExtractionPose | extract_path_scans.py:36-79 | pose j of an extraction is the decoded pose line of turn j, with x and y turned as a polar pair when pose j has a scan |
| PathScans.ExtractionScan | extract_path_scans.py:50-74 | scan j of an extraction is the scan line of turn j decoded against that turn's pose, then turned: each point (x, y) becomes `x cos(y)`, `x sin(y)` |
| PathScans.ExtractPathScans | extract_path_scans.py:5-81 | the extractor, reading through one cursor, computes `Extraction`, in which `th0` does not appear |

## Left out

- `process_log_file`, `process_log_dir`, `main` and argument parsing in `main.py` are not part of this model: they are file reopening, process pools and a command line.
- `plots.py` and the other scripts are not part of this model: they draw, drive a live simulator or hold scratch data.
- Opening files, `print` and the unclosed file handle are left out. A log is given as its lines, a missing file as `None`.
- The order in which the recursive glob lists the files is an input to `get_log_files`.
- Floating point is modelled by exact reals: rounding, infinities and the values of `cos` and `sin` are left out. `cos` and `sin` are parameters.
- LogDecode takes the text-to-float conversion of `np.genfromtxt` as a parameter. Its comment handling and other options are left out.
- The 64-bit overflow of the int64 cast is not modelled.
- The number lexer is a parameter of the extractor's functions and methods. `NumberRegex.Numbers` is the lexer the source uses.
- `NumberRegex` treats only ASCII digits as `\d`.
- `Decimal.ParseFloat` covers only plain decimal notation. Exponents, `inf`, `nan`, underscores and surrounding whitespace are left out. Every text the lexer matches is plain decimal notation.
- Dict insertion order is not modelled: the dicts are maps.
- `PathScans.ScanPoint` covers only a scan with as many readings as beams. Other broadcastable shapes are covered only by `PathScans.Points`.
