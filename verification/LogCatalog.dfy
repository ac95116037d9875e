/** get_log_files in main.py: the log files a recursive glob finds are grouped
    with `itertools.groupby` by the stem of their parent directory, numbered
    1, 2, ... within each group, and collected into a dict keyed
    "<group> <number>" whose values are the paths as text. The glob itself
    (the file system, and its enumeration order) is an input. */
module LogCatalog {
  import opened Wrappers
  import opened Decimal

  /** A path the glob yields: its directory components, outermost first, and
      its file name. */
  datatype LogPath = LogPath(dirs: seq<string>, name: string)

  /** The directory components, each followed by '/'. */
  function DirText(dirs: seq<string>): string {
    if dirs == [] then "" else DirText(dirs[..|dirs| - 1]) + dirs[|dirs| - 1] + "/"
  }

  /** `str(path)`. */
  function PathText(p: LogPath): string {
    DirText(p.dirs) + p.name
  }

  /** Index of the last '.' in `s`. */
  function LastDot(s: string): (r: Option<nat>)
    ensures r.Some? ==> r.value < |s| && s[r.value] == '.'
    ensures r.Some? ==> forall j :: r.value < j < |s| ==> s[j] != '.'
    ensures r.None? ==> forall j :: 0 <= j < |s| ==> s[j] != '.'
  {
    if s == [] then None
    else if s[|s| - 1] == '.' then Some(|s| - 1)
    else LastDot(s[..|s| - 1])
  }

  /** pathlib's `stem`: the name without its last suffix. A dot that starts
      the name or ends it does not begin a suffix. */
  function Stem(name: string): (r: string)
    ensures |r| <= |name| && r == name[..|r|]
    ensures |r| < |name| ==>
      && 0 < |r| < |name| - 1 && name[|r|] == '.'
      && forall j :: |r| < j < |name| ==> name[j] != '.'
    ensures |r| == |name| ==>
      LastDot(name).None? || LastDot(name).value == 0 || LastDot(name).value == |name| - 1
  {
    match LastDot(name)
    case Some(i) => if 0 < i < |name| - 1 then name[..i] else name
    case None => name
  }

  /** `f.parent.stem`, the grouping key. A file directly in the current
      directory has the parent ".", whose stem is empty. */
  function GroupOf(p: LogPath): string {
    if p.dirs == [] then "" else Stem(p.dirs[|p.dirs| - 1])
  }

  /** `str(n)` for a natural number: its decimal digits, most significant
      first. Reading the digits back gives `n`. */
  function NatText(n: nat): (s: string)
    ensures s != [] && AllDigits(s)
    ensures DigitsValue(s) == n
  {
    var d := ['0' + (n % 10) as char];
    if n < 10 then
      assert d[..0] == [];
      d
    else
      var s := NatText(n / 10) + d;
      assert s[..|s| - 1] == NatText(n / 10);
      s
  }

  /** The dict key `f"{group} {i}"`. */
  function Key(group: string, i: nat): string {
    group + " " + NatText(i)
  }

  /** Distinct (group, number) pairs give distinct keys: the number has no
      space in it, so the last space of a key separates the two. */
  lemma KeyInjective(g1: string, i1: nat, g2: string, i2: nat)
    requires Key(g1, i1) == Key(g2, i2)
    ensures g1 == g2 && i1 == i2
  {
    var k := Key(g1, i1);
    var d1, d2 := NatText(i1), NatText(i2);
    assert k == g2 + " " + d2;
    assert k[|g1|] == ' ' && k[|g2|] == ' ';
    assert forall i :: |g1| < i < |k| ==> k[i] == d1[i - |g1| - 1];
    assert forall i :: |g2| < i < |k| ==> k[i] == d2[i - |g2| - 1];
    assert |g1| == |g2|;
    assert g1 == k[..|g1|] == g2;
    assert d1 == k[|g1| + 1..] == d2;
  }

  /** `enumerate(..., start=1)` over each group of `groupby`: the number of a
      file is 1 when it starts a run of equal group names, and one more than
      its predecessor's otherwise. */
  function RunIndices(groups: seq<string>): (r: seq<nat>)
    ensures |r| == |groups|
    ensures forall j :: 0 <= j < |r| ==> r[j] >= 1
    decreases |groups|
  {
    if groups == [] then []
    else
      var prev := RunIndices(groups[..|groups| - 1]);
      var j := |groups| - 1;
      prev + [if j > 0 && groups[j] == groups[j - 1] then prev[j - 1] + 1 else 1]
  }

  /** Numbering a longer listing does not renumber the files already seen. */
  lemma {:induction false} RunIndicesPrefix(groups: seq<string>, n: nat)
    requires n <= |groups|
    ensures RunIndices(groups[..n]) == RunIndices(groups)[..n]
    decreases |groups| - n
  {
    if n < |groups| {
      var shorter := groups[..|groups| - 1];
      assert shorter[..n] == groups[..n];
      RunIndicesPrefix(shorter, n);
    } else {
      assert groups[..n] == groups;
    }
  }

  /** The number of file `j` is the length of the maximal run of equal group
      names that ends at `j`: every file in that window has `j`'s group, and
      the file just before the window (if any) has another one. So a group
      name that comes back after another group starts again at 1. */
  lemma {:induction false} RunIndexIsRunLength(groups: seq<string>, j: nat)
    requires j < |groups|
    ensures var r := RunIndices(groups)[j];
      && r <= j + 1
      && (forall m :: j - r < m <= j ==> groups[m] == groups[j])
      && (r <= j ==> groups[j - r] != groups[j])
  {
    RunIndicesPrefix(groups, j + 1);
    var g := groups[..j + 1];
    assert g[..j] == groups[..j];
    RunIndicesPrefix(groups, j);
    var R := RunIndices(groups);
    assert R[j] == RunIndices(g)[j];
    if j > 0 && groups[j] == groups[j - 1] {
      RunIndicesPrefix(g, j);
      assert RunIndices(g)[j] == R[j - 1] + 1;
      RunIndexIsRunLength(groups, j - 1);
    } else {
      assert R[j] == 1;
    }
  }

  /** One more file of the same group gets the next number. */
  lemma RunIndexStep(groups: seq<string>, j: nat)
    requires 0 < j < |groups| && groups[j] == groups[j - 1]
    ensures RunIndices(groups)[j] == RunIndices(groups)[j - 1] + 1
  {
    RunIndicesPrefix(groups, j + 1);
    var g := groups[..j + 1];
    RunIndicesPrefix(g, j);
    RunIndicesPrefix(groups, j);
    assert g[..j] == groups[..j];
  }

  /** Inside one run the numbers grow by one per file. */
  lemma {:induction false} RunIndexDistance(groups: seq<string>, a: nat, b: nat)
    requires a <= b < |groups|
    requires forall m :: a <= m <= b ==> groups[m] == groups[a]
    ensures RunIndices(groups)[b] == RunIndices(groups)[a] + (b - a)
    decreases b - a
  {
    if a < b {
      assert groups[b] == groups[a] && groups[b - 1] == groups[a];
      RunIndexStep(groups, b);
      RunIndexDistance(groups, a, b - 1);
    }
  }

  /** The (key, path) pairs in the order the dict comprehension produces them. */
  function Entries(files: seq<LogPath>): (es: seq<(string, string)>)
    ensures |es| == |files|
  {
    var groups := seq(|files|, j requires 0 <= j < |files| => GroupOf(files[j]));
    var numbers := RunIndices(groups);
    seq(|files|, j requires 0 <= j < |files| => (Key(groups[j], numbers[j]), PathText(files[j])))
  }

  /** A dict built from pairs in order: a later pair with the same key
      overwrites the value. */
  function DictOf(es: seq<(string, string)>): (d: map<string, string>)
    ensures forall k :: k in d ==> exists j :: 0 <= j < |es| && es[j] == (k, d[k])
    decreases |es|
  {
    if es == [] then map[]
    else DictOf(es[..|es| - 1])[es[|es| - 1].0 := es[|es| - 1].1]
  }

  /** The keys of the dict are exactly the keys of the pairs. */
  lemma {:induction false} DictOfKeys(es: seq<(string, string)>)
    ensures DictOf(es).Keys == set j | 0 <= j < |es| :: es[j].0
    decreases |es|
  {
    if es != [] {
      var init := es[..|es| - 1];
      DictOfKeys(init);
      assert forall j :: 0 <= j < |init| ==> init[j] == es[j];
      var n := |es| - 1;
      assert (set j | 0 <= j < |es| :: es[j].0) == (set j | 0 <= j < |init| :: init[j].0) + {es[n].0};
    }
  }

  /** The value of a key is the path of its last pair. */
  lemma {:induction false} DictOfLastWins(es: seq<(string, string)>, j: nat)
    requires j < |es|
    requires forall m :: j < m < |es| ==> es[m].0 != es[j].0
    ensures es[j].0 in DictOf(es) && DictOf(es)[es[j].0] == es[j].1
    decreases |es|
  {
    if j < |es| - 1 {
      var init := es[..|es| - 1];
      DictOfLastWins(init, j);
    }
  }

  /** One more pair adds at most one key, and exactly one when its key is new. */
  lemma DictOfStep(es: seq<(string, string)>)
    requires es != []
    ensures var d, last := DictOf(es[..|es| - 1]), es[|es| - 1].0;
      && |DictOf(es)| <= |d| + 1
      && (last !in d ==> |DictOf(es)| == |d| + 1)
  {
  }

  /** There are never more keys than pairs, and as many when the keys of the
      pairs are pairwise distinct. */
  lemma {:induction false} DictOfSize(es: seq<(string, string)>)
    ensures |DictOf(es)| <= |es|
    ensures (forall a, b :: 0 <= a < b < |es| ==> es[a].0 != es[b].0) ==> |DictOf(es)| == |es|
    decreases |es|
  {
    if es != [] {
      var init := es[..|es| - 1];
      DictOfSize(init);
      DictOfStep(es);
      if forall a, b :: 0 <= a < b < |es| ==> es[a].0 != es[b].0 {
        DictOfKeys(init);
        assert es[|es| - 1].0 !in DictOf(init);
      }
    }
  }

  /** `get_log_files`: the dict from the numbered keys to the paths. */
  function GetLogFiles(files: seq<LogPath>): (d: map<string, string>)
    ensures forall k :: k in d ==> exists j :: 0 <= j < |files| && d[k] == PathText(files[j])
  {
    var es := Entries(files);
    assert forall j :: 0 <= j < |es| ==> es[j].1 == PathText(files[j]);
    DictOf(es)
  }

  /** A group name that never comes back after another group has started. */
  predicate Contiguous(groups: seq<string>) {
    forall a, m, b :: 0 <= a < m < b < |groups| && groups[a] == groups[b] ==> groups[m] == groups[a]
  }

  /** The dict has at most one entry per file; it has exactly one per file
      when every group's files are listed together. When a group comes back
      after another one, its numbering starts again at 1, its keys collide
      with the earlier ones, and the later path wins. */
  lemma GetLogFilesSize(files: seq<LogPath>)
    ensures |GetLogFiles(files)| <= |files|
    ensures Contiguous(seq(|files|, j requires 0 <= j < |files| => GroupOf(files[j])))
            ==> |GetLogFiles(files)| == |files|
  {
    var es := Entries(files);
    var groups := seq(|files|, j requires 0 <= j < |files| => GroupOf(files[j]));
    var numbers := RunIndices(groups);
    DictOfSize(es);
    if Contiguous(groups) {
      forall a, b | 0 <= a < b < |es| ensures es[a].0 != es[b].0 {
        ContiguousKeysDiffer(groups, a, b);
      }
    }
  }

  /** Two files of a contiguous listing never share a (group, number) pair:
      in one run the numbers grow, and a group does not come back. */
  lemma ContiguousKeysDiffer(groups: seq<string>, a: nat, b: nat)
    requires Contiguous(groups) && a < b < |groups|
    ensures Key(groups[a], RunIndices(groups)[a]) != Key(groups[b], RunIndices(groups)[b])
  {
    var numbers := RunIndices(groups);
    if Key(groups[a], numbers[a]) == Key(groups[b], numbers[b]) {
      KeyInjective(groups[a], numbers[a], groups[b], numbers[b]);
      ContiguousSpan(groups, a, b);
      RunIndexDistance(groups, a, b);
    }
  }

  /** In a contiguous listing, every file between two files of one group
      has that group too. */
  lemma ContiguousSpan(groups: seq<string>, a: nat, b: nat)
    requires Contiguous(groups) && a < b < |groups| && groups[a] == groups[b]
    ensures forall m :: a <= m <= b ==> groups[m] == groups[a]
  {
  }

  /** Every file's key is in the dict, and it maps to the last file that
      received the same group and number. */
  lemma GetLogFilesEntry(files: seq<LogPath>, j: nat)
    requires j < |files|
    requires forall m :: j < m < |files| ==>
      GroupOf(files[m]) != GroupOf(files[j])
      || RunIndices(seq(|files|, i requires 0 <= i < |files| => GroupOf(files[i])))[m]
         != RunIndices(seq(|files|, i requires 0 <= i < |files| => GroupOf(files[i])))[j]
    ensures var groups := seq(|files|, i requires 0 <= i < |files| => GroupOf(files[i]));
      var key := Key(GroupOf(files[j]), RunIndices(groups)[j]);
      key in GetLogFiles(files) && GetLogFiles(files)[key] == PathText(files[j])
  {
    var es := Entries(files);
    var groups := seq(|files|, i requires 0 <= i < |files| => GroupOf(files[i]));
    var numbers := RunIndices(groups);
    forall m | j < m < |es| ensures es[m].0 != es[j].0 {
      if es[m].0 == es[j].0 {
        KeyInjective(groups[m], numbers[m], groups[j], numbers[j]);
      }
    }
    DictOfLastWins(es, j);
  }
}
