/**
  The two runtime patches of src/ray_quickstart/monkey_patch.py that carry
  logic: locating the checkpoint directory of a path that may have crossed
  machines, and splitting a token row into shifted input and label windows.

  Paths are strings with POSIX `os.path` semantics (`dirname`, `join`,
  `normpath` written out below); the filesystem is the set of existing paths
  and the set of directories, matched literally.
 */
module MonkeyPatch {

  import opened Wrappers
  import opened Text

  // ---------------------------------------------------------------------
  // os.path on POSIX

  predicate AllSlashes(s: string) {
    forall k :: 0 <= k < |s| ==> s[k] == '/'
  }

  /** `p.rfind('/') + 1`: the index just past the last slash, 0 when there is none. */
  function HeadEnd(p: string): (i: nat)
    ensures i <= |p|
    ensures i > 0 ==> p[i - 1] == '/'
    ensures forall k :: i <= k < |p| ==> p[k] != '/'
    decreases |p|
  {
    if p == [] then 0
    else if p[|p| - 1] == '/' then |p|
    else HeadEnd(p[..|p| - 1])
  }

  /** `h.rstrip('/')`. */
  function RStripSlashes(h: string): (r: string)
    ensures |r| <= |h| && r == h[..|r|]
    ensures r == [] || r[|r| - 1] != '/'
    ensures forall k :: |r| <= k < |h| ==> h[k] == '/'
    decreases |h|
  {
    if h != [] && h[|h| - 1] == '/' then RStripSlashes(h[..|h| - 1]) else h
  }

  /** `os.path.dirname`: the head before the last slash, trailing slashes removed unless the head is all slashes. */
  function Dirname(p: string): (d: string)
    ensures |d| <= |p| && d == p[..|d|]
  {
    var head := p[..HeadEnd(p)];
    if head != [] && !AllSlashes(head) then RStripSlashes(head) else head
  }

  /** Away from a root, one step up makes the path strictly shorter. */
  lemma DirnameShrinks(p: string)
    requires !AllSlashes(p)
    ensures |Dirname(p)| < |p|
  {
    var i := HeadEnd(p);
    if i == |p| {
      assert p[..i] == p;
      assert p[|p| - 1] == '/';
    }
  }

  /** The roots, where the upward walk stops, are exactly the all-slash strings (including ""). */
  lemma DirnameFixpoint(p: string)
    ensures Dirname(p) == p <==> AllSlashes(p)
  {
    if AllSlashes(p) {
      if p != [] {
        assert p[|p| - 1] == '/';
        assert p[..HeadEnd(p)] == p;
      }
    } else {
      DirnameShrinks(p);
    }
  }

  /** `os.path.join(d, ".is_checkpoint")`. */
  function MarkerPath(d: string): (m: string)
    ensures StartsWith(m, d)
  {
    if d == [] || d[|d| - 1] == '/' then d + ".is_checkpoint" else d + "/" + ".is_checkpoint"
  }

  /** A path component that `normpath` keeps: not empty, not `.`, no slash. */
  predicate Clean(c: string) {
    c != "" && c != "." && Free(c, '/')
  }

  /**
    The component loop of `os.path.normpath`: `.` and empty components are
    dropped, `..` removes the previous component unless there is none (then
    it is kept in a relative path and dropped in an absolute one) or the
    previous one is itself `..`.
   */
  function Resolve(stack: seq<string>, comps: seq<string>, absolute: bool): (r: seq<string>)
    requires forall i :: 0 <= i < |stack| ==> Clean(stack[i])
    requires forall i :: 0 <= i < |comps| ==> Free(comps[i], '/')
    requires absolute ==> forall i :: 0 <= i < |stack| ==> stack[i] != ".."
    ensures forall i :: 0 <= i < |r| ==> Clean(r[i])
    ensures absolute ==> forall i :: 0 <= i < |r| ==> r[i] != ".."
    decreases |comps|
  {
    if comps == [] then stack
    else
      var c := comps[0];
      var next :=
        if c == "" || c == "." then stack
        else if c != ".." || (!absolute && stack == []) || (stack != [] && stack[|stack| - 1] == "..") then stack + [c]
        else if stack != [] then stack[..|stack| - 1]
        else stack;
      Resolve(next, comps[1..], absolute)
  }

  /** The leading slashes `normpath` keeps: exactly two are kept as two, any other number as one. */
  function LeadingSlashes(path: string): string {
    if StartsWith(path, "//") && !StartsWith(path, "///") then "//"
    else if StartsWith(path, "/") then "/"
    else ""
  }

  /** `os.path.normpath` (POSIX). */
  function Normpath(path: string): (r: string)
    ensures r != []
    ensures StartsWith(r, "/") <==> StartsWith(path, "/")
  {
    NotPrefixAt(".", "/", 0);
    if path == [] then "."
    else
      var lead := LeadingSlashes(path);
      SplitPartsFree(path, '/');
      var comps := Resolve([], Split(path, '/'), lead != "");
      var body := Join(comps, '/');
      JoinCleanHead(comps);
      var r := lead + body;
      if r == [] then "." else r
  }

  /** A join of clean components never starts with a slash. */
  lemma JoinCleanHead(comps: seq<string>)
    requires forall i :: 0 <= i < |comps| ==> Clean(comps[i])
    ensures !StartsWith(Join(comps, '/'), "/")
  {
    if comps != [] {
      var j := Join(comps, '/');
      assert j[..|comps[0]|] == comps[0];
      assert j[0] == comps[0][0];
      NotPrefixAt(j, "/", 0);
    }
  }

  // ---------------------------------------------------------------------
  // find_checkpoint_dir

  /** The read-only view of the filesystem the lookup needs. */
  datatype FileSystem = FileSystem(paths: set<string>, dirs: set<string>) {
    /** `os.path.exists`. */
    predicate Exists(p: string) {
      p in paths || p in dirs
    }

    /** `os.path.isdir`. */
    predicate IsDir(p: string) {
      p in dirs
    }

    /** The directory holds the `.is_checkpoint` marker. */
    predicate Marked(d: string) {
      Exists(MarkerPath(d))
    }
  }

  datatype LookupError =
    | PathDoesNotExist(path: string)
    | CheckpointDirNotFound(path: string)

  /**
    The path as it is looked up on this machine: on macOS every `/home`
    becomes `/Users`, on Windows (`win32`) every `/home` becomes `C:/Users`.
   */
  function RewriteForPlatform(path: string, sysPlatform: string): (r: string)
    ensures sysPlatform != "darwin" && sysPlatform != "win32" ==> r == path
    ensures !Contains(path, "/home") ==> r == path
  {
    var r := if sysPlatform == "darwin" then ReplaceAll(path, "/home", "/Users")
             else if sysPlatform == "win32" then ReplaceAll(path, "/home", "C:/Users")
             else path;
    if Contains(path, "/home") then r
    else
      ReplaceAbsent(path, "/home", "/Users");
      ReplaceAbsent(path, "/home", "C:/Users");
      r
  }

  /** On macOS a Linux home path is looked up under `/Users`; every other platform but Windows keeps it. */
  lemma HomeRewrittenOnMac(rest: string, sysPlatform: string)
    requires !Contains(rest, "/home")
    ensures RewriteForPlatform("/home" + rest, sysPlatform) ==
              if sysPlatform == "darwin" then "/Users" + rest
              else if sysPlatform == "win32" then "C:/Users" + rest
              else "/home" + rest
  {
    ReplaceAtFront("/home", rest, "/Users");
    ReplaceAtFront("/home", rest, "C:/Users");
    ReplaceAbsent(rest, "/home", "/Users");
    ReplaceAbsent(rest, "/home", "C:/Users");
  }

  /** Where the walk starts: the path itself when it is a directory, else its parent, a prefix of it. */
  function StartDir(fs: FileSystem, path: string): (d: string)
    ensures fs.IsDir(path) ==> d == path
    ensures |d| <= |path| && d == path[..|d|]
  {
    if fs.IsDir(path) then path else Dirname(path)
  }

  /**
    The directories the walk tests, nearest first: `d`, its parent, and so on
    up to (but not including) the root.
   */
  function Ancestors(d: string): (chain: seq<string>)
    ensures |chain| <= |d|
    ensures forall k :: 0 <= k < |chain| ==> !AllSlashes(chain[k])
    ensures chain != [] ==> chain[0] == d
    decreases |d|
  {
    DirnameFixpoint(d);
    if Dirname(d) == d then [] else [d] + Ancestors(Dirname(d))
  }

  /** Away from the root, a directory's chain is the directory followed by its parent's chain. */
  lemma AncestorsStep(d: string)
    requires d != Dirname(d)
    ensures Ancestors(d) == [d] + Ancestors(Dirname(d))
  {
  }

  lemma TailAfter<T>(s: seq<T>, k: nat, x: T, rest: seq<T>)
    requires k <= |s| && s[k..] == [x] + rest
    ensures k < |s| && s[k] == x && s[k + 1..] == rest
  {
    assert s[k..][0] == x;
    assert s[k + 1..] == s[k..][1..];
  }

  /**
    The position of the first directory of `chain` that holds the marker,
    or `|chain|` when none does.
   */
  function NearestMarked(fs: FileSystem, chain: seq<string>): (k: nat)
    ensures k <= |chain|
    ensures k < |chain| ==> fs.Marked(chain[k])
  {
    FirstFrom(chain, fs.Marked, 0)
  }

  /** The position of the first element of `s` at or after `i` that satisfies `p`, or `|s|`. */
  function FirstFrom<T>(s: seq<T>, p: T -> bool, i: nat): (k: nat)
    requires i <= |s|
    ensures i <= k <= |s|
    ensures k < |s| ==> p(s[k])
    decreases |s| - i
  {
    if i == |s| || p(s[i]) then i else FirstFrom(s, p, i + 1)
  }

  lemma {:induction false} FirstFromFirst<T>(s: seq<T>, p: T -> bool, i: nat, j: nat)
    requires i <= |s| && i <= j < FirstFrom(s, p, i)
    ensures !p(s[j])
    decreases |s| - i
  {
    if i < j {
      FirstFromFirst(s, p, i + 1, j);
    }
  }

  /** No directory before the nearest marked one holds the marker. */
  lemma NearestMarkedFirst(fs: FileSystem, chain: seq<string>, j: nat)
    requires j < NearestMarked(fs, chain)
    ensures !fs.Marked(chain[j])
  {
    FirstFromFirst(chain, fs.Marked, 0, j);
  }

  /**
    The `while` loop of `find_checkpoint_dir`: from `start`, step up until a
    directory holds the marker or the root is reached.
   */
  method WalkUp(fs: FileSystem, start: string) returns (dir: string)
    ensures var chain := Ancestors(start);
            var k := NearestMarked(fs, chain);
            (k == |chain| ==> dir == Dirname(dir)) &&
            (k < |chain| ==> dir == chain[k] && dir != Dirname(dir))
  {
    dir := start;
    ghost var chain := Ancestors(start);
    ghost var k := 0;
    while dir != Dirname(dir)
      invariant 0 <= k <= NearestMarked(fs, chain)
      invariant Ancestors(dir) == chain[k..]
      decreases |dir|
    {
      AncestorsStep(dir);
      TailAfter(chain, k, dir, Ancestors(Dirname(dir)));
      if fs.Exists(MarkerPath(dir)) {
        if k < NearestMarked(fs, chain) {
          NearestMarkedFirst(fs, chain, k);
        }
        return;
      }
      dir := Dirname(dir);
      k := k + 1;
    }
    DirnameFixpoint(dir);
  }

  /**
    `find_checkpoint_dir`: rewrite the path for this platform, fail when it
    does not exist, then walk upward from its directory and return the
    normalized nearest directory holding the marker, or fail when the root is
    reached first.
   */
  method FindCheckpointDir(fs: FileSystem, sysPlatform: string, checkpointPath: string)
    returns (r: Result<string, LookupError>)
    ensures var path := RewriteForPlatform(checkpointPath, sysPlatform);
            r == Err(PathDoesNotExist(path)) <==> !fs.Exists(path)
    ensures var path := RewriteForPlatform(checkpointPath, sysPlatform);
            var chain := Ancestors(StartDir(fs, path));
            r == Err(CheckpointDirNotFound(path)) <==> fs.Exists(path) && NearestMarked(fs, chain) == |chain|
    ensures var path := RewriteForPlatform(checkpointPath, sysPlatform);
            var chain := Ancestors(StartDir(fs, path));
            r.Ok? <==> fs.Exists(path) && NearestMarked(fs, chain) < |chain|
    ensures var path := RewriteForPlatform(checkpointPath, sysPlatform);
            var chain := Ancestors(StartDir(fs, path));
            r.Ok? ==> r.value == Normpath(chain[NearestMarked(fs, chain)])
  {
    var path := RewriteForPlatform(checkpointPath, sysPlatform);
    if !fs.Exists(path) {
      return Err(PathDoesNotExist(path));
    }
    var dir := if fs.IsDir(path) then path else Dirname(path);
    dir := WalkUp(fs, dir);
    if dir == Dirname(dir) {
      return Err(CheckpointDirNotFound(path));
    }
    return Ok(Normpath(dir));
  }

  /** The walk finds a directory exactly when one of the tested directories holds the marker. */
  lemma NearestMarkedFound(fs: FileSystem, chain: seq<string>)
    ensures NearestMarked(fs, chain) < |chain| <==> exists j :: 0 <= j < |chain| && fs.Marked(chain[j])
  {
    var k := NearestMarked(fs, chain);
    if k == |chain| {
      forall j | 0 <= j < |chain|
        ensures !fs.Marked(chain[j])
      {
        NearestMarkedFirst(fs, chain, j);
      }
    }
  }

  // ---------------------------------------------------------------------
  // The patched RayDatasetHFIterable.__iter__

  /** One training example: the model input and its next-token labels. */
  datatype LabelledExample = LabelledExample(inputIds: seq<int>, labels: seq<int>)

  /**
    One row `r` of length `n` becomes `(0, {input_ids: r[0:n-1], labels: r[1:n]})`;
    an empty row gives two empty windows.
   */
  function SplitRow(row: seq<int>): (e: (int, LabelledExample))
    ensures e.0 == 0
    ensures |e.1.inputIds| == |e.1.labels| == (if row == [] then 0 else |row| - 1)
    ensures forall k :: 0 <= k < |e.1.inputIds| ==> e.1.inputIds[k] == row[k] && e.1.labels[k] == row[k + 1]
  {
    if row == [] then (0, LabelledExample([], []))
    else (0, LabelledExample(row[..|row| - 1], row[1..]))
  }

  /** The labels are the inputs shifted by one token. */
  lemma LabelsAreShiftedInputs(row: seq<int>, k: nat)
    requires k + 1 < |SplitRow(row).1.inputIds|
    ensures SplitRow(row).1.labels[k] == SplitRow(row).1.inputIds[k + 1]
  {
  }

  /** The examples `__iter__` yields for the rows it is given, in order. */
  function IterExamples(rows: seq<seq<int>>): (es: seq<(int, LabelledExample)>)
    ensures |es| == |rows|
    ensures forall i :: 0 <= i < |rows| ==> es[i] == SplitRow(rows[i])
  {
    seq(|rows|, i requires 0 <= i < |rows| => SplitRow(rows[i]))
  }
}
