/**
 * What tools/repo_info_backup.py and tools/repo_dashboard_backup.py share: the entries of
 * `os.walk(repo_path)` they read, the test that skips hidden and `venv` roots, the path
 * arithmetic they print with, and the lines of the tree they draw.
 *
 * The walk itself is an input. Each entry gives a root by its path parts below the
 * repository (`[]` for the repository itself), then the sub-directory and file names listed
 * in it, in the order the walk lists them. Paths use `/` as `os.sep`.
 */
module Walk {
  import opened PyStr

  /** One triple `(root, dirs, files)` of the walk; `Path(root).parts` is the repository's parts followed by `rel`. */
  datatype Entry = Entry(rel: seq<string>, dirs: seq<string>, files: seq<string>)

  const Title := "Estrutura do Repositório DEVOPS-LAB-AWS:"
  const RootHeader := "DEVOPS-LAB-AWS/"

  /** `"=" * 50`, the rule printed under the title. */
  function Rule(): (r: string)
    ensures |r| == 50 && forall i :: 0 <= i < |r| ==> r[i] == '='
  {
    RepeatChar('=', 50)
  }

  function RepeatChar(c: char, n: nat): (r: string)
    ensures |r| == n && forall i :: 0 <= i < n ==> r[i] == c
  {
    if n == 0 then [] else [c] + RepeatChar(c, n - 1)
  }

  /** `name.startswith('.')`. */
  predicate Hidden(name: string) {
    StartsWith(name, ".")
  }

  /** A name the walk can give a file or directory: not empty, no separator, not `.` or `..`. */
  predicate Name(n: string) {
    n != [] && '/' !in n && n != "." && n != ".."
  }

  predicate Names(ns: seq<string>) {
    forall i :: 0 <= i < |ns| ==> Name(ns[i])
  }

  /**
   * The test both scripts use to pass over a root: one of the parts of its full path starts
   * with `.`, or is `venv`. The repository's own parts `base` are tested too.
   */
  predicate Skipped(base: seq<string>, e: Entry) {
    var parts := base + e.rel;
    (exists i :: 0 <= i < |parts| && Hidden(parts[i])) || "venv" in parts
  }

  /** `os.path.relpath(root, repo_path)`. */
  function RelPath(rel: seq<string>): string {
    if rel == [] then "." else Join("/", rel)
  }

  /** `os.path.basename(path)`: the longest end of `path` without a separator. */
  function Basename(path: string): (b: string)
    ensures |b| <= |path| && b == path[|path| - |b|..]
    ensures '/' !in b
    ensures |b| < |path| ==> path[|path| - |b| - 1] == '/'
  {
    if path == [] || path[|path| - 1] == '/' then []
    else Basename(path[..|path| - 1]) + [path[|path| - 1]]
  }

  /** `"  " * level`. */
  function Indent(level: nat): (r: string)
    ensures |r| == 2 * level && forall i :: 0 <= i < |r| ==> r[i] == ' '
  {
    RepeatChar(' ', 2 * level)
  }

  /** The names that do not start with `.`, in order. */
  function Visible(names: seq<string>): (r: seq<string>)
    ensures forall n :: n in r <==> n in names && !Hidden(n)
  {
    Keep(names, n => !Hidden(n))
  }

  /** The tree line `f"{indent}{mark} {name}{tail}"`. */
  function Line(indent: string, mark: string, name: string, tail: string): string {
    indent + mark + " " + name + tail
  }

  /** One tree line per name, in order. */
  function Items(indent: string, mark: string, names: seq<string>, tail: string): (r: seq<string>)
    ensures |r| == |names|
    ensures forall i :: 0 <= i < |names| ==> r[i] == Line(indent, mark, names[i], tail)
  {
    if names == [] then []
    else Items(indent, mark, names[..|names| - 1], tail) + [Line(indent, mark, names[|names| - 1], tail)]
  }

  const Tee := "  ├──"
  const Elbow := "  └──"

  lemma {:induction false} CountCharAppend(a: string, b: string, c: char)
    ensures CountChar(a + b, c) == CountChar(a, c) + CountChar(b, c)
  {
    if a != [] {
      assert (a + b)[1..] == a[1..] + b;
      CountCharAppend(a[1..], b, c);
    } else {
      assert a + b == b;
    }
  }

  lemma {:induction false} CountCharAbsent(s: string, c: char)
    requires c !in s
    ensures CountChar(s, c) == 0
  {
    if s != [] {
      assert c !in s[1..];
      CountCharAbsent(s[1..], c);
    }
  }

  /** A path joined from `n` names holds `n - 1` separators: its depth below the repository, less one. */
  lemma {:induction false} JoinSeparators(rel: seq<string>)
    requires rel != [] && Names(rel)
    ensures CountChar(Join("/", rel), '/') == |rel| - 1
  {
    CountCharAbsent(rel[0], '/');
    if |rel| > 1 {
      JoinSeparators(rel[1..]);
      CountCharAppend(rel[0], "/" + Join("/", rel[1..]), '/');
      CountCharAppend("/", Join("/", rel[1..]), '/');
      assert rel[0] + "/" + Join("/", rel[1..]) == rel[0] + ("/" + Join("/", rel[1..]));
    }
  }

  /** The last name of a joined path stands after its last separator. */
  lemma {:induction false} JoinSnoc(rel: seq<string>)
    requires |rel| >= 2
    ensures Join("/", rel) == Join("/", rel[..|rel| - 1]) + "/" + rel[|rel| - 1]
  {
    var n := |rel|;
    if n > 2 {
      JoinSnoc(rel[1..]);
      assert rel[1..][..n - 2] == rel[..n - 1][1..];
    }
  }

  /** No end of `path` free of separators is longer than its base name. */
  lemma {:induction false} BasenameLongest(path: string, s: string)
    requires |s| <= |path| && path[|path| - |s|..] == s && '/' !in s
    ensures |Basename(path)| >= |s|
    decreases |path|
  {
    if s != [] {
      var n := |path|;
      assert path[n - 1] == s[|s| - 1];
      assert path[..n - 1][n - |s|..] == s[..|s| - 1];
      BasenameLongest(path[..n - 1], s[..|s| - 1]);
    }
  }

  /** The base name of a path is what follows its last separator. */
  lemma BasenameAfter(pre: string, last: string)
    requires '/' !in last
    requires pre == [] || pre[|pre| - 1] == '/'
    ensures Basename(pre + last) == last
  {
    BasenameLongest(pre + last, last);
    if pre != [] {
      BasenameShorter(pre + last, |pre| - 1);
    }
  }

  /** The base name of a path never reaches back to a separator. */
  lemma {:induction false} BasenameShorter(path: string, j: nat)
    requires j < |path| && path[j] == '/'
    ensures |Basename(path)| < |path| - j
  {
    var n := |path|;
    if path[n - 1] != '/' {
      BasenameShorter(path[..n - 1], j);
    }
  }

  /** The base name of a joined path is its last name. */
  lemma BasenameOfJoin(rel: seq<string>)
    requires rel != [] && Names(rel)
    ensures Basename(Join("/", rel)) == rel[|rel| - 1]
  {
    if |rel| == 1 {
      BasenameAfter([], rel[0]);
    } else {
      JoinSnoc(rel);
      BasenameAfter(Join("/", rel[..|rel| - 1]) + "/", rel[|rel| - 1]);
    }
  }
}
