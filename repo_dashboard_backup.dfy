/**
 * tools/repo_dashboard_backup.py: `display_structure` prints the tree straight from the walk,
 * without a dict in between. The repository is headed once, before the walk; the
 * repository's own entry prints nothing; every dir not starting with `.` is listed, `venv`
 * included, and every dir line closes with `└──`.
 */
module RepoDashboardBackup {
  import opened PyStr
  import opened Walk
  import RepoInfoBackup

  /**
   * The lines printed for one root of the walk. `os.path.basename(root)` is the last part of
   * the root's path, which for a root below the repository is the last part of `e.rel`.
   */
  function RootLines(base: seq<string>, e: Entry): seq<string> {
    var relPath := RelPath(e.rel);
    if Skipped(base, e) || relPath == "." then []
    else
      var indent := Indent(CountChar(relPath, '/'));
      [indent + e.rel[|e.rel| - 1] + "/"]
        + Items(indent, Tee, Visible(e.files), "")
        + Items(indent, Elbow, Visible(e.dirs), "/")
  }

  /** The lines printed for the roots of `walk`, in walk order. */
  function Tree(base: seq<string>, walk: seq<Entry>): seq<string> {
    if walk == [] then [] else Tree(base, walk[..|walk| - 1]) + RootLines(base, walk[|walk| - 1])
  }

  /** Everything `display_structure` prints. */
  function Display(base: seq<string>, walk: seq<Entry>): seq<string> {
    [Title, Rule(), RootHeader] + Tree(base, walk)
  }

  method DisplayStructure(base: seq<string>, walk: seq<Entry>) returns (lines: seq<string>)
    ensures lines == Display(base, walk)
  {
    lines := [Title, Rule(), RootHeader];
    for n := 0 to |walk|
      invariant lines == Display(base, walk[..n])
    {
      DisplaySnoc(base, walk, n);
      var rootLines := PrintRoot(base, walk[n]);
      lines := lines + rootLines;
    }
    assert walk[..|walk|] == walk;
  }

  lemma DisplaySnoc(base: seq<string>, walk: seq<Entry>, n: nat)
    requires n < |walk|
    ensures Display(base, walk[..n + 1]) == Display(base, walk[..n]) + RootLines(base, walk[n])
  {
    assert walk[..n + 1][..n] == walk[..n];
  }

  /** The body of the loop, for one root of the walk; `continue` is an early return of no lines. */
  method PrintRoot(base: seq<string>, e: Entry) returns (lines: seq<string>)
    ensures lines == RootLines(base, e)
  {
    if Skipped(base, e) {
      return [];
    }
    var relPath := RelPath(e.rel);
    if relPath == "." {
      return [];
    }
    var indent := Indent(CountChar(relPath, '/'));
    var header := indent + e.rel[|e.rel| - 1] + "/";
    var fileLines := PrintVisible(indent, "  ├──", e.files, "");
    var dirLines := PrintVisible(indent, "  └──", e.dirs, "/");
    lines := [header] + fileLines + dirLines;
  }

  /** A loop over names that prints a tree line for each one not starting with `.`. */
  method PrintVisible(indent: string, mark: string, names: seq<string>, tail: string) returns (lines: seq<string>)
    ensures lines == Items(indent, mark, Visible(names), tail)
  {
    lines := [];
    for i := 0 to |names|
      invariant lines == Items(indent, mark, Visible(names[..i]), tail)
    {
      assert names[..i + 1][..i] == names[..i];
      if !Hidden(names[i]) {
        assert Visible(names[..i + 1]) == Visible(names[..i]) + [names[i]];
        lines := lines + [Line(indent, mark, names[i], tail)];
      }
    }
    assert names[..|names|] == names;
  }

  /** A root prints nothing exactly when it is passed over or is the repository itself. */
  lemma RootSilent(base: seq<string>, e: Entry)
    requires Names(e.rel)
    ensures RootLines(base, e) == [] <==> Skipped(base, e) || e.rel == []
  {
    if e.rel != [] && RelPath(e.rel) == "." {
      KeyNotDot(e.rel);
    }
  }

  /** A path joined from names is never `.`. */
  lemma KeyNotDot(rel: seq<string>)
    requires rel != [] && Names(rel)
    ensures Join("/", rel) != "."
  {
    if |rel| >= 2 {
      JoinSeparators(rel);
      assert CountChar(".", '/') == 0;
    }
  }

  /**
   * A root below the repository that is not passed over prints its name and `/`, indented
   * two spaces per level below the top, then one `├──` line per visible file and one `└──`
   * line per visible dir, in walk order.
   */
  lemma RootShape(base: seq<string>, e: Entry)
    requires Names(e.rel) && e.rel != [] && !Skipped(base, e)
    ensures var b := RootLines(base, e);
      var indent := Indent(|e.rel| - 1);
      var files, dirs := Visible(e.files), Visible(e.dirs);
      && |b| == 1 + |files| + |dirs|
      && b[0] == indent + e.rel[|e.rel| - 1] + "/"
      && (forall i :: 0 <= i < |files| ==> b[1 + i] == indent + "  ├── " + files[i])
      && (forall j :: 0 <= j < |dirs| ==> b[1 + |files| + j] == indent + "  └── " + dirs[j] + "/")
  {
    KeyNotDot(e.rel);
    JoinSeparators(e.rel);
  }

  /** A `venv` directory inside a visited root is listed, unlike in the structure of tools/repo_info_backup.py. */
  lemma VenvListed(base: seq<string>, e: Entry)
    requires Names(e.rel) && e.rel != [] && !Skipped(base, e) && "venv" in e.dirs
    ensures Indent(|e.rel| - 1) + "  └── " + "venv" + "/" in RootLines(base, e)
  {
    var files, dirs := Visible(e.files), Visible(e.dirs);
    assert "venv"[0] == 'v';
    assert "venv" in dirs;
    var j :| 0 <= j < |dirs| && dirs[j] == "venv";
    RootShape(base, e);
    assert RootLines(base, e)[1 + |files| + j] == Indent(|e.rel| - 1) + "  └── " + "venv" + "/";
  }

  /** Both scripts head a root below the repository with the same line. */
  lemma HeadersAgree(base: seq<string>, e: Entry)
    requires Names(e.rel) && e.rel != [] && e.rel != ["ROOT"] && !Skipped(base, e)
    ensures RootLines(base, e)[0] == RepoInfoBackup.Header(RepoInfoBackup.Key(e.rel))
  {
    RootShape(base, e);
    RepoInfoBackup.HeaderOfRoot(e.rel);
  }
}
