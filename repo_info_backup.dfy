/**
 * tools/repo_info_backup.py: `get_repo_structure` reads the walk into a dict keyed by each
 * root's relative path, and `display_structure` prints that dict as an indented tree.
 *
 * The dict is a sequence of key-value items in insertion order, as a Python dict iterates:
 * assigning to a present key replaces its value where it stands, assigning to a new key puts
 * it last.
 */
module RepoInfoBackup {
  import opened PyStr
  import opened Walk

  /** The value stored for one root: `{'files': ..., 'dirs': ...}`. */
  datatype Listing = Listing(files: seq<string>, dirs: seq<string>)

  type Structure = seq<(string, Listing)>

  function Keys(d: Structure): (ks: seq<string>)
    ensures |ks| == |d| && forall i :: 0 <= i < |d| ==> ks[i] == d[i].0
  {
    seq(|d|, i requires 0 <= i < |d| => d[i].0)
  }

  predicate Distinct(ks: seq<string>) {
    forall i, j :: 0 <= i < j < |ks| ==> ks[i] != ks[j]
  }

  /** Where the dict keeps key `k`: the first item with that key. */
  function IndexOf(d: Structure, k: string): (i: nat)
    requires k in Keys(d)
    ensures i < |d| && d[i].0 == k
    ensures forall j :: 0 <= j < i ==> d[j].0 != k
  {
    if d[0].0 == k then 0
    else
      assert k in Keys(d[1..]) by {
        var i :| 0 <= i < |d| && Keys(d)[i] == k;
        assert Keys(d[1..])[i - 1] == k;
      }
      1 + IndexOf(d[1..], k)
  }

  /** `d[k]`, for a key the dict holds. */
  function Lookup(d: Structure, k: string): Listing
    requires k in Keys(d)
  {
    d[IndexOf(d, k)].1
  }

  /** `d[k] = v`: a key already present keeps its place and takes `v`; a new key goes last. */
  function Put(d: Structure, k: string, v: Listing): (r: Structure)
    ensures k in Keys(d) ==> Keys(r) == Keys(d)
    ensures k !in Keys(d) ==> r == d + [(k, v)]
    ensures k in Keys(r) && Lookup(r, k) == v
    ensures forall k' :: k' != k && k' in Keys(d) ==> k' in Keys(r) && Lookup(r, k') == Lookup(d, k')
    ensures forall p :: p in r ==> p in d || p == (k, v)
  {
    if k in Keys(d) then
      var r := d[IndexOf(d, k) := (k, v)];
      assert Keys(r) == Keys(d);
      r
    else
      var r := d + [(k, v)];
      assert Keys(r)[|d|] == k;
      forall k' | k' in Keys(d) ensures k' in Keys(r) && IndexOf(r, k') == IndexOf(d, k') {
        assert Keys(r)[IndexOf(d, k')] == k';
      }
      r
  }

  /** What `get_repo_structure` stores for a root: its visible files, and its visible dirs other than `venv`. */
  function ListingOf(e: Entry): (l: Listing)
    ensures forall f :: f in l.files <==> f in e.files && !Hidden(f)
    ensures forall d :: d in l.dirs <==> d in e.dirs && !Hidden(d) && d != "venv"
  {
    Listing(Visible(e.files), Keep(e.dirs, d => !Hidden(d) && d != "venv"))
  }

  /** The key of a root: its relative path, the repository itself being `ROOT`. */
  function Key(rel: seq<string>): string {
    var p := RelPath(rel);
    if p == "." then "ROOT" else p
  }

  /** The roots of the walk that `get_repo_structure` does not pass over, in walk order. */
  function Visited(base: seq<string>, walk: seq<Entry>): (es: seq<Entry>)
    ensures |es| <= |walk|
  {
    if walk == [] then []
    else
      var e := walk[|walk| - 1];
      Visited(base, walk[..|walk| - 1]) + (if Skipped(base, e) then [] else [e])
  }

  /** The roots visited are exactly those not passed over. */
  lemma {:induction false} VisitedMembers(base: seq<string>, walk: seq<Entry>)
    ensures forall e :: e in Visited(base, walk) <==> e in walk && !Skipped(base, e)
  {
    if walk != [] {
      var n := |walk| - 1;
      VisitedMembers(base, walk[..n]);
      assert walk == walk[..n] + [walk[n]];
    }
  }

  /** The assignments `structure[rel_path] = {...}` made for the roots `es`, in order. */
  function Assignments(es: seq<Entry>): (a: Structure)
    ensures |a| == |es|
    ensures forall i :: 0 <= i < |es| ==> a[i] == (Key(es[i].rel), ListingOf(es[i]))
  {
    seq(|es|, i requires 0 <= i < |es| => (Key(es[i].rel), ListingOf(es[i])))
  }

  /** The dict that a run of assignments leaves, starting from `{}`. */
  function Fill(a: Structure): Structure {
    if a == [] then [] else Put(Fill(a[..|a| - 1]), a[|a| - 1].0, a[|a| - 1].1)
  }

  /** The dict `get_repo_structure` returns for the repository parts `base` and the walk `walk`. */
  function StructureOf(base: seq<string>, walk: seq<Entry>): Structure {
    Fill(Assignments(Visited(base, walk)))
  }

  method GetRepoStructure(base: seq<string>, walk: seq<Entry>) returns (structure: Structure)
    ensures structure == StructureOf(base, walk)
  {
    structure := [];
    for n := 0 to |walk|
      invariant structure == StructureOf(base, walk[..n])
    {
      var e := walk[n];
      StructureSnoc(base, walk[..n], e);
      assert walk[..n] + [e] == walk[..n + 1];
      if Skipped(base, e) {
        continue;
      }
      var relPath := RelPath(e.rel);
      if relPath == "." {
        relPath := "ROOT";
      }
      structure := Put(structure, relPath, ListingOf(e));
    }
    assert walk[..|walk|] == walk;
  }

  /** One more root of the walk either is passed over or makes one more assignment. */
  lemma StructureSnoc(base: seq<string>, walk: seq<Entry>, e: Entry)
    ensures StructureOf(base, walk + [e]) ==
      if Skipped(base, e) then StructureOf(base, walk) else Put(StructureOf(base, walk), Key(e.rel), ListingOf(e))
  {
    VisitedSnoc(base, walk, e);
    var vs := Visited(base, walk);
    if Skipped(base, e) {
      assert Visited(base, walk + [e]) == vs;
    } else {
      assert Visited(base, walk + [e]) == vs + [e];
      AssignmentsSnoc(vs, e);
      FillSnoc(Assignments(vs), (Key(e.rel), ListingOf(e)));
    }
  }

  lemma VisitedSnoc(base: seq<string>, walk: seq<Entry>, e: Entry)
    ensures Visited(base, walk + [e]) == Visited(base, walk) + (if Skipped(base, e) then [] else [e])
  {
    assert (walk + [e])[..|walk|] == walk;
  }

  lemma AssignmentsSnoc(es: seq<Entry>, e: Entry)
    ensures Assignments(es + [e]) == Assignments(es) + [(Key(e.rel), ListingOf(e))]
  {
  }

  lemma FillSnoc(a: Structure, item: (string, Listing))
    ensures Fill(a + [item]) == Put(Fill(a), item.0, item.1)
  {
    assert (a + [item])[..|a|] == a;
  }

  /** After any run of assignments the keys are distinct, and are exactly the keys assigned. */
  lemma {:induction false} FillKeys(a: Structure)
    ensures Distinct(Keys(Fill(a)))
    ensures forall k :: k in Keys(Fill(a)) <==> k in Keys(a)
  {
    if a != [] {
      var init := a[..|a| - 1];
      FillKeys(init);
      forall k ensures k in Keys(a) <==> k in Keys(init) || k == a[|a| - 1].0 {
        if k in Keys(a) {
          var i :| 0 <= i < |a| && Keys(a)[i] == k;
          assert i < |init| ==> Keys(init)[i] == k;
        }
        if k in Keys(init) {
          var i :| 0 <= i < |init| && Keys(init)[i] == k;
          assert Keys(a)[i] == k;
        }
      }
      assert Keys(a)[|a| - 1] == a[|a| - 1].0;
      var d := Fill(init);
      var k := a[|a| - 1].0;
      if k !in Keys(d) {
        assert Keys(Fill(a)) == Keys(d) + [k];
      }
    }
  }

  /** Every item of the dict is one of the assignments: a value is only ever stored, never made up. */
  lemma {:induction false} FillItems(a: Structure)
    ensures forall p :: p in Fill(a) ==> p in a
  {
    if a != [] {
      var init := a[..|a| - 1];
      FillItems(init);
      assert forall p :: p in init ==> p in a;
    }
  }

  /** The value under a key is the one its last assignment stored: a later assignment overwrites an earlier one. */
  lemma {:induction false} FillLastWins(a: Structure, i: nat)
    requires i < |a|
    requires forall j :: i < j < |a| ==> a[j].0 != a[i].0
    ensures a[i].0 in Keys(Fill(a)) && Lookup(Fill(a), a[i].0) == a[i].1
  {
    var n := |a| - 1;
    if i == n {
      FillLast(a);
    } else {
      var init := a[..n];
      LaterKeysOfInit(a, i);
      FillLastWins(init, i);
      FillKeepsOther(a, a[i].0);
    }
  }

  /** The last assignment is what its key holds. */
  lemma FillLast(a: Structure)
    requires a != []
    ensures a[|a| - 1].0 in Keys(Fill(a)) && Lookup(Fill(a), a[|a| - 1].0) == a[|a| - 1].1
  {
    assert Fill(a) == Put(Fill(a[..|a| - 1]), a[|a| - 1].0, a[|a| - 1].1);
  }

  /** A key the last assignment does not touch keeps its value. */
  lemma FillKeepsOther(a: Structure, k: string)
    requires a != [] && a[|a| - 1].0 != k && k in Keys(Fill(a[..|a| - 1]))
    ensures k in Keys(Fill(a)) && Lookup(Fill(a), k) == Lookup(Fill(a[..|a| - 1]), k)
  {
    assert Fill(a) == Put(Fill(a[..|a| - 1]), a[|a| - 1].0, a[|a| - 1].1);
  }

  /** Dropping the last assignment keeps the earlier ones, and no later one reuses the key of item `i`. */
  lemma LaterKeysOfInit(a: Structure, i: nat)
    requires i < |a| - 1
    requires forall j :: i < j < |a| ==> a[j].0 != a[i].0
    ensures var init := a[..|a| - 1];
      init[i] == a[i] && forall j :: i < j < |init| ==> init[j].0 != init[i].0
  {
  }

  /** Assignments to distinct keys leave the dict holding exactly them, in order. */
  lemma {:induction false} FillDistinct(a: Structure)
    requires Distinct(Keys(a))
    ensures Fill(a) == a
  {
    if a != [] {
      var n := |a| - 1;
      var init := a[..n];
      DistinctInit(a);
      FillDistinct(init);
      assert Fill(a) == Put(init, a[n].0, a[n].1);
      assert init + [a[n]] == a;
    }
  }

  /** Without its last assignment, a list of distinct keys stays distinct and lacks the last key. */
  lemma DistinctInit(a: Structure)
    requires a != [] && Distinct(Keys(a))
    ensures Distinct(Keys(a[..|a| - 1])) && a[|a| - 1].0 !in Keys(a[..|a| - 1])
  {
    var n := |a| - 1;
    var init := a[..n];
    forall i, j | 0 <= i < j < |init| ensures Keys(init)[i] != Keys(init)[j] {
      assert Keys(a)[i] != Keys(a)[j];
    }
    forall i | 0 <= i < n ensures Keys(init)[i] != a[n].0 {
      assert Keys(a)[i] != Keys(a)[n];
    }
  }

  /** The keys assigned are the keys of the roots, one per root. */
  lemma AssignedKeys(es: seq<Entry>)
    ensures forall k :: k in Keys(Assignments(es)) <==> exists e :: e in es && Key(e.rel) == k
  {
    var a := Assignments(es);
    forall k ensures k in Keys(a) <==> exists e :: e in es && Key(e.rel) == k {
      if k in Keys(a) {
        var i :| 0 <= i < |a| && Keys(a)[i] == k;
        assert es[i] in es;
      }
      if exists e :: e in es && Key(e.rel) == k {
        var e :| e in es && Key(e.rel) == k;
        var i :| 0 <= i < |es| && es[i] == e;
        assert Keys(a)[i] == k;
      }
    }
  }

  /** The keys of the dict are distinct, and are exactly the keys of the roots not passed over. */
  lemma StructureKeys(base: seq<string>, walk: seq<Entry>)
    ensures Distinct(Keys(StructureOf(base, walk)))
    ensures forall k :: k in Keys(StructureOf(base, walk)) <==>
      exists e :: e in walk && !Skipped(base, e) && Key(e.rel) == k
  {
    var es := Visited(base, walk);
    FillKeys(Assignments(es));
    AssignedKeys(es);
    VisitedMembers(base, walk);
  }

  /**
   * When the roots not passed over have distinct keys, as the walk's distinct directories do
   * unless one at the top is itself named `ROOT`, the dict holds one item per such root, in
   * walk order.
   */
  lemma StructureInWalkOrder(base: seq<string>, walk: seq<Entry>)
    requires Distinct(Keys(Assignments(Visited(base, walk))))
    ensures StructureOf(base, walk) == Assignments(Visited(base, walk))
  {
    FillDistinct(Assignments(Visited(base, walk)));
  }

  /** `venv` is never listed among a root's dirs, whatever the walk gives. */
  lemma NoVenvListed(base: seq<string>, walk: seq<Entry>, k: string)
    requires k in Keys(StructureOf(base, walk))
    ensures "venv" !in Lookup(StructureOf(base, walk), k).dirs
  {
    var es := Visited(base, walk);
    var a := Assignments(es);
    var d := Fill(a);
    FillItems(a);
    assert d[IndexOf(d, k)] in a;
  }

  /** A repository that itself sits under a hidden or `venv` directory shows as an empty dict. */
  lemma {:induction false} HiddenRepository(base: seq<string>, walk: seq<Entry>)
    requires (exists i :: 0 <= i < |base| && Hidden(base[i])) || "venv" in base
    ensures Visited(base, walk) == [] && StructureOf(base, walk) == []
  {
    if walk != [] {
      var e := walk[|walk| - 1];
      var parts := base + e.rel;
      if exists i :: 0 <= i < |base| && Hidden(base[i]) {
        var i :| 0 <= i < |base| && Hidden(base[i]);
        assert parts[i] == base[i];
      } else {
        var i :| 0 <= i < |base| && base[i] == "venv";
        assert parts[i] == "venv";
      }
      HiddenRepository(base, walk[..|walk| - 1]);
    }
  }

  /**
   * Only the repository itself, and a top-level directory named `ROOT`, have the key `ROOT`:
   * every deeper path holds a separator.
   */
  lemma KeyIsRoot(rel: seq<string>)
    requires Names(rel)
    ensures Key(rel) == "ROOT" <==> rel == [] || rel == ["ROOT"]
  {
    if |rel| >= 2 {
      JoinSeparators(rel);
      assert CountChar("ROOT", '/') == 0 && CountChar(".", '/') == 0;
    }
  }

  /** `path.count(os.sep)`, and no indent for `ROOT`. */
  function Level(path: string): nat {
    if path != "ROOT" then CountChar(path, '/') else 0
  }

  /** The line that opens a root's block. */
  function Header(path: string): string {
    if path == "ROOT" then RootHeader else Indent(Level(path)) + Basename(path) + "/"
  }

  /** The mark of the `i`-th of `count` dir lines: a closing elbow only for the last dir of a root without files. */
  function DirMark(i: nat, count: nat, noFiles: bool): string {
    if i == count - 1 && noFiles then Elbow else Tee
  }

  /** The first `n` dir lines of a root. */
  function DirLines(indent: string, dirs: seq<string>, noFiles: bool, n: nat): seq<string>
    requires n <= |dirs|
  {
    if n == 0 then []
    else DirLines(indent, dirs, noFiles, n - 1) + [Line(indent, DirMark(n - 1, |dirs|, noFiles), dirs[n - 1], "/")]
  }

  /** The lines printed for one item of the dict. */
  function Block(path: string, l: Listing): seq<string> {
    var indent := Indent(Level(path));
    [Header(path)] + Items(indent, Tee, l.files, "") + DirLines(indent, l.dirs, l.files == [], |l.dirs|)
  }

  /** The lines printed for the items of `d`, in order. */
  function Blocks(d: Structure): seq<string> {
    if d == [] then [] else Blocks(d[..|d| - 1]) + Block(d[|d| - 1].0, d[|d| - 1].1)
  }

  /** Everything `display_structure` prints for the dict `d`. */
  function Display(d: Structure): seq<string> {
    [Title, Rule()] + Blocks(d)
  }

  /** `display_structure`: reads the structure, then prints it. */
  method DisplayStructure(base: seq<string>, walk: seq<Entry>) returns (lines: seq<string>)
    ensures lines == Display(StructureOf(base, walk))
  {
    var structure := GetRepoStructure(base, walk);
    lines := PrintStructure(structure);
  }

  /** The printing part of `display_structure`: the title, the rule and each item's block. */
  method PrintStructure(structure: Structure) returns (lines: seq<string>)
    ensures lines == Display(structure)
  {
    lines := [Title, Rule()];
    for n := 0 to |structure|
      invariant lines == Display(structure[..n])
    {
      assert structure[..n + 1][..n] == structure[..n];
      var (path, content) := structure[n];
      var block := PrintBlock(path, content);
      lines := lines + block;
    }
    assert structure[..|structure|] == structure;
  }

  /** The body of the loop of `display_structure`: the lines for one item of the dict. */
  method PrintBlock(path: string, content: Listing) returns (lines: seq<string>)
    ensures lines == Block(path, content)
  {
    var indentLevel := if path != "ROOT" then CountChar(path, '/') else 0;
    var indent := Indent(indentLevel);
    if path == "ROOT" {
      lines := [RootHeader];
    } else {
      lines := [indent + Basename(path) + "/"];
    }
    var fileLines := PrintFiles(indent, content.files);
    var dirLines := PrintDirs(indent, content.dirs, content.files);
    lines := lines + fileLines + dirLines;
  }

  /** The loop over a root's files. */
  method PrintFiles(indent: string, files: seq<string>) returns (lines: seq<string>)
    ensures lines == Items(indent, Tee, files, "")
  {
    lines := [];
    for i := 0 to |files|
      invariant lines == Items(indent, Tee, files[..i], "")
    {
      assert files[..i + 1][..i] == files[..i];
      lines := lines + [Line(indent, "  ├──", files[i], "")];
    }
    assert files[..|files|] == files;
  }

  /** The loop over a root's dirs, whose last line closes with an elbow when the root has no files. */
  method PrintDirs(indent: string, dirs: seq<string>, files: seq<string>) returns (lines: seq<string>)
    ensures lines == DirLines(indent, dirs, files == [], |dirs|)
  {
    lines := [];
    for i := 0 to |dirs|
      invariant lines == DirLines(indent, dirs, files == [], i)
    {
      var prefix := if i == |dirs| - 1 && files == [] then "  └──" else "  ├──";
      lines := lines + [Line(indent, prefix, dirs[i], "/")];
    }
  }

  /** The `i`-th dir line of a root, by index. */
  lemma {:induction false} DirLinesAt(indent: string, dirs: seq<string>, noFiles: bool, n: nat)
    requires n <= |dirs|
    ensures |DirLines(indent, dirs, noFiles, n)| == n
    ensures forall i :: 0 <= i < n ==>
      DirLines(indent, dirs, noFiles, n)[i] == indent + DirMark(i, |dirs|, noFiles) + " " + dirs[i] + "/"
  {
    if n > 0 {
      DirLinesAt(indent, dirs, noFiles, n - 1);
    }
  }

  /**
   * A root's block: its header, then one `├──` line per file, then one line per dir, of which
   * only the last, and only when the root lists no files, closes with `└──`.
   */
  lemma BlockShape(path: string, l: Listing)
    ensures var b := Block(path, l);
      var indent := Indent(Level(path));
      && |b| == 1 + |l.files| + |l.dirs|
      && b[0] == Header(path)
      && (forall i :: 0 <= i < |l.files| ==> b[1 + i] == indent + "  ├── " + l.files[i])
      && (forall j :: 0 <= j < |l.dirs| ==>
            b[1 + |l.files| + j] == indent + (if j == |l.dirs| - 1 && l.files == [] then "  └──" else "  ├──") + " " + l.dirs[j] + "/")
  {
    DirLinesAt(Indent(Level(path)), l.dirs, l.files == [], |l.dirs|);
  }

  /**
   * The header of a root below the repository is its name followed by `/`, indented two
   * spaces per level below the top; the repository itself is headed `DEVOPS-LAB-AWS/`.
   */
  lemma HeaderOfRoot(rel: seq<string>)
    requires Names(rel) && rel != ["ROOT"]
    ensures rel == [] ==> Header(Key(rel)) == RootHeader
    ensures rel != [] ==> Header(Key(rel)) == Indent(|rel| - 1) + rel[|rel| - 1] + "/"
  {
    KeyIsRoot(rel);
    if rel != [] {
      JoinSeparators(rel);
      BasenameOfJoin(rel);
    }
  }
}
