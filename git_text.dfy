/**
 * Post-processing of git's text output, common to tools/dashboard.py and
 * tools/repo_dashboard.py: commit lists, branch lists, `rev-list --count`, the weekday
 * histogram, the top-level folder of a porcelain status line, `Counter` over folders, and
 * the pull-request URL.
 */
module GitText {
  import opened PyStr
  import opened Runner

  /** `stdout.strip().splitlines()`. */
  function StrippedLines(out: string): (lines: seq<string>)
    ensures lines == [] <==> AllSpace(out)
  {
    SplitLines(Strip(out))
  }

  /** `get_status`: `text.splitlines() if text else []` where `text` is the stripped log output. */
  function CommitList(out: string): (commits: seq<string>)
    ensures commits == [] <==> AllSpace(out)
    ensures forall k :: 0 <= k < |commits| ==> NoBreak(commits[k])
  {
    var text := Strip(out);
    if text != [] then SplitLines(text) else []
  }

  /** What `git log --oneline` prints for the commit summaries `ls`. */
  predicate OnelineLog(ls: seq<string>) {
    && ls != []
    && (forall k :: 0 <= k < |ls| ==> ls[k] != [] && NoBreak(ls[k]))
    && !IsSpace(ls[0][0])
    && !IsSpace(ls[|ls| - 1][|ls[|ls| - 1]| - 1])
  }

  /** A oneline log is its summaries joined by "\n", plus a final "\n". */
  lemma LogShape(ls: seq<string>)
    requires ls != []
    ensures Terminated(ls) == Terminated(ls[..|ls| - 1]) + ls[|ls| - 1] + "\n"
  {
    SplitLast(ls);
    TerminatedSnoc(ls[..|ls| - 1], ls[|ls| - 1]);
  }

  /** The joined summaries split back into the summaries. */
  lemma SplitJoinedLog(ls: seq<string>)
    requires OnelineLog(ls)
    ensures SplitLines(Terminated(ls[..|ls| - 1]) + ls[|ls| - 1]) == ls
  {
    var init, last := ls[..|ls| - 1], ls[|ls| - 1];
    assert forall k :: 0 <= k < |init| ==> NoBreak(init[k]);
    SplitLinesTerminated(init, last);
    SplitLinesSingle(last);
    SplitLast(ls);
  }

  /** The commit list read back from a log is exactly the summaries the log printed. */
  lemma CommitListOfLog(ls: seq<string>)
    requires OnelineLog(ls)
    ensures CommitList(Terminated(ls)) == ls
  {
    var init, last := ls[..|ls| - 1], ls[|ls| - 1];
    var joined := Terminated(init) + last;
    LogShape(ls);
    assert joined[0] == ls[0][0] by {
      if init != [] { assert joined[0] == init[0][0]; } else { assert joined == last; }
    }
    assert joined[|joined| - 1] == last[|last| - 1];
    assert Terminated(ls) == [] + joined + "\n";
    StripPadded([], joined, "\n");
    SplitJoinedLog(ls);
  }

  /** Strings without whitespace at either end. */
  predicate Stripped(s: string) {
    s == [] || (!IsSpace(s[0]) && !IsSpace(s[|s| - 1]))
  }

  /** Stripping cannot bring in a substring the line did not have. */
  lemma StripKeepsOut(b: string, sub: string)
    requires !Contains(b, sub)
    ensures !Contains(Strip(b), sub)
  {
    if Contains(Strip(b), sub) {
      StripWithin(b);
      ContainsWithin(b, Strip(b), sub);
    }
  }

  /**
   * tools/dashboard.py `get_status`: `[b.strip() for b in lines if '->' not in b]`, which
   * drops the symbolic `origin/HEAD -> origin/main` line of `git branch -r`.
   */
  function RemoteNames(lines: seq<string>): (names: seq<string>)
    ensures |names| <= |lines|
    ensures forall k :: 0 <= k < |names| ==> !Contains(names[k], "->") && Stripped(names[k])
  {
    if lines == [] then []
    else if !Contains(lines[0], "->") then
      StripKeepsOut(lines[0], "->");
      [Strip(lines[0])] + RemoteNames(lines[1..])
    else RemoteNames(lines[1..])
  }

  /** Every line without "->" is kept, stripped, and every kept name comes from such a line. */
  lemma {:induction false} RemoteNamesExact(lines: seq<string>)
    ensures forall k :: 0 <= k < |lines| && !Contains(lines[k], "->") ==> Strip(lines[k]) in RemoteNames(lines)
    ensures forall n :: n in RemoteNames(lines) ==>
      exists k :: 0 <= k < |lines| && !Contains(lines[k], "->") && n == Strip(lines[k])
  {
    if lines != [] {
      var tail := lines[1..];
      RemoteNamesExact(tail);
      assert forall k :: 1 <= k < |lines| ==> lines[k] == tail[k - 1];
      forall n | n in RemoteNames(tail)
        ensures exists k :: 0 <= k < |lines| && !Contains(lines[k], "->") && n == Strip(lines[k])
      {
        var j :| 0 <= j < |tail| && !Contains(tail[j], "->") && n == Strip(tail[j]);
        assert lines[j + 1] == tail[j];
      }
    }
  }

  /** tools/repo_dashboard.py `get_status`: `[b.strip() for b in lines]`, with no filter. */
  function StripEach(lines: seq<string>): (names: seq<string>)
    ensures |names| == |lines|
    ensures forall k :: 0 <= k < |lines| ==> names[k] == Strip(lines[k])
  {
    if lines == [] then [] else [Strip(lines[0])] + StripEach(lines[1..])
  }

  /** `'->' not in b`: the test tools/dashboard.py keeps a remote-branch line by. */
  predicate NoAlias(line: string) {
    !Contains(line, "->")
  }

  /** The remote names are the lines without "->", in their order, each stripped. */
  lemma {:induction false} RemoteNamesInOrder(lines: seq<string>)
    ensures RemoteNames(lines) == StripEach(Keep(lines, NoAlias))
  {
    if lines != [] {
      var head, tail := [lines[0]], lines[1..];
      RemoteNamesInOrder(tail);
      assert lines == head + tail;
      KeepAppend(head, tail, NoAlias);
      assert head[..0] == [];
      StripEachAppend(Keep(head, NoAlias), Keep(tail, NoAlias));
    }
  }

  lemma StripEachAppend(a: seq<string>, b: seq<string>)
    ensures StripEach(a + b) == StripEach(a) + StripEach(b)
  {
    var l, r := StripEach(a + b), StripEach(a) + StripEach(b);
    assert forall k :: 0 <= k < |a + b| ==> l[k] == r[k] by {
      forall k | 0 <= k < |a + b| ensures l[k] == r[k] {
        if k < |a| { assert (a + b)[k] == a[k]; } else { assert (a + b)[k] == b[k - |a|]; }
      }
    }
  }

  /** Without a symbolic-ref line, the filtering and the unfiltered branch lists agree. */
  lemma {:induction false} RemoteNamesWithoutAliases(lines: seq<string>)
    requires forall k :: 0 <= k < |lines| ==> !Contains(lines[k], "->")
    ensures RemoteNames(lines) == StripEach(lines)
  {
    if lines != [] {
      assert forall k :: 0 <= k < |lines| - 1 ==> lines[1..][k] == lines[k + 1];
      RemoteNamesWithoutAliases(lines[1..]);
    }
  }

  /** `plot_commits`: `int(count) if count.isdigit() else 0` where `count` is the stripped output. */
  function ParseCount(out: string): (n: nat)
    ensures !IsDigits(Strip(out)) ==> n == 0
  {
    var count := Strip(out);
    if IsDigits(count) then DigitsValue(count) else 0
  }

  /** The count `git rev-list --count` prints, whatever whitespace surrounds it, is read back exactly. */
  lemma ParseCountOfDecimal(n: nat, pre: string, post: string)
    requires AllSpace(pre) && AllSpace(post)
    ensures ParseCount(pre + DecimalString(n) + post) == n
  {
    var d := DecimalString(n);
    assert IsDigit(d[0]) && IsDigit(d[|d| - 1]);
    StripPadded(pre, d, post);
    DecimalRoundTrip(n);
  }

  const Weekdays: seq<string> := ["Mon", "Tue", "Wed", "Thu", "Fri", "Sat", "Sun"]

  /** `Counter(xs).get(x, 0)`: how many entries of `xs` equal `x`. */
  function Occurrences(xs: seq<string>, x: string): nat {
    if xs == [] then 0
    else Occurrences(xs[..|xs| - 1], x) + (if xs[|xs| - 1] == x then 1 else 0)
  }

  /** How many entries of `xs` are not one of the seven weekday abbreviations. */
  function OtherLines(xs: seq<string>): nat {
    if xs == [] then 0
    else OtherLines(xs[..|xs| - 1]) + (if xs[|xs| - 1] in Weekdays then 0 else 1)
  }

  /** `plot_commits_weekday`: `[counter.get(d, 0) for d in dias]` over the stripped log lines. */
  function WeekdayCounts(out: string): (counts: seq<nat>)
    ensures |counts| == |Weekdays| == 7
  {
    var logs := StrippedLines(out);
    seq(7, i requires 0 <= i < 7 => Occurrences(logs, Weekdays[i]))
  }

  /** Every log line is counted under its own day once, and a line that is no day is not counted. */
  lemma {:induction false} WeekdayTally(xs: seq<string>)
    ensures Occurrences(xs, "Mon") + Occurrences(xs, "Tue") + Occurrences(xs, "Wed")
          + Occurrences(xs, "Thu") + Occurrences(xs, "Fri") + Occurrences(xs, "Sat")
          + Occurrences(xs, "Sun") + OtherLines(xs) == |xs|
  {
    if xs != [] {
      WeekdayTally(xs[..|xs| - 1]);
    }
  }

  /** The seven counts in Monday-to-Sunday order add up to the number of weekday lines of the log. */
  lemma WeekdayCountsTotal(out: string)
    ensures var counts := WeekdayCounts(out);
      counts[0] + counts[1] + counts[2] + counts[3] + counts[4] + counts[5] + counts[6]
      + OtherLines(StrippedLines(out)) == |StrippedLines(out)|
  {
    WeekdayTally(StrippedLines(out));
  }

  /** A day's bar is non-zero exactly when some stripped log line is that day's abbreviation. */
  lemma WeekdayCountsPresent(out: string, i: nat)
    requires i < 7
    ensures WeekdayCounts(out)[i] > 0 <==> Weekdays[i] in StrippedLines(out)
  {
    var logs := StrippedLines(out);
    if WeekdayCounts(out)[i] > 0 {
      OccurrencesPositive(logs, Weekdays[i]);
    } else if Weekdays[i] in logs {
      OccurrencesOfMember(logs, Weekdays[i]);
    }
  }

  lemma {:induction false} OccurrencesOfMember(xs: seq<string>, x: string)
    requires x in xs
    ensures Occurrences(xs, x) > 0
  {
    if xs[|xs| - 1] != x {
      assert x in xs[..|xs| - 1];
      OccurrencesOfMember(xs[..|xs| - 1], x);
    }
  }

  /** `line[3:]`: Python slicing past the end gives the empty string. */
  function AfterStatus(line: string): string {
    if |line| >= 3 then line[3..] else []
  }

  /** The text before the first `c` in `s`, or all of `s` when there is none. */
  function Before(s: string, c: char): (f: string)
    ensures |f| <= |s| && f == s[..|f|]
    ensures c !in f
    ensures |f| < |s| ==> s[|f|] == c
  {
    if s == [] || s[0] == c then [] else [s[0]] + Before(s[1..], c)
  }

  /** `path.split("/")[0] if "/" in path else path`. */
  function FolderOf(path: string): (f: string)
    ensures |f| <= |path| && '/' !in f && f == path[..|f|]
    ensures |f| < |path| ==> path[|f|] == '/'
  {
    if '/' in path then Before(path, '/') else path
  }

  /**
   * tools/dashboard.py `plot_changes_per_folder`: the folder of every status line longer than
   * three characters, in order.
   */
  function GuardedFolders(lines: seq<string>): (folders: seq<string>)
    ensures |folders| <= |lines|
    ensures forall k :: 0 <= k < |folders| ==> '/' !in folders[k]
  {
    if lines == [] then []
    else
      var line := lines[|lines| - 1];
      GuardedFolders(lines[..|lines| - 1]) + (if |line| > 3 then [FolderOf(line[3..])] else [])
  }

  /**
   * tools/repo_dashboard.py `plot_changes_per_folder`: the comprehension without the length
   * guard, so a short line contributes an empty folder name.
   */
  function UnguardedFolders(lines: seq<string>): (folders: seq<string>)
    ensures |folders| == |lines|
    ensures forall k :: 0 <= k < |lines| ==> folders[k] == FolderOf(AfterStatus(lines[k]))
  {
    if lines == [] then []
    else UnguardedFolders(lines[..|lines| - 1]) + [FolderOf(AfterStatus(lines[|lines| - 1]))]
  }

  /** When every status line is long enough, the guarded and the unguarded extractions agree. */
  lemma {:induction false} GuardedIsUnguarded(lines: seq<string>)
    requires forall k :: 0 <= k < |lines| ==> |lines[k]| > 3
    ensures GuardedFolders(lines) == UnguardedFolders(lines)
  {
    if lines != [] {
      GuardedIsUnguarded(lines[..|lines| - 1]);
    }
  }

  /** `len(line) > 3`: the test tools/dashboard.py puts before taking a folder from a status line. */
  predicate LongLine(line: string) {
    |line| > 3
  }

  /** The guarded extraction is the unguarded one over the lines longer than three characters, in order. */
  lemma {:induction false} GuardedSkipsShort(lines: seq<string>)
    ensures GuardedFolders(lines) == UnguardedFolders(Keep(lines, LongLine))
  {
    if lines != [] {
      var n := |lines| - 1;
      GuardedSkipsShort(lines[..n]);
      UnguardedAppend(Keep(lines[..n], LongLine), if LongLine(lines[n]) then [lines[n]] else []);
    }
  }

  lemma UnguardedAppend(a: seq<string>, b: seq<string>)
    ensures UnguardedFolders(a + b) == UnguardedFolders(a) + UnguardedFolders(b)
  {
    var l, r := UnguardedFolders(a + b), UnguardedFolders(a) + UnguardedFolders(b);
    assert forall k :: 0 <= k < |a + b| ==> l[k] == r[k] by {
      forall k | 0 <= k < |a + b| ensures l[k] == r[k] {
        if k < |a| { assert (a + b)[k] == a[k]; } else { assert (a + b)[k] == b[k - |a|]; }
      }
    }
  }

  /** One entry of `git status --porcelain`: the two status letters and the path. */
  datatype Change = Change(xy: string, path: string)

  predicate WellFormed(c: Change) {
    |c.xy| == 2 && NoBreak(c.xy) && c.path != [] && NoBreak(c.path)
  }

  /** The line `git status --porcelain` prints for an entry: "XY PATH". */
  function StatusLine(c: Change): string {
    c.xy + " " + c.path
  }

  /** The line of each entry, in order. */
  function StatusLines(cs: seq<Change>): (lines: seq<string>)
    ensures |lines| == |cs|
    ensures forall i :: 0 <= i < |cs| ==> lines[i] == StatusLine(cs[i])
  {
    if cs == [] then [] else [StatusLine(cs[0])] + StatusLines(cs[1..])
  }

  /** The whole output of `git status --porcelain` for the entries `cs`. */
  function StatusText(cs: seq<Change>): string {
    Terminated(StatusLines(cs))
  }

  /** A well-formed entry prints as one line whose text from index 3 on is the path. */
  lemma StatusLineShape(c: Change)
    requires WellFormed(c)
    ensures NoBreak(StatusLine(c)) && |StatusLine(c)| > 3 && AfterStatus(StatusLine(c)) == c.path
  {
    var line := StatusLine(c);
    forall j | 0 <= j < |line| ensures !IsLineBreak(line[j]) {
      if j < 2 { assert line[j] == c.xy[j]; }
      else if j > 2 { assert line[j] == c.path[j - 3]; }
    }
    assert line[3..] == c.path;
  }

  /**
   * Both dashboards strip the whole status output before splitting it into lines, which also
   * removes the leading blank of the first line when that entry is unstaged (" M PATH"), so its
   * `line[3:]` loses the first character of the path: an unstaged change to app/main.py alone
   * is counted under the folder "pp".
   */
  lemma StripShiftsFirstPath(c: Change)
    requires WellFormed(c) && c.xy[0] == ' ' && !IsSpace(c.xy[1])
    requires |c.path| > 1 && !IsSpace(c.path[|c.path| - 1])
    ensures GuardedFolders(StrippedLines(StatusText([c]))) == [FolderOf(c.path[1..])]
  {
    var shown := StatusLine(c)[1..];
    StrippedStatus(c);
    assert |shown| > 3 && shown[3..] == c.path[1..];
    assert GuardedFolders([shown]) == GuardedFolders([]) + [FolderOf(shown[3..])];
  }

  /** The output of a single unstaged entry strips to its line without the leading blank. */
  lemma StrippedStatus(c: Change)
    requires WellFormed(c) && c.xy[0] == ' ' && !IsSpace(c.xy[1])
    requires !IsSpace(c.path[|c.path| - 1])
    ensures StrippedLines(StatusText([c])) == [StatusLine(c)[1..]]
  {
    var line := StatusLine(c);
    var shown := line[1..];
    StatusLineShape(c);
    assert StatusText([c]) == [' '] + shown + "\n" by {
      assert StatusLines([c]) == [line];
      assert Terminated([line]) == line + "\n" + Terminated([]);
      assert line == [' '] + shown;
    }
    assert shown[0] == c.xy[1] && shown[|shown| - 1] == c.path[|c.path| - 1];
    assert AllSpace([' ']) && AllSpace("\n");
    StripPadded([' '], shown, "\n");
    assert NoBreak(shown);
    SplitLinesSingle(shown);
  }

  /**
   * The folder extraction the dashboards evidently intend: split the unstripped output into
   * lines, so that every line keeps its two status columns.
   */
  function ChangedFolders(out: string): (folders: seq<string>)
    ensures |folders| <= |SplitLines(out)|
  {
    GuardedFolders(SplitLines(out))
  }

  /** Every entry of the status is counted under the top-level folder of its own path. */
  lemma ChangedFoldersOfStatus(cs: seq<Change>)
    requires forall i :: 0 <= i < |cs| ==> WellFormed(cs[i])
    ensures |ChangedFolders(StatusText(cs))| == |cs|
    ensures forall i :: 0 <= i < |cs| ==> ChangedFolders(StatusText(cs))[i] == FolderOf(cs[i].path)
  {
    var lines := StatusLines(cs);
    forall k | 0 <= k < |lines| ensures NoBreak(lines[k]) && |lines[k]| > 3 && AfterStatus(lines[k]) == cs[k].path {
      StatusLineShape(cs[k]);
    }
    assert SplitLines(StatusText(cs)) == lines by {
      SplitLinesTerminated(lines, "");
      assert Terminated(lines) + "" == Terminated(lines);
      assert lines + SplitLines("") == lines;
    }
    GuardedIsUnguarded(lines);
    assert ChangedFolders(StatusText(cs)) == UnguardedFolders(lines);
  }

  /** The keys of a tally, in first-seen order. */
  function Keys(t: seq<(string, nat)>): (ks: seq<string>)
    ensures |ks| == |t|
    ensures forall i :: 0 <= i < |t| ==> ks[i] == t[i].0
  {
    if t == [] then [] else Keys(t[..|t| - 1]) + [t[|t| - 1].0]
  }

  /** Where key `x` sits in a tally with distinct keys. */
  function KeyIndex(t: seq<(string, nat)>, x: string): (i: nat)
    requires x in Keys(t)
    ensures i < |t| && t[i].0 == x
  {
    if t[|t| - 1].0 == x then |t| - 1
    else
      assert Keys(t) == Keys(t[..|t| - 1]) + [t[|t| - 1].0];
      KeyIndex(t[..|t| - 1], x)
  }

  /** One more occurrence of `x`: bump its entry, or append a new key at the end as a dict does. */
  function Bump(t: seq<(string, nat)>, x: string): seq<(string, nat)> {
    if x in Keys(t) then
      var i := KeyIndex(t, x);
      t[i := (x, t[i].1 + 1)]
    else t + [(x, 1)]
  }

  /** The values of a tally, in key order. */
  function Counts(t: seq<(string, nat)>): (vs: seq<nat>)
    ensures |vs| == |t|
    ensures forall i :: 0 <= i < |t| ==> vs[i] == t[i].1
  {
    if t == [] then [] else Counts(t[..|t| - 1]) + [t[|t| - 1].1]
  }

  /** `Counter(xs)` read through `keys()` and `values()`. */
  function Tally(xs: seq<string>): (t: seq<(string, nat)>)
    ensures forall i, j :: 0 <= i < j < |t| ==> t[i].0 != t[j].0
    ensures forall x :: x in xs <==> x in Keys(t)
    ensures forall i :: 0 <= i < |t| ==> t[i].1 == Occurrences(xs, t[i].0) > 0
  {
    if xs == [] then []
    else
      var init, x := xs[..|xs| - 1], xs[|xs| - 1];
      var before := Tally(init);
      TallyStep(init, x, before);
      assert init + [x] == xs;
      Bump(before, x)
  }

  lemma OccurrencesSnoc(init: seq<string>, x: string, y: string)
    ensures Occurrences(init + [x], y) == Occurrences(init, y) + (if x == y then 1 else 0)
  {
    assert (init + [x])[..|init|] == init;
  }

  /** What a tally of `xs` promises. */
  ghost predicate IsTally(xs: seq<string>, t: seq<(string, nat)>) {
    && (forall i, j :: 0 <= i < j < |t| ==> t[i].0 != t[j].0)
    && (forall y :: y in xs <==> y in Keys(t))
    && (forall i :: 0 <= i < |t| ==> t[i].1 == Occurrences(xs, t[i].0) > 0)
  }

  /** Bumping a tally of `init` by `x` gives a tally of `init + [x]`. */
  lemma TallyStep(init: seq<string>, x: string, before: seq<(string, nat)>)
    requires IsTally(init, before)
    ensures IsTally(init + [x], Bump(before, x))
  {
    var xs := init + [x];
    forall y ensures Occurrences(xs, y) == Occurrences(init, y) + (if x == y then 1 else 0) {
      OccurrencesSnoc(init, x, y);
    }
    assert forall y :: y in xs <==> y in init || y == x;
    if x in Keys(before) {
      TallyBumpOld(init, x, before);
    } else {
      TallyBumpNew(init, x, before);
    }
  }

  lemma TallyBumpOld(init: seq<string>, x: string, before: seq<(string, nat)>)
    requires IsTally(init, before) && x in Keys(before)
    requires forall y :: Occurrences(init + [x], y) == Occurrences(init, y) + (if x == y then 1 else 0)
    requires forall y :: y in init + [x] <==> y in init || y == x
    ensures IsTally(init + [x], Bump(before, x))
  {
    var t := Bump(before, x);
    var i := KeyIndex(before, x);
    assert t == before[i := (x, before[i].1 + 1)];
    assert Keys(t) == Keys(before);
    forall j | 0 <= j < |t| && j != i ensures t[j] == before[j] && before[j].0 != x {
    }
  }

  lemma TallyBumpNew(init: seq<string>, x: string, before: seq<(string, nat)>)
    requires IsTally(init, before) && x !in Keys(before)
    requires forall y :: Occurrences(init + [x], y) == Occurrences(init, y) + (if x == y then 1 else 0)
    requires forall y :: y in init + [x] <==> y in init || y == x
    ensures IsTally(init + [x], Bump(before, x))
  {
    var t := Bump(before, x);
    assert t == before + [(x, 1)];
    assert Keys(t) == Keys(before) + [x];
    assert x !in init;
    assert Occurrences(init, x) == 0 by {
      if Occurrences(init, x) > 0 { OccurrencesPositive(init, x); }
    }
    forall j | 0 <= j < |before| ensures t[j] == before[j] && before[j].0 != x {
    }
  }

  lemma {:induction false} OccurrencesPositive(xs: seq<string>, x: string)
    requires Occurrences(xs, x) > 0
    ensures x in xs
  {
    if xs[|xs| - 1] != x {
      OccurrencesPositive(xs[..|xs| - 1], x);
    }
  }

  const GithubPrefix := "https://github.com/"

  /** `REPO_URL.replace("https://github.com/", "").replace(".git", "")`. */
  function UserRepo(url: string): string {
    ReplaceAll(ReplaceAll(url, GithubPrefix, ""), ".git", "")
  }

  /** `criar_branch_e_pr`: the compare page that opens a pull request from `branch` into main. */
  function PrUrl(userRepo: string, branch: string): string {
    ComparePrefix(userRepo) + branch + ExpandSuffix
  }

  function ComparePrefix(userRepo: string): string {
    "https://github.com/" + userRepo + "/compare/" + MainBranch + "..."
  }

  const ExpandSuffix := "?expand=1"

  /** `user_repo`: the owner/name pair of the configured repository URL. */
  const ConfiguredRepo := UserRepo(RepoUrl)

  /** A GitHub clone URL reduces to the owner/name pair it was built from. */
  lemma UserRepoOfCloneUrl(name: string)
    requires forall i :: 0 <= i < |name| ==> name[i] != 'h' && name[i] != '.'
    ensures UserRepo(GithubPrefix + name + ".git") == name
  {
    var rest := name + ".git";
    assert GithubPrefix + name + ".git" == GithubPrefix + rest;
    ReplaceAllFront(GithubPrefix, "", rest);
    assert ReplaceAll(GithubPrefix + rest, GithubPrefix, "") == ReplaceAll(rest, GithubPrefix, "");
    assert rest + [] == rest;
    ReplaceAllSkips(rest, GithubPrefix, "", []);
    assert ReplaceAll(rest, GithubPrefix, "") == rest;
    ReplaceAllSkips(name, ".git", "", ".git");
    assert ".git" + [] == ".git";
    ReplaceAllFront(".git", "", []);
    assert ReplaceAll(".git", ".git", "") == [];
    assert ReplaceAll(rest, ".git", "") == name;
  }

  /** The owner/name pair the configured repository URL reduces to. */
  lemma UserRepoOfRepoUrl()
    ensures ConfiguredRepo == "mirelabsp/DevOps-Lab-AWS"
  {
    var name := "mirelabsp/DevOps-Lab-AWS";
    assert RepoUrl == GithubPrefix + name + ".git";
    UserRepoOfCloneUrl(name);
  }

  /** The branch a compare link was built for: what lies between the "main..." and "?expand=1". */
  function BranchOfPrUrl(userRepo: string, url: string): Option<string> {
    var head := ComparePrefix(userRepo);
    if |url| >= |head| + |ExpandSuffix| && url[..|head|] == head
       && url[|url| - |ExpandSuffix|..] == ExpandSuffix
    then Some(url[|head|..|url| - |ExpandSuffix|])
    else None
  }

  /** Every pull-request link names the branch it was built for. */
  lemma BranchOfPrUrlRoundTrip(userRepo: string, branch: string)
    ensures BranchOfPrUrl(userRepo, PrUrl(userRepo, branch)) == Some(branch)
  {
    var head, url := ComparePrefix(userRepo), PrUrl(userRepo, branch);
    assert url[..|head|] == head;
    assert url[|url| - |ExpandSuffix|..] == ExpandSuffix;
    assert url[|head|..|url| - |ExpandSuffix|] == branch;
  }

  /** The data of a `plotext` bar chart: one label per bar, and its height. */
  datatype Chart = Chart(labels: seq<string>, values: seq<nat>)

  /** What a chart command of tools/dashboard.py ends up showing. */
  datatype Display = Drawn(chart: Chart) | NothingPending | ErrorShown(code: int)

  /** The bar chart of a tally: its keys, each with its count. */
  function TallyChart(xs: seq<string>): (c: Chart)
    ensures |c.labels| == |c.values|
    ensures forall i, j :: 0 <= i < j < |c.labels| ==> c.labels[i] != c.labels[j]
    ensures forall x :: x in xs <==> x in c.labels
    ensures forall i :: 0 <= i < |c.labels| ==> c.values[i] == Occurrences(xs, c.labels[i]) > 0
  {
    var t := Tally(xs);
    Chart(Keys(t), Counts(t))
  }

  /** A tally has no bars exactly when nothing was counted: `if counter` tests for an empty list. */
  lemma TallyChartEmpty(xs: seq<string>)
    ensures TallyChart(xs).labels == [] <==> xs == []
  {
    var c := TallyChart(xs);
    if xs != [] {
      assert xs[0] in c.labels;
    }
  }
}
