/**
 * `get_status`, common to tools/dashboard.py and tools/repo_dashboard.py: six git commands
 * whose outputs are read into the status record the dashboard table and `sync_commits` use.
 * The two files differ only in how they treat the lines of `git branch -r`.
 */
module GitStatus {
  import opened PyStr
  import opened Runner
  import opened GitText

  /** The dict `get_status` returns. */
  datatype RepoStatus = RepoStatus(
    changes: string,
    localCommits: seq<string>,
    remoteCommits: seq<string>,
    localBranches: seq<string>,
    remoteBranches: seq<string>,
    lastCommits: string)

  /** The commands of `get_status`, in order, with their `ignore_errors` flags. */
  const StatusScript: seq<(string, bool)> := [
    (StatusPorcelain, false),
    (LogAhead, true),
    (LogBehind, true),
    (BranchNames, false),
    (RemoteBranchNames, false),
    (RecentLog, false)
  ]

  /** The commands whose failure escapes `get_status`. */
  predicate StatusFails(w: World) {
    Fails(w, StatusPorcelain) || Fails(w, BranchNames) || Fails(w, RemoteBranchNames) || Fails(w, RecentLog)
  }

  /** The block stops early exactly when one of the commands run with `check=True` fails. */
  lemma StatusStops(w: World)
    ensures FirstThrow(w, StatusScript) < |StatusScript| <==> StatusFails(w)
  {
    var k := FirstThrow(w, StatusScript);
    var s := StatusScript;
    assert s[0].0 == StatusPorcelain && !s[0].1;
    assert s[1].1 && s[2].1;
    assert s[3].0 == BranchNames && !s[3].1;
    assert s[4].0 == RemoteBranchNames && !s[4].1;
    assert s[5].0 == RecentLog && !s[5].1;
    if k == |s| {
      assert !Fails(w, s[0].0) && !Fails(w, s[3].0) && !Fails(w, s[4].0) && !Fails(w, s[5].0);
    }
  }

  /**
   * `get_status`, with `remote` the treatment of the stripped `git branch -r` lines.
   * The two divergence logs run with errors ignored, so their failure never ends the call;
   * the first failure of any other command escapes as a `CalledProcessError`.
   */
  function GetStatusWith(w: World, remote: seq<string> -> seq<string>): (o: Run<RepoStatus>)
    ensures 1 <= |o.trace| <= |StatusScript|
    ensures forall i :: 0 <= i < |o.trace| ==> o.trace[i] == Ran(StatusScript[i].0)
    ensures !o.exit.Exited?
    ensures o.exit.Returned? <==> !StatusFails(w)
    ensures o.exit.Returned? ==> |o.trace| == |StatusScript|
    ensures o.exit.Raised? ==>
      var last := StatusScript[|o.trace| - 1].0;
      last in [StatusPorcelain, BranchNames, RemoteBranchNames, RecentLog]
      && o.exit.code == w.run(last).code && Fails(w, last)
    ensures o.exit.Returned? ==>
      && o.exit.value.changes == Strip(w.run(StatusPorcelain).stdout)
      && o.exit.value.localCommits == CommitList(w.run(LogAhead).stdout)
      && o.exit.value.remoteCommits == CommitList(w.run(LogBehind).stdout)
      && o.exit.value.localBranches == StrippedLines(w.run(BranchNames).stdout)
      && o.exit.value.remoteBranches == remote(StrippedLines(w.run(RemoteBranchNames).stdout))
      && o.exit.value.lastCommits == Strip(w.run(RecentLog).stdout)
  {
    var k := FirstThrow(w, StatusScript);
    StatusStops(w);
    if k < |StatusScript| then
      Run(Started(w, StatusScript), Raised(w.run(StatusScript[k].0).code))
    else
      var out := (line: string) => w.run(line).stdout;
      Run(Started(w, StatusScript),
       Returned(RepoStatus(
         Strip(out(StatusPorcelain)),
         CommitList(out(LogAhead)),
         CommitList(out(LogBehind)),
         StrippedLines(out(BranchNames)),
         remote(StrippedLines(out(RemoteBranchNames))),
         Strip(out(RecentLog)))))
  }
}
