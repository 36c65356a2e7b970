/**
 * tools/repo_dashboard.py: the earlier dashboard. It runs the same git workflows as
 * tools/dashboard.py, but lets most errors escape, ends the program when the rebase-pull of
 * `sync_repo` fails, stops `sync_commits` at a failed push, keeps every line of
 * `git branch -r`, shows the branch lists uncut, and extracts folders without a length guard.
 */
module RepoDashboard {
  import opened PyStr
  import opened Runner
  import opened GitText
  import opened GitStatus
  import opened Workflows
  import Dashboard

  /** `get_status`, keeping every stripped line of `git branch -r`. */
  function GetStatus(w: World): Run<RepoStatus> {
    GetStatusWith(w, StripEach)
  }

  /** The remote branches are all the stripped lines of `git branch -r`, the symbolic one included. */
  lemma RemoteBranchesKept(w: World)
    requires !StatusFails(w)
    ensures GetStatus(w).exit.Returned?
    ensures var names := GetStatus(w).exit.value.remoteBranches;
      var lines := StrippedLines(w.run(RemoteBranchNames).stdout);
      |names| == |lines| && forall k :: 0 <= k < |lines| ==> names[k] == Strip(lines[k])
  {
  }

  /** Without a symbolic-ref line in `git branch -r`, both dashboards read the same status. */
  lemma StatusesAgree(w: World)
    requires forall k :: 0 <= k < |StrippedLines(w.run(RemoteBranchNames).stdout)| ==>
      !Contains(StrippedLines(w.run(RemoteBranchNames).stdout)[k], "->")
    ensures GetStatus(w) == Dashboard.GetStatus(w)
  {
    RemoteNamesWithoutAliases(StrippedLines(w.run(RemoteBranchNames).stdout));
  }

  /** `draw_dashboard`: the five rows of the status table and the panel text, branch lists uncut. */
  function DrawDashboard(status: RepoStatus): (view: (seq<(string, string)>, string))
    ensures |view.0| == 5
    ensures view.0[0].1 == if status.changes != [] then "[red]Sim[/red]" else "[green]Não[/green]"
    ensures IsDigits(view.0[1].1) && DigitsValue(view.0[1].1) == |status.localCommits|
    ensures IsDigits(view.0[2].1) && DigitsValue(view.0[2].1) == |status.remoteCommits|
    ensures forall k :: 0 <= k < |status.localBranches| ==> Contains(view.0[3].1, status.localBranches[k])
    ensures forall k :: 0 <= k < |status.remoteBranches| ==> Contains(view.0[4].1, status.remoteBranches[k])
    ensures view.1 == "[yellow]" + status.lastCommits + "[/yellow]"
  {
    DecimalRoundTrip(|status.localCommits|);
    DecimalRoundTrip(|status.remoteCommits|);
    forall k | 0 <= k < |status.localBranches| ensures Contains(Join(", ", status.localBranches), status.localBranches[k]) {
      JoinContains(", ", status.localBranches, k);
    }
    forall k | 0 <= k < |status.remoteBranches| ensures Contains(Join(", ", status.remoteBranches), status.remoteBranches[k]) {
      JoinContains(", ", status.remoteBranches, k);
    }
    ([("Alterações não commitadas", if status.changes != [] then "[red]Sim[/red]" else "[green]Não[/green]"),
      ("Commits locais não enviados", DecimalString(|status.localCommits|)),
      ("Commits remotos não aplicados", DecimalString(|status.remoteCommits|)),
      ("Branches locais", Join(", ", status.localBranches)),
      ("Branches remotas", Join(", ", status.remoteBranches))],
     "[yellow]" + status.lastCommits + "[/yellow]")
  }

  /** With at most five local and three remote branches, both dashboards draw the same table. */
  lemma DrawDashboardsAgree(status: RepoStatus)
    requires |status.localBranches| <= 5 && |status.remoteBranches| <= 3
    ensures DrawDashboard(status) == Dashboard.DrawDashboard(status)
  {
    var mine, theirs := DrawDashboard(status), Dashboard.DrawDashboard(status);
    assert mine.0[3] == theirs.0[3] && mine.0[4] == theirs.0[4];
    assert mine.0 == theirs.0;
  }

  /**
   * `sync_repo`: a failed checkout and a failed status query escape as errors, and a failed
   * rebase-pull ends the program with `exit(1)`.
   */
  method SyncRepo(w: World) returns (trace: seq<Event>, exit: Exit<()>, stashCreated: bool)
    ensures SyncRun(trace, exit, stashCreated) == SyncRepoRun(w, Raised(w.run(CheckoutMain).code), Exited(1))
  {
    trace, stashCreated := [Ran(CheckoutMain)], false;
    var checkout := RunCmd(w, CheckoutMain, false);
    if checkout.Thrown? {
      return trace, Raised(checkout.code), stashCreated;
    }
    trace := trace + [Ran(StatusPorcelain)];
    var status := RunCmd(w, StatusPorcelain, false);
    if status.Thrown? {
      return trace, Raised(status.code), stashCreated;
    }
    var changes := Strip(status.proc.stdout);
    if changes != [] {
      trace := trace + [Asked(StashQuestion)];
      if w.ask(StashQuestion) == "s" {
        trace := trace + [Ran(StashPush)];
        var stash := RunCmd(w, StashPush, true);
        if !Contains(stash.proc.stdout, NoChangesMarker) {
          stashCreated := true;
        }
      }
    }
    assert trace == [Ran(CheckoutMain), Ran(StatusPorcelain)] + StashOffer(w);
    assert stashCreated == StashMade(w);
    trace := trace + [Ran(PullRebaseMain)];
    if RunCmd(w, PullRebaseMain, false).Thrown? {
      return trace, Exited(1), stashCreated;
    }
    ghost var pulled := trace;
    if stashCreated {
      trace := trace + [Asked(PopQuestion)];
      if w.ask(PopQuestion) == "s" {
        trace := trace + [Ran(StashPop)];
      }
    }
    assert trace == pulled + PopOffer(w);
    exit := Returned(());
  }

  /** `commit_changes`: a failed staging or commit escapes as an error. */
  method CommitChanges(w: World) returns (trace: seq<Event>, exit: Exit<()>)
    ensures Run(trace, exit) == CommitRun(w, false)
  {
    trace := [Ran(StatusPorcelain)];
    var status := RunCmd(w, StatusPorcelain, false);
    if status.Thrown? {
      return trace, Raised(status.code);
    }
    exit := Returned(());
    if Strip(status.proc.stdout) != [] {
      var message := w.ask(MessageQuestion);
      CommitBlock(w, message);
      trace := trace + [Asked(MessageQuestion), Ran(AddAll)];
      var staged := RunCmd(w, AddAll, false);
      if staged.Thrown? {
        return trace, Raised(staged.code);
      }
      trace := trace + [Ran(CommitWith(message))];
      var committed := RunCmd(w, CommitWith(message), false);
      if committed.Thrown? {
        return trace, Raised(committed.code);
      }
    }
  }

  /**
   * `criar_branch_e_pr` with the timestamp of the branch name given as `stamp`: past the
   * guard, the four commands run unguarded, so the first failure escapes as an error.
   */
  method CreateBranchAndPr(w: World, stamp: string) returns (trace: seq<Event>, exit: Exit<Option<string>>)
    ensures Run(trace, exit) == BranchPrRun(w, stamp, false)
  {
    trace := [Ran(StatusPorcelain)];
    var status := RunCmd(w, StatusPorcelain, false);
    if status.Thrown? {
      return trace, Raised(status.code);
    }
    var changes := Strip(status.proc.stdout);
    trace := trace + [Ran(LogAhead)];
    var localCommits := Strip(RunCmd(w, LogAhead, true).proc.stdout);
    if changes != [] || localCommits != [] {
      return trace, Returned(None);
    }
    var ran;
    ran, exit := PublishBranch(w, AutoBranch(stamp));
    trace := trace + ran;
  }

  /**
   * The commands of `criar_branch_e_pr` past the guard: create the branch, stage, commit and
   * push, each only after the one before it succeeded, then build the link.
   */
  method PublishBranch(w: World, branch: string) returns (ran: seq<Event>, exit: Exit<Option<string>>)
    ensures Run(ran, exit) == PublishRun(w, branch, false)
  {
    BranchBlock(w, branch);
    ran := [Ran(CheckoutNew(branch))];
    var call := RunCmd(w, CheckoutNew(branch), false);
    if call.Thrown? {
      return ran, Raised(call.code);
    }
    ran := ran + [Ran(AddAll)];
    call := RunCmd(w, AddAll, false);
    if call.Thrown? {
      return ran, Raised(call.code);
    }
    ran := ran + [Ran(CommitWith(AutoCommitMessage(branch)))];
    call := RunCmd(w, CommitWith(AutoCommitMessage(branch)), false);
    if call.Thrown? {
      return ran, Raised(call.code);
    }
    ran := ran + [Ran(PushBranch(branch))];
    call := RunCmd(w, PushBranch(branch), false);
    if call.Thrown? {
      return ran, Raised(call.code);
    }
    var userRepo := ConfiguredRepo;
    exit := Returned(Some(PrUrl(userRepo, branch)));
  }

  /** `sync_commits`: a failed push or a failed pull returns False at once. */
  method SyncCommits(w: World) returns (trace: seq<Event>, exit: Exit<bool>)
    ensures Run(trace, exit) == SyncCommitsRun(w, StripEach, true)
  {
    var status := GetStatus(w);
    trace := status.trace;
    if !status.exit.Returned? {
      return trace, Raised(status.exit.code);
    }
    var synced, success := PushOrStop(w, status.exit.value.localCommits != [], status.exit.value.remoteCommits != []);
    trace, exit := trace + synced, Returned(success);
  }

  /**
   * The body of `sync_commits` after the status query: push when `pushing`; when the push
   * failed, return False; otherwise rebase-pull when `pulling` and return whether it succeeded.
   */
  method PushOrStop(w: World, pushing: bool, pulling: bool) returns (synced: seq<Event>, success: bool)
    ensures var pushFailed := pushing && Fails(w, PushMain);
      && synced == PushPull(pushing, pulling && !pushFailed)
      && success == (!pushFailed && !(pulling && Fails(w, PullRebaseMain)))
  {
    synced := [];
    if pushing {
      synced := synced + [Ran(PushMain)];
      if RunCmd(w, PushMain, false).Thrown? {
        return synced, false;
      }
    }
    if pulling {
      synced := synced + [Ran(PullRebaseMain)];
      if RunCmd(w, PullRebaseMain, false).Thrown? {
        return synced, false;
      }
    }
    success := true;
  }

  /**
   * `plot_commits`: one `git rev-list --count` per local branch, read as a number; a failure
   * to list the branches escapes as an error.
   */
  method PlotCommits(w: World) returns (trace: seq<Event>, exit: Exit<Chart>)
    ensures trace != [] && trace[0] == Ran(BranchNames)
    ensures Fails(w, BranchNames) ==> trace == [Ran(BranchNames)] && exit == Raised(w.run(BranchNames).code)
    ensures !Fails(w, BranchNames) ==>
      var branches := StrippedLines(w.run(BranchNames).stdout);
      && |trace| == |branches| + 1
      && (forall i :: 0 <= i < |branches| ==> trace[i + 1] == Ran(RevListCount(branches[i])))
      && exit.Returned? && exit.value.labels == branches && |exit.value.values| == |branches|
      && (forall i :: 0 <= i < |branches| ==>
            exit.value.values[i] == ParseCount(w.run(RevListCount(branches[i])).stdout))
  {
    trace := [Ran(BranchNames)];
    var listing := RunCmd(w, BranchNames, false);
    if listing.Thrown? {
      return trace, Raised(listing.code);
    }
    var branches := StrippedLines(listing.proc.stdout);
    var counts: seq<nat> := [];
    for i := 0 to |branches|
      invariant |counts| == i && |trace| == i + 1 && trace[0] == Ran(BranchNames)
      invariant forall j :: 0 <= j < i ==> trace[j + 1] == Ran(RevListCount(branches[j]))
      invariant forall j :: 0 <= j < i ==> counts[j] == ParseCount(w.run(RevListCount(branches[j])).stdout)
    {
      var result := RunCmd(w, RevListCount(branches[i]), true);
      trace := trace + [Ran(RevListCount(branches[i]))];
      counts := counts + [ParseCount(result.proc.stdout)];
    }
    exit := Returned(Chart(branches, counts));
  }

  /**
   * `plot_changes_per_folder`: the folder of every stripped status line, short lines included,
   * counted per folder; the chart is drawn even when there is nothing to count. A failed
   * status query escapes as an error.
   */
  function ChangesChart(w: World): (r: Exit<Chart>)
    ensures Fails(w, StatusPorcelain) <==> r.Raised?
    ensures r.Raised? ==> r.code == w.run(StatusPorcelain).code
    ensures r.Returned? ==>
      var lines := StrippedLines(w.run(StatusPorcelain).stdout);
      && (forall k :: 0 <= k < |lines| ==> FolderOf(AfterStatus(lines[k])) in r.value.labels)
      && |r.value.values| == |r.value.labels|
      && (forall i :: 0 <= i < |r.value.labels| ==> r.value.values[i] > 0)
      && (r.value.labels == [] <==> AllSpace(w.run(StatusPorcelain).stdout))
    ensures r.Returned? ==> r.value == TallyChart(UnguardedFolders(StrippedLines(w.run(StatusPorcelain).stdout)))
  {
    var status := RunCmd(w, StatusPorcelain, false);
    if status.Thrown? then Raised(status.code)
    else
      var lines := StrippedLines(status.proc.stdout);
      UnguardedChart(lines);
      Returned(TallyChart(UnguardedFolders(lines)))
  }

  /** Every line's folder has a bar of positive height, and there are bars exactly when there are lines. */
  lemma UnguardedChart(lines: seq<string>)
    ensures var c := TallyChart(UnguardedFolders(lines));
      && (forall k :: 0 <= k < |lines| ==> FolderOf(AfterStatus(lines[k])) in c.labels)
      && (forall i :: 0 <= i < |c.labels| ==> c.values[i] > 0)
      && (c.labels == [] <==> lines == [])
  {
    var folders := UnguardedFolders(lines);
    TallyChartEmpty(folders);
    assert forall k :: 0 <= k < |lines| ==> folders[k] in folders;
  }

  /**
   * When every stripped status line is longer than three characters and there is one, the
   * chart is the one tools/dashboard.py draws.
   */
  lemma ChangesChartsAgree(w: World)
    requires !Fails(w, StatusPorcelain) && Dirty(w)
    requires forall k :: 0 <= k < |StrippedLines(w.run(StatusPorcelain).stdout)| ==>
      |StrippedLines(w.run(StatusPorcelain).stdout)[k]| > 3
    ensures ChangesChart(w) == Returned(TallyChart(GuardedFolders(StrippedLines(w.run(StatusPorcelain).stdout))))
    ensures GuardedFolders(StrippedLines(w.run(StatusPorcelain).stdout)) != []
  {
    var lines := StrippedLines(w.run(StatusPorcelain).stdout);
    GuardedIsUnguarded(lines);
  }
}
