/**
 * tools/dashboard.py: the status table, the git workflows and the data of the three charts.
 * Each workflow runs against a `World` and reports the events it caused, in order, and how
 * it ended. This file catches the errors of the checkout, the rebase-pull, the commit, the
 * branch-and-PR block and the charts, and keeps going after a failed push.
 */
module Dashboard {
  import opened PyStr
  import opened Runner
  import opened GitText
  import opened GitStatus
  import opened Workflows

  /** `get_status`, dropping the symbolic `->` line of `git branch -r`. */
  function GetStatus(w: World): Run<RepoStatus> {
    GetStatusWith(w, RemoteNames)
  }

  /**
   * The remote branches of the status are the stripped lines of `git branch -r` that do
   * not contain "->", every one of them.
   */
  lemma RemoteBranchesFiltered(w: World)
    requires !StatusFails(w)
    ensures GetStatus(w).exit.Returned?
    ensures var names := GetStatus(w).exit.value.remoteBranches;
      var lines := StrippedLines(w.run(RemoteBranchNames).stdout);
      && (forall k :: 0 <= k < |names| ==> !Contains(names[k], "->") && Stripped(names[k]))
      && (forall k :: 0 <= k < |lines| && !Contains(lines[k], "->") ==> Strip(lines[k]) in names)
      && (forall n :: n in names ==> exists k :: 0 <= k < |lines| && !Contains(lines[k], "->") && n == Strip(lines[k]))
      && names == StripEach(Keep(lines, NoAlias))
  {
    RemoteNamesExact(StrippedLines(w.run(RemoteBranchNames).stdout));
    RemoteNamesInOrder(StrippedLines(w.run(RemoteBranchNames).stdout));
  }

  /** A cell of the status table: at most `limit` names joined by ", ", then "..." when some were cut. */
  function Summary(names: seq<string>, limit: nat): (cell: string)
    ensures |names| <= limit ==> cell == Join(", ", names)
    ensures forall k :: 0 <= k < |names| && k < limit ==> Contains(cell, names[k])
    ensures |names| > limit ==> |cell| >= 3 && cell[|cell| - 3..] == "..."
    ensures |names| > limit ==> cell == Join(", ", names[..limit]) + "..."
  {
    var shown := if |names| <= limit then names else names[..limit];
    var joined := Join(", ", shown);
    var cell := joined + (if |names| > limit then "..." else "");
    assert forall k :: 0 <= k < |shown| ==> Contains(cell, names[k]) by {
      forall k | 0 <= k < |shown| ensures Contains(cell, names[k]) {
        JoinContains(", ", shown, k);
        ContainsPrefix(joined, cell[|joined|..]);
        assert joined + cell[|joined|..] == cell;
        assert OccursAt(cell, joined, 0);
        ContainsWithin(cell, joined, shown[k]);
      }
    }
    cell
  }

  /**
   * `draw_dashboard`: the five rows of the status table, item and value, and the text of the
   * panel of the last commits. The local-branch row shows five names, the remote-branch row three.
   */
  function DrawDashboard(status: RepoStatus): (view: (seq<(string, string)>, string))
    ensures |view.0| == 5
    ensures view.0[0].1 == if status.changes != [] then "[red]Sim[/red]" else "[green]Não[/green]"
    ensures IsDigits(view.0[1].1) && DigitsValue(view.0[1].1) == |status.localCommits|
    ensures IsDigits(view.0[2].1) && DigitsValue(view.0[2].1) == |status.remoteCommits|
    ensures view.0[3].1 == Summary(status.localBranches, 5)
    ensures view.0[4].1 == Summary(status.remoteBranches, 3)
    ensures view.1 == "[yellow]" + status.lastCommits + "[/yellow]"
  {
    DecimalRoundTrip(|status.localCommits|);
    DecimalRoundTrip(|status.remoteCommits|);
    ([("Alterações não commitadas", if status.changes != [] then "[red]Sim[/red]" else "[green]Não[/green]"),
      ("Commits locais não enviados", DecimalString(|status.localCommits|)),
      ("Commits remotos não aplicados", DecimalString(|status.remoteCommits|)),
      ("Branches locais", Summary(status.localBranches, 5)),
      ("Branches remotas", Summary(status.remoteBranches, 3))],
     "[yellow]" + status.lastCommits + "[/yellow]")
  }

  /**
   * `sync_repo`: check out main, offer to stash uncommitted changes, rebase-pull, and offer
   * to pop the stash back. A failed checkout and a failed pull are reported and end the call.
   * `stashCreated` is the function's `stash_created` flag at its end.
   */
  method SyncRepo(w: World) returns (trace: seq<Event>, exit: Exit<()>, stashCreated: bool)
    ensures SyncRun(trace, exit, stashCreated) == SyncRepoRun(w, Returned(()), Returned(()))
  {
    trace, stashCreated := [Ran(CheckoutMain)], false;
    if RunCmd(w, CheckoutMain, false).Thrown? {
      return trace, Returned(()), stashCreated;
    }
    trace := trace + [Ran(StatusPorcelain)];
    var status := RunCmd(w, StatusPorcelain, false);
    if status.Thrown? {
      return trace, Raised(status.code), stashCreated;
    }
    var changes := Strip(status.proc.stdout);
    if changes != [] {
      trace := trace + [Asked(StashQuestion)];
      if w.ask(StashQuestion) == "s" {
        trace := trace + [Ran(StashPush)];
        var stash := RunCmd(w, StashPush, true);
        if !Contains(stash.proc.stdout, NoChangesMarker) {
          stashCreated := true;
        }
      }
    }
    assert trace == [Ran(CheckoutMain), Ran(StatusPorcelain)] + StashOffer(w);
    assert stashCreated == StashMade(w);
    trace := trace + [Ran(PullRebaseMain)];
    if RunCmd(w, PullRebaseMain, false).Thrown? {
      return trace, Returned(()), stashCreated;
    }
    ghost var pulled := trace;
    if stashCreated {
      trace := trace + [Asked(PopQuestion)];
      if w.ask(PopQuestion) == "s" {
        trace := trace + [Ran(StashPop)];
      }
    }
    assert trace == pulled + PopOffer(w);
    exit := Returned(());
  }

  /** `commit_changes`: a failed staging or commit is reported and the call returns. */
  method CommitChanges(w: World) returns (trace: seq<Event>, exit: Exit<()>)
    ensures Run(trace, exit) == CommitRun(w, true)
  {
    trace := [Ran(StatusPorcelain)];
    var status := RunCmd(w, StatusPorcelain, false);
    if status.Thrown? {
      return trace, Raised(status.code);
    }
    exit := Returned(());
    if Strip(status.proc.stdout) != [] {
      var message := w.ask(MessageQuestion);
      CommitBlock(w, message);
      trace := trace + [Asked(MessageQuestion), Ran(AddAll)];
      if RunCmd(w, AddAll, false).Thrown? {
        return;
      }
      trace := trace + [Ran(CommitWith(message))];
      if RunCmd(w, CommitWith(message), false).Thrown? {
        return;
      }
    }
  }

  /**
   * `criar_branch_e_pr` with the timestamp of the branch name given as `stamp`: a failure
   * inside the block is reported and the call returns. The link is what the call opens in
   * the browser.
   */
  method CreateBranchAndPr(w: World, stamp: string) returns (trace: seq<Event>, exit: Exit<Option<string>>)
    ensures Run(trace, exit) == BranchPrRun(w, stamp, true)
  {
    trace := [Ran(StatusPorcelain)];
    var status := RunCmd(w, StatusPorcelain, false);
    if status.Thrown? {
      return trace, Raised(status.code);
    }
    var changes := Strip(status.proc.stdout);
    trace := trace + [Ran(LogAhead)];
    var localCommits := Strip(RunCmd(w, LogAhead, true).proc.stdout);
    if changes != [] || localCommits != [] {
      return trace, Returned(None);
    }
    var ran;
    ran, exit := PublishBranch(w, AutoBranch(stamp));
    trace := trace + ran;
  }

  /**
   * The `try` block of `criar_branch_e_pr`: create the branch, stage, commit and push, each
   * only after the one before it succeeded, then build the link; a failure is reported and
   * ends the block with no link.
   */
  method PublishBranch(w: World, branch: string) returns (ran: seq<Event>, exit: Exit<Option<string>>)
    ensures Run(ran, exit) == PublishRun(w, branch, true)
  {
    BranchBlock(w, branch);
    ran := [Ran(CheckoutNew(branch))];
    var call := RunCmd(w, CheckoutNew(branch), false);
    if call.Thrown? {
      return ran, Returned(None);
    }
    ran := ran + [Ran(AddAll)];
    call := RunCmd(w, AddAll, false);
    if call.Thrown? {
      return ran, Returned(None);
    }
    ran := ran + [Ran(CommitWith(AutoCommitMessage(branch)))];
    call := RunCmd(w, CommitWith(AutoCommitMessage(branch)), false);
    if call.Thrown? {
      return ran, Returned(None);
    }
    ran := ran + [Ran(PushBranch(branch))];
    call := RunCmd(w, PushBranch(branch), false);
    if call.Thrown? {
      return ran, Returned(None);
    }
    var userRepo := ConfiguredRepo;
    exit := Returned(Some(PrUrl(userRepo, branch)));
  }

  /** `sync_commits`: a failed push is reported, `success` turns False, and the pull is still attempted. */
  method SyncCommits(w: World) returns (trace: seq<Event>, exit: Exit<bool>)
    ensures Run(trace, exit) == SyncCommitsRun(w, RemoteNames, false)
  {
    var status := GetStatus(w);
    trace := status.trace;
    if !status.exit.Returned? {
      return trace, Raised(status.exit.code);
    }
    var synced, success := PushThenPull(w, status.exit.value.localCommits != [], status.exit.value.remoteCommits != []);
    trace, exit := trace + synced, Returned(success);
  }

  /**
   * The body of `sync_commits` after the status query: push when `pushing`, then rebase-pull
   * when `pulling`, whatever the push did. `success` is False exactly when an attempted command failed.
   */
  method PushThenPull(w: World, pushing: bool, pulling: bool) returns (synced: seq<Event>, success: bool)
    ensures synced == PushPull(pushing, pulling)
    ensures success == (!(pushing && Fails(w, PushMain)) && !(pulling && Fails(w, PullRebaseMain)))
  {
    success, synced := true, [];
    if pushing {
      synced := synced + [Ran(PushMain)];
      if RunCmd(w, PushMain, false).Thrown? {
        success := false;
      }
    }
    if pulling {
      synced := synced + [Ran(PullRebaseMain)];
      if RunCmd(w, PullRebaseMain, false).Thrown? {
        success := false;
      }
    }
  }

  /**
   * `plot_commits`: one `git rev-list --count` per local branch, read as a number, and the
   * bar chart of those counts. A failure to list the branches is reported instead.
   */
  method PlotCommits(w: World) returns (trace: seq<Event>, shown: Display)
    ensures trace != [] && trace[0] == Ran(BranchNames)
    ensures Fails(w, BranchNames) ==> trace == [Ran(BranchNames)] && shown == ErrorShown(w.run(BranchNames).code)
    ensures !Fails(w, BranchNames) ==>
      var branches := StrippedLines(w.run(BranchNames).stdout);
      && |trace| == |branches| + 1
      && (forall i :: 0 <= i < |branches| ==> trace[i + 1] == Ran(RevListCount(branches[i])))
      && shown.Drawn? && shown.chart.labels == branches && |shown.chart.values| == |branches|
      && (forall i :: 0 <= i < |branches| ==>
            shown.chart.values[i] == ParseCount(w.run(RevListCount(branches[i])).stdout))
  {
    trace := [Ran(BranchNames)];
    var listing := RunCmd(w, BranchNames, false);
    if listing.Thrown? {
      return trace, ErrorShown(listing.code);
    }
    var branches := StrippedLines(listing.proc.stdout);
    var counts: seq<nat> := [];
    var i := 0;
    while i < |branches|
      invariant 0 <= i <= |branches|
      invariant |counts| == i && |trace| == i + 1 && trace[0] == Ran(BranchNames)
      invariant forall j :: 0 <= j < i ==> trace[j + 1] == Ran(RevListCount(branches[j]))
      invariant forall j :: 0 <= j < i ==> counts[j] == ParseCount(w.run(RevListCount(branches[j])).stdout)
    {
      var result := RunCmd(w, RevListCount(branches[i]), true);
      trace := trace + [Ran(RevListCount(branches[i]))];
      counts := counts + [ParseCount(result.proc.stdout)];
      i := i + 1;
    }
    shown := Drawn(Chart(branches, counts));
  }

  /**
   * `plot_changes_per_folder`: the top-level folder of every status line longer than three
   * characters, counted per folder; nothing pending when no line qualifies.
   */
  method PlotChangesPerFolder(w: World) returns (trace: seq<Event>, shown: Display)
    ensures trace == [Ran(StatusPorcelain)]
    ensures Fails(w, StatusPorcelain) ==> shown == ErrorShown(w.run(StatusPorcelain).code)
    ensures !Fails(w, StatusPorcelain) ==>
      var folders := GuardedFolders(StrippedLines(w.run(StatusPorcelain).stdout));
      shown == if folders == [] then NothingPending else Drawn(TallyChart(folders))
  {
    trace := [Ran(StatusPorcelain)];
    var result := RunCmd(w, StatusPorcelain, false);
    if result.Thrown? {
      return trace, ErrorShown(result.code);
    }
    var lines := StrippedLines(result.proc.stdout);
    var folders: seq<string> := [];
    var i := 0;
    while i < |lines|
      invariant 0 <= i <= |lines|
      invariant folders == GuardedFolders(lines[..i])
    {
      var line := lines[i];
      if |line| > 3 {
        var path := line[3..];
        if '/' in path {
          folders := folders + [Before(path, '/')];
        } else {
          folders := folders + [path];
        }
      }
      assert lines[..i + 1][..i] == lines[..i];
      i := i + 1;
    }
    assert lines[..|lines|] == lines;
    assert folders == GuardedFolders(StrippedLines(w.run(StatusPorcelain).stdout));
    var counter := TallyChart(folders);
    TallyChartEmpty(folders);
    if counter.labels != [] {
      shown := Drawn(counter);
    } else {
      shown := NothingPending;
    }
  }
}
