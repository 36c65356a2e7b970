/**
 * The git workflows of tools/dashboard.py and tools/repo_dashboard.py as specifications:
 * for a given world, the events each causes and how it ends. The two files run the same
 * commands under the same conditions and differ in how some failures end the call, which
 * is a parameter here; each file's methods are proved equal to these functions.
 */
module Workflows {
  import opened PyStr
  import opened Runner
  import opened GitText
  import opened GitStatus

  /** `git status --porcelain` printed something besides whitespace: there are uncommitted changes. */
  predicate Dirty(w: World) {
    !AllSpace(w.run(StatusPorcelain).stdout)
  }

  /** `git log origin/main..HEAD` printed something: there are local commits not yet pushed. */
  predicate Unpushed(w: World) {
    !AllSpace(w.run(LogAhead).stdout)
  }

  /** `sync_repo` got past the checkout and the status query. */
  predicate SyncReached(w: World) {
    !Fails(w, CheckoutMain) && !Fails(w, StatusPorcelain)
  }

  /** The place of each step of `sync_repo`. */
  function SyncRepoStep(e: Event): int {
    if e == Ran(CheckoutMain) then 0
    else if e == Ran(StatusPorcelain) then 1
    else if e == Asked(StashQuestion) then 2
    else if e == Ran(StashPush) then 3
    else if e == Ran(PullRebaseMain) then 4
    else if e == Asked(PopQuestion) then 5
    else if e == Ran(StashPop) then 6
    else -1
  }

  /** The seven steps of `sync_repo` are seven different events. */
  lemma SyncRepoSteps()
    ensures SyncRepoStep(Ran(CheckoutMain)) == 0 && SyncRepoStep(Ran(StatusPorcelain)) == 1
    ensures SyncRepoStep(Asked(StashQuestion)) == 2 && SyncRepoStep(Ran(StashPush)) == 3
    ensures SyncRepoStep(Ran(PullRebaseMain)) == 4 && SyncRepoStep(Asked(PopQuestion)) == 5
    ensures SyncRepoStep(Ran(StashPop)) == 6
  {
  }

  /** What a run of `sync_repo` shows: its events, how it ended, and its final `stash_created`. */
  datatype SyncRun = SyncRun(trace: seq<Event>, exit: Exit<()>, stashCreated: bool)

  /**
   * `sync_repo` of either dashboard. The two files differ only in how a failed checkout
   * (`checkoutEnd`) and a failed rebase-pull (`conflictEnd`) end the call.
   */
  function SyncRepoRun(w: World, checkoutEnd: Exit<()>, conflictEnd: Exit<()>): SyncRun {
    if Fails(w, CheckoutMain) then SyncRun([Ran(CheckoutMain)], checkoutEnd, false)
    else if Fails(w, StatusPorcelain) then
      SyncRun([Ran(CheckoutMain), Ran(StatusPorcelain)], Raised(w.run(StatusPorcelain).code), false)
    else
      var pulled := [Ran(CheckoutMain), Ran(StatusPorcelain)] + StashOffer(w) + [Ran(PullRebaseMain)];
      if Fails(w, PullRebaseMain) then SyncRun(pulled, conflictEnd, StashMade(w))
      else SyncRun(pulled + PopOffer(w), Returned(()), StashMade(w))
  }

  /** The stash prompt for a dirty tree, and `git stash` when the answer is "s". */
  function StashOffer(w: World): seq<Event> {
    if Dirty(w) then [Asked(StashQuestion)] + (if w.ask(StashQuestion) == "s" then [Ran(StashPush)] else [])
    else []
  }

  /** `stash_created`: `git stash` ran and did not report that there was nothing to save. */
  predicate StashMade(w: World) {
    Dirty(w) && w.ask(StashQuestion) == "s" && !Contains(w.run(StashPush).stdout, NoChangesMarker)
  }

  /** The pop prompt once a stash was made, and `git stash pop` when the answer is "s". */
  function PopOffer(w: World): seq<Event> {
    if StashMade(w) then [Asked(PopQuestion)] + (if w.ask(PopQuestion) == "s" then [Ran(StashPop)] else [])
    else []
  }

  /** A failed checkout ends `sync_repo` before any other git command. */
  lemma SyncRepoCheckoutFirst(w: World, checkoutEnd: Exit<()>, conflictEnd: Exit<()>)
    ensures var r := SyncRepoRun(w, checkoutEnd, conflictEnd);
      && r.trace != [] && r.trace[0] == Ran(CheckoutMain)
      && (Fails(w, CheckoutMain) <==> r.trace == [Ran(CheckoutMain)])
      && (Fails(w, CheckoutMain) ==> r.exit == checkoutEnd)
  {
    SyncRepoSteps();
  }

  /** A failed status query escapes `sync_repo` as an error, and nothing follows it. */
  lemma SyncRepoStatusFailure(w: World, checkoutEnd: Exit<()>, conflictEnd: Exit<()>)
    requires !Fails(w, CheckoutMain)
    requires Fails(w, StatusPorcelain)
    ensures var r := SyncRepoRun(w, checkoutEnd, conflictEnd);
      r.exit == Raised(w.run(StatusPorcelain).code) && r.trace == [Ran(CheckoutMain), Ran(StatusPorcelain)]
  {
    SyncRepoSteps();
  }

  /**
   * The stash prompt appears only for a dirty working tree, `git stash` runs only on the
   * answer "s", and a stash counts as created only when git did not say there was nothing to save.
   */
  lemma SyncRepoStash(w: World, checkoutEnd: Exit<()>, conflictEnd: Exit<()>)
    ensures var r := SyncRepoRun(w, checkoutEnd, conflictEnd);
      && (Asked(StashQuestion) in r.trace <==> SyncReached(w) && Dirty(w))
      && (Ran(StashPush) in r.trace <==> SyncReached(w) && Dirty(w) && w.ask(StashQuestion) == "s")
      && (r.stashCreated <==> Ran(StashPush) in r.trace && !Contains(w.run(StashPush).stdout, NoChangesMarker))
  {
    SyncRepoSteps();
  }

  /** The rebase-pull runs whenever the status query succeeded; a failed pull ends the call with `conflictEnd`. */
  lemma SyncRepoPull(w: World, checkoutEnd: Exit<()>, conflictEnd: Exit<()>)
    ensures var r := SyncRepoRun(w, checkoutEnd, conflictEnd);
      && (Ran(PullRebaseMain) in r.trace <==> SyncReached(w))
      && (SyncReached(w) && Fails(w, PullRebaseMain) ==>
            r.exit == conflictEnd && r.trace[|r.trace| - 1] == Ran(PullRebaseMain))
  {
    SyncRepoSteps();
  }

  /** `git stash pop` never follows a failed pull, and otherwise needs a created stash and the answer "s". */
  lemma SyncRepoPop(w: World, checkoutEnd: Exit<()>, conflictEnd: Exit<()>)
    ensures var r := SyncRepoRun(w, checkoutEnd, conflictEnd);
      && (Asked(PopQuestion) in r.trace <==> SyncReached(w) && !Fails(w, PullRebaseMain) && r.stashCreated)
      && (Ran(StashPop) in r.trace <==> Asked(PopQuestion) in r.trace && w.ask(PopQuestion) == "s")
      && (Fails(w, PullRebaseMain) ==> Ran(StashPop) !in r.trace)
  {
    SyncRepoSteps();
  }

  /** Every event of `sync_repo` is one of its seven steps, each at most once, in the order of the code. */
  lemma SyncRepoOrdered(w: World, checkoutEnd: Exit<()>, conflictEnd: Exit<()>)
    ensures InOrder(SyncRepoRun(w, checkoutEnd, conflictEnd).trace, SyncRepoStep)
  {
    SyncRepoSteps();
    if !Fails(w, CheckoutMain) && !Fails(w, StatusPorcelain) {
      var head := [Ran(CheckoutMain), Ran(StatusPorcelain)];
      var stash, pop := StashOffer(w), PopOffer(w);
      OffersRanked(w);
      assert InOrder(head, SyncRepoStep) && RankedWithin(head, SyncRepoStep, 0, 2);
      assert InOrder([Ran(PullRebaseMain)], SyncRepoStep) && RankedWithin([Ran(PullRebaseMain)], SyncRepoStep, 4, 5);
      InOrderAppend(head, stash, SyncRepoStep, 0, 2, 4);
      InOrderAppend(head + stash, [Ran(PullRebaseMain)], SyncRepoStep, 0, 4, 5);
      InOrderAppend(head + stash + [Ran(PullRebaseMain)], pop, SyncRepoStep, 0, 5, 7);
    }
  }

  /** The stash offer holds steps 2 and 3 in order, the pop offer steps 5 and 6. */
  lemma OffersRanked(w: World)
    ensures InOrder(StashOffer(w), SyncRepoStep) && RankedWithin(StashOffer(w), SyncRepoStep, 2, 4)
    ensures InOrder(PopOffer(w), SyncRepoStep) && RankedWithin(PopOffer(w), SyncRepoStep, 5, 7)
  {
    SyncRepoSteps();
  }

  /** The place of each step of `commit_changes`, whose commit line carries the operator's message. */
  function CommitStep(message: string, e: Event): int {
    if e == Ran(StatusPorcelain) then 0
    else if e == Asked(MessageQuestion) then 1
    else if e == Ran(AddAll) then 2
    else if e == Ran(CommitWith(message)) then 3
    else -1
  }

  /** A commit command line is neither of the other command lines of `commit_changes`. */
  lemma CommitLineDistinct(message: string)
    ensures CommitWith(message) != StatusPorcelain && CommitWith(message) != AddAll
  {
    assert CommitWith(message)[4] == 'c';
    assert StatusPorcelain[4] == 's' && AddAll[4] == 'a';
  }

  /** The message of the automatic commit on a new branch. */
  function AutoCommitMessage(branch: string): string {
    "chore: atualização automática em " + branch
  }

  /** The `try` block of `criar_branch_e_pr`: new branch, stage, commit, push. */
  function BranchScript(branch: string): (script: seq<(string, bool)>)
    ensures |script| == 4
    ensures forall i :: 0 <= i < 4 ==> !script[i].1
  {
    [(CheckoutNew(branch), false), (AddAll, false), (CommitWith(AutoCommitMessage(branch)), false),
     (PushBranch(branch), false)]
  }

  /** `datetime.now().strftime(...)` is an input: the branch is "feature/auto-" and the stamp. */
  function AutoBranch(stamp: string): string {
    "feature/auto-" + stamp
  }

  /** `git log HEAD..origin/main` printed something: the remote has commits not yet applied. */
  predicate Behind(w: World) {
    !AllSpace(w.run(LogBehind).stdout)
  }

  /** The `try` block of `commit_changes`: stage everything, then commit with the operator's message. */
  function CommitScript(message: string): seq<(string, bool)> {
    [(AddAll, false), (CommitWith(message), false)]
  }

  /** The staging command stops the commit block when it fails; otherwise the commit runs too. */
  lemma CommitBlock(w: World, message: string)
    ensures var script := CommitScript(message);
      && FirstThrow(w, script) == (if Fails(w, AddAll) then 0 else if Fails(w, CommitWith(message)) then 1 else 2)
      && Started(w, script) == (if Fails(w, AddAll) then [Ran(AddAll)] else [Ran(AddAll), Ran(CommitWith(message))])
  {
    var script := CommitScript(message);
    StartedCons(w, script);
    StartedCons(w, script[1..]);
    assert script[1..][1..] == [];
  }

  /**
   * `commit_changes`: with uncommitted changes, ask for a message, stage and commit. When
   * `caught`, a failure of the staging or the commit is reported and the call returns;
   * otherwise it escapes.
   */
  function CommitRun(w: World, caught: bool): Run<()> {
    if Fails(w, StatusPorcelain) then Run([Ran(StatusPorcelain)], Raised(w.run(StatusPorcelain).code))
    else if !Dirty(w) then Run([Ran(StatusPorcelain)], Returned(()))
    else
      var script := CommitScript(w.ask(MessageQuestion));
      var k := FirstThrow(w, script);
      Run([Ran(StatusPorcelain), Asked(MessageQuestion)] + Started(w, script),
          if k < |script| && !caught then Raised(w.run(script[k].0).code) else Returned(()))
  }

  /** Nothing is staged or committed without uncommitted changes; the commit needs the staging to succeed. */
  lemma CommitOnlyWhenDirty(w: World, caught: bool)
    ensures var r := CommitRun(w, caught);
      var message := w.ask(MessageQuestion);
      && (Ran(AddAll) in r.trace <==> !Fails(w, StatusPorcelain) && Dirty(w))
      && (Ran(CommitWith(message)) in r.trace <==> Ran(AddAll) in r.trace && !Fails(w, AddAll))
      && (!Dirty(w) ==> r.trace == [Ran(StatusPorcelain)])
  {
    var message := w.ask(MessageQuestion);
    CommitLineDistinct(message);
    var script := CommitScript(message);
    var k := FirstThrow(w, script);
    if !Fails(w, StatusPorcelain) && Dirty(w) {
      assert Started(w, script) == if Fails(w, AddAll) then [Ran(AddAll)] else [Ran(AddAll), Ran(CommitWith(message))];
    }
  }

  /** The events of `commit_changes` follow the order of the code. */
  lemma CommitOrdered(w: World, caught: bool)
    ensures var message := w.ask(MessageQuestion);
      InOrder(CommitRun(w, caught).trace, e => CommitStep(message, e))
  {
    var message := w.ask(MessageQuestion);
    CommitLineDistinct(message);
    CommitBlock(w, message);
  }

  /** How `commit_changes` ends: only the status query, or an uncaught staging or commit failure, escapes. */
  lemma CommitEnds(w: World, caught: bool)
    ensures var r := CommitRun(w, caught);
      var message := w.ask(MessageQuestion);
      && !r.exit.Exited?
      && (r.exit.Raised? <==>
            (Fails(w, StatusPorcelain)
             || (!caught && Dirty(w) && (Fails(w, AddAll) || Fails(w, CommitWith(message))))))
  {
    var message := w.ask(MessageQuestion);
    var script := CommitScript(message);
    assert script[0].0 == AddAll && script[1].0 == CommitWith(message);
    if FirstThrow(w, script) == |script| {
      assert !Fails(w, script[0].0) && !Fails(w, script[1].0);
    }
  }

  /**
   * `criar_branch_e_pr`: refuse when there are uncommitted changes or unpushed commits;
   * otherwise create the branch "feature/auto-" + `stamp`, stage, commit, push, and return the
   * pull-request link. When `caught`, a failure inside the block is reported and the call returns.
   */
  function BranchPrRun(w: World, stamp: string, caught: bool): Run<Option<string>> {
    if Fails(w, StatusPorcelain) then Run([Ran(StatusPorcelain)], Raised(w.run(StatusPorcelain).code))
    else if Dirty(w) || Unpushed(w) then Run([Ran(StatusPorcelain), Ran(LogAhead)], Returned(None))
    else
      var block := PublishRun(w, AutoBranch(stamp), caught);
      Run([Ran(StatusPorcelain), Ran(LogAhead)] + block.trace, block.exit)
  }

  /**
   * The block of `criar_branch_e_pr` past the guard: the four commands up to the first that
   * fails, then the link when none failed, nothing when a failure is `caught`, or the error.
   */
  function PublishRun(w: World, branch: string, caught: bool): Run<Option<string>> {
    var script := BranchScript(branch);
    var k := FirstThrow(w, script);
    Run(Started(w, script),
        if k == |script| then Returned(Some(PrUrl(ConfiguredRepo, branch)))
        else if caught then Returned(None)
        else Raised(w.run(script[k].0).code))
  }

  /** The branch block runs its four commands in order and stops at the first that fails. */
  lemma BranchBlock(w: World, branch: string)
    ensures var script := BranchScript(branch);
      var r := [Ran(CheckoutNew(branch)), Ran(AddAll), Ran(CommitWith(AutoCommitMessage(branch))), Ran(PushBranch(branch))];
      && FirstThrow(w, script) ==
           (if Fails(w, CheckoutNew(branch)) then 0 else if Fails(w, AddAll) then 1
            else if Fails(w, CommitWith(AutoCommitMessage(branch))) then 2 else if Fails(w, PushBranch(branch)) then 3 else 4)
      && Started(w, script) ==
           (if Fails(w, CheckoutNew(branch)) then r[..1] else if Fails(w, AddAll) then r[..2]
            else if Fails(w, CommitWith(AutoCommitMessage(branch))) then r[..3] else r)
  {
    var script := BranchScript(branch);
    StartedCons(w, script);
    StartedCons(w, script[1..]);
    StartedCons(w, script[2..]);
    StartedCons(w, script[3..]);
    assert script[1..][1..] == script[2..] && script[2..][1..] == script[3..] && script[3..][1..] == [];
  }

  /** With uncommitted changes or unpushed commits, no branch, staging, commit or push command is issued. */
  lemma BranchPrGuard(w: World, stamp: string, caught: bool)
    requires !Fails(w, StatusPorcelain) && (Dirty(w) || Unpushed(w))
    ensures BranchPrRun(w, stamp, caught) == Run([Ran(StatusPorcelain), Ran(LogAhead)], Returned(None))
  {
  }

  /**
   * A link is returned only after all four commands succeeded, and it is the compare page
   * of the configured repository for exactly the new branch.
   */
  lemma BranchPrLink(w: World, stamp: string, caught: bool)
    ensures var r := BranchPrRun(w, stamp, caught);
      var branch := AutoBranch(stamp);
      r.exit.Returned? && r.exit.value.Some? <==>
        && !Fails(w, StatusPorcelain) && !Dirty(w) && !Unpushed(w)
        && (forall i :: 0 <= i < 4 ==> !Fails(w, BranchScript(branch)[i].0))
    ensures var r := BranchPrRun(w, stamp, caught);
      r.exit.Returned? && r.exit.value.Some? ==>
        && r.trace == [Ran(StatusPorcelain), Ran(LogAhead)] + RanEach(Lines(BranchScript(AutoBranch(stamp))))
        && r.exit.value.value == PrUrl("mirelabsp/DevOps-Lab-AWS", AutoBranch(stamp))
        && BranchOfPrUrl(ConfiguredRepo, r.exit.value.value) == Some(AutoBranch(stamp))
  {
    var branch := AutoBranch(stamp);
    var script := BranchScript(branch);
    var k := FirstThrow(w, script);
    UserRepoOfRepoUrl();
    BranchOfPrUrlRoundTrip(ConfiguredRepo, branch);
    assert Lines(script)[..|script|] == Lines(script);
    if !Fails(w, StatusPorcelain) && !Dirty(w) && !Unpushed(w) && forall i :: 0 <= i < 4 ==> !Fails(w, script[i].0) {
      assert k == 4;
    }
  }

  /** A failure inside the block stops it at the failing command, which is the last event. */
  lemma BranchPrStops(w: World, stamp: string, caught: bool)
    requires !Fails(w, StatusPorcelain) && !Dirty(w) && !Unpushed(w)
    requires FirstThrow(w, BranchScript(AutoBranch(stamp))) < 4
    ensures var r := BranchPrRun(w, stamp, caught);
      var k := FirstThrow(w, BranchScript(AutoBranch(stamp)));
      var failed := BranchScript(AutoBranch(stamp))[k].0;
      && r.trace[|r.trace| - 1] == Ran(failed) && Fails(w, failed)
      && r.exit == (if caught then Returned(None) else Raised(w.run(failed).code))
  {
  }

  /**
   * `sync_commits` after a successful `get_status`: push when there are unpushed commits,
   * rebase-pull when the remote is ahead, and return whether no attempted command failed.
   * When `stopAfterFailedPush`, a failed push returns False at once.
   */
  function SyncCommitsRun(w: World, remote: seq<string> -> seq<string>, stopAfterFailedPush: bool): Run<bool> {
    var status := GetStatusWith(w, remote);
    if !status.exit.Returned? then Run(status.trace, Raised(status.exit.code))
    else
      var pushing := status.exit.value.localCommits != [];
      var pushFailed := pushing && Fails(w, PushMain);
      var pulling := status.exit.value.remoteCommits != [] && !(stopAfterFailedPush && pushFailed);
      var pullFailed := pulling && Fails(w, PullRebaseMain);
      Run(status.trace + PushPull(pushing, pulling), Returned(!pushFailed && !pullFailed))
  }

  /** The push, then the rebase-pull, each only when it is attempted. */
  function PushPull(pushing: bool, pulling: bool): (events: seq<Event>)
    ensures Ran(PushMain) in events <==> pushing
    ensures Ran(PullRebaseMain) in events <==> pulling
    ensures |events| == (if pushing then 1 else 0) + (if pulling then 1 else 0)
    ensures pushing && pulling ==> events == [Ran(PushMain), Ran(PullRebaseMain)]
  {
    assert PushMain[6] == 's' && PullRebaseMain[6] == 'l';
    (if pushing then [Ran(PushMain)] else []) + (if pulling then [Ran(PullRebaseMain)] else [])
  }

  /**
   * After the status queries, `sync_commits` pushes exactly when there are unpushed commits,
   * pulls exactly when the remote is ahead (and, when `stopAfterFailedPush`, the push did not
   * fail), pushes before it pulls, and returns True exactly when no attempted command failed.
   */
  lemma SyncCommitsActs(w: World, remote: seq<string> -> seq<string>, stopAfterFailedPush: bool)
    requires !StatusFails(w)
    ensures var r := SyncCommitsRun(w, remote, stopAfterFailedPush);
      var st := GetStatusWith(w, remote).trace;
      var pushFailed := Unpushed(w) && Fails(w, PushMain);
      var pulling := Behind(w) && !(stopAfterFailedPush && pushFailed);
      && r.trace == st + PushPull(Unpushed(w), pulling)
      && r.exit == Returned(!pushFailed && !(pulling && Fails(w, PullRebaseMain)))
  {
    var status := GetStatusWith(w, remote);
    assert status.exit.Returned?;
    assert (status.exit.value.localCommits != []) == Unpushed(w);
    assert (status.exit.value.remoteCommits != []) == Behind(w);
    var pushFailed := Unpushed(w) && Fails(w, PushMain);
    var pulling := Behind(w) && !(stopAfterFailedPush && pushFailed);

  }

  /** Without unpushed commits and with the remote not ahead, `sync_commits` issues nothing more and returns True. */
  lemma SyncCommitsIdle(w: World, remote: seq<string> -> seq<string>, stopAfterFailedPush: bool)
    requires !StatusFails(w) && !Unpushed(w) && !Behind(w)
    ensures SyncCommitsRun(w, remote, stopAfterFailedPush) == Run(GetStatusWith(w, remote).trace, Returned(true))
  {
    SyncCommitsActs(w, remote, stopAfterFailedPush);
    assert PushPull(false, false) == [];
  }

  /** A status query that fails ends `sync_commits` with the same error, before any push or pull. */
  lemma SyncCommitsStatusFailure(w: World, remote: seq<string> -> seq<string>, stopAfterFailedPush: bool)
    requires StatusFails(w)
    ensures var status := GetStatusWith(w, remote);
      && status.exit.Raised?
      && SyncCommitsRun(w, remote, stopAfterFailedPush) == Run(status.trace, Raised(status.exit.code))
  {
  }
}
