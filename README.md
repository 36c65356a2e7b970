# DEVOPS-LAB-AWS console tools, modelled in Dafny

The repository ships a small Flask service and a set of console scripts for a DevOps lab.
This project models the parts of those scripts that make decisions:

- The two git dashboards, `tools/dashboard.py` and its variant `tools/repo_dashboard.py`:
  - the command runner `run_cmd`;
  - the status query `get_status` and the status table `draw_dashboard`;
  - the workflows `sync_repo`, `commit_changes`, `criar_branch_e_pr` and `sync_commits`;
  - the text processing behind the three charts.
- The two scripts that print the repository tree: `tools/repo_info_backup.py` and
  `tools/repo_dashboard_backup.py`.

The outside world is an oracle. A `Runner.World` gives, for each command line, the exit code
and captured stdout of the process, and for each `Prompt.ask` question the operator's answer.
A workflow's observable result is a `Run`:

- the trace of commands started and questions asked, in order;
- how it ended: returned a value, let a `CalledProcessError` escape, or called `exit`.

The workflows are methods that walk through the source's steps. Each one is proved equal to a
specification function in `Workflows`, and the source's promises are proved as lemmas about
those functions. The two dashboards share one specification. Each difference between them is
a parameter, and each dashboard's method fixes the parameter to what its file does:

- whether a failed checkout is caught;
- whether a pull conflict returns or calls `exit(1)`;
- whether the commit and branch blocks catch errors;
- whether `sync_commits` stops after a failed push;
- whether remote branch names are filtered.

`os.walk` is an input: a sequence of `Walk.Entry` triples, each a root given by its path parts
below the repository, plus its sub-directory and file names. A printed tree is a sequence of
lines. `get_repo_structure` fills an insertion-ordered dict, modelled as a sequence of
key/value pairs, in a loop over the walk. Both `display_structure` functions are loops that
emit lines.

Modules:

- `PyStr`: the Python string operations used: `strip`, `splitlines`, `isdigit`/`int`,
  `replace`, `join`, `count`.
- `Runner`: the oracle, `run_cmd` and the command lines.
- `GitText`: parsing of git output, the `Counter` tally, the PR link.
- `GitStatus`: `get_status`.
- `Workflows`: the workflow specifications.
- `Dashboard` and `RepoDashboard`: the two dashboard scripts.
- `Walk`: what the two tree scripts share.
- `RepoInfoBackup` and `RepoDashboardBackup`: the two tree scripts.

## Model

| member | source | states |
|---|---|---|
| Runner.RunCmd | tools/dashboard.py:25-40 | `check=True` throws exactly when the process fails and errors are not ignored; the error carries the real non-zero code, and otherwise the process result comes back unchanged |
| GitStatus.StatusStops | tools/dashboard.py:42-51 | the status block stops early exactly when one of the four commands run without `ignore_errors` fails |
| GitStatus.GetStatusWith | tools/dashboard.py:42-59 | commands are issued in source order up to the first failure; the status is returned exactly when none fails, and otherwise the failing command's code is raised; `changes` and `last_commits` are the stripped outputs, the commit lists are the log lines, the local branches are the stripped lines |
| GitText.StrippedLines | tools/dashboard.py:48-50 | `strip().splitlines()` is empty exactly when the output is all whitespace |
| GitText.CommitList | tools/dashboard.py:54-55 | the commit list is empty exactly when the log output is blank, and no entry holds a line break |
| GitText.CommitListOfLog | tools/dashboard.py:44-55 | a oneline log printed from summaries `ls` parses back to exactly `ls` |
| GitText.RemoteNames | tools/dashboard.py:57 | the remote names are no more than the lines, each stripped and free of `->` |
| GitText.RemoteNamesExact | tools/dashboard.py:57 | a name is kept exactly when it is the strip of a line without `->` |
| GitText.RemoteNamesInOrder | tools/dashboard.py:57 | the remote names are the lines without `->`, in their order and with their repeats, each stripped |
| GitText.StripEach | tools/repo_dashboard.py:53 | every line is kept, stripped, in order |
| GitText.RemoteNamesWithoutAliases | tools/repo_dashboard.py:53 | with no `->` line in the output, both dashboards list the same remote branches |
| GitText.ParseCount | tools/dashboard.py:259-260 | a count whose stripped text is not all digits reads as 0 |
| GitText.ParseCountOfDecimal | tools/dashboard.py:259-260 | the decimal text of `n`, with any surrounding whitespace, reads back as `n` |
| GitText.WeekdayCounts | tools/repo_dashboard.py:265-268 | one count per day, seven in all, Monday to Sunday |
| GitText.WeekdayCountsPresent | tools/repo_dashboard.py:265-268 | a day's count is non-zero exactly when some stripped log line is that day's abbreviation |
| GitText.WeekdayTally | tools/repo_dashboard.py:266-268 | the seven day counts plus the lines that are no day add up to the number of lines |
| GitText.WeekdayCountsTotal | tools/dashboard.py:272-277 | the seven bars plus the uncounted lines account for every stripped log line |
| GitText.FolderOf | tools/dashboard.py:294-298 | the folder is the longest prefix of the path without `/`, stopped by a `/` or the end |
| GitText.GuardedFolders | tools/dashboard.py:292-298 | at most one folder per line, and no folder holds a `/` |
| GitText.GuardedSkipsShort | tools/dashboard.py:292-298 | the folders are exactly those of the lines longer than 3 characters, in order: shorter lines contribute nothing |
| GitText.UnguardedFolders | tools/repo_dashboard.py:280 | every line contributes the folder of its text from index 3 on |
| GitText.GuardedIsUnguarded | tools/repo_dashboard.py:280 | when every line is longer than 3 characters, the two extractions agree |
| GitText.StatusLineShape | tools/dashboard.py:294 | a porcelain entry prints as one line whose text from index 3 on is its path |
| GitText.StripShiftsFirstPath | tools/dashboard.py:290-298 | as written: a first entry whose status starts with a blank loses its path's first character |
| GitText.ChangedFolders | tools/dashboard.py:290-298 | the corrected extraction yields at most one folder per line |
| GitText.ChangedFoldersOfStatus | tools/dashboard.py:290-298 | the corrected extraction gives each porcelain entry's own folder, in order |
| GitText.Tally | tools/dashboard.py:300 | `Counter`: distinct keys, exactly the items, each with its positive number of occurrences |
| GitText.TallyStep | tools/dashboard.py:300 | counting one more item keeps the tally exact |
| GitText.TallyChart | tools/dashboard.py:300-303 | the chart has one distinct label per item, each with its positive count |
| GitText.TallyChartEmpty | tools/dashboard.py:300-307 | the chart is empty exactly when there is no folder |
| GitText.UserRepoOfCloneUrl | tools/dashboard.py:214 | for an owner/name pair without `h` or `.`, the configured repository's included, removing the GitHub prefix and `.git` from its clone URL gives the pair back |
| GitText.UserRepoOfRepoUrl | tools/dashboard.py:23 | the configured repository is `mirelabsp/DevOps-Lab-AWS` |
| GitText.BranchOfPrUrlRoundTrip | tools/dashboard.py:215 | the PR link names the branch it was built for |
| Workflows.SyncRepoCheckoutFirst | tools/dashboard.py:155-159 | the checkout comes first, and a failed checkout ends the run before any other command |
| Workflows.SyncRepoStatusFailure | tools/dashboard.py:161 | a failing status query raises its code right after the checkout |
| Workflows.SyncRepoStash | tools/dashboard.py:164-168 | the stash question is asked exactly for a dirty tree; `git stash` runs exactly when the answer is "s"; a stash is recorded exactly when `git stash` ran without reporting nothing to save |
| Workflows.SyncRepoPull | tools/dashboard.py:171-176 | the rebase-pull runs exactly when checkout and status succeed, and a failed pull is the last event and ends the run as configured |
| Workflows.SyncRepoPop | tools/dashboard.py:178-184 | the pop question is asked exactly after a successful pull with a stash recorded; `git stash pop` runs exactly when it is answered "s"; no pop follows a failed pull |
| Workflows.SyncRepoOrdered | tools/dashboard.py:154-184 | the events happen in source order |
| Workflows.CommitBlock | tools/dashboard.py:190-192 | staging runs first and the commit runs only when staging succeeds |
| Workflows.CommitOnlyWhenDirty | tools/dashboard.py:186-197 | `git add .` runs exactly when the tree is dirty; the commit runs exactly when staging succeeds; a clean tree issues nothing but the status query |
| Workflows.CommitOrdered | tools/dashboard.py:186-192 | status, question, staging and commit happen in that order |
| Workflows.CommitEnds | tools/repo_dashboard.py:178-186 | the run raises exactly when the status query fails, or when errors are not caught and staging or the commit fails |
| Workflows.BranchBlock | tools/dashboard.py:209-212 | the branch block runs its four commands in order and stops at the first that fails |
| Workflows.BranchPrGuard | tools/dashboard.py:200-205 | uncommitted changes or unpushed commits stop the run after the two queries, with no mutating command |
| Workflows.BranchPrLink | tools/dashboard.py:199-217 | a link is produced exactly when the tree is clean, nothing is unpushed and all four commands succeed; it is the compare URL for the repository and the branch, and it names that branch |
| Workflows.BranchPrStops | tools/dashboard.py:208-219 | a failing command of the block is the last event, and is caught or raised as configured |
| Workflows.PushPull | tools/dashboard.py:225-247 | the push happens exactly when pushing and the pull exactly when pulling, push first |
| Workflows.SyncCommitsActs | tools/dashboard.py:221-249 | after the status query, push exactly with unpushed commits and pull exactly with commits behind (unless a failed push stops the run); the result is true exactly when no attempted command failed |
| Workflows.SyncCommitsIdle | tools/repo_dashboard.py:207-244 | with nothing to push or pull, only the status query runs and the result is true |
| Workflows.SyncCommitsStatusFailure | tools/dashboard.py:222 | a failing status query raises before any push or pull |
| Dashboard.RemoteBranchesFiltered | tools/dashboard.py:57 | the remote branches are the lines of `git branch -r` without `->`, in order, each stripped |
| Dashboard.Summary | tools/dashboard.py:68-71 | up to the limit the cell is the full join; past the limit it is the join of the first `limit` names followed by `...`; each shown name appears in it |
| Dashboard.DrawDashboard | tools/dashboard.py:61-74 | five rows: changes flag, the two commit counts as decimal text, the truncated branch lists, and the panel of recent commits |
| Dashboard.SyncRepo | tools/dashboard.py:154-184 | the run is the shared specification with a caught checkout failure and a returning pull conflict |
| Dashboard.CommitChanges | tools/dashboard.py:186-197 | the run is the shared specification with errors of the block caught |
| Dashboard.CreateBranchAndPr | tools/dashboard.py:199-219 | the run is the shared specification with errors of the block caught |
| Dashboard.PublishBranch | tools/dashboard.py:208-219 | the block past the guard is its specification, errors caught |
| Dashboard.SyncCommits | tools/dashboard.py:221-249 | the run is the shared specification with filtered remotes, and the pull attempted after a failed push |
| Dashboard.PushThenPull | tools/dashboard.py:225-247 | each step runs when requested, and success is false exactly when an attempted step failed |
| Dashboard.PlotCommits | tools/dashboard.py:251-268 | one `rev-list` per branch, in branch order, each bar its parsed count; a failing branch query issues nothing more and shows the error |
| Dashboard.PlotChangesPerFolder | tools/dashboard.py:287-310 | one status query; its error is shown; otherwise the tally of the guarded folders, or the nothing-pending message when there is none |
| RepoDashboard.RemoteBranchesKept | tools/repo_dashboard.py:53 | every line of `git branch -r` is kept, stripped, in order, `->` included |
| RepoDashboard.StatusesAgree | tools/repo_dashboard.py:41-55 | without a `->` line both dashboards read the same status |
| RepoDashboard.DrawDashboard | tools/repo_dashboard.py:60-70 | five rows: changes flag, the two commit counts as decimal text, branch cells naming every branch, and the panel of recent commits |
| RepoDashboard.DrawDashboardsAgree | tools/repo_dashboard.py:67-68 | with few enough branches the untruncated table equals the truncated one |
| RepoDashboard.SyncRepo | tools/repo_dashboard.py:149-176 | the run is the shared specification with an uncaught checkout failure and `exit(1)` on a pull conflict |
| RepoDashboard.CommitChanges | tools/repo_dashboard.py:178-186 | the run is the shared specification with errors of the block raised |
| RepoDashboard.CreateBranchAndPr | tools/repo_dashboard.py:188-202 | the run is the shared specification with errors of the block raised |
| RepoDashboard.PublishBranch | tools/repo_dashboard.py:194-202 | the block past the guard is its specification, errors raised |
| RepoDashboard.SyncCommits | tools/repo_dashboard.py:207-244 | the run is the shared specification with unfiltered remotes, returning false right after a failed push |
| RepoDashboard.PushOrStop | tools/repo_dashboard.py:211-240 | a failed push suppresses the pull; success is false exactly when an attempted step failed |
| RepoDashboard.PlotCommits | tools/repo_dashboard.py:249-258 | one `rev-list` per branch, in order, each bar its parsed count; a failing branch query raises its code |
| RepoDashboard.ChangesChart | tools/repo_dashboard.py:278-286 | the status failure raises; otherwise the chart is the `Counter` of the unguarded folders, so every line's folder is a label, every bar is that folder's number of lines, and the chart is empty exactly for a blank status |
| RepoDashboard.UnguardedChart | tools/repo_dashboard.py:280-281 | every line's folder is a label with a positive count, and the chart is empty exactly without lines |
| RepoDashboard.ChangesChartsAgree | tools/repo_dashboard.py:279-281 | on a dirty tree whose lines are all longer than 3 characters, both dashboards draw the same non-empty chart |
| Walk.Rule | tools/repo_info_backup.py:36 | the rule is 50 `=` characters |
| PyStr.Keep | tools/repo_info_backup.py:25-26 | the filter keeps exactly the names that pass, and no more than there were |
| PyStr.KeepAppend | tools/repo_info_backup.py:25-26 | filtering keeps order: it distributes over concatenation |
| Walk.Visible | tools/repo_dashboard_backup.py:32-39 | exactly the names not starting with `.` |
| Walk.Items | tools/repo_dashboard_backup.py:32-34 | one tree line per name, in order |
| Walk.Basename | tools/repo_info_backup.py:45 | the base name is an end of the path without `/`, preceded by a `/` when shorter than the path |
| Walk.BasenameOfJoin | tools/repo_info_backup.py:45 | the base name of a joined path is its last name |
| Walk.JoinSeparators | tools/repo_info_backup.py:39 | a path of `n` names holds `n - 1` separators |
| RepoInfoBackup.Put | tools/repo_info_backup.py:24-27 | dict assignment: an existing key keeps its place, a new key goes last; the key maps to the new value, other keys keep theirs |
| RepoInfoBackup.ListingOf | tools/repo_info_backup.py:25-26 | files are those not starting with `.`; dirs are those not starting with `.` and not `venv` |
| RepoInfoBackup.GetRepoStructure | tools/repo_info_backup.py:10-29 | the loop builds the dict of the specification |
| RepoInfoBackup.StructureSnoc | tools/repo_info_backup.py:15-27 | one more walk entry is skipped, or stored under its key |
| RepoInfoBackup.FillKeys | tools/repo_info_backup.py:24 | the dict's keys are distinct and are exactly the assigned keys |
| RepoInfoBackup.FillItems | tools/repo_info_backup.py:24 | every stored pair was assigned |
| RepoInfoBackup.FillLastWins | tools/repo_info_backup.py:24 | a key keeps the value of its last assignment |
| RepoInfoBackup.FillDistinct | tools/repo_info_backup.py:24 | assignments with distinct keys give the dict in assignment order |
| RepoInfoBackup.StructureKeys | tools/repo_info_backup.py:15-24 | the keys are distinct and are exactly those of the roots not skipped |
| RepoInfoBackup.StructureInWalkOrder | tools/repo_info_backup.py:15-27 | with distinct keys, the dict lists the visited roots in walk order |
| RepoInfoBackup.NoVenvListed | tools/repo_info_backup.py:26 | no listing names `venv` among its dirs |
| RepoInfoBackup.HiddenRepository | tools/repo_info_backup.py:17-18 | a repository under a hidden or `venv` directory yields an empty dict |
| RepoInfoBackup.KeyIsRoot | tools/repo_info_backup.py:20-22 | the key is `ROOT` exactly for the repository itself or a top-level dir named `ROOT` |
| RepoInfoBackup.DisplayStructure | tools/repo_info_backup.py:31-54 | it prints the specification's lines for the dict read from the walk |
| RepoInfoBackup.PrintStructure | tools/repo_info_backup.py:35-54 | title, rule, then each item's block in dict order |
| RepoInfoBackup.PrintBlock | tools/repo_info_backup.py:39-54 | one item's block: header, file lines, dir lines |
| RepoInfoBackup.PrintFiles | tools/repo_info_backup.py:48-49 | one `├──` line per file |
| RepoInfoBackup.PrintDirs | tools/repo_info_backup.py:52-54 | one line per dir with its mark |
| RepoInfoBackup.DirLinesAt | tools/repo_info_backup.py:52-54 | the `i`-th dir line is indent, mark, blank, name and `/` |
| RepoInfoBackup.BlockShape | tools/repo_info_backup.py:39-54 | a header, then every file line as indent + `  ├── ` + name, then the dir lines; `└──` only for the last dir of a root without files |
| RepoInfoBackup.HeaderOfRoot | tools/repo_info_backup.py:39-45 | the repository is headed `DEVOPS-LAB-AWS/`; any other root by two spaces per level below the top, its name and `/` |
| RepoDashboardBackup.DisplayStructure | tools/repo_dashboard_backup.py:9-39 | title, rule and the repository header once, then each root's lines in walk order |
| RepoDashboardBackup.PrintRoot | tools/repo_dashboard_backup.py:17-39 | the lines of one root, none for a skipped root or the repository itself |
| RepoDashboardBackup.PrintVisible | tools/repo_dashboard_backup.py:32-39 | one line per name not starting with `.`, in order |
| RepoDashboardBackup.RootSilent | tools/repo_dashboard_backup.py:19-24 | a root prints nothing exactly when it is skipped or is the repository itself |
| RepoDashboardBackup.RootShape | tools/repo_dashboard_backup.py:26-39 | name and `/` indented two spaces per level, then a `├──` line per visible file, then a `└──` line per visible dir |
| RepoDashboardBackup.VenvListed | tools/repo_dashboard_backup.py:37-39 | a `venv` dir of a visited root is listed |
| RepoDashboardBackup.HeadersAgree | tools/repo_dashboard_backup.py:29 | both tree scripts head a root below the repository with the same line |

## Left out

- Process execution: `subprocess.run` with `shell=True` is the `World` oracle. Output printed by commands run without `capture_output` is not modelled.
- Presentation: rich tables, panels and console messages, plotext charts, and `webbrowser.open`. The PR link is returned instead of opened. The tables and charts are returned as values.
- The "Pressione Enter" pauses. `Prompt.ask` validation of `choices`: answers are arbitrary strings, and anything but "s" means no.
- Filesystem mutations: `criar_pastas`, `organizar_estrutura`, `atualizar_readme`, `atualizar_gitignore`, the interactive `gerenciador_arquivos`, and the `mega_dashboard` menu loops. These are I/O and dispatch over user input.
- `tools/repo_info.py` (sizes in floating-point KB), the Flask app under `app/`, `run.py` and the tests are not part of this model.
- `datetime.now()`: the timestamp in the branch name is an input string.
- `os.walk` itself is an input. `Path(__file__).parent.parent` is given by its parts `base`. `os.sep` is `/`.
- `os.path.basename(root)` in tools/repo_dashboard_backup.py is modelled as the last part of the root's relative path, which is what it is for every root below the repository.
- GitText.UserRepoOfCloneUrl: stated only for owner/name pairs without `h` or `.`, which keeps the proof about the two `replace` calls short; a pair such as `octocat/hello.world` is not covered, though the configured repository is (GitText.UserRepoOfRepoUrl).
- GitText.ParseCount: accepts ASCII digits only. Python's `isdigit` and `int` also accept other Unicode decimal digits.
- RepoDashboard.DrawDashboard: the branch cells are stated to contain every branch name; their exact text is stated only through RepoDashboard.DrawDashboardsAgree.
- RepoInfoBackup.KeyIsRoot: a top-level directory named `ROOT` shares the repository's key, and its listing replaces the repository's. The model keeps this behaviour.
- Dashboard.PlotCommits: a failure in drawing the chart is not modelled; only a failing branch query reaches the `except`.

## Findings

| source | as written | input that shows it | evidently intended | confidence | as-written member | corrected member |
|---|---|---|---|---|---|---|
| tools/dashboard.py:290-298 | the whole porcelain output is stripped before each line is cut at index 3, so a first entry whose status column starts with a blank loses its path's first character (tools/repo_dashboard.py:279-280 does the same) | `" M app/main.py\n"` gives the folder `pp` | the folder `app` | not executed | GitText.StripShiftsFirstPath | GitText.ChangedFoldersOfStatus |
