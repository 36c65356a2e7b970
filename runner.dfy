/**
 * The command runner `run_cmd` shared by both dashboards, the outside world it talks to,
 * and the git command lines the workflows issue.
 *
 * The world is an oracle: for one run of a workflow it gives, for each command line, the
 * exit code and captured standard output of the process, and for each prompt the operator's
 * answer. No workflow issues the same command line twice, so an oracle that depends on the
 * command line alone can describe every run.
 */
module Runner {

  /** What `subprocess.run` reports for one command: exit code and captured stdout. */
  datatype Proc = Proc(code: int, stdout: string)

  /** The outcomes of external commands, and the answers to `Prompt.ask`, during one run. */
  datatype World = World(run: string -> Proc, ask: string -> string)

  /** What a workflow does that an observer can see: a command it starts, or a question it asks. */
  datatype Event = Ran(line: string) | Asked(question: string)

  /** How one call of `run_cmd` ends: a result object, or a `CalledProcessError` thrown. */
  datatype Call = Done(proc: Proc) | Thrown(code: int)

  datatype Option<T> = None | Some(value: T)

  /** How a workflow ends: it returns a value, lets a `CalledProcessError` escape, or calls `exit`. */
  datatype Exit<T> = Returned(value: T) | Raised(code: int) | Exited(status: int)

  /** What a workflow shows: the events it caused, in order, and how it ended. */
  datatype Run<T> = Run(trace: seq<Event>, exit: Exit<T>)

  const MainBranch := "main"
  const RepoUrl := "https://github.com/mirelabsp/DevOps-Lab-AWS.git"

  const CheckoutMain := "git checkout " + MainBranch
  const StatusPorcelain := "git status --porcelain"
  const LogAhead := "git log origin/" + MainBranch + "..HEAD --oneline"
  const LogBehind := "git log HEAD..origin/" + MainBranch + " --oneline"
  const BranchNames := "git branch --format='%(refname:short)'"
  const RemoteBranchNames := "git branch -r"
  const RecentLog := "git log -5 --oneline --decorate"
  const StashPush := "git stash"
  const StashPop := "git stash pop"
  const PullRebaseMain := "git pull origin " + MainBranch + " --rebase"
  const PushMain := "git push origin " + MainBranch
  const AddAll := "git add ."
  const WeekdayLog := "git log --pretty=%cd --date=format:'%a'"

  function CheckoutNew(branch: string): string {
    "git checkout -b " + branch
  }

  function CommitWith(message: string): string {
    "git commit -m \"" + message + "\""
  }

  function PushBranch(branch: string): string {
    "git push origin " + branch
  }

  function RevListCount(branch: string): string {
    "git rev-list --count " + branch
  }

  const StashQuestion := "Existem alterações não commitadas. Criar stash?"
  const PopQuestion := "Aplicar stash de volta?"
  const MessageQuestion := "Digite a mensagem do commit"
  const NoChangesMarker := "No local changes to save"

  /** The process for `line` exited with a non-zero code. */
  predicate Fails(w: World, line: string) {
    w.run(line).code != 0
  }

  /**
   * `run_cmd(line, ignore_errors=ignoreErrors)`: `check=True` turns a non-zero exit into a
   * thrown `CalledProcessError`, unless errors are ignored, in which case the failed process
   * comes back as a result carrying its real exit code and stdout.
   */
  function RunCmd(w: World, line: string, ignoreErrors: bool): (c: Call)
    ensures c.Thrown? <==> Fails(w, line) && !ignoreErrors
    ensures c.Thrown? ==> c.code == w.run(line).code && c.code != 0
    ensures c.Done? ==> c.proc == w.run(line)
  {
    var p := w.run(line);
    if p.code != 0 && !ignoreErrors then Thrown(p.code) else Done(p)
  }

  /** One `Ran` event per command line, in order. */
  function RanEach(lines: seq<string>): (trace: seq<Event>)
    ensures |trace| == |lines|
    ensures forall i :: 0 <= i < |lines| ==> trace[i] == Ran(lines[i])
  {
    if lines == [] then [] else [Ran(lines[0])] + RanEach(lines[1..])
  }

  /** The command lines of a block of `run_cmd` calls, each paired with its `ignore_errors` flag. */
  function Lines(script: seq<(string, bool)>): (lines: seq<string>)
    ensures |lines| == |script|
    ensures forall i :: 0 <= i < |script| ==> lines[i] == script[i].0
  {
    if script == [] then [] else [script[0].0] + Lines(script[1..])
  }

  /**
   * Where a block of consecutive `run_cmd` calls stops: the index of the first call that
   * throws, or `|script|` when every call returns.
   */
  function FirstThrow(w: World, script: seq<(string, bool)>): (k: nat)
    ensures k <= |script|
    ensures forall j :: 0 <= j < k ==> !(Fails(w, script[j].0) && !script[j].1)
    ensures k < |script| ==> Fails(w, script[k].0) && !script[k].1
  {
    if script == [] || RunCmd(w, script[0].0, script[0].1).Thrown? then 0
    else 1 + FirstThrow(w, script[1..])
  }

  /** The commands a block started before it stopped: every call up to and including the one that threw. */
  function Started(w: World, script: seq<(string, bool)>): (trace: seq<Event>)
    ensures var k := FirstThrow(w, script);
      |trace| == if k < |script| then k + 1 else |script|
    ensures forall i :: 0 <= i < |trace| ==> trace[i] == Ran(script[i].0)
  {
    var k := FirstThrow(w, script);
    RanEach(Lines(script)[..if k < |script| then k + 1 else |script|])
  }

  /** A block whose first call returns goes on with the rest; one whose first call throws stops there. */
  lemma StartedCons(w: World, script: seq<(string, bool)>)
    requires script != []
    ensures RunCmd(w, script[0].0, script[0].1).Thrown? ==>
      FirstThrow(w, script) == 0 && Started(w, script) == [Ran(script[0].0)]
    ensures RunCmd(w, script[0].0, script[0].1).Done? ==>
      && FirstThrow(w, script) == 1 + FirstThrow(w, script[1..])
      && Started(w, script) == [Ran(script[0].0)] + Started(w, script[1..])
  {
    var k := FirstThrow(w, script);
    var t := Started(w, script);
    if RunCmd(w, script[0].0, script[0].1).Done? {
      var u := Started(w, script[1..]);
      assert |t| == 1 + |u|;
      forall i | 0 <= i < |t| ensures t[i] == ([Ran(script[0].0)] + u)[i] {
        if i > 0 { assert script[1..][i - 1] == script[i]; }
      }
    }
  }

  /**
   * Every event of `trace` has a place in a workflow's fixed order of steps (`rank` is that
   * place, negative for events that are no step), and the events come in that order.
   */
  predicate InOrder(trace: seq<Event>, rank: Event -> int) {
    && (forall i :: 0 <= i < |trace| ==> rank(trace[i]) >= 0)
    && (forall i, j :: 0 <= i < j < |trace| ==> rank(trace[i]) < rank(trace[j]))
  }

  /** Every event of `trace` has a rank in `[lo, hi)`. */
  predicate RankedWithin(trace: seq<Event>, rank: Event -> int, lo: int, hi: int) {
    forall i :: 0 <= i < |trace| ==> lo <= rank(trace[i]) < hi
  }

  /** Two ordered traces, the first wholly ranked before the second, make an ordered trace. */
  lemma InOrderAppend(a: seq<Event>, b: seq<Event>, rank: Event -> int, lo: int, mid: int, hi: int)
    requires InOrder(a, rank) && InOrder(b, rank)
    requires lo <= mid <= hi
    requires RankedWithin(a, rank, lo, mid) && RankedWithin(b, rank, mid, hi)
    ensures InOrder(a + b, rank) && RankedWithin(a + b, rank, lo, hi)
  {
    var c := a + b;
    forall i | 0 <= i < |c| ensures lo <= rank(c[i]) < hi {
      if i < |a| {
        assert c[i] == a[i];
      } else {
        assert c[i] == b[i - |a|];
      }
    }
    forall i, j | 0 <= i < j < |c| ensures rank(c[i]) < rank(c[j]) {
      if j < |a| {
      } else if i >= |a| {
        assert c[i] == b[i - |a|] && c[j] == b[j - |a|];
      } else {
        assert c[j] == b[j - |a|];
      }
    }
  }
}
