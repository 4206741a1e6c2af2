/**
  Reference model of pbgit_chatgpt_further_refactored.py: the rollout as a
  generic list of named fallible steps, run by one loop that stops at the
  first failing step, attempts a single recovery checkout of the base branch
  and exits with 1.

  Every function takes the state of the repository handle and returns the
  Python call's result with the state after it.  The imperative version in
  module FurtherRefactored is proved to compute exactly these functions; the
  lemmas at the end state what the source promises about them.
 */
module FurtherRefactoredModel {
  import opened GitState
  import opened Cli

  /** not_bare: the step passes on a repository with a working tree. */
  function NotBare(s: RepoState): bool { !s.bare }

  /** not_dirty: the step passes on a clean tree without untracked files. */
  function NotDirty(s: RepoState): bool { !s.dirty && !s.untracked }

  /** get_remote_repo: the Remote object, or None when the name is unknown
      (the IndexError is caught) or the object is falsy. */
  function GetRemoteRepo(s: RepoState, name: string, o: Oracle): (r: Result)
    ensures r.Returned?
    ensures r.truthy <==> name in s.remotes && o.remoteTruthy
  {
    if name !in s.remotes then Returned(false) else Returned(o.remoteTruthy)
  }

  /** The fetch step's lambda: look the remote up again and fetch it; the
      step's value is the list fetch() returns. */
  function FetchRemoteRepo(s: RepoState, name: string, o: Oracle): (r: (Result, RepoState))
    ensures name !in s.remotes ==> r == (Raised(LookupError), s)
    ensures name in s.remotes ==> r.1 == s.Fetch(name, o).1
    ensures r.0 == Returned(true) <==> name in s.remotes && o.Succeeds(|s.trace|) && o.fetchInfo
    ensures r.0.Raised? ==> !r.0.exc.ExitRequest?
  {
    if name !in s.remotes then (Raised(LookupError), s)
    else
      var (ok, s1) := s.Fetch(name, o);
      if ok then (Returned(o.fetchInfo), s1) else (Raised(GitError), s1)
  }

  /** validate_branch: a missing local branch raises typer.Exit(1). */
  function ValidateBranch(s: RepoState, branch: string): (r: Result)
    ensures r.Raised? <==> branch !in s.heads
    ensures r.Raised? ==> r.exc == ExitRequest(1)
  {
    if branch !in s.heads then Raised(ExitRequest(1)) else Returned(false)
  }

  /** The tracking part of update_branch: set the tracking branch only when
      none is configured.  Looking up the remote or its ref of that name can
      fail with a lookup error, which is not a GitError. */
  function ConfigureTracking(s: RepoState, branch: string, remote: string, o: Oracle): (r: (Result, RepoState))
    ensures Extends(s, r.1, o) && r.1.heads == s.heads && r.1.current == s.current
    // a branch that already tracks something is left alone, without a git call
    ensures branch in s.tracked ==> r == (Returned(true), s)
    ensures branch !in s.tracked ==>
      r.1.trace == s.trace + (if remote in s.remotes then [Entry(Op.SetTracking(branch, remote), o.Succeeds(|s.trace|))] else [])
    ensures r.0.Returned? ==> r.0.truthy && r.1.tracked == s.tracked + {branch}
    ensures r.0.Raised? ==> r.0.exc == LookupError
    ensures r.0.Returned? <==> branch in s.tracked || (remote in s.remotes && o.Succeeds(|s.trace|))
  {
    if branch in s.tracked then (Returned(true), s)
    else if remote !in s.remotes then (Raised(LookupError), s)
    else
      var (ok, s1) := s.SetTracking(branch, remote, o);
      if ok then (Returned(true), s1) else (Raised(LookupError), s1)
  }

  /** What a successful update_branch records: checkout, tracking set-up
      when none is configured, and a rebasing pull. */
  function UpdateTrace(branch: string, remote: string, tracked: set<string>): seq<Entry> {
    [Ok(Op.Checkout(branch))]
    + (if branch in tracked then [] else [Ok(Op.SetTracking(branch, remote))])
    + [Ok(Op.Pull(branch, true))]
  }

  /** update_branch: validate, check out, set the tracking branch if none is
      configured, pull with rebase; a GitError makes it return False. */
  function UpdateBranch(s: RepoState, branch: string, remote: string, o: Oracle): (r: (Result, RepoState))
    ensures Extends(s, r.1, o) && r.1.heads == s.heads
    // validation comes before any git call
    ensures branch !in s.heads ==> r == (Raised(ExitRequest(1)), s)
    // the only exceptions that escape: the exit request and a failed tracking lookup
    ensures r.0.Raised? ==> (r.0.exc == ExitRequest(1) && branch !in s.heads) || r.0.exc == LookupError
    ensures r.0 == Returned(true) ==>
      r.1.current == branch && r.1.tracked == s.tracked + {branch}
      && r.1.trace == s.trace + UpdateTrace(branch, remote, s.tracked)
    ensures r.0 == Returned(true)
        <==> branch in s.heads && (branch in s.tracked || remote in s.remotes)
             && o.NoFailures(|s.trace|, |UpdateTrace(branch, remote, s.tracked)|)
  {
    var v := ValidateBranch(s, branch);
    if v.Raised? then (v, s)
    else
      var (ok, s1) := s.Checkout(branch, o);
      if !ok then (Returned(false), s1)
      else
        var (t, s2) := ConfigureTracking(s1, branch, remote, o);
        if t.Raised? then (t, s2)
        else
          var (pulled, s3) := s2.Pull(true, o);
          (Returned(pulled), s3)
  }

  /** Whatever the outcome of update_branch, the calls it made are, operation
      for operation, a prefix of the ones a successful update makes. */
  lemma UpdateBranchCalls(s: RepoState, branch: string, remote: string, o: Oracle)
    ensures var r := UpdateBranch(s, branch, remote, o);
      |r.1.trace| <= |s.trace| + |UpdateTrace(branch, remote, s.tracked)|
      && forall i | |s.trace| <= i < |r.1.trace| ::
           r.1.trace[i].op == UpdateTrace(branch, remote, s.tracked)[i - |s.trace|].op
  {
  }

  /** merge_branch: merge the source into the checked-out branch and push;
      a GitError makes it return False. */
  function MergeBranch(s: RepoState, source: string, o: Oracle): (r: (Result, RepoState))
    ensures Extends(s, r.1, o) && r.1.heads == s.heads && r.1.current == s.current
    ensures r.0.Returned?
    ensures r.0.truthy <==> o.NoFailures(|s.trace|, 2)
    // the push is attempted only after a successful merge
    ensures r.1.trace == s.trace + [Entry(Op.Merge(source, s.current), o.Succeeds(|s.trace|))]
      + (if o.Succeeds(|s.trace|) then [Entry(Op.Push(s.current), o.Succeeds(|s.trace| + 1))] else [])
  {
    var (merged, s1) := s.Merge(source, o);
    if !merged then (Returned(false), s1)
    else
      var (pushed, s2) := s1.Push(o);
      (Returned(pushed), s2)
  }

  /** merge_base_to_pp_branch and merge_pp_to_prod_branch:
      `update_branch(target) and merge_branch(source, target)`. */
  function Promote(s: RepoState, source: string, target: string, remote: string, o: Oracle): (r: (Result, RepoState))
    ensures Extends(s, r.1, o) && r.1.heads == s.heads
    // short-circuit: when updating the target does not succeed, nothing more happens
    ensures UpdateBranch(s, target, remote, o).0 != Returned(true) ==> r == UpdateBranch(s, target, remote, o)
    ensures r.0.Raised? ==> (r.0.exc == ExitRequest(1) && target !in s.heads) || r.0.exc == LookupError
    ensures r.0 == Returned(true) ==>
      r.1.current == target && r.1.tracked == s.tracked + {target}
      && r.1.trace == s.trace + UpdateTrace(target, remote, s.tracked)
                      + [Ok(Op.Merge(source, target)), Ok(Op.Push(target))]
    ensures r.0 == Returned(true)
        <==> target in s.heads && (target in s.tracked || remote in s.remotes)
             && o.NoFailures(|s.trace|, |UpdateTrace(target, remote, s.tracked)| + 2)
  {
    var (u, s1) := UpdateBranch(s, target, remote, o);
    if u != Returned(true) then (u, s1) else MergeBranch(s1, source, o)
  }

  /** checkout_branch: a GitError makes it return False. */
  function CheckoutBranch(s: RepoState, branch: string, o: Oracle): (r: (Result, RepoState))
    ensures r.0 == Returned(o.Succeeds(|s.trace|))
    ensures r.1 == s.Checkout(branch, o).1
  {
    var (ok, s1) := s.Checkout(branch, o);
    (Returned(ok), s1)
  }

  /** The entries of the step list, each with the arguments it is called with. */
  datatype Step =
    | CheckUncommitted                                       // "Check for uncommitted changes"
    | CheckBare                                              // "Check if repository is bare"
    | GetRemote(name: string)                                // "Get remote repository"
    | FetchRemote(name: string)                              // "Fetch remote repository"
    | UpdateBase(branch: string, remote: string)             // "Update base branch"
    | MergeBaseToPp(source: string, target: string, remote: string)   // "Merge base branch to pp branch"
    | MergePpToProd(source: string, target: string, remote: string)   // "Merge pp branch to production branch"
    | CheckoutBase(branch: string)                           // "Checkout base branch"

  /** `func(*args)` for a step. */
  function Call(step: Step, s: RepoState, o: Oracle): (r: (Result, RepoState))
    ensures Extends(s, r.1, o)
    ensures !step.CheckoutBase? ==> r.1.heads == s.heads
    ensures r.0.Raised? && r.0.exc.ExitRequest? ==> r.0.exc.code == 1
  {
    match step
    case CheckUncommitted => (Returned(NotDirty(s)), s)
    case CheckBare => (Returned(NotBare(s)), s)
    case GetRemote(name) => (GetRemoteRepo(s, name, o), s)
    case FetchRemote(name) => FetchRemoteRepo(s, name, o)
    case UpdateBase(branch, remote) => UpdateBranch(s, branch, remote, o)
    case MergeBaseToPp(source, target, remote) => Promote(s, source, target, remote, o)
    case MergePpToProd(source, target, remote) => Promote(s, source, target, remote, o)
    case CheckoutBase(branch) => CheckoutBranch(s, branch, o)
  }

  /** What rollout_step makes of a step: pass, fail, or an exit request passed on. */
  datatype Verdict = Pass | Fail | Exits(code: int)

  /** rollout_step: a truthy value passes, a falsy one fails, typer.Exit is
      re-raised unchanged and any other exception becomes a failure. */
  function Judge(r: Result): (v: Verdict)
    ensures r.Returned? ==> (v == Pass <==> r.truthy) && !v.Exits?
    ensures r.Raised? && r.exc.ExitRequest? ==> v == Exits(r.exc.code)
    ensures r.Raised? && !r.exc.ExitRequest? ==> v == Fail
  {
    match r
    case Returned(truthy) => if truthy then Pass else Fail
    case Raised(ExitRequest(code)) => Exits(code)
    case Raised(_) => Fail
  }

  function RolloutStep(step: Step, s: RepoState, o: Oracle): (Verdict, RepoState) {
    var (r, s1) := Call(step, s, o);
    (Judge(r), s1)
  }

  /** What rollout_step makes of each step: the step's state, a pass exactly
      when its call returns True, and an exit request only from validation. */
  lemma RolloutStepVerdict(step: Step, s: RepoState, o: Oracle)
    ensures RolloutStep(step, s, o).1 == Call(step, s, o).1
    ensures RolloutStep(step, s, o).0 == Pass <==> Call(step, s, o).0 == Returned(true)
    // only validate_branch raises an exit request, and it raises it before any git call
    ensures RolloutStep(step, s, o).0.Exits?
        <==> (|| (step.UpdateBase? && step.branch !in s.heads)
              || ((step.MergeBaseToPp? || step.MergePpToProd?) && step.target !in s.heads))
    ensures RolloutStep(step, s, o).0.Exits? ==> RolloutStep(step, s, o) == (Exits(1), s)
    // the two checks make no git call and pass exactly on a clean, non-bare repository
    ensures step == CheckUncommitted ==> RolloutStep(step, s, o) == (if s.dirty || s.untracked then Fail else Pass, s)
    ensures step == CheckBare ==> RolloutStep(step, s, o) == (if s.bare then Fail else Pass, s)
  {
  }

  /**
    The loop over the step list.  It ends normally (the command returns None)
    when every step passes; at the first failing step it runs the recovery
    checkout of `base` through rollout_step and raises typer.Exit(1); an exit
    request raised inside a step leaves the loop at once.
   */
  function RunSteps(steps: seq<Step>, s: RepoState, base: string, o: Oracle): (r: (Result, RepoState))
    decreases |steps|
    ensures r.0 == Returned(false) || r.0 == Raised(ExitRequest(1))
  {
    if steps == [] then (Returned(false), s)
    else
      var (v, s1) := RolloutStep(steps[0], s, o);
      match v
      case Pass => RunSteps(steps[1..], s1, base, o)
      case Exits(code) => (Raised(ExitRequest(code)), s1)
      case Fail =>
        var (_, s2) := RolloutStep(CheckoutBase(base), s1, o);
        (Raised(ExitRequest(1)), s2)
  }

  /** The loop only adds git calls to the handle. */
  lemma {:induction false} RunStepsExtends(steps: seq<Step>, s: RepoState, base: string, o: Oracle)
    ensures Extends(s, RunSteps(steps, s, base, o).1, o)
    decreases |steps|
  {
    if steps != [] {
      var s1 := RolloutStep(steps[0], s, o).1;
      RunStepsExtends(steps[1..], s1, base, o);
      assert Extends(s1, RolloutStep(CheckoutBase(base), s1, o).1, o);
    }
  }

  /** The step list the command builds. */
  function Steps(cfg: Config): seq<Step> {
    [ CheckUncommitted, CheckBare, GetRemote(cfg.remote), FetchRemote(cfg.remote),
      UpdateBase(cfg.base, cfg.remote), MergeBaseToPp(cfg.base, cfg.pp, cfg.remote) ]
    + (if cfg.skipProduction then [] else [MergePpToProd(cfg.pp, cfg.prod, cfg.remote)])
    + [CheckoutBase(cfg.base)]
  }

  /** The shape of the step list: the two checks first, the production
      promotion exactly when it is not skipped, and the checkout of base
      last and nowhere else. */
  lemma StepList(cfg: Config)
    ensures var r := Steps(cfg);
      |r| == (if cfg.skipProduction then 7 else 8)
      && r[0] == CheckUncommitted && r[1] == CheckBare
      && r[|r| - 1] == CheckoutBase(cfg.base)
      && (forall i :: 0 <= i < |r| - 1 ==> !r[i].CheckoutBase?)
      && (MergePpToProd(cfg.pp, cfg.prod, cfg.remote) in r <==> !cfg.skipProduction)
  {
  }

  /** The command: open the repository, then run the step list. */
  function Rollout(cfg: Config, s: RepoState, o: Oracle): (r: (Outcome, RepoState))
    ensures Extends(s, r.1, o)
    ensures r.0 == Exit(0) || r.0 == Exit(1)
  {
    if !o.Opens() then (Exit(1), s)
    else
      var (res, s1) := RunSteps(Steps(cfg), s, cfg.base, o);
      RunStepsExtends(Steps(cfg), s, cfg.base, o);
      (Finish(res), s1)
  }

  // ---------------------------------------------------------------------
  // The step loop

  /** Running two step lists back to back: the second list runs only when the
      first one completes, otherwise the first one's stop is the result. */
  lemma {:induction false} RunStepsAppend(a: seq<Step>, b: seq<Step>, s: RepoState, base: string, o: Oracle)
    ensures RunSteps(a + b, s, base, o)
         == (var (r, s1) := RunSteps(a, s, base, o); if r.Returned? then RunSteps(b, s1, base, o) else (r, s1))
    decreases |a|
  {
    if a == [] {
      assert a + b == b;
    } else {
      assert (a + b)[0] == a[0];
      assert (a + b)[1..] == a[1..] + b;
      RunStepsAppend(a[1..], b, RolloutStep(a[0], s, o).1, base, o);
    }
  }

  /** One step at the head of a list. */
  lemma RunStepsCons(step: Step, rest: seq<Step>, s: RepoState, base: string, o: Oracle)
    ensures RunSteps([step] + rest, s, base, o)
         == (var (v, s1) := RolloutStep(step, s, o);
             match v
             case Pass => RunSteps(rest, s1, base, o)
             case Exits(code) => (Raised(ExitRequest(code)), s1)
             case Fail => (Raised(ExitRequest(1)), RolloutStep(CheckoutBase(base), s1, o).1))
  {
    assert ([step] + rest)[0] == step;
    assert ([step] + rest)[1..] == rest;
  }

  /**
    Fail-fast with a single recovery: once every step of `done` has passed and
    `step` fails, none of `rest` runs, the recovery checkout of the base branch
    is attempted exactly once, and the result is the exit request 1 whether
    or not that checkout succeeds.
   */
  lemma FailedStepRecovers(done: seq<Step>, step: Step, rest: seq<Step>, s: RepoState, base: string, o: Oracle)
    requires RunSteps(done, s, base, o).0.Returned?
    requires RolloutStep(step, RunSteps(done, s, base, o).1, o).0 == Fail
    ensures var failed := RolloutStep(step, RunSteps(done, s, base, o).1, o).1;
            RunSteps(done + [step] + rest, s, base, o) == (Raised(ExitRequest(1)), failed.Checkout(base, o).1)
            && RunSteps(done + [step] + rest, s, base, o).1.trace
               == failed.trace + [Entry(Op.Checkout(base), o.Succeeds(|failed.trace|))]
  {
    assert done + [step] + rest == done + ([step] + rest);
    RunStepsAppend(done, [step] + rest, s, base, o);
    RunStepsCons(step, rest, RunSteps(done, s, base, o).1, base, o);
  }

  /** An exit request raised inside a step leaves the loop unchanged and
      skips the recovery checkout: the state is the one the step left. */
  lemma ExitBypassesRecovery(done: seq<Step>, step: Step, rest: seq<Step>, s: RepoState, base: string, o: Oracle)
    requires RunSteps(done, s, base, o).0.Returned?
    requires RolloutStep(step, RunSteps(done, s, base, o).1, o).0.Exits?
    ensures var (v, after) := RolloutStep(step, RunSteps(done, s, base, o).1, o);
            RunSteps(done + [step] + rest, s, base, o) == (Raised(ExitRequest(v.code)), after)
  {
    assert done + [step] + rest == done + ([step] + rest);
    RunStepsAppend(done, [step] + rest, s, base, o);
    RunStepsCons(step, rest, RunSteps(done, s, base, o).1, base, o);
  }

  /** The steps that run update_branch on a branch. */
  predicate Updates(step: Step, branch: string) {
    || (step.UpdateBase? && step.branch == branch)
    || ((step.MergeBaseToPp? || step.MergePpToProd?) && step.target == branch)
  }

  /** A step that updates a missing branch ends the rollout with exit 1 before
      any checkout of it and without the recovery: the tree stays where the
      previous steps left it. */
  lemma MissingBranchHalts(done: seq<Step>, step: Step, rest: seq<Step>, branch: string, s: RepoState, base: string, o: Oracle)
    requires RunSteps(done, s, base, o).0.Returned?
    requires Updates(step, branch) && branch !in RunSteps(done, s, base, o).1.heads
    ensures RunSteps(done + [step] + rest, s, base, o) == (Raised(ExitRequest(1)), RunSteps(done, s, base, o).1)
  {
    ExitBypassesRecovery(done, step, rest, s, base, o);
  }

  /** Steps other than the base checkout never change the local heads. */
  lemma {:induction false} PassingStepsKeepHeads(steps: seq<Step>, s: RepoState, base: string, o: Oracle)
    requires forall i :: 0 <= i < |steps| ==> !steps[i].CheckoutBase?
    requires RunSteps(steps, s, base, o).0.Returned?
    ensures RunSteps(steps, s, base, o).1.heads == s.heads
    decreases |steps|
  {
    if steps != [] {
      PassingStepsKeepHeads(steps[1..], RolloutStep(steps[0], s, o).1, base, o);
    }
  }

  // ---------------------------------------------------------------------
  // The command

  /** A repository that cannot be opened: exit 1 before any step runs. */
  lemma UnopenableRepository(cfg: Config, s: RepoState, o: Oracle)
    requires !o.Opens()
    ensures Rollout(cfg, s, o) == (Exit(1), s)
  {
  }

  /** A dirty tree or untracked files fail the first step: no fetch, pull,
      merge or push is recorded, only the recovery checkout, and the exit is 1. */
  lemma DirtyTreeOnlyRecovers(cfg: Config, s: RepoState, o: Oracle)
    requires o.Opens() && (s.dirty || s.untracked)
    ensures Rollout(cfg, s, o) == (Exit(1), s.Checkout(cfg.base, o).1)
    ensures Rollout(cfg, s, o).1.trace == s.trace + [Entry(Op.Checkout(cfg.base), o.Succeeds(|s.trace|))]
  {
    assert Steps(cfg) == [] + [CheckUncommitted] + Steps(cfg)[1..];
    FailedStepRecovers([], CheckUncommitted, Steps(cfg)[1..], s, cfg.base, o);
  }

  /** In this variant a bare repository fails the second step: exit 1, not 0,
      after the recovery checkout. */
  lemma BareRepositoryFails(cfg: Config, s: RepoState, o: Oracle)
    requires o.Opens() && s.bare
    ensures Rollout(cfg, s, o) == (Exit(1), s.Checkout(cfg.base, o).1)
    ensures Rollout(cfg, s, o).1.trace == s.trace + [Entry(Op.Checkout(cfg.base), o.Succeeds(|s.trace|))]
  {
    if s.dirty || s.untracked {
      DirtyTreeOnlyRecovers(cfg, s, o);
    } else {
      assert Steps(cfg) == [CheckUncommitted] + [CheckBare] + Steps(cfg)[2..];
      FailedStepRecovers([CheckUncommitted], CheckBare, Steps(cfg)[2..], s, cfg.base, o);
    }
  }

  /** An unknown or falsy remote fails the third step, before any fetch. */
  lemma MissingRemoteRecovers(cfg: Config, s: RepoState, o: Oracle)
    requires o.Opens() && NotDirty(s) && NotBare(s)
    requires cfg.remote !in s.remotes || !o.remoteTruthy
    ensures Rollout(cfg, s, o) == (Exit(1), s.Checkout(cfg.base, o).1)
    ensures Rollout(cfg, s, o).1.trace == s.trace + [Entry(Op.Checkout(cfg.base), o.Succeeds(|s.trace|))]
  {
    assert Steps(cfg) == [CheckUncommitted, CheckBare] + [GetRemote(cfg.remote)] + Steps(cfg)[3..];
    FailedStepRecovers([CheckUncommitted, CheckBare], GetRemote(cfg.remote), Steps(cfg)[3..], s, cfg.base, o);
  }

  /** The preflight steps (checks and fetch) pass exactly when the tree is
      clean, not bare, the remote exists and is truthy and the fetch succeeds
      with a non-empty result; then the only record is the fetch. */
  lemma Preflight(cfg: Config, s: RepoState, o: Oracle)
    ensures RunSteps(Steps(cfg)[..4], s, cfg.base, o).0.Returned?
        <==> NotDirty(s) && NotBare(s) && cfg.remote in s.remotes && o.remoteTruthy
             && o.Succeeds(|s.trace|) && o.fetchInfo
    ensures RunSteps(Steps(cfg)[..4], s, cfg.base, o).0.Returned?
        ==> RunSteps(Steps(cfg)[..4], s, cfg.base, o).1 == s.Fetch(cfg.remote, o).1
  {
    var r := cfg.remote;
    assert Steps(cfg)[..4] == [CheckUncommitted] + [CheckBare, GetRemote(r), FetchRemote(r)];
    assert [CheckBare, GetRemote(r), FetchRemote(r)] == [CheckBare] + [GetRemote(r), FetchRemote(r)];
    assert [GetRemote(r), FetchRemote(r)] == [GetRemote(r)] + [FetchRemote(r)];
    assert [FetchRemote(r)] == [FetchRemote(r)] + [];
    RunStepsCons(CheckUncommitted, [CheckBare, GetRemote(r), FetchRemote(r)], s, cfg.base, o);
    RunStepsCons(CheckBare, [GetRemote(r), FetchRemote(r)], s, cfg.base, o);
    RunStepsCons(GetRemote(r), [FetchRemote(r)], s, cfg.base, o);
    RunStepsCons(FetchRemote(r), [], s, cfg.base, o);
  }

  /** A missing base branch: after the fetch, update_branch raises the exit
      request; no checkout at all, not even the recovery one. */
  lemma MissingBaseHalts(cfg: Config, s: RepoState, o: Oracle)
    requires o.Opens() && NotDirty(s) && NotBare(s) && cfg.remote in s.remotes && o.remoteTruthy
    requires o.Succeeds(|s.trace|) && o.fetchInfo
    requires cfg.base !in s.heads
    ensures Rollout(cfg, s, o) == (Exit(1), s.Fetch(cfg.remote, o).1)
    ensures Rollout(cfg, s, o).1.current == s.current
  {
    Preflight(cfg, s, o);
    assert Steps(cfg) == Steps(cfg)[..4] + [UpdateBase(cfg.base, cfg.remote)] + Steps(cfg)[5..];
    MissingBranchHalts(Steps(cfg)[..4], UpdateBase(cfg.base, cfg.remote), Steps(cfg)[5..], cfg.base, s, cfg.base, o);
  }

  /** A missing production branch: once base and pp are promoted, the exit
      request escapes the loop, so no recovery runs and the tree is left on
      the pp branch. */
  lemma MissingProdLeavesTreeOnPp(cfg: Config, s: RepoState, o: Oracle)
    requires o.Opens() && !cfg.skipProduction && cfg.prod !in s.heads
    requires RunSteps(Steps(cfg)[..6], s, cfg.base, o).0.Returned?
    ensures Rollout(cfg, s, o) == (Exit(1), RunSteps(Steps(cfg)[..6], s, cfg.base, o).1)
    ensures Rollout(cfg, s, o).1.current == cfg.pp
  {
    var pre := Steps(cfg)[..6];
    var promote := MergeBaseToPp(cfg.base, cfg.pp, cfg.remote);
    PassingStepsKeepHeads(pre, s, cfg.base, o);
    assert pre == pre[..5] + [promote];
    RunStepsAppend(pre[..5], [promote], s, cfg.base, o);
    RunStepsCons(promote, [], RunSteps(pre[..5], s, cfg.base, o).1, cfg.base, o);
    assert Steps(cfg) == pre + [MergePpToProd(cfg.pp, cfg.prod, cfg.remote)] + [CheckoutBase(cfg.base)];
    MissingBranchHalts(pre, MergePpToProd(cfg.pp, cfg.prod, cfg.remote), [CheckoutBase(cfg.base)], cfg.prod, s, cfg.base, o);
  }

  /** Everything the command checks holds: it can open the repository, the
      tree is clean, it is not bare, the remote is there and truthy, its fetch
      returns information, and the branches to update exist locally. */
  predicate Ready(cfg: Config, s: RepoState, o: Oracle) {
    o.Opens() && NotDirty(s) && NotBare(s) && cfg.remote in s.remotes && o.remoteTruthy && o.fetchInfo
    && cfg.base in s.heads && cfg.pp in s.heads && (cfg.skipProduction || cfg.prod in s.heads)
  }

  /** The calls of a successful rollout, in order. */
  function SuccessTrace(cfg: Config, s: RepoState): seq<Entry> {
    [Ok(Op.Fetch(cfg.remote))]
    + UpdateTrace(cfg.base, cfg.remote, s.tracked)
    + UpdateTrace(cfg.pp, cfg.remote, s.tracked) + [Ok(Op.Merge(cfg.base, cfg.pp)), Ok(Op.Push(cfg.pp))]
    + (if cfg.skipProduction then []
       else UpdateTrace(cfg.prod, cfg.remote, s.tracked) + [Ok(Op.Merge(cfg.pp, cfg.prod)), Ok(Op.Push(cfg.prod))])
    + [Ok(Op.Checkout(cfg.base))]
  }

  /** A step at the head of a list passes and the rest completes, or the
      whole list stops. */
  lemma PassStep(step: Step, rest: seq<Step>, s: RepoState, base: string, o: Oracle)
    ensures RunSteps([step] + rest, s, base, o).0.Returned?
        <==> Call(step, s, o).0 == Returned(true) && RunSteps(rest, Call(step, s, o).1, base, o).0.Returned?
    ensures RunSteps([step] + rest, s, base, o).0.Returned?
        ==> RunSteps([step] + rest, s, base, o) == RunSteps(rest, Call(step, s, o).1, base, o)
  {
    RunStepsCons(step, rest, s, base, o);
  }

  /** What the steps after promoting pp record when they pass: the
      production promotion unless it is skipped, then the base checkout. */
  function TailTrace(cfg: Config, tracked: set<string>): seq<Entry> {
    (if cfg.skipProduction then []
     else UpdateTrace(cfg.prod, cfg.remote, tracked) + [Ok(Op.Merge(cfg.pp, cfg.prod)), Ok(Op.Push(cfg.prod))])
    + [Ok(Op.Checkout(cfg.base))]
  }

  /** What the steps from the pp promotion on record when they pass. */
  function PpTrace(cfg: Config, tracked: set<string>): seq<Entry> {
    UpdateTrace(cfg.pp, cfg.remote, tracked) + [Ok(Op.Merge(cfg.base, cfg.pp)), Ok(Op.Push(cfg.pp))]
    + TailTrace(cfg, tracked + {cfg.pp})
  }

  /** What the steps from the base update on record when they pass. */
  function BaseTrace(cfg: Config, tracked: set<string>): seq<Entry> {
    UpdateTrace(cfg.base, cfg.remote, tracked) + PpTrace(cfg, tracked + {cfg.base})
  }

  /** The recovery-free base checkout that ends the step list. */
  lemma LastCheckout(cfg: Config, s: RepoState, o: Oracle)
    ensures var r := RunSteps([CheckoutBase(cfg.base)], s, cfg.base, o);
            (r.0.Returned? <==> o.NoFailures(|s.trace|, 1))
            && (r.0.Returned? ==> r.1.trace == s.trace + [Ok(Op.Checkout(cfg.base))] && r.1.current == cfg.base)
  {
    var x8 := CheckoutBase(cfg.base);
    assert [x8] == [x8] + [];
    PassStep(x8, [], s, cfg.base, o);
    assert o.NoFailures(|s.trace|, 1) <==> o.Succeeds(|s.trace|);
  }

  /** With production skipped, only the base checkout follows the pp promotion. */
  lemma TailSkipSucceedsIff(cfg: Config, s: RepoState, o: Oracle)
    requires cfg.skipProduction
    ensures var r := RunSteps(Steps(cfg)[6..], s, cfg.base, o);
            (r.0.Returned? <==> o.NoFailures(|s.trace|, |TailTrace(cfg, s.tracked)|))
            && (r.0.Returned? ==> r.1.trace == s.trace + TailTrace(cfg, s.tracked) && r.1.current == cfg.base)
  {
    assert Steps(cfg)[6..] == [CheckoutBase(cfg.base)];
    LastCheckout(cfg, s, o);
  }

  /** Otherwise the production promotion runs, then the base checkout. */
  lemma TailProdSucceedsIff(cfg: Config, s: RepoState, o: Oracle)
    requires !cfg.skipProduction && cfg.remote in s.remotes
    ensures var r := RunSteps(Steps(cfg)[6..], s, cfg.base, o);
            (r.0.Returned? <==> cfg.prod in s.heads && o.NoFailures(|s.trace|, |TailTrace(cfg, s.tracked)|))
            && (r.0.Returned? ==> r.1.trace == s.trace + TailTrace(cfg, s.tracked) && r.1.current == cfg.base)
  {
    var x7, last := MergePpToProd(cfg.pp, cfg.prod, cfg.remote), [CheckoutBase(cfg.base)];
    assert Steps(cfg)[6..] == [x7] + last;
    PassStep(x7, last, s, cfg.base, o);
    var p := Promote(s, cfg.pp, cfg.prod, cfg.remote, o);
    assert Call(x7, s, o) == p;
    var rest := RunSteps(last, p.1, cfg.base, o);
    LastCheckout(cfg, p.1, o);
    var head := UpdateTrace(cfg.prod, cfg.remote, s.tracked) + [Ok(Op.Merge(cfg.pp, cfg.prod)), Ok(Op.Push(cfg.prod))];
    var tail := [Ok(Op.Checkout(cfg.base))];
    assert TailTrace(cfg, s.tracked) == head + tail;
    Chain(p.0 == Returned(true), p.1, rest, RunSteps(Steps(cfg)[6..], s, cfg.base, o),
          s, cfg.base, o, head, tail, cfg.prod in s.heads, true);
  }

  /** The steps after the pp promotion complete exactly when the production
      branch (if promoted) exists and none of their calls fails. */
  lemma TailSucceedsIff(cfg: Config, s: RepoState, o: Oracle)
    requires cfg.remote in s.remotes
    ensures var r := RunSteps(Steps(cfg)[6..], s, cfg.base, o);
            (r.0.Returned?
             <==> (cfg.skipProduction || cfg.prod in s.heads) && o.NoFailures(|s.trace|, |TailTrace(cfg, s.tracked)|))
            && (r.0.Returned? ==> r.1.trace == s.trace + TailTrace(cfg, s.tracked) && r.1.current == cfg.base)
  {
    if cfg.skipProduction {
      TailSkipSucceedsIff(cfg, s, o);
    } else {
      TailProdSucceedsIff(cfg, s, o);
    }
  }

  /**
    Chaining two parts of a run, stated on their results alone: a first part
    that records `head` when it passes (`firstOk`) leaving `mid`, and a rest
    that records `tail` from `mid`, make a whole that completes exactly when
    both parts do and then records `head + tail`.
   */
  lemma Chain(firstOk: bool, mid: RepoState, rest: (Result, RepoState), whole: (Result, RepoState),
              s: RepoState, base: string, o: Oracle, head: seq<Entry>, tail: seq<Entry>, headOk: bool, tailOk: bool)
    requires whole.0.Returned? <==> firstOk && rest.0.Returned?
    requires whole.0.Returned? ==> whole == rest
    requires firstOk <==> headOk && o.NoFailures(|s.trace|, |head|)
    requires firstOk ==> mid.trace == s.trace + head
    requires firstOk ==> (rest.0.Returned? <==> tailOk && o.NoFailures(|mid.trace|, |tail|))
    requires firstOk && rest.0.Returned? ==> rest.1.trace == mid.trace + tail && rest.1.current == base
    ensures whole.0.Returned? <==> headOk && tailOk && o.NoFailures(|s.trace|, |head + tail|)
    ensures whole.0.Returned? ==> whole.1.trace == s.trace + (head + tail) && whole.1.current == base
  {
    o.NoFailuresSplit(|s.trace|, |head|, |tail|);
  }

  /** The steps from the pp promotion on complete exactly when the branches
      still to be updated exist and none of their calls fails. */
  lemma PpSucceedsIff(cfg: Config, s: RepoState, o: Oracle)
    requires cfg.remote in s.remotes
    ensures var r := RunSteps(Steps(cfg)[5..], s, cfg.base, o);
            (r.0.Returned?
             <==> cfg.pp in s.heads && (cfg.skipProduction || cfg.prod in s.heads)
                  && o.NoFailures(|s.trace|, |PpTrace(cfg, s.tracked)|))
            && (r.0.Returned? ==> r.1.trace == s.trace + PpTrace(cfg, s.tracked) && r.1.current == cfg.base)
  {
    var x6 := MergeBaseToPp(cfg.base, cfg.pp, cfg.remote);
    assert Steps(cfg)[5..] == [x6] + Steps(cfg)[6..];
    var p := Promote(s, cfg.base, cfg.pp, cfg.remote, o);
    assert Call(x6, s, o) == p;
    TailSucceedsIff(cfg, p.1, o);
    var head := UpdateTrace(cfg.pp, cfg.remote, s.tracked) + [Ok(Op.Merge(cfg.base, cfg.pp)), Ok(Op.Push(cfg.pp))];
    assert |head| == |UpdateTrace(cfg.pp, cfg.remote, s.tracked)| + 2;
    if p.0 == Returned(true) {
      assert p.1.tracked == s.tracked + {cfg.pp};
      assert p.1.trace == s.trace + head;
    }
    PassStep(x6, Steps(cfg)[6..], s, cfg.base, o);
    Chain(p.0 == Returned(true), p.1, RunSteps(Steps(cfg)[6..], p.1, cfg.base, o), RunSteps(Steps(cfg)[5..], s, cfg.base, o),
          s, cfg.base, o, head, TailTrace(cfg, s.tracked + {cfg.pp}),
          cfg.pp in s.heads, cfg.skipProduction || cfg.prod in s.heads);
  }

  /** The steps from the base update on complete exactly when the branches to
      be updated exist and none of their calls fails. */
  lemma BaseSucceedsIff(cfg: Config, s: RepoState, o: Oracle)
    requires cfg.remote in s.remotes
    ensures var r := RunSteps(Steps(cfg)[4..], s, cfg.base, o);
            (r.0.Returned?
             <==> cfg.base in s.heads && cfg.pp in s.heads && (cfg.skipProduction || cfg.prod in s.heads)
                  && o.NoFailures(|s.trace|, |BaseTrace(cfg, s.tracked)|))
            && (r.0.Returned? ==> r.1.trace == s.trace + BaseTrace(cfg, s.tracked) && r.1.current == cfg.base)
  {
    var x5 := UpdateBase(cfg.base, cfg.remote);
    assert Steps(cfg)[4..] == [x5] + Steps(cfg)[5..];
    var p := UpdateBranch(s, cfg.base, cfg.remote, o);
    assert Call(x5, s, o) == p;
    PpSucceedsIff(cfg, p.1, o);
    if p.0 == Returned(true) {
      assert p.1.tracked == s.tracked + {cfg.base};
    }
    PassStep(x5, Steps(cfg)[5..], s, cfg.base, o);
    Chain(p.0 == Returned(true), p.1, RunSteps(Steps(cfg)[5..], p.1, cfg.base, o), RunSteps(Steps(cfg)[4..], s, cfg.base, o),
          s, cfg.base, o, UpdateTrace(cfg.base, cfg.remote, s.tracked), PpTrace(cfg, s.tracked + {cfg.base}),
          cfg.base in s.heads, cfg.pp in s.heads && (cfg.skipProduction || cfg.prod in s.heads));
  }

  /** With three distinct branch names each update sees the tracking
      configuration the rollout started with. */
  lemma SuccessTraceOfDistinct(cfg: Config, s: RepoState)
    requires Distinct(cfg)
    ensures SuccessTrace(cfg, s) == [Ok(Op.Fetch(cfg.remote))] + BaseTrace(cfg, s.tracked)
  {
    var r, t := cfg.remote, s.tracked;
    assert UpdateTrace(cfg.pp, r, t + {cfg.base}) == UpdateTrace(cfg.pp, r, t);
    assert UpdateTrace(cfg.prod, r, t + {cfg.base} + {cfg.pp}) == UpdateTrace(cfg.prod, r, t);
  }

  /** The whole step list completes exactly when the preflight checks hold,
      the branches to update exist locally and no git call fails. */
  lemma StepsSucceedIff(cfg: Config, s: RepoState, o: Oracle)
    ensures var r := RunSteps(Steps(cfg), s, cfg.base, o);
            (r.0.Returned?
             <==> NotDirty(s) && NotBare(s) && cfg.remote in s.remotes && o.remoteTruthy && o.fetchInfo
                  && cfg.base in s.heads && cfg.pp in s.heads && (cfg.skipProduction || cfg.prod in s.heads)
                  && o.NoFailures(|s.trace|, |[Ok(Op.Fetch(cfg.remote))] + BaseTrace(cfg, s.tracked)|))
            && (r.0.Returned? ==> r.1.trace == s.trace + ([Ok(Op.Fetch(cfg.remote))] + BaseTrace(cfg, s.tracked))
                                  && r.1.current == cfg.base)
  {
    var pre, promotions := Steps(cfg)[..4], Steps(cfg)[4..];
    assert Steps(cfg) == pre + promotions;
    Preflight(cfg, s, o);
    var fetched := [Ok(Op.Fetch(cfg.remote))];
    assert o.NoFailures(|s.trace|, |fetched|) <==> o.Succeeds(|s.trace|);
    if cfg.remote in s.remotes {
      BaseSucceedsIff(cfg, s.Fetch(cfg.remote, o).1, o);
    }
    RunStepsAppend(pre, promotions, s, cfg.base, o);
    var first := RunSteps(pre, s, cfg.base, o);
    Chain(first.0.Returned?, first.1, RunSteps(promotions, first.1, cfg.base, o), RunSteps(Steps(cfg), s, cfg.base, o),
          s, cfg.base, o, fetched, BaseTrace(cfg, s.tracked),
          NotDirty(s) && NotBare(s) && cfg.remote in s.remotes && o.remoteTruthy && o.fetchInfo,
          cfg.base in s.heads && cfg.pp in s.heads && (cfg.skipProduction || cfg.prod in s.heads));
  }

  /**
    The rollout exits with 0 exactly when everything it checks holds and no
    git call fails, for any branch names (equal ones included): it then has
    made the fetch and the calls of `BaseTrace`, each succeeding, and leaves
    the tree on the base branch.
   */
  lemma RolloutSucceedsIffAnyConfig(cfg: Config, s: RepoState, o: Oracle)
    ensures Rollout(cfg, s, o).0 == Exit(0)
        <==> Ready(cfg, s, o) && o.NoFailures(|s.trace|, 1 + |BaseTrace(cfg, s.tracked)|)
    ensures Rollout(cfg, s, o).0 == Exit(0) ==>
      Rollout(cfg, s, o).1.trace == s.trace + ([Ok(Op.Fetch(cfg.remote))] + BaseTrace(cfg, s.tracked))
      && Rollout(cfg, s, o).1.current == cfg.base
  {
    if o.Opens() {
      StepsSucceedIff(cfg, s, o);
    }
  }

  /**
    With three distinct branch names the calls of a successful rollout are
    precisely those of `SuccessTrace`.
   */
  lemma RolloutSucceedsIff(cfg: Config, s: RepoState, o: Oracle)
    requires Distinct(cfg)
    ensures Rollout(cfg, s, o).0 == Exit(0)
        <==> Ready(cfg, s, o) && o.NoFailures(|s.trace|, |SuccessTrace(cfg, s)|)
    ensures Rollout(cfg, s, o).0 == Exit(0) ==>
      Rollout(cfg, s, o).1.trace == s.trace + SuccessTrace(cfg, s) && Rollout(cfg, s, o).1.current == cfg.base
  {
    SuccessTraceOfDistinct(cfg, s);
    RolloutSucceedsIffAnyConfig(cfg, s, o);
  }
}
