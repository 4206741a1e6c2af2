/**
  pbgit_chatgpt_further_refactored.py as imperative code over the mutable
  repository handle.  Every method performs the git calls of its Python
  function in the same order and is proved to compute exactly the matching
  function of FurtherRefactoredModel, so the properties proved there hold
  for these methods.
 */
module FurtherRefactored {
  import opened GitState
  import opened Cli
  import opened GitRepo
  import M = FurtherRefactoredModel

  /** not_dirty */
  method NotDirty(repo: Repo) returns (clean: bool)
    ensures clean == M.NotDirty(repo.State())
    ensures clean <==> !repo.dirty && !repo.untracked
  {
    clean := !repo.dirty && !repo.untracked;
  }

  /** not_bare */
  method NotBare(repo: Repo) returns (working: bool)
    ensures working == M.NotBare(repo.State())
    ensures working <==> !repo.bare
  {
    working := !repo.bare;
  }

  /** get_remote_repo */
  method GetRemoteRepo(repo: Repo, name: string, o: Oracle) returns (r: Result)
    ensures r == M.GetRemoteRepo(repo.State(), name, o)
  {
    if name !in repo.remotes {
      return Returned(false);
    }
    return Returned(o.remoteTruthy);
  }

  /** The fetch step: look the remote up by name and fetch it. */
  method FetchRemoteRepo(repo: Repo, name: string, o: Oracle) returns (r: Result)
    modifies repo
    ensures (r, repo.State()) == M.FetchRemoteRepo(old(repo.State()), name, o)
  {
    if name !in repo.remotes {
      return Raised(LookupError);
    }
    var ok := repo.Fetch(name, o);
    if !ok {
      return Raised(GitError);
    }
    return Returned(o.fetchInfo);
  }

  /** update_branch */
  method UpdateBranch(repo: Repo, branch: string, remote: string, o: Oracle) returns (r: Result)
    modifies repo
    ensures (r, repo.State()) == M.UpdateBranch(old(repo.State()), branch, remote, o)
  {
    if branch !in repo.heads {
      return Raised(ExitRequest(1));
    }
    var ok := repo.Checkout(branch, o);
    if !ok {
      return Returned(false);
    }
    if branch !in repo.tracked {
      if remote !in repo.remotes {
        return Raised(LookupError);
      }
      ok := repo.SetTracking(branch, remote, o);
      if !ok {
        return Raised(LookupError);
      }
    }
    ok := repo.Pull(true, o);
    return Returned(ok);
  }

  /** merge_branch */
  method MergeBranch(repo: Repo, source: string, o: Oracle) returns (r: Result)
    modifies repo
    ensures (r, repo.State()) == M.MergeBranch(old(repo.State()), source, o)
  {
    var ok := repo.Merge(source, o);
    if !ok {
      return Returned(false);
    }
    ok := repo.Push(o);
    return Returned(ok);
  }

  /** merge_base_to_pp_branch and merge_pp_to_prod_branch */
  method Promote(repo: Repo, source: string, target: string, remote: string, o: Oracle) returns (r: Result)
    modifies repo
    ensures (r, repo.State()) == M.Promote(old(repo.State()), source, target, remote, o)
  {
    r := UpdateBranch(repo, target, remote, o);
    if r == Returned(true) {
      r := MergeBranch(repo, source, o);
    }
  }

  /** checkout_branch */
  method CheckoutBranch(repo: Repo, branch: string, o: Oracle) returns (r: Result)
    modifies repo
    ensures (r, repo.State()) == M.CheckoutBranch(old(repo.State()), branch, o)
  {
    var ok := repo.Checkout(branch, o);
    return Returned(ok);
  }

  /** rollout_step: run the step's function and judge its result. */
  method RolloutStep(repo: Repo, step: M.Step, o: Oracle) returns (v: M.Verdict)
    modifies repo
    ensures (v, repo.State()) == M.RolloutStep(step, old(repo.State()), o)
  {
    var r: Result;
    match step {
      case CheckUncommitted =>
        var clean := NotDirty(repo);
        r := Returned(clean);
      case CheckBare =>
        var working := NotBare(repo);
        r := Returned(working);
      case GetRemote(name) =>
        r := GetRemoteRepo(repo, name, o);
      case FetchRemote(name) =>
        r := FetchRemoteRepo(repo, name, o);
      case UpdateBase(branch, remote) =>
        r := UpdateBranch(repo, branch, remote, o);
      case MergeBaseToPp(source, target, remote) =>
        r := Promote(repo, source, target, remote, o);
      case MergePpToProd(source, target, remote) =>
        r := Promote(repo, source, target, remote, o);
      case CheckoutBase(branch) =>
        r := CheckoutBranch(repo, branch, o);
    }
    v := M.Judge(r);
  }

  /** rollout: build the step list, then run it, stopping at the first step
      that does not pass. */
  method Rollout(cfg: Config, repo: Repo, o: Oracle) returns (out: Outcome)
    modifies repo
    ensures (out, repo.State()) == M.Rollout(cfg, old(repo.State()), o)
  {
    if !o.Opens() {
      return Exit(1);
    }
    var steps := [ M.CheckUncommitted, M.CheckBare, M.GetRemote(cfg.remote), M.FetchRemote(cfg.remote),
                   M.UpdateBase(cfg.base, cfg.remote), M.MergeBaseToPp(cfg.base, cfg.pp, cfg.remote) ];
    if !cfg.skipProduction {
      steps := steps + [M.MergePpToProd(cfg.pp, cfg.prod, cfg.remote)];
    }
    steps := steps + [M.CheckoutBase(cfg.base)];
    assert steps == M.Steps(cfg);
    ghost var expected := M.RunSteps(steps, repo.State(), cfg.base, o);
    for i := 0 to |steps|
      invariant M.RunSteps(steps[i..], repo.State(), cfg.base, o) == expected
    {
      assert steps[i..] == [steps[i]] + steps[i + 1..];
      M.RunStepsCons(steps[i], steps[i + 1..], repo.State(), cfg.base, o);
      var v := RolloutStep(repo, steps[i], o);
      match v {
        case Pass =>
        case Exits(code) =>
          return Exit(code);
        case Fail =>
          var _ := RolloutStep(repo, M.CheckoutBase(cfg.base), o);
          return Exit(1);
      }
    }
    assert steps[|steps|..] == [];
    return Exit(0);
  }
}
