/**
  pbgit_chatgpt_refactored.py as imperative code over the mutable repository
  handle: the helpers, update_branch, and rollout as one straight-line method
  that makes the git calls in the order of the source and returns as soon as
  one of them raises.  Each method is proved to compute the matching function
  of RefactoredModel, so what is proved there holds for these methods.
 */
module Refactored {
  import opened GitState
  import opened Cli
  import opened GitRepo
  import M = RefactoredModel

  /** get_repo */
  method GetRepo(o: Oracle) returns (r: Result)
    ensures r == M.GetRepo(o)
  {
    if !o.Opens() {
      return Raised(ExitRequest(1));
    }
    return Returned(true);
  }

  /** is_bare_repo */
  method IsBareRepo(repo: Repo) returns (r: Result)
    ensures r == M.IsBareRepo(repo.State())
  {
    if repo.bare {
      return Raised(ExitRequest(0));
    }
    return Returned(false);
  }

  /** has_dirty_changes */
  method HasDirtyChanges(repo: Repo) returns (r: Result)
    ensures r == M.HasDirtyChanges(repo.State())
  {
    if repo.dirty || repo.untracked {
      return Raised(ExitRequest(1));
    }
    return Returned(false);
  }

  /** get_remote_repo */
  method GetRemoteRepo(repo: Repo, name: string, o: Oracle) returns (r: Result)
    ensures r == M.GetRemoteRepo(repo.State(), name, o)
  {
    if name !in repo.remotes {
      return Raised(ExitRequest(1));
    }
    if !o.remoteTruthy {
      return Raised(ExitRequest(1));
    }
    return Returned(true);
  }

  /** update_branch */
  method UpdateBranch(repo: Repo, branch: string, o: Oracle) returns (r: Result)
    modifies repo
    ensures (r, repo.State()) == M.UpdateBranch(old(repo.State()), branch, o)
  {
    var ok := repo.Checkout(branch, o);
    if !ok {
      return Raised(ExitRequest(1));
    }
    ok := repo.Pull(false, o);
    if !ok {
      return Raised(ExitRequest(1));
    }
    return Returned(false);
  }

  /** rollout: every git call of the body outside update_branch is unguarded,
      so its failure ends the command with an uncaught GitError. */
  method Rollout(cfg: Config, repo: Repo, o: Oracle) returns (out: Outcome)
    modifies repo
    ensures (out, repo.State()) == M.Rollout(cfg, old(repo.State()), o)
  {
    var r := GetRepo(o);
    if r.Raised? {
      return Finish(r);
    }
    ghost var s0 := repo.State();
    ghost var goal := M.Rollout(cfg, s0, o);
    r := IsBareRepo(repo);
    if r.Raised? {
      return Finish(r);
    }
    r := HasDirtyChanges(repo);
    if r.Raised? {
      return Finish(r);
    }
    r := GetRemoteRepo(repo, cfg.remote, o);
    if r.Raised? {
      return Finish(r);
    }
    assert M.Command(cfg, s0, o) == M.FetchAndPromote(cfg, s0, o);
    assert goal == (Finish(M.FetchAndPromote(cfg, s0, o).0), M.FetchAndPromote(cfg, s0, o).1);

    var ok := repo.Fetch(cfg.remote, o);
    if !ok {
      return Uncaught;
    }
    ghost var s1 := repo.State();
    assert M.FetchAndPromote(cfg, s0, o) == M.Promotions(cfg, s1, o);
    assert goal == (Finish(M.Promotions(cfg, s1, o).0), M.Promotions(cfg, s1, o).1);

    // the base branch
    r := UpdateBranch(repo, cfg.base, o);
    if r.Raised? {
      return Finish(r);
    }
    ok := repo.Push(o);
    if !ok {
      return Uncaught;
    }
    ghost var s2 := repo.State();
    assert M.Promotions(cfg, s1, o) == M.FromPp(cfg, s2, o);
    assert goal == (Finish(M.FromPp(cfg, s2, o).0), M.FromPp(cfg, s2, o).1);

    // the pp branch
    r := UpdateBranch(repo, cfg.pp, o);
    if r.Raised? {
      return Finish(r);
    }
    ok := repo.Merge(cfg.base, o);
    if !ok {
      return Uncaught;
    }
    ok := repo.Push(o);
    if !ok {
      return Uncaught;
    }
    ghost var s3 := repo.State();
    assert M.FromPp(cfg, s2, o) == M.AfterPp(cfg, s3, o);
    assert goal == (Finish(M.AfterPp(cfg, s3, o).0), M.AfterPp(cfg, s3, o).1);

    if cfg.skipProduction {
      return Exit(0);
    }
    ok := repo.Checkout(cfg.base, o);
    if !ok {
      return Uncaught;
    }
    ghost var s4 := repo.State();
    assert M.AfterPp(cfg, s3, o) == M.Production(cfg, s4, o);
    assert goal == (Finish(M.Production(cfg, s4, o).0), M.Production(cfg, s4, o).1);

    // the prod branch
    r := UpdateBranch(repo, cfg.prod, o);
    if r.Raised? {
      return Finish(r);
    }
    ok := repo.Merge(cfg.pp, o);
    if !ok {
      return Uncaught;
    }
    ok := repo.Push(o);
    if !ok {
      return Uncaught;
    }
    ok := repo.Checkout(cfg.base, o);
    if !ok {
      return Uncaught;
    }
    return Exit(0);
  }
}
