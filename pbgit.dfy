/**
  pbgit.py as imperative code over the mutable repository handle: the
  command body as one straight-line method that makes the git calls in the
  order of the source and returns as soon as one of them raises.  It is
  proved to compute PbgitModel.Rollout, so what is proved there holds for it.
 */
module Pbgit {
  import opened GitState
  import opened Cli
  import opened GitRepo
  import M = PbgitModel

  /** The checkout and plain pull of pp or prod inside their handler. */
  method UpdateBranch(repo: Repo, branch: string, o: Oracle) returns (r: Result)
    modifies repo
    ensures (r, repo.State()) == M.UpdateBranch(old(repo.State()), branch, o)
  {
    var ok := repo.Checkout(branch, o);
    if !ok {
      return Raised(ExitRequest(1));
    }
    ok := repo.Pull(false, o);
    if !ok {
      return Raised(ExitRequest(1));
    }
    return Returned(false);
  }

  /** rollout */
  method Rollout(cfg: Config, repo: Repo, o: Oracle) returns (out: Outcome)
    modifies repo
    ensures (out, repo.State()) == M.Rollout(cfg, old(repo.State()), o)
  {
    if !o.Opens() {
      return Exit(1);
    }
    ghost var s0 := repo.State();
    ghost var goal := M.Rollout(cfg, s0, o);
    if repo.bare {
      return Exit(0);
    }
    if repo.dirty || repo.untracked {
      return Exit(1);
    }
    // a falsy remote is only reported
    if cfg.remote !in repo.remotes {
      return Exit(1);
    }
    assert goal == (Finish(M.FetchAndPromote(cfg, s0, o).0), M.FetchAndPromote(cfg, s0, o).1);

    var ok := repo.Fetch(cfg.remote, o);
    if !ok {
      return Uncaught;
    }
    ghost var s1 := repo.State();
    assert M.FetchAndPromote(cfg, s0, o) == M.Promotions(cfg, s1, o);
    assert goal == (Finish(M.Promotions(cfg, s1, o).0), M.Promotions(cfg, s1, o).1);

    // the base branch, all in one handler
    ok := repo.Checkout(cfg.base, o);
    if !ok {
      return Exit(1);
    }
    ok := repo.Pull(false, o);
    if !ok {
      return Exit(1);
    }
    ok := repo.Push(o);
    if !ok {
      return Exit(1);
    }
    ghost var s2 := repo.State();
    assert M.Promotions(cfg, s1, o) == M.FromPp(cfg, s2, o);
    assert goal == (Finish(M.FromPp(cfg, s2, o).0), M.FromPp(cfg, s2, o).1);

    // the pp branch
    var r := UpdateBranch(repo, cfg.pp, o);
    if r.Raised? {
      return Finish(r);
    }
    ok := repo.Merge(cfg.base, o);
    if !ok {
      return Uncaught;
    }
    ok := repo.Push(o);
    if !ok {
      return Uncaught;
    }
    ghost var s3 := repo.State();
    assert M.FromPp(cfg, s2, o) == M.AfterPp(cfg, s3, o);
    assert goal == (Finish(M.AfterPp(cfg, s3, o).0), M.AfterPp(cfg, s3, o).1);

    if cfg.skipProduction {
      ok := repo.Checkout(cfg.base, o);
      if !ok {
        return Uncaught;
      }
      return Exit(0);
    }
    assert goal == (Finish(M.Production(cfg, s3, o).0), M.Production(cfg, s3, o).1);

    // the prod branch
    r := UpdateBranch(repo, cfg.prod, o);
    if r.Raised? {
      return Finish(r);
    }
    ok := repo.Merge(cfg.pp, o);
    if !ok {
      return Uncaught;
    }
    ok := repo.Push(o);
    if !ok {
      return Uncaught;
    }
    ok := repo.Checkout(cfg.base, o);
    if !ok {
      return Uncaught;
    }
    return Exit(0);
  }
}
