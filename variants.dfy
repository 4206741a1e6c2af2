/**
  The four rollout variants side by side, on the same repository and the
  same answers of the outside world.  They agree on the happy path and on
  an unopenable repository, and they part ways on a bare repository, a
  falsy remote, what a dirty tree leaves behind and which branch a run with
  production skipped ends on.
 */
module Variants {
  import opened GitState
  import opened Cli
  import F = FurtherRefactoredModel
  import R = RefinedModel
  import C = RefactoredModel
  import P = PbgitModel

  /** A repository that cannot be opened ends every variant with exit 1 and
      no git call. */
  lemma UnopenableAgrees(cfg: Config, s: RepoState, o: Oracle)
    requires !o.Opens()
    ensures F.Rollout(cfg, s, o) == (Exit(1), s)
    ensures R.Rollout(cfg, s, o) == (Exit(1), s) && C.Rollout(cfg, s, o) == (Exit(1), s)
    ensures P.Rollout(cfg, s, o) == (Exit(1), s)
  {
    F.UnopenableRepository(cfg, s, o);
  }

  /** A bare repository: the further-refactored variant fails its bare step
      and exits 1 after the recovery checkout; the other three check bareness
      first and exit 0 without a git call. */
  lemma BareRepositoryDiffers(cfg: Config, s: RepoState, o: Oracle)
    requires o.Opens() && s.bare
    ensures F.Rollout(cfg, s, o) == (Exit(1), s.Checkout(cfg.base, o).1)
    ensures R.Rollout(cfg, s, o) == (Exit(0), s) && C.Rollout(cfg, s, o) == (Exit(0), s)
    ensures P.Rollout(cfg, s, o) == (Exit(0), s)
  {
    F.BareRepositoryFails(cfg, s, o);
  }

  /** A dirty tree in a repository that is not bare: every variant exits 1
      before any fetch, but only the further-refactored one makes a call,
      the recovery checkout of base. */
  lemma DirtyTreeDiffers(cfg: Config, s: RepoState, o: Oracle)
    requires o.Opens() && !s.bare && (s.dirty || s.untracked)
    ensures F.Rollout(cfg, s, o) == (Exit(1), s.Checkout(cfg.base, o).1)
    ensures |F.Rollout(cfg, s, o).1.trace| == |s.trace| + 1
    ensures R.Rollout(cfg, s, o) == (Exit(1), s) && C.Rollout(cfg, s, o) == (Exit(1), s)
    ensures P.Rollout(cfg, s, o) == (Exit(1), s)
  {
    F.DirtyTreeOnlyRecovers(cfg, s, o);
  }

  /** A remote that is found but falsy: the further-refactored and
      refactored variants exit 1 before any fetch, while the refined one
      (which only checks the name) and the original (which only reports it)
      go on to fetch it. */
  lemma FalsyRemoteDiffers(cfg: Config, s: RepoState, o: Oracle)
    requires o.Opens() && !s.bare && !s.dirty && !s.untracked
    requires cfg.remote in s.remotes && !o.remoteTruthy
    ensures F.Rollout(cfg, s, o) == (Exit(1), s.Checkout(cfg.base, o).1)
    ensures C.Rollout(cfg, s, o) == (Exit(1), s)
    ensures var t := R.Rollout(cfg, s, o).1;
      |t.trace| > |s.trace| && t.trace[|s.trace|].op == Op.Fetch(cfg.remote)
    ensures var t := P.Rollout(cfg, s, o).1;
      |t.trace| > |s.trace| && t.trace[|s.trace|].op == Op.Fetch(cfg.remote)
  {
    F.MissingRemoteRecovers(cfg, s, o);
    R.FetchComesFirst(cfg, s, o);
    P.FetchComesFirst(cfg, s, o);
  }

  /** With production skipped, a complete run of the further-refactored
      variant or of the original ends on the base branch, one of the refined
      or the refactored variant on the pp branch. */
  lemma SkipProductionEndsDiffer(cfg: Config, s: RepoState, o: Oracle)
    requires cfg.skipProduction && Distinct(cfg) && !s.bare
    ensures F.Rollout(cfg, s, o).0 == Exit(0) ==> F.Rollout(cfg, s, o).1.current == cfg.base
    ensures P.Rollout(cfg, s, o).0 == Exit(0) ==> P.Rollout(cfg, s, o).1.current == cfg.base
    ensures R.Rollout(cfg, s, o).0 == Exit(0) ==> R.Rollout(cfg, s, o).1.current == cfg.pp
    ensures C.Rollout(cfg, s, o).0 == Exit(0) ==> C.Rollout(cfg, s, o).1.current == cfg.pp
  {
    F.RolloutSucceedsIff(cfg, s, o);
    P.RolloutSucceedsIff(cfg, s, o);
    R.RolloutSucceedsIff(cfg, s, o);
    C.RolloutSucceedsIff(cfg, s, o);
  }

  /** A git call that checks out, configures, pulls, merges into or pushes `branch`. */
  predicate Touches(op: Op, branch: string) {
    match op
    case Fetch(_) => false
    case Checkout(b) => b == branch
    case SetTracking(b, _) => b == branch
    case Pull(b, _) => b == branch
    case Merge(_, into) => into == branch
    case Push(b) => b == branch
  }

  /** With production skipped and three distinct branch names, no call of a
      complete run of the further-refactored variant touches the production
      branch: with FurtherRefactoredModel.RolloutSucceedsIff, a run that
      exits 0 leaves production alone.  The three lemmas after it say the
      same of the other variants. */
  lemma SkipProductionSparesProd(cfg: Config, s: RepoState)
    requires cfg.skipProduction && Distinct(cfg)
    ensures forall e | e in F.SuccessTrace(cfg, s) :: !Touches(e.op, cfg.prod)
  {
  }

  lemma RefinedSkipSparesProd(cfg: Config)
    requires cfg.skipProduction && Distinct(cfg)
    ensures forall e | e in R.SuccessTrace(cfg) :: !Touches(e.op, cfg.prod)
  {
  }

  lemma RefactoredSkipSparesProd(cfg: Config)
    requires cfg.skipProduction && Distinct(cfg)
    ensures forall e | e in C.SuccessTrace(cfg) :: !Touches(e.op, cfg.prod)
  {
  }

  lemma PbgitSkipSparesProd(cfg: Config)
    requires cfg.skipProduction && Distinct(cfg)
    ensures forall e | e in P.SuccessTrace(cfg) :: !Touches(e.op, cfg.prod)
  {
  }
}
