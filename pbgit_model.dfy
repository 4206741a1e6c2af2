/**
  Reference model of pbgit.py: one command body with no helper functions.
  Each of its three try blocks turns a GitError into exit(1): the first
  guards the checkout, pull and push of the base branch, the other two only
  the checkout and pull of pp and of prod.  The fetch, the merges, the pushes
  of pp and prod and every checkout of base sit outside every handler, so
  their GitError escapes.  With production skipped the tree is put back on
  base before exit(0).

  There is no recovery: whatever stops the run, nothing is attempted after
  the call that stopped it.
 */
module PbgitModel {
  import opened GitState
  import opened Cli
  import opened StraightLine

  /** The calls made outside every handler. */
  ghost function Escapes(cfg: Config): iset<Op> {
    iset op: Op | op.Fetch? || op.Merge? || op == Op.Push(cfg.pp) || op == Op.Push(cfg.prod)
                  || op == Op.Checkout(cfg.base)
  }

  /** The handler around the checkout and plain pull of pp or prod: a
      GitError of either call becomes exit(1). */
  function UpdateBranch(s: RepoState, branch: string, o: Oracle): (r: (Result, RepoState))
    ensures Extends(s, r.1, o) && StopsAtFailure(s, r.1)
    ensures r.0 == Returned(false) || r.0 == Raised(ExitRequest(1))
    ensures r.0.Returned? <==> o.NoFailures(|s.trace|, 2)
    ensures r.0.Returned? ==>
      r.1.trace == s.trace + [Ok(Op.Checkout(branch)), Ok(Op.Pull(branch, false))] && r.1.current == branch
    // the exit request always follows a failed checkout or pull of this branch
    ensures r.0.Raised? ==>
      FailedLast(s, r.1) && r.1.trace[|r.1.trace| - 1].op in {Op.Checkout(branch), Op.Pull(branch, false)}
  {
    var (checkedOut, s1) := s.Checkout(branch, o);
    if !checkedOut then (Raised(ExitRequest(1)), s1)
    else
      var (pulled, s2) := s1.Pull(false, o);
      if !pulled then (Raised(ExitRequest(1)), s2) else (Returned(false), s2)
  }

  /** What the base stage records when it completes. */
  function BaseTrace(cfg: Config): seq<Entry> {
    [Ok(Op.Checkout(cfg.base)), Ok(Op.Pull(cfg.base, false)), Ok(Op.Push(cfg.base))]
  }

  /** The base stage: checkout, pull and push of the base branch in one
      handler, so a GitError of any of them becomes exit(1). */
  function BaseStage(cfg: Config, s: RepoState, o: Oracle): (r: (Result, RepoState))
    ensures r.0 == Returned(false) || r.0 == Raised(ExitRequest(1))
    ensures r.0.Returned? <==> o.NoFailures(|s.trace|, |BaseTrace(cfg)|)
    ensures r.0.Returned? ==> r.1.trace == s.trace + BaseTrace(cfg) && r.1.current == cfg.base
  {
    var (checkedOut, s1) := s.Checkout(cfg.base, o);
    if !checkedOut then (Raised(ExitRequest(1)), s1)
    else
      var (pulled, s2) := s1.Pull(false, o);
      if !pulled then (Raised(ExitRequest(1)), s2)
      else
        var (pushed, s3) := s2.Push(o);
        if !pushed then (Raised(ExitRequest(1)), s3) else (Returned(false), s3)
  }

  /** The base stage's exit request always follows a failed checkout, pull
      or push of the base branch: the last call it made. */
  lemma BaseStageFailure(cfg: Config, s: RepoState, o: Oracle)
    ensures var r := BaseStage(cfg, s, o);
      r.0.Raised? ==>
        FailedLast(s, r.1)
        && r.1.trace[|r.1.trace| - 1].op in {Op.Checkout(cfg.base), Op.Pull(cfg.base, false), Op.Push(cfg.base)}
  {
  }

  /** The base stage has no recovery: it never lets a GitError escape. */
  lemma BaseStageNoRecovery(cfg: Config, s: RepoState, o: Oracle)
    ensures NoRecovery(s, BaseStage(cfg, s, o), o, Escapes(cfg))
  {
  }

  /** What the pp stage records when it completes. */
  function PpTrace(cfg: Config): seq<Entry> {
    [Ok(Op.Checkout(cfg.pp)), Ok(Op.Pull(cfg.pp, false)), Ok(Op.Merge(cfg.base, cfg.pp)), Ok(Op.Push(cfg.pp))]
  }

  /** The pp stage: update pp in its handler, then merge base into it and
      push it, both unguarded. */
  function PpStage(cfg: Config, s: RepoState, o: Oracle): (r: (Result, RepoState))
    ensures r.0 in {Returned(false), Raised(ExitRequest(1)), Raised(GitError)}
    ensures r.0.Returned? <==> o.NoFailures(|s.trace|, |PpTrace(cfg)|)
    ensures r.0.Returned? ==> r.1.trace == s.trace + PpTrace(cfg) && r.1.current == cfg.pp
  {
    var (u, s1) := UpdateBranch(s, cfg.pp, o);
    if u.Raised? then (u, s1)
    else
      var (m, s2) := Unguarded(s1.Merge(cfg.base, o));
      if m.Raised? then (m, s2) else Unguarded(s2.Push(o))
  }

  lemma PpStageNoRecovery(cfg: Config, s: RepoState, o: Oracle)
    ensures NoRecovery(s, PpStage(cfg, s, o), o, Escapes(cfg))
  {
    var (u, s1) := UpdateBranch(s, cfg.pp, o);
    if !u.Raised? {
      var (m, s2) := Unguarded(s1.Merge(cfg.base, o));
      UnguardedNoRecovery(s1, Op.Merge(cfg.base, s1.current), o, Escapes(cfg));
      NoRecoveryAfter(s, s1, Unguarded(s1.Merge(cfg.base, o)), o, Escapes(cfg));
      if !m.Raised? {
        UnguardedNoRecovery(s2, Op.Push(s2.current), o, Escapes(cfg));
        NoRecoveryAfter(s1, s2, Unguarded(s2.Push(o)), o, Escapes(cfg));
        NoRecoveryAfter(s, s1, Unguarded(s2.Push(o)), o, Escapes(cfg));
      }
    }
  }

  /** What the production stage records when it completes. */
  function ProdTrace(cfg: Config): seq<Entry> {
    [ Ok(Op.Checkout(cfg.prod)), Ok(Op.Pull(cfg.prod, false)),
      Ok(Op.Merge(cfg.pp, cfg.prod)), Ok(Op.Push(cfg.prod)), Ok(Op.Checkout(cfg.base)) ]
  }

  /** The production stage: update prod in its handler, then merge pp into
      it, push, and check out base, all unguarded. */
  function Production(cfg: Config, s: RepoState, o: Oracle): (r: (Result, RepoState))
    ensures r.0 in {Returned(false), Raised(ExitRequest(1)), Raised(GitError)}
    ensures r.0.Returned? <==> o.NoFailures(|s.trace|, |ProdTrace(cfg)|)
    ensures r.0.Returned? ==> r.1.trace == s.trace + ProdTrace(cfg) && r.1.current == cfg.base
  {
    var (u, s1) := UpdateBranch(s, cfg.prod, o);
    if u.Raised? then (u, s1)
    else
      var (m, s2) := Unguarded(s1.Merge(cfg.pp, o));
      if m.Raised? then (m, s2)
      else
        var (p, s3) := Unguarded(s2.Push(o));
        if p.Raised? then (p, s3)
        else
          var (c, s4) := Unguarded(s3.Checkout(cfg.base, o));
          if c.Raised? then (c, s4) else (Returned(false), s4)
  }

  lemma ProductionNoRecovery(cfg: Config, s: RepoState, o: Oracle)
    ensures NoRecovery(s, Production(cfg, s, o), o, Escapes(cfg))
  {
    var (u, s1) := UpdateBranch(s, cfg.prod, o);
    if !u.Raised? {
      var (m, s2) := Unguarded(s1.Merge(cfg.pp, o));
      UnguardedNoRecovery(s1, Op.Merge(cfg.pp, s1.current), o, Escapes(cfg));
      NoRecoveryAfter(s, s1, Unguarded(s1.Merge(cfg.pp, o)), o, Escapes(cfg));
      if !m.Raised? {
        var (p, s3) := Unguarded(s2.Push(o));
        UnguardedNoRecovery(s2, Op.Push(s2.current), o, Escapes(cfg));
        NoRecoveryAfter(s1, s2, Unguarded(s2.Push(o)), o, Escapes(cfg));
        NoRecoveryAfter(s, s1, Unguarded(s2.Push(o)), o, Escapes(cfg));
        if !p.Raised? {
          UnguardedNoRecovery(s3, Op.Checkout(cfg.base), o, Escapes(cfg));
          NoRecoveryAfter(s2, s3, Unguarded(s3.Checkout(cfg.base, o)), o, Escapes(cfg));
          NoRecoveryAfter(s1, s2, Unguarded(s3.Checkout(cfg.base, o)), o, Escapes(cfg));
          NoRecoveryAfter(s, s1, Unguarded(s3.Checkout(cfg.base, o)), o, Escapes(cfg));
        }
      }
    }
  }

  /** What the steps after the pp stage record when they complete. */
  function AfterPpTrace(cfg: Config): seq<Entry> {
    if cfg.skipProduction then [Ok(Op.Checkout(cfg.base))] else ProdTrace(cfg)
  }

  /** After pp: with production skipped, the checkout of base and exit(0);
      otherwise the production stage. */
  function AfterPp(cfg: Config, s: RepoState, o: Oracle): (r: (Result, RepoState))
    ensures r.0 in {Returned(false), Raised(ExitRequest(0)), Raised(ExitRequest(1)), Raised(GitError)}
    ensures r.0 == Raised(ExitRequest(0)) || r.0.Returned? ==> Completed(cfg, r.0)
    ensures Completed(cfg, r.0) <==> o.NoFailures(|s.trace|, |AfterPpTrace(cfg)|)
    ensures Completed(cfg, r.0) ==> r.1.trace == s.trace + AfterPpTrace(cfg) && r.1.current == cfg.base
  {
    if cfg.skipProduction then
      var (c, s1) := Unguarded(s.Checkout(cfg.base, o));
      if c.Raised? then (c, s1) else (Raised(ExitRequest(0)), s1)
    else
      Production(cfg, s, o)
  }

  lemma AfterPpNoRecovery(cfg: Config, s: RepoState, o: Oracle)
    ensures NoRecovery(s, AfterPp(cfg, s, o), o, Escapes(cfg))
  {
    if cfg.skipProduction {
      UnguardedNoRecovery(s, Op.Checkout(cfg.base), o, Escapes(cfg));
    } else {
      ProductionNoRecovery(cfg, s, o);
    }
  }

  /** What the steps from the pp stage on record when they complete. */
  function FromPpTrace(cfg: Config): seq<Entry> {
    PpTrace(cfg) + AfterPpTrace(cfg)
  }

  /** The pp stage and what follows it. */
  function FromPp(cfg: Config, s: RepoState, o: Oracle): (r: (Result, RepoState))
    ensures r.0 in {Returned(false), Raised(ExitRequest(0)), Raised(ExitRequest(1)), Raised(GitError)}
    ensures r.0 == Raised(ExitRequest(0)) || r.0.Returned? ==> Completed(cfg, r.0)
  {
    var (p, s1) := PpStage(cfg, s, o);
    if p.Raised? then (p, s1) else AfterPp(cfg, s1, o)
  }

  /** From the pp stage on, a run completes exactly when none of the calls
      fails, and it then ends on base. */
  lemma FromPpCompletes(cfg: Config, s: RepoState, o: Oracle)
    ensures var r := FromPp(cfg, s, o);
      Completed(cfg, r.0) <==> o.NoFailures(|s.trace|, |FromPpTrace(cfg)|)
    ensures var r := FromPp(cfg, s, o);
      Completed(cfg, r.0) ==> r.1.trace == s.trace + FromPpTrace(cfg) && r.1.current == cfg.base
  {
    var (p, s1) := PpStage(cfg, s, o);
    o.NoFailuresSplit(|s.trace|, |PpTrace(cfg)|, |AfterPpTrace(cfg)|);
    if !p.Raised? {
      assert FromPp(cfg, s, o) == AfterPp(cfg, s1, o);
      assert s1.trace + AfterPpTrace(cfg) == s.trace + FromPpTrace(cfg);
    } else {
      assert FromPp(cfg, s, o).0 == p;
    }
  }

  lemma FromPpNoRecovery(cfg: Config, s: RepoState, o: Oracle)
    ensures NoRecovery(s, FromPp(cfg, s, o), o, Escapes(cfg))
  {
    PpStageNoRecovery(cfg, s, o);
    var (p, s1) := PpStage(cfg, s, o);
    if !p.Raised? {
      AfterPpNoRecovery(cfg, s1, o);
      NoRecoveryAfter(s, s1, AfterPp(cfg, s1, o), o, Escapes(cfg));
    }
  }

  /** What the base stage and the steps after it record when they complete. */
  function PromotionTrace(cfg: Config): seq<Entry> {
    BaseTrace(cfg) + FromPpTrace(cfg)
  }

  /** The base stage, the pp stage and what follows them. */
  function Promotions(cfg: Config, s: RepoState, o: Oracle): (r: (Result, RepoState))
    ensures r.0 in {Returned(false), Raised(ExitRequest(0)), Raised(ExitRequest(1)), Raised(GitError)}
    ensures r.0 == Raised(ExitRequest(0)) || r.0.Returned? ==> Completed(cfg, r.0)
  {
    var (b, s1) := BaseStage(cfg, s, o);
    if b.Raised? then (b, s1) else FromPp(cfg, s1, o)
  }

  /** The promotions complete exactly when none of the calls fails. */
  lemma PromotionsComplete(cfg: Config, s: RepoState, o: Oracle)
    ensures var r := Promotions(cfg, s, o);
      Completed(cfg, r.0) <==> o.NoFailures(|s.trace|, |PromotionTrace(cfg)|)
    ensures var r := Promotions(cfg, s, o);
      Completed(cfg, r.0) ==> r.1.trace == s.trace + PromotionTrace(cfg) && r.1.current == cfg.base
  {
    var (b, s1) := BaseStage(cfg, s, o);
    o.NoFailuresSplit(|s.trace|, |BaseTrace(cfg)|, |FromPpTrace(cfg)|);
    if !b.Raised? {
      assert Promotions(cfg, s, o) == FromPp(cfg, s1, o);
      assert s1.trace + FromPpTrace(cfg) == s.trace + PromotionTrace(cfg);
      FromPpCompletes(cfg, s1, o);
    } else {
      assert Promotions(cfg, s, o).0 == b;
    }
  }

  lemma PromotionsNoRecovery(cfg: Config, s: RepoState, o: Oracle)
    ensures NoRecovery(s, Promotions(cfg, s, o), o, Escapes(cfg))
  {
    BaseStageNoRecovery(cfg, s, o);
    var (b, s1) := BaseStage(cfg, s, o);
    if !b.Raised? {
      FromPpNoRecovery(cfg, s1, o);
      NoRecoveryAfter(s, s1, FromPp(cfg, s1, o), o, Escapes(cfg));
    }
  }

  /** What a run records when it completes: the fetch, then the promotions. */
  function SuccessTrace(cfg: Config): seq<Entry> {
    [Ok(Op.Fetch(cfg.remote))] + PromotionTrace(cfg)
  }

  /** The fetch of the remote, then the promotions. */
  function FetchAndPromote(cfg: Config, s: RepoState, o: Oracle): (r: (Result, RepoState))
    ensures r.0 in {Returned(false), Raised(ExitRequest(0)), Raised(ExitRequest(1)), Raised(GitError)}
    ensures r.0 == Raised(ExitRequest(0)) || r.0.Returned? ==> Completed(cfg, r.0)
  {
    var (f, s1) := Unguarded(s.Fetch(cfg.remote, o));
    if f.Raised? then (f, s1) else Promotions(cfg, s1, o)
  }

  /** After the guards, a run completes exactly when none of the calls fails,
      and it then has made exactly the calls of SuccessTrace. */
  lemma FetchAndPromoteCompletes(cfg: Config, s: RepoState, o: Oracle)
    ensures var r := FetchAndPromote(cfg, s, o);
      Completed(cfg, r.0) <==> o.NoFailures(|s.trace|, |SuccessTrace(cfg)|)
    ensures var r := FetchAndPromote(cfg, s, o);
      Completed(cfg, r.0) ==> r.1.trace == s.trace + SuccessTrace(cfg) && r.1.current == cfg.base
  {
    var (ok, s1) := s.Fetch(cfg.remote, o);
    o.NoFailuresSplit(|s.trace|, 1, |PromotionTrace(cfg)|);
    if ok {
      assert FetchAndPromote(cfg, s, o) == Promotions(cfg, s1, o);
      assert s1.trace + PromotionTrace(cfg) == s.trace + SuccessTrace(cfg);
      PromotionsComplete(cfg, s1, o);
    } else {
      assert FetchAndPromote(cfg, s, o).0 == Raised(GitError);
    }
  }

  lemma FetchAndPromoteNoRecovery(cfg: Config, s: RepoState, o: Oracle)
    ensures NoRecovery(s, FetchAndPromote(cfg, s, o), o, Escapes(cfg))
  {
    var (f, s1) := Unguarded(s.Fetch(cfg.remote, o));
    UnguardedNoRecovery(s, Op.Fetch(cfg.remote), o, Escapes(cfg));
    if !f.Raised? {
      PromotionsNoRecovery(cfg, s1, o);
      NoRecoveryAfter(s, s1, Promotions(cfg, s1, o), o, Escapes(cfg));
    }
  }

  /** The command body after the repository is opened.  A remote that is
      found but falsy is only reported: the run goes on to fetch it. */
  function Command(cfg: Config, s: RepoState, o: Oracle): (r: (Result, RepoState))
    // the guards, in this order, before any git call
    ensures s.bare ==> r == (Raised(ExitRequest(0)), s)
    ensures !s.bare && (s.dirty || s.untracked) ==> r == (Raised(ExitRequest(1)), s)
    ensures !s.bare && !s.dirty && !s.untracked && cfg.remote !in s.remotes ==> r == (Raised(ExitRequest(1)), s)
    ensures !s.bare && !s.dirty && !s.untracked && cfg.remote in s.remotes ==> r == FetchAndPromote(cfg, s, o)
    ensures r.0.Raised? ==> r.0.exc in {ExitRequest(0), ExitRequest(1), GitError}
  {
    if s.bare then (Raised(ExitRequest(0)), s)
    else if s.dirty || s.untracked then (Raised(ExitRequest(1)), s)
    else if cfg.remote !in s.remotes then (Raised(ExitRequest(1)), s)
    else FetchAndPromote(cfg, s, o)
  }

  lemma CommandNoRecovery(cfg: Config, s: RepoState, o: Oracle)
    ensures NoRecovery(s, Command(cfg, s, o), o, Escapes(cfg))
  {
    if !s.bare && !s.dirty && !s.untracked && cfg.remote in s.remotes {
      FetchAndPromoteNoRecovery(cfg, s, o);
    }
  }

  /** Once the guards pass, the first call is the fetch of the remote they
      looked up, whether the remote object is truthy or not. */
  lemma FetchComesFirst(cfg: Config, s: RepoState, o: Oracle)
    requires !s.bare && !s.dirty && !s.untracked && cfg.remote in s.remotes
    ensures var t := Command(cfg, s, o).1;
            |t.trace| > |s.trace| && t.trace[|s.trace|] == Entry(Op.Fetch(cfg.remote), o.Succeeds(|s.trace|))
  {
    var s1 := s.Fetch(cfg.remote, o).1;
    if o.Succeeds(|s.trace|) {
      PromotionsNoRecovery(cfg, s1, o);
      assert s1.trace <= Command(cfg, s, o).1.trace;
    }
  }

  /** rollout: open the repository (a GitError becomes exit(1)), then run
      the body. */
  function Rollout(cfg: Config, s: RepoState, o: Oracle): (r: (Outcome, RepoState))
    ensures !o.Opens() ==> r == (Exit(1), s)
    // a bare repository ends with 0 before the tree is looked at, a dirty tree
    // or an unknown remote with 1, all before any git call
    ensures o.Opens() && s.bare ==> r == (Exit(0), s)
    ensures o.Opens() && !s.bare && (s.dirty || s.untracked) ==> r == (Exit(1), s)
    ensures o.Opens() && !s.bare && !s.dirty && !s.untracked && cfg.remote !in s.remotes ==> r == (Exit(1), s)
    ensures r.0 in {Exit(0), Exit(1), Uncaught}
  {
    if !o.Opens() then (Exit(1), s)
    else
      var (res, s1) := Command(cfg, s, o);
      (Finish(res), s1)
  }

  /** The working tree is clean and the remote exists. */
  predicate Ready(cfg: Config, s: RepoState) {
    !s.dirty && !s.untracked && cfg.remote in s.remotes
  }

  /** A rollout exits with 0 exactly when the repository opens and is bare, or
      is ready and none of its git calls fails; after a complete run it has
      made exactly the calls of SuccessTrace and is on the base branch, with
      production skipped or not. */
  lemma RolloutSucceedsIff(cfg: Config, s: RepoState, o: Oracle)
    ensures Rollout(cfg, s, o).0 == Exit(0)
        <==> o.Opens() && (s.bare || (Ready(cfg, s) && o.NoFailures(|s.trace|, |SuccessTrace(cfg)|)))
    ensures var r := Rollout(cfg, s, o);
      r.0 == Exit(0) && !s.bare ==> r.1.trace == s.trace + SuccessTrace(cfg) && r.1.current == cfg.base
  {
    if o.Opens() && !s.bare && Ready(cfg, s) {
      FetchAndPromoteCompletes(cfg, s, o);
    }
  }

  /** A rollout only appends git calls, stops at the first call that fails,
      and an uncaught exception is the GitError of a call made outside every
      handler. */
  lemma RolloutNoRecovery(cfg: Config, s: RepoState, o: Oracle)
    ensures var r := Rollout(cfg, s, o);
      Extends(s, r.1, o) && StopsAtFailure(s, r.1)
      && (r.0 == Uncaught ==> FailedIn(s, r.1, Escapes(cfg)))
  {
    if o.Opens() {
      var c := Command(cfg, s, o);
      CommandNoRecovery(cfg, s, o);
      FinishNoRecovery(s, c, o, Escapes(cfg));
    }
  }

  // ---------------------------------------------------------------------
  // Exit codes

  /** update_branch: the checkout and the plain pull of pp or prod, inside their handler. */
  function UpdatePlan(branch: string): seq<Planned> {
    [Planned(Op.Checkout(branch), true), Planned(Op.Pull(branch, false), true)]
  }

  /** The production stage: update prod, then the unguarded merge of pp,
      push and checkout of base. */
  function ProdPlan(cfg: Config): seq<Planned> {
    UpdatePlan(cfg.prod)
    + [ Planned(Op.Merge(cfg.pp, cfg.prod), false), Planned(Op.Push(cfg.prod), false),
        Planned(Op.Checkout(cfg.base), false) ]
  }

  /** The base stage: its checkout, pull and push, all inside one handler. */
  function BasePlan(cfg: Config): seq<Planned> {
    [ Planned(Op.Checkout(cfg.base), true), Planned(Op.Pull(cfg.base, false), true),
      Planned(Op.Push(cfg.base), true) ]
  }

  /** The pp stage: update pp, then the unguarded merge of base and push. */
  function PpPlan(cfg: Config): seq<Planned> {
    UpdatePlan(cfg.pp) + [Planned(Op.Merge(cfg.base, cfg.pp), false), Planned(Op.Push(cfg.pp), false)]
  }

  /** After pp: with production skipped the unguarded checkout of base,
      otherwise the production stage. */
  function AfterPpPlan(cfg: Config): seq<Planned> {
    if cfg.skipProduction then [Planned(Op.Checkout(cfg.base), false)] else ProdPlan(cfg)
  }

  function FromPpPlan(cfg: Config): seq<Planned> {
    PpPlan(cfg) + AfterPpPlan(cfg)
  }

  function PromotionPlan(cfg: Config): seq<Planned> {
    BasePlan(cfg) + FromPpPlan(cfg)
  }

  /** The calls of a run past the guards when nothing stops it: the
      unguarded fetch, then the promotions. */
  function Plan(cfg: Config): seq<Planned> {
    [Planned(Op.Fetch(cfg.remote), false)] + PromotionPlan(cfg)
  }

  /** The plan is the success trace, each call marked with its handler. */
  lemma PlanIsSuccessTrace(cfg: Config)
    ensures Oks(Plan(cfg)) == SuccessTrace(cfg)
  {
    OksConcat(PpPlan(cfg), AfterPpPlan(cfg));
    OksConcat(BasePlan(cfg), FromPpPlan(cfg));
    OksConcat([Planned(Op.Fetch(cfg.remote), false)], PromotionPlan(cfg));
    assert Oks(ProdPlan(cfg)) == ProdTrace(cfg);
    assert Oks(BasePlan(cfg)) == BaseTrace(cfg);
    assert Oks(PpPlan(cfg)) == PpTrace(cfg);
    assert Oks(AfterPpPlan(cfg)) == AfterPpTrace(cfg);
  }

  lemma UpdateBranchExits(s: RepoState, branch: string, o: Oracle)
    ensures Follows(s, UpdateBranch(s, branch, o), UpdatePlan(branch))
  {
  }

  lemma ProductionExits(cfg: Config, s: RepoState, o: Oracle)
    ensures Follows(s, Production(cfg, s, o), ProdPlan(cfg))
  {
    var (u, s1) := UpdateBranch(s, cfg.prod, o);
    UpdateBranchExits(s, cfg.prod, o);
    var merge, push, checkout :=
      [Planned(Op.Merge(cfg.pp, cfg.prod), false)], [Planned(Op.Push(cfg.prod), false)],
      [Planned(Op.Checkout(cfg.base), false)];
    assert ProdPlan(cfg) == UpdatePlan(cfg.prod) + (merge + (push + checkout));
    if u.Returned? {
      var m := Unguarded(s1.Merge(cfg.pp, o));
      UnguardedFollows(s1, Op.Merge(cfg.pp, cfg.prod), o);
      var p := Unguarded(m.1.Push(o));
      UnguardedFollows(m.1, Op.Push(cfg.prod), o);
      var c := Unguarded(p.1.Checkout(cfg.base, o));
      UnguardedFollows(p.1, Op.Checkout(cfg.base), o);
      var t3 := if c.0.Raised? then c else (Returned(false), c.1);
      var t2 := if p.0.Raised? then p else t3;
      FollowsThen(m.1, p, t2, push, checkout);
      FollowsThen(s1, m, if m.0.Raised? then m else t2, merge, push + checkout);
    }
    FollowsThen(s, (u, s1), Production(cfg, s, o), UpdatePlan(cfg.prod), merge + (push + checkout));
  }

  lemma BaseStageExits(cfg: Config, s: RepoState, o: Oracle)
    ensures Follows(s, BaseStage(cfg, s, o), BasePlan(cfg))
  {
  }

  lemma PpStageExits(cfg: Config, s: RepoState, o: Oracle)
    ensures Follows(s, PpStage(cfg, s, o), PpPlan(cfg))
  {
    var (u, s1) := UpdateBranch(s, cfg.pp, o);
    UpdateBranchExits(s, cfg.pp, o);
    var merge, push := [Planned(Op.Merge(cfg.base, cfg.pp), false)], [Planned(Op.Push(cfg.pp), false)];
    assert PpPlan(cfg) == UpdatePlan(cfg.pp) + (merge + push);
    if u.Returned? {
      var m := Unguarded(s1.Merge(cfg.base, o));
      UnguardedFollows(s1, Op.Merge(cfg.base, cfg.pp), o);
      var p := Unguarded(m.1.Push(o));
      UnguardedFollows(m.1, Op.Push(cfg.pp), o);
      FollowsThen(s1, m, if m.0.Raised? then m else p, merge, push);
    }
    FollowsThen(s, (u, s1), PpStage(cfg, s, o), UpdatePlan(cfg.pp), merge + push);
  }

  lemma AfterPpExits(cfg: Config, s: RepoState, o: Oracle)
    ensures Follows(s, AfterPp(cfg, s, o), AfterPpPlan(cfg))
  {
    if cfg.skipProduction {
      UnguardedFollows(s, Op.Checkout(cfg.base), o);
    } else {
      ProductionExits(cfg, s, o);
    }
  }

  lemma FromPpExits(cfg: Config, s: RepoState, o: Oracle)
    ensures Follows(s, FromPp(cfg, s, o), FromPpPlan(cfg))
  {
    var p := PpStage(cfg, s, o);
    PpStageExits(cfg, s, o);
    if p.0.Returned? {
      AfterPpExits(cfg, p.1, o);
    }
    FollowsThen(s, p, FromPp(cfg, s, o), PpPlan(cfg), AfterPpPlan(cfg));
  }

  lemma PromotionsExits(cfg: Config, s: RepoState, o: Oracle)
    ensures Follows(s, Promotions(cfg, s, o), PromotionPlan(cfg))
  {
    var b := BaseStage(cfg, s, o);
    BaseStageExits(cfg, s, o);
    if b.0.Returned? {
      FromPpExits(cfg, b.1, o);
    }
    FollowsThen(s, b, Promotions(cfg, s, o), BasePlan(cfg), FromPpPlan(cfg));
  }

  lemma FetchAndPromoteExits(cfg: Config, s: RepoState, o: Oracle)
    ensures Follows(s, FetchAndPromote(cfg, s, o), Plan(cfg))
  {
    var f := Unguarded(s.Fetch(cfg.remote, o));
    UnguardedFollows(s, Op.Fetch(cfg.remote), o);
    if f.0.Returned? {
      PromotionsExits(cfg, f.1, o);
    }
    FollowsThen(s, f, FetchAndPromote(cfg, s, o), [Planned(Op.Fetch(cfg.remote), false)], PromotionPlan(cfg));
  }

  /** Past the guards, the body follows the plan. */
  lemma CommandExits(cfg: Config, s: RepoState, o: Oracle)
    requires !s.bare && !s.dirty && !s.untracked && cfg.remote in s.remotes
    ensures Follows(s, Command(cfg, s, o), Plan(cfg))
  {
    FetchAndPromoteExits(cfg, s, o);
  }

  /** A rollout exits with 0 only when none of its calls failed, and with 1
      only when none failed (a guard stopped it) or a call that the plan puts
      inside a handler failed last: a checkout or pull of a stage's update,
      or the push of base. */
  lemma RolloutExits(cfg: Config, s: RepoState, o: Oracle)
    ensures var r := Rollout(cfg, s, o);
      (r.0 == Exit(0) ==> AllSucceeded(s, r.1))
      && (r.0 == Exit(1) ==> AllSucceeded(s, r.1) || FailedHandled(s, r.1, Plan(cfg)))
  {
    if o.Opens() && !s.bare && !s.dirty && !s.untracked && cfg.remote in s.remotes {
      CommandExits(cfg, s, o);
      FinishFollows(s, Command(cfg, s, o), Plan(cfg));
    }
  }

  /** When a rollout's last call failed, that call is the plan's call at its
      position, and the rollout exits with 1 exactly when the plan puts it
      inside a handler (the checkouts and pulls of the updates and the push
      of base); the fetch, the merges, the pushes of pp and prod and the
      checkouts of base outside the handlers end it uncaught. */
  lemma FailedCallOutcome(cfg: Config, s: RepoState, o: Oracle)
    ensures var r := Rollout(cfg, s, o);
      FailedLast(s, r.1) ==>
        var k := |r.1.trace| - 1 - |s.trace|;
        k < |Plan(cfg)| && r.1.trace[|r.1.trace| - 1].op == Plan(cfg)[k].op
        && r.0 == (if Plan(cfg)[k].inHandler then Exit(1) else Uncaught)
  {
    if o.Opens() && !s.bare && !s.dirty && !s.untracked && cfg.remote in s.remotes {
      var c := Command(cfg, s, o);
      CommandExits(cfg, s, o);
      FinishFollows(s, c, Plan(cfg));
      assert Rollout(cfg, s, o) == (Finish(c.0), c.1);
    } else {
      assert Rollout(cfg, s, o).1 == s;
    }
  }
}
