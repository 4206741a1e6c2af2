/**
  What the three straight-line variants (pbgit.py, pbgit_chatgpt_refactored.py
  and pbgit_chatgpt_refined.py) share: a git call outside any handler lets its
  GitError escape, a complete run either returns or, with production
  skipped, requests exit 0, and nothing is ever attempted after the call
  that stopped a run.
 */
module StraightLine {
  import opened GitState
  import opened Cli

  /** A git call outside any handler: its GitError escapes. */
  function Unguarded(call: (bool, RepoState)): (r: (Result, RepoState))
    ensures r.1 == call.1
    ensures r.0 == (if call.0 then Returned(false) else Raised(GitError))
  {
    if call.0 then (Returned(false), call.1) else (Raised(GitError), call.1)
  }

  /** The end of a run that went to completion: with production skipped the
      exit request with code 0, otherwise the normal return. */
  predicate Completed(cfg: Config, r: Result) {
    if cfg.skipProduction then r == Raised(ExitRequest(0)) else r == Returned(false)
  }

  /** The last call `t` adds after `s` failed, and it is one of `ops`. */
  ghost predicate FailedIn(s: RepoState, t: RepoState, ops: iset<Op>) {
    FailedLast(s, t) && t.trace[|t.trace| - 1].op in ops
  }

  /**
    No recovery: the run only appends calls to the handle, nothing runs after
    a call that fails, and a GitError that escapes comes from the last call,
    one made outside any handler.
   */
  ghost predicate NoRecovery(s: RepoState, r: (Result, RepoState), o: Oracle, escapes: iset<Op>) {
    Extends(s, r.1, o) && StopsAtFailure(s, r.1)
    && (r.0 == Raised(GitError) ==> FailedIn(s, r.1, escapes))
  }

  /** Calls that all succeed, followed by a part that has no recovery, have
      no recovery. */
  lemma NoRecoveryAfter(s: RepoState, t: RepoState, r: (Result, RepoState), o: Oracle, escapes: iset<Op>)
    requires Extends(s, t, o) && AllSucceeded(s, t) && NoRecovery(t, r, o, escapes)
    ensures NoRecovery(s, r, o, escapes)
  {
    ExtendsTrans(s, t, r.1, o);
    StopsAtFailureTrans(s, t, r.1);
  }

  /** A single unguarded call `op` (a fetch, merge or push of the current
      branch, or a checkout) has no recovery, and when it succeeds, all of
      what it added succeeded. */
  lemma UnguardedNoRecovery(s: RepoState, op: Op, o: Oracle, escapes: iset<Op>)
    requires !op.SetTracking? && !op.Pull? && op in escapes
    requires op.Merge? ==> op.into == s.current
    requires op.Push? ==> op.branch == s.current
    ensures var call := Call(s, op, o);
      NoRecovery(s, Unguarded(call), o, escapes) && (call.0 ==> AllSucceeded(s, call.1))
  {
  }

  /** The state change of one fetch, checkout, merge or push. */
  function Call(s: RepoState, op: Op, o: Oracle): (bool, RepoState)
    requires !op.SetTracking? && !op.Pull?
  {
    match op
    case Fetch(remote) => s.Fetch(remote, o)
    case Checkout(branch) => s.Checkout(branch, o)
    case Merge(source, _) => s.Merge(source, o)
    case Push(_) => s.Push(o)
  }

  /** An exception that is not an exit request is a GitError that escaped. */
  lemma FinishNoRecovery(s: RepoState, c: (Result, RepoState), o: Oracle, escapes: iset<Op>)
    requires NoRecovery(s, c, o, escapes)
    requires c.0.Raised? ==> c.0.exc in {ExitRequest(0), ExitRequest(1), GitError}
    ensures Extends(s, c.1, o) && StopsAtFailure(s, c.1)
    ensures Finish(c.0) == Uncaught ==> FailedIn(s, c.1, escapes)
  {
  }

  /** A call of a run's plan: the operation and whether a handler covers it. */
  datatype Planned = Planned(op: Op, inHandler: bool)

  /** The last call `t` adds after `s` failed, and the plan has it inside a
      handler. */
  predicate FailedHandled(s: RepoState, t: RepoState, plan: seq<Planned>) {
    FailedLast(s, t) && |t.trace| <= |s.trace| + |plan| && plan[|t.trace| - 1 - |s.trace|].inHandler
  }

  /**
    A run from `s` follows `plan`, the calls it makes when nothing stops it:
    its calls are, operation for operation, a prefix of the plan; it returns
    or requests exit 0 only after making all of them successfully; it
    requests exit 1 after calls that all succeeded (a guard or a missing
    branch) or right after a failed call that the plan puts inside a
    handler; and a GitError escapes only right after a failed call that the
    plan puts outside every handler.
   */
  predicate Follows(s: RepoState, r: (Result, RepoState), plan: seq<Planned>) {
    s.trace <= r.1.trace && |r.1.trace| <= |s.trace| + |plan|
    && (forall i | |s.trace| <= i < |r.1.trace| :: r.1.trace[i].op == plan[i - |s.trace|].op)
    && (r.0.Raised? ==> r.0.exc in {ExitRequest(0), ExitRequest(1), GitError})
    && (r.0.Returned? || r.0 == Raised(ExitRequest(0)) ==>
          AllSucceeded(s, r.1) && |r.1.trace| == |s.trace| + |plan|)
    && (r.0 == Raised(ExitRequest(1)) ==> AllSucceeded(s, r.1) || FailedHandled(s, r.1, plan))
    && (r.0 == Raised(GitError) ==>
          FailedLast(s, r.1) && !plan[|r.1.trace| - 1 - |s.trace|].inHandler)
  }

  /**
    Sequencing: a first part that follows `first` and does not request exit
    0, then, only when it returns, a rest that follows `rest`, make a whole
    that follows `first + rest`.
   */
  lemma FollowsThen(s: RepoState, a: (Result, RepoState), r: (Result, RepoState), first: seq<Planned>, rest: seq<Planned>)
    requires Follows(s, a, first) && a.0 != Raised(ExitRequest(0))
    requires a.0.Raised? ==> r == a
    requires a.0.Returned? ==> Follows(a.1, r, rest)
    ensures Follows(s, r, first + rest)
  {
    var plan := first + rest;
    if a.0.Returned? {
      var t := a.1;
      assert s.trace <= r.1.trace by {
        assert r.1.trace[..|s.trace|] == t.trace[..|s.trace|];
      }
      forall i | |s.trace| <= i < |r.1.trace|
        ensures r.1.trace[i].op == plan[i - |s.trace|].op
        ensures i < |t.trace| ==> r.1.trace[i].ok
      {
        if i < |t.trace| {
          assert r.1.trace[i] == t.trace[i];
        } else {
          assert plan[i - |s.trace|] == rest[i - |t.trace|];
        }
      }
      if AllSucceeded(t, r.1) {
        assert AllSucceeded(s, r.1);
      }
      if FailedLast(s, r.1) {
        assert FailedLast(t, r.1);
        assert plan[|r.1.trace| - 1 - |s.trace|] == rest[|r.1.trace| - 1 - |t.trace|];
      }
    }
  }

  /** A single unguarded call follows the plan of that one call, outside
      every handler. */
  lemma UnguardedFollows(s: RepoState, op: Op, o: Oracle)
    requires !op.SetTracking? && !op.Pull?
    requires op.Merge? ==> op.into == s.current
    requires op.Push? ==> op.branch == s.current
    ensures Follows(s, Unguarded(Call(s, op, o)), [Planned(op, false)])
  {
  }

  /**
    The outcome of a body that follows `plan`: exit 0 only when every call
    succeeded, exit 1 only when every call succeeded or a call the plan puts
    inside a handler failed last; and when the last call failed, the outcome
    is exit 1 if the plan puts that call inside a handler and uncaught
    otherwise.
   */
  lemma FinishFollows(s: RepoState, c: (Result, RepoState), plan: seq<Planned>)
    requires Follows(s, c, plan)
    ensures Finish(c.0) == Exit(0) ==> AllSucceeded(s, c.1)
    ensures Finish(c.0) == Exit(1) ==> AllSucceeded(s, c.1) || FailedHandled(s, c.1, plan)
    ensures FailedLast(s, c.1) ==>
      Finish(c.0) == (if plan[|c.1.trace| - 1 - |s.trace|].inHandler then Exit(1) else Uncaught)
  {
    if FailedLast(s, c.1) {
      assert !c.1.trace[|c.1.trace| - 1].ok;
    }
  }

  /** What a plan records when every call of it succeeds. */
  function Oks(plan: seq<Planned>): seq<Entry> {
    seq(|plan|, i requires 0 <= i < |plan| => Ok(plan[i].op))
  }

  lemma OksConcat(first: seq<Planned>, rest: seq<Planned>)
    ensures Oks(first + rest) == Oks(first) + Oks(rest)
  {
  }
}
