/**
  The abstract git working tree that every rollout variant drives.

  The version-control engine itself (what fetch, pull, merge and push really
  do to commits) is not modelled: each mutating operation is recorded in an
  append-only trace, and whether it succeeds is answered by an oracle that is
  keyed on the position of the call in the trace.  The only effects on the
  abstract state are the ones the rollout logic can observe: which branch is
  checked out, which local heads exist and which branches have a tracking
  branch configured.
 */
module GitState {

  /** A mutating git operation as recorded in the trace. */
  datatype Op =
    | Fetch(remote: string)                       // remote.fetch()
    | Checkout(branch: string)                    // repo.git.checkout(branch)
    | SetTracking(branch: string, remote: string) // heads[branch].set_tracking_branch(remote.refs[branch])
    | Pull(branch: string, rebase: bool)          // repo.git.pull() / repo.git.pull(rebase=True), on the current branch
    | Merge(source: string, into: string)         // repo.git.merge(source), into the current branch
    | Push(branch: string)                        // repo.git.push(), of the current branch

  /** One recorded call: the operation and whether it succeeded. */
  datatype Entry = Entry(op: Op, ok: bool)

  /** A call that succeeded. */
  function Ok(op: Op): Entry { Entry(op, true) }

  /**
    The answers of the outside world.  `failing` holds the trace positions of
    the git calls that raise: the call made while the trace has length `i`
    fails exactly when `i in failing`.
   */
  datatype Oracle = Oracle(
    dirExists: bool,     // the working directory exists
    isRepository: bool,  // git.Repo(working_dir) finds a repository there
    remoteTruthy: bool,  // the Remote object looked up by name is truthy
    fetchInfo: bool,     // fetch() returns a non-empty (truthy) list
    failing: set<nat>)
  {
    /** git.Repo(working_dir) returns a handle (a missing directory is a GitError too). */
    predicate Opens() { dirExists && isRepository }

    /** The git call made at trace position `position` succeeds. */
    predicate Succeeds(position: nat) { position !in failing }

    /** None of the `count` git calls from trace position `from` on fails. */
    predicate NoFailures(from: nat, count: nat) {
      forall i :: from <= i < from + count ==> i !in failing
    }

    /** A window of calls succeeds exactly when its consecutive parts do. */
    lemma NoFailuresSplit(from: nat, a: nat, b: nat)
      ensures NoFailures(from, a + b) <==> NoFailures(from, a) && NoFailures(from + a, b)
    {
    }
  }

  /** The state of an opened repository handle. */
  datatype RepoState = RepoState(
    heads: set<string>,    // local branches (repo.heads)
    current: string,       // the checked-out branch
    bare: bool,            // repo.bare
    dirty: bool,           // repo.is_dirty()
    untracked: bool,       // len(repo.untracked_files) > 0
    remotes: set<string>,  // names in repo.remotes
    tracked: set<string>,  // local branches whose tracking_branch() is set
    trace: seq<Entry>)     // every mutating call made through this handle, in order
  {
    /** Records `op` with the oracle's answer for the next trace position. */
    function Record(op: Op, o: Oracle): (bool, RepoState) {
      var ok := o.Succeeds(|trace|);
      (ok, this.(trace := trace + [Entry(op, ok)]))
    }

    function Fetch(remote: string, o: Oracle): (bool, RepoState) {
      Record(Op.Fetch(remote), o)
    }

    /** A successful checkout moves the tree and, as git does for a branch
        known only on the remote, leaves a local head of that name. */
    function Checkout(branch: string, o: Oracle): (bool, RepoState) {
      var (ok, s) := Record(Op.Checkout(branch), o);
      if ok then (true, s.(current := branch, heads := s.heads + {branch})) else (false, s)
    }

    function SetTracking(branch: string, remote: string, o: Oracle): (bool, RepoState) {
      var (ok, s) := Record(Op.SetTracking(branch, remote), o);
      if ok then (true, s.(tracked := s.tracked + {branch})) else (false, s)
    }

    function Pull(rebase: bool, o: Oracle): (bool, RepoState) {
      Record(Op.Pull(current, rebase), o)
    }

    function Merge(source: string, o: Oracle): (bool, RepoState) {
      Record(Op.Merge(source, current), o)
    }

    function Push(o: Oracle): (bool, RepoState) {
      Record(Op.Push(current), o)
    }
  }

  /**
    `t` is `s` after further git calls: the flags and remotes are unchanged,
    heads and tracking configuration only grow, the trace only grows, and each
    new entry records the oracle's answer for its position.
   */
  predicate Extends(s: RepoState, t: RepoState, o: Oracle) {
    t.bare == s.bare && t.dirty == s.dirty && t.untracked == s.untracked
    && t.remotes == s.remotes && s.heads <= t.heads && s.tracked <= t.tracked
    && s.trace <= t.trace
    && forall i :: |s.trace| <= i < |t.trace| ==> t.trace[i].ok == o.Succeeds(i)
  }

  /** After `s`, every call `t` adds succeeds except perhaps the last one:
      nothing runs after a failure. */
  predicate StopsAtFailure(s: RepoState, t: RepoState) {
    forall i :: |s.trace| <= i < |t.trace| - 1 ==> t.trace[i].ok
  }

  /** The last call `t` adds after `s` failed. */
  predicate FailedLast(s: RepoState, t: RepoState) {
    |s.trace| < |t.trace| && !t.trace[|t.trace| - 1].ok
  }

  /** The calls `t` adds after `s` all succeed. */
  predicate AllSucceeded(s: RepoState, t: RepoState) {
    forall i :: |s.trace| <= i < |t.trace| ==> t.trace[i].ok
  }

  /** Extending is transitive. */
  lemma ExtendsTrans(s: RepoState, t: RepoState, u: RepoState, o: Oracle)
    requires Extends(s, t, o) && Extends(t, u, o)
    ensures Extends(s, u, o)
  {
    forall i | |s.trace| <= i < |t.trace|
      ensures u.trace[i].ok == o.Succeeds(i)
    {
      assert u.trace[i] == t.trace[i];
    }
  }

  /** Calls that all succeed, then calls that stop at a failure, stop at a failure. */
  lemma StopsAtFailureTrans(s: RepoState, t: RepoState, u: RepoState)
    requires s.trace <= t.trace <= u.trace
    requires AllSucceeded(s, t) && StopsAtFailure(t, u)
    ensures StopsAtFailure(s, u)
  {
    forall i | |s.trace| <= i < |u.trace| - 1
      ensures u.trace[i].ok
    {
      if i < |t.trace| {
        assert u.trace[i] == t.trace[i];
      }
    }
  }

  /** The exceptions that matter to the control flow of the rollout. */
  datatype Exc =
    | GitError            // git.GitError and its subclasses
    | LookupError         // IndexError / ValueError from a failed lookup by name
    | ExitRequest(code: int)  // typer.Exit(code) or exit(code)

  /** How a Python call ends: it returns a value (only its truthiness
      matters here; None is falsy) or it raises. */
  datatype Result = Returned(truthy: bool) | Raised(exc: Exc)
}
