/**
  The repository handle as a mutable object: the git calls of the rollout
  change its checked-out branch, its heads, its tracking configuration and
  its trace in place.  Each method does what the matching `RepoState`
  function describes.
 */
module GitRepo {
  import opened GitState

  class Repo {
    var heads: set<string>
    var current: string
    var bare: bool
    var dirty: bool
    var untracked: bool
    var remotes: set<string>
    var tracked: set<string>
    var trace: seq<Entry>

    /** Opening a working tree: a fresh handle on its on-disk state. */
    constructor Open(s: RepoState)
      ensures State() == s
    {
      heads, current, bare, dirty, untracked := s.heads, s.current, s.bare, s.dirty, s.untracked;
      remotes, tracked, trace := s.remotes, s.tracked, s.trace;
    }

    /** The abstract value of the handle. */
    function State(): RepoState
      reads this
    {
      RepoState(heads, current, bare, dirty, untracked, remotes, tracked, trace)
    }

    method Fetch(remote: string, o: Oracle) returns (ok: bool)
      modifies this
      ensures (ok, State()) == old(State()).Fetch(remote, o)
    {
      ok := o.Succeeds(|trace|);
      trace := trace + [Entry(Op.Fetch(remote), ok)];
    }

    method Checkout(branch: string, o: Oracle) returns (ok: bool)
      modifies this
      ensures (ok, State()) == old(State()).Checkout(branch, o)
    {
      ok := o.Succeeds(|trace|);
      trace := trace + [Entry(Op.Checkout(branch), ok)];
      if ok {
        current := branch;
        heads := heads + {branch};
      }
    }

    method SetTracking(branch: string, remote: string, o: Oracle) returns (ok: bool)
      modifies this
      ensures (ok, State()) == old(State()).SetTracking(branch, remote, o)
    {
      ok := o.Succeeds(|trace|);
      trace := trace + [Entry(Op.SetTracking(branch, remote), ok)];
      if ok {
        tracked := tracked + {branch};
      }
    }

    method Pull(rebase: bool, o: Oracle) returns (ok: bool)
      modifies this
      ensures (ok, State()) == old(State()).Pull(rebase, o)
    {
      ok := o.Succeeds(|trace|);
      trace := trace + [Entry(Op.Pull(current, rebase), ok)];
    }

    method Merge(source: string, o: Oracle) returns (ok: bool)
      modifies this
      ensures (ok, State()) == old(State()).Merge(source, o)
    {
      ok := o.Succeeds(|trace|);
      trace := trace + [Entry(Op.Merge(source, current), ok)];
    }

    method Push(o: Oracle) returns (ok: bool)
      modifies this
      ensures (ok, State()) == old(State()).Push(o)
    {
      ok := o.Succeeds(|trace|);
      trace := trace + [Entry(Op.Push(current), ok)];
    }
  }
}
