/**
  The command-line surface shared by the four rollout variants: the options
  that steer control flow, and how the end of the command becomes a process
  outcome.
 */
module Cli {
  import opened GitState

  /** The branch and remote options and the skip-production flag.  The
      working-directory option is folded into the oracle (whether the
      repository opens); the verbose option only adds output here. */
  datatype Config = Config(
    base: string,
    pp: string,
    prod: string,
    remote: string,
    skipProduction: bool)

  /** The three branch names differ (nothing in the source enforces it). */
  predicate Distinct(cfg: Config) {
    cfg.base != cfg.pp && cfg.pp != cfg.prod && cfg.base != cfg.prod
  }

  /** How the command ends: an exit code, or an exception that escaped every handler. */
  datatype Outcome = Exit(code: int) | Uncaught

  /** A command that returns exits with 0, an exit request keeps its code,
      any other exception is uncaught. */
  function Finish(r: Result): (out: Outcome)
    ensures r.Returned? ==> out == Exit(0)
    ensures r.Raised? && r.exc.ExitRequest? ==> out == Exit(r.exc.code)
    ensures out == Uncaught <==> r.Raised? && !r.exc.ExitRequest?
  {
    match r
    case Returned(_) => Exit(0)
    case Raised(ExitRequest(code)) => Exit(code)
    case Raised(_) => Uncaught
  }
}
