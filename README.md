# pbgit rollout, modelled in Dafny

pbgit promotes changes along three branches of a git repository: it updates
the base branch, merges it into the pre-production ("pp") branch and pushes,
then does the same from pp into production. The production stage can be
skipped. The repository holds four revisions of the same `rollout` command:

- `pbgit_chatgpt_further_refactored.py`: a list of named steps run by one loop. At the first step that does not pass, the loop checks out the base branch once, as recovery, and exits with 1.
- `pbgit_chatgpt_refined.py` and `pbgit_chatgpt_refactored.py`: straight-line code. Guard helpers raise exit requests, and `update_branch` turns a GitError into exit 1. The other git calls sit outside every handler.
- `pbgit.py`: one inline command body with three `try` blocks.

The project models all four on one abstract repository. For each revision it proves:

- when a run exits with 0, and that a complete run made exactly the expected git calls, in order, and left the tree on the expected branch;
- what the guard checks, a missing branch and the failure scenarios listed below lead to: the exit code, and which calls were made;
- that the straight-line revisions never recover: nothing runs after a failing call;
- for the straight-line revisions, where each exit code can come from: each run past the guards follows a plan that marks every git call, by its position in the run, as inside or outside a handler; exit 0 only from a run in which no call failed, exit 1 only from a guard or from a failed call at a position inside a handler, and a failed call ends the run uncaught exactly when its position is outside every handler.

## How the model is built

- `GitState` is the abstract repository handle, `RepoState`.
  - It holds the local heads, the checked-out branch, and the bare, dirty and untracked flags.
  - It also holds the remote names, the branches that have a tracking branch, and an append-only trace of every mutating git call (fetch, checkout, set-tracking, pull, merge, push).
  - Each trace entry records whether that call succeeded.
- An `Oracle` stands in for the outside world.
  - It says whether the working directory exists and whether it holds a repository.
  - It says whether the Remote object is truthy and whether `fetch()` returns anything.
  - It says which trace positions hold a failing git call, so every error path can be reached.
- A Python call ends in a `Result`: it returns a value (only its truthiness matters) or raises a GitError, a lookup error, or an exit request with a code.
- `Cli.Finish` maps the end of the command to an `Outcome`. That is `Exit(code)`, or `Uncaught` for an exception that escaped every handler.
- `GitRepo.Repo` is the handle as a class whose methods update its fields in place. Each method is proved to do what the matching `RepoState` function describes.
- Each revision gets two modules:
  - a model module (`FurtherRefactoredModel`, `RefinedModel`, `RefactoredModel`, `PbgitModel`) of functions and the lemmas about them;
  - an imperative module (`FurtherRefactored`, `Refined`, `Refactored`, `Pbgit`) whose methods make the git calls on a `Repo` in the order of the source.
- Each imperative method ensures `(result, repo.State()) == <model function>(old(repo.State()), ...)`, so what is proved about the model holds for the methods.
- In the further-refactored module, `Rollout` builds the step list and runs it with a `for` loop whose invariant is `RunSteps(steps[i..], ...) == expected`.
- `StraightLine` holds what the three straight-line revisions share. The central notion is "no recovery": a run only appends calls, nothing runs after a call that fails, and an uncaught GitError comes from the last call, one made outside every handler.
  It also defines a plan: the calls a run makes when nothing stops it, each marked by its position as made inside or outside a handler. `Follows` ties what a part of a run raises to the plan's mark for the call that failed, so two calls on the same branch, one handled and one not, are told apart.
- `Variants` compares the four revisions on the same repository and oracle.

### Behaviour that differs between the revisions

- A missing remote and a dirty tree fail a step in `pbgit_chatgpt_further_refactored.py`, so the recovery checkout of base runs before exit 1 (`FurtherRefactoredModel.MissingRemoteRecovers`, `FurtherRefactoredModel.DirtyTreeOnlyRecovers`). The other three revisions exit before any git call.
- A failing stage does not always leave the tree on the base branch.
  - In the further-refactored revision, a missing branch raises `typer.Exit(1)` inside a step. That escapes the loop without recovery: a missing production branch leaves the tree on pp (`FurtherRefactoredModel.MissingProdLeavesTreeOnPp`).
  - The three straight-line revisions have no recovery at all (`RefinedModel.RolloutNoRecovery` and its siblings).
- A run with production skipped ends on the base branch in `pbgit.py` and the further-refactored revision. The refined and refactored revisions raise `typer.Exit(0)` right after pushing pp and stay on pp (`Variants.SkipProductionEndsDiffer`).
- A bare repository gives exit 0 in the three straight-line revisions. The further-refactored revision fails its bare-check step instead: exit 1, after the recovery checkout (`Variants.BareRepositoryDiffers`).

## Model

| member | source | states |
|---|---|---|
| GitRepo.Repo.Open | pbgit_chatgpt_further_refactored.py:14 | opening a working tree gives a handle whose abstract state is that tree's state |
| GitRepo.Repo.Fetch | pbgit_chatgpt_further_refactored.py:144 | a fetch appends one trace entry with the oracle's answer for its position and changes nothing else |
| GitRepo.Repo.Checkout | pbgit_chatgpt_further_refactored.py:52 | a checkout is recorded; when it succeeds the tree is on that branch and a local head of that name exists |
| GitRepo.Repo.SetTracking | pbgit_chatgpt_further_refactored.py:54 | setting the tracking branch is recorded, and when it succeeds the branch counts as tracked |
| GitRepo.Repo.Pull | pbgit_chatgpt_further_refactored.py:55 | a pull of the current branch, with or without rebase, is recorded and changes nothing else |
| GitRepo.Repo.Merge | pbgit_chatgpt_further_refactored.py:66 | a merge of the source into the current branch is recorded and changes nothing else |
| GitRepo.Repo.Push | pbgit_chatgpt_further_refactored.py:67 | a push of the current branch is recorded and changes nothing else |
| Cli.Finish | pbgit_chatgpt_refined.py:61-97 | a command that returns exits 0, an exit request keeps its code, and any other exception ends the command uncaught, and only then |
| FurtherRefactoredModel.GetRemoteRepo | pbgit_chatgpt_further_refactored.py:29-38 | the lookup never raises; its value is truthy exactly when the name is a remote and the Remote object is truthy |
| FurtherRefactoredModel.FetchRemoteRepo | pbgit_chatgpt_further_refactored.py:144-145 | looking up an unknown remote raises a lookup error with no git call; otherwise the fetch is recorded, and the step's value is truthy exactly when the fetch succeeds and returns something; it never raises an exit request |
| FurtherRefactoredModel.ValidateBranch | pbgit_chatgpt_further_refactored.py:41-44 | raises exactly when the branch is not a local head, and then raises the exit request 1 |
| FurtherRefactoredModel.ConfigureTracking | pbgit_chatgpt_further_refactored.py:53-54 | a branch that already tracks something is left alone with no call; otherwise set-tracking is recorded when the remote exists, and the step returns True, with the branch now tracked, exactly when it was tracked or the remote exists and the call succeeds; its only exception is a lookup error |
| FurtherRefactoredModel.UpdateBranch | pbgit_chatgpt_further_refactored.py:47-59 | a missing branch raises exit 1 before any git call; tracking is set only when none is configured, then a rebasing pull; it returns True exactly when the branch exists, can be tracked and none of these calls fails, and it then records exactly those calls and leaves the tree on the branch; a GitError becomes False, only exit 1 or a lookup error escape |
| FurtherRefactoredModel.UpdateBranchCalls | pbgit_chatgpt_further_refactored.py:47-59 | whatever update_branch ends in, the calls it made are, operation for operation, a prefix of those of a successful update |
| FurtherRefactoredModel.MergeBranch | pbgit_chatgpt_further_refactored.py:62-71 | merge then push of the current branch, the push only after a successful merge; True exactly when both succeed; it never raises |
| FurtherRefactoredModel.Promote | pbgit_chatgpt_further_refactored.py:74-93 | short-circuit: when the update of the target does not return True the result is the update's; True exactly when the target exists, can be tracked and no call fails, and then the trace is the update's calls followed by merge and push of the target |
| FurtherRefactoredModel.CheckoutBranch | pbgit_chatgpt_further_refactored.py:96-104 | the checkout is recorded and its success is the returned value; it never raises |
| FurtherRefactoredModel.Call | pbgit_chatgpt_further_refactored.py:140-159 | each step only appends calls, only the base checkout can add a local head, and the only exit request a step raises is exit 1 |
| FurtherRefactoredModel.Judge | pbgit_chatgpt_further_refactored.py:107-120 | a returned value passes exactly when truthy, an exit request is passed on with its code, any other exception is a failure |
| FurtherRefactoredModel.RolloutStepVerdict | pbgit_chatgpt_further_refactored.py:107-120 | a step passes exactly when its call returns True; an exit request is passed on only from a missing branch to update, as exit 1 with no call made; the two checks (lines 21-26) make no call and pass exactly on a clean tree and a non-bare repository |
| FurtherRefactoredModel.RunSteps | pbgit_chatgpt_further_refactored.py:161-164 | the loop ends either by returning normally or with the exit request 1 |
| FurtherRefactoredModel.RunStepsExtends | pbgit_chatgpt_further_refactored.py:161-164 | the loop only appends git calls and keeps the repository's flags and remotes |
| FurtherRefactoredModel.StepList | pbgit_chatgpt_further_refactored.py:140-159 | the step list has the two checks first, the production promotion exactly when it is not skipped, and the checkout of base last and nowhere else |
| FurtherRefactoredModel.Rollout | pbgit_chatgpt_further_refactored.py:123-164 | the command only appends git calls and exits with 0 or 1, never uncaught |
| FurtherRefactoredModel.RunStepsAppend | pbgit_chatgpt_further_refactored.py:161-164 | running two step lists back to back runs the second only when the first completes |
| FurtherRefactoredModel.FailedStepRecovers | pbgit_chatgpt_further_refactored.py:161-164 | once the steps before it pass and a step fails, no later step runs, the base checkout is attempted exactly once, and the result is exit 1 whatever that checkout does |
| FurtherRefactoredModel.ExitBypassesRecovery | pbgit_chatgpt_further_refactored.py:116-117 | an exit request raised inside a step leaves the loop with its code and the state the step left, without the recovery checkout |
| FurtherRefactoredModel.MissingBranchHalts | pbgit_chatgpt_further_refactored.py:41-51 | a step that updates a missing branch ends the loop with exit 1 and no further git call, not even the recovery |
| FurtherRefactoredModel.PassingStepsKeepHeads | pbgit_chatgpt_further_refactored.py:161-164 | a run of steps none of which is the base checkout leaves the local heads as they were when it completes |
| FurtherRefactoredModel.UnopenableRepository | pbgit_chatgpt_further_refactored.py:136-138 | a repository that cannot be opened gives exit 1 before any step |
| FurtherRefactoredModel.DirtyTreeOnlyRecovers | pbgit_chatgpt_further_refactored.py:140-164 | a dirty tree or untracked files fail the first step: exit 1, and the only call recorded is the recovery checkout of base |
| FurtherRefactoredModel.BareRepositoryFails | pbgit_chatgpt_further_refactored.py:140-164 | a bare repository gives exit 1, not 0, and only the recovery checkout is recorded |
| FurtherRefactoredModel.MissingRemoteRecovers | pbgit_chatgpt_further_refactored.py:140-164 | once the first two checks pass, an unknown or falsy remote fails the third step before any fetch: exit 1 after the recovery checkout only |
| FurtherRefactoredModel.Preflight | pbgit_chatgpt_further_refactored.py:140-145 | the four preflight steps pass exactly when the tree is clean, not bare, the remote exists and is truthy, and the fetch succeeds and returns something; then the fetch is the only call |
| FurtherRefactoredModel.MissingBaseHalts | pbgit_chatgpt_further_refactored.py:140-164 | a missing base branch gives exit 1 right after the fetch, with no checkout at all, so the tree stays where it was |
| FurtherRefactoredModel.MissingProdLeavesTreeOnPp | pbgit_chatgpt_further_refactored.py:140-164 | when base and pp are promoted and prod is missing, the exit request escapes the loop: exit 1 with the tree left on pp |
| FurtherRefactoredModel.TailSkipSucceedsIff | pbgit_chatgpt_further_refactored.py:151-159 | with production skipped, only the base checkout follows the pp promotion: it completes exactly when that checkout succeeds, and then ends on base |
| FurtherRefactoredModel.TailProdSucceedsIff | pbgit_chatgpt_further_refactored.py:151-159 | otherwise the production promotion and then the base checkout complete exactly when prod exists and none of their calls fails, ending on base |
| FurtherRefactoredModel.TailSucceedsIff | pbgit_chatgpt_further_refactored.py:151-159 | the steps after the pp promotion complete exactly when the production branch (if promoted) exists and no call fails, record exactly the expected calls and end on base |
| FurtherRefactoredModel.PpSucceedsIff | pbgit_chatgpt_further_refactored.py:147-159 | from the pp promotion on, the steps complete exactly when pp (and prod unless skipped) exist and no call fails |
| FurtherRefactoredModel.BaseSucceedsIff | pbgit_chatgpt_further_refactored.py:146-159 | from the base update on, the steps complete exactly when the three branches (prod unless skipped) exist and no call fails |
| FurtherRefactoredModel.SuccessTraceOfDistinct | pbgit_chatgpt_further_refactored.py:140-159 | with distinct branch names, the calls of a successful run are the fetch followed by the calls of the three promotions and the final checkout |
| FurtherRefactoredModel.StepsSucceedIff | pbgit_chatgpt_further_refactored.py:140-164 | the whole step list completes exactly when the preflight holds, the branches exist and no call fails; it then records the fetch and the promotions in order and ends on base |
| FurtherRefactoredModel.RolloutSucceedsIffAnyConfig | pbgit_chatgpt_further_refactored.py:123-164 | for any branch names, equal ones included: exit 0 exactly when everything checked holds and no git call fails; the run then made precisely the fetch and the promotion calls in the fixed step order and ends on the base branch |
| FurtherRefactoredModel.RolloutSucceedsIff | pbgit_chatgpt_further_refactored.py:123-164 | with distinct branch names, the same with the calls of the success trace, each update seeing the tracking set-up the run started with |
| FurtherRefactored.NotDirty | pbgit_chatgpt_further_refactored.py:25-26 | the step passes exactly on a clean tree without untracked files |
| FurtherRefactored.NotBare | pbgit_chatgpt_further_refactored.py:21-22 | the step passes exactly on a repository that is not bare |
| FurtherRefactored.GetRemoteRepo | pbgit_chatgpt_further_refactored.py:29-38 | computes the remote lookup of the model |
| FurtherRefactored.FetchRemoteRepo | pbgit_chatgpt_further_refactored.py:144-145 | makes the fetch on the handle as the model describes |
| FurtherRefactored.UpdateBranch | pbgit_chatgpt_further_refactored.py:47-59 | makes validation, checkout, tracking set-up and pull on the handle as the model describes |
| FurtherRefactored.MergeBranch | pbgit_chatgpt_further_refactored.py:62-71 | makes merge and push on the handle as the model describes |
| FurtherRefactored.Promote | pbgit_chatgpt_further_refactored.py:74-93 | update then merge, short-circuited, as the model describes |
| FurtherRefactored.CheckoutBranch | pbgit_chatgpt_further_refactored.py:96-104 | the checkout on the handle as the model describes |
| FurtherRefactored.RolloutStep | pbgit_chatgpt_further_refactored.py:107-120 | runs a step on the handle and judges its result as the model does |
| FurtherRefactored.Rollout | pbgit_chatgpt_further_refactored.py:123-164 | builds the step list and runs the loop with early exit and recovery; the outcome and the final handle are those of the model |
| StraightLine.Unguarded | pbgit_chatgpt_refined.py:82 | a git call outside any handler keeps its state, and its failure is a GitError that escapes |
| StraightLine.NoRecoveryAfter | pbgit_chatgpt_refined.py:74-97 | calls that all succeed, followed by a part without recovery, make a whole without recovery |
| StraightLine.UnguardedNoRecovery | pbgit_chatgpt_refined.py:82 | a single unguarded fetch, checkout, merge or push has no recovery, and when it succeeds everything it added succeeded |
| StraightLine.FinishNoRecovery | pbgit_chatgpt_refined.py:74-97 | when the body has no recovery and raises only exit requests 0 or 1 or a GitError, an uncaught end is a GitError of the last call, one made outside all handlers |
| StraightLine.FollowsThen | pbgit_chatgpt_refined.py:74-97 | a part that follows its plan and does not request exit 0, then, only when it returns, a rest that follows its own plan, together follow the joined plan: the calls made are the plan's calls at their positions, exit 0 or a return only after all of them succeeded, exit 1 only when none failed or the last is a failed call the plan puts inside a handler, a GitError only right after a failed call the plan puts outside every handler |
| StraightLine.UnguardedFollows | pbgit_chatgpt_refined.py:82 | an unguarded fetch, checkout, merge or push follows the one-call plan that puts it outside every handler |
| StraightLine.FinishFollows | pbgit_chatgpt_refined.py:74-97 | at the end of a body that follows its plan, exit 0 means no call failed, exit 1 means none failed or the plan puts the failed last call inside a handler, and a failed last call ends with exit 1 exactly when the plan puts it inside a handler and uncaught otherwise |
| RefinedModel.GetRepo | pbgit_chatgpt_refined.py:11-21 | raises exactly when the directory is missing or holds no repository, and then raises exit 1 |
| RefinedModel.IsBareRepo | pbgit_chatgpt_refined.py:24-27 | raises exactly for a bare repository, and then raises exit 0 |
| RefinedModel.HasDirtyChanges | pbgit_chatgpt_refined.py:30-33 | raises exactly for changes or untracked files, and then raises exit 1 |
| RefinedModel.GetRemoteRepo | pbgit_chatgpt_refined.py:36-40 | raises exactly for a name that is not a remote, and then raises exit 1 |
| RefinedModel.ValidateBranch | pbgit_chatgpt_refined.py:55-58 | raises exactly for a branch that is not a local head, and then raises exit 1 |
| RefinedModel.UpdateBranch | pbgit_chatgpt_refined.py:43-52 | a missing branch gives exit 1 before any git call; otherwise checkout then rebasing pull; it returns exactly when both succeed, leaving the tree on the branch; exit 1 otherwise, after a failed checkout or pull of that branch as the last call |
| RefinedModel.Production | pbgit_chatgpt_refined.py:93-97 | update prod, merge pp, push, checkout base: completes exactly when prod exists and no call fails, then ends on base |
| RefinedModel.ProductionNoRecovery | pbgit_chatgpt_refined.py:93-97 | the production stage has no recovery |
| RefinedModel.BaseStage | pbgit_chatgpt_refined.py:81-82 | update base then push: completes exactly when base exists and no call fails, ends on base |
| RefinedModel.BaseStageNoRecovery | pbgit_chatgpt_refined.py:81-82 | the base stage has no recovery |
| RefinedModel.PpStage | pbgit_chatgpt_refined.py:84-86 | update pp, merge base, push: completes exactly when pp exists and no call fails, ends on pp |
| RefinedModel.PpStageNoRecovery | pbgit_chatgpt_refined.py:84-86 | the pp stage has no recovery |
| RefinedModel.AfterPp | pbgit_chatgpt_refined.py:88-97 | with production skipped, exit 0 at once with no further call, so the tree stays on pp; otherwise checkout base and the production stage, complete exactly when no call fails and prod exists |
| RefinedModel.AfterPpNoRecovery | pbgit_chatgpt_refined.py:88-97 | what follows the pp stage has no recovery |
| RefinedModel.FromPp | pbgit_chatgpt_refined.py:84-97 | from the pp stage on, a run raises only exit requests 0 or 1 or a GitError, and exit 0 only when it completed |
| RefinedModel.FromPpCompletes | pbgit_chatgpt_refined.py:84-97 | from the pp stage on, a run completes exactly when pp (and prod unless skipped) exist and no call fails, and then ends on pp when skipped, on base otherwise |
| RefinedModel.FromPpNoRecovery | pbgit_chatgpt_refined.py:84-97 | from the pp stage on there is no recovery |
| RefinedModel.Promotions | pbgit_chatgpt_refined.py:81-97 | the stages raise only exit requests 0 or 1 or a GitError |
| RefinedModel.PromotionsComplete | pbgit_chatgpt_refined.py:81-97 | the stages complete exactly when the branches exist and no call fails, recording the promotion calls in order |
| RefinedModel.PromotionsNoRecovery | pbgit_chatgpt_refined.py:81-97 | the stages have no recovery |
| RefinedModel.FetchAndPromote | pbgit_chatgpt_refined.py:79-97 | fetch then the stages raise only exit requests 0 or 1 or a GitError |
| RefinedModel.FetchAndPromoteCompletes | pbgit_chatgpt_refined.py:79-97 | after the guards, a run completes exactly when the branches exist and no call fails, and then made exactly the success trace |
| RefinedModel.FetchAndPromoteNoRecovery | pbgit_chatgpt_refined.py:79-97 | fetch and stages have no recovery |
| RefinedModel.Command | pbgit_chatgpt_refined.py:75-97 | the guards run in order before any git call: bare gives exit 0, then dirty gives exit 1, then an unknown remote gives exit 1; past them the body is fetch and stages |
| RefinedModel.CommandNoRecovery | pbgit_chatgpt_refined.py:75-97 | the body has no recovery |
| RefinedModel.FetchComesFirst | pbgit_chatgpt_refined.py:78-79 | once the guards pass, the first call is the fetch of the remote that was looked up |
| RefinedModel.Rollout | pbgit_chatgpt_refined.py:61-97 | an unopenable repository gives exit 1; then bare gives exit 0, dirty exit 1 and an unknown remote exit 1, all with no git call; the outcome is exit 0, exit 1 or uncaught |
| RefinedModel.RolloutSucceedsIff | pbgit_chatgpt_refined.py:74-97 | exit 0 exactly when the repository opens and is bare, or is ready and no call fails; a complete run made exactly the success trace and ends on pp when production is skipped, on base otherwise |
| RefinedModel.RolloutNoRecovery | pbgit_chatgpt_refined.py:74-97 | a rollout only appends calls, nothing follows a failing call, and an uncaught end is the GitError of a fetch, merge, push or base checkout made as the last call |
| RefinedModel.PlanIsSuccessTrace | pbgit_chatgpt_refined.py:74-97 | the plan of a run, each call marked inside or outside a handler, made with every call succeeding, is exactly the success trace |
| RefinedModel.UpdateBranchExits | pbgit_chatgpt_refined.py:43-52 | follows the checkout and the rebasing pull of update_branch, both inside its handler: the calls made are the plan's, position by position; a return or exit 0 only after all of them succeeded; exit 1 only when none failed or the last one failed inside a handler of the plan; a GitError only right after a failed call the plan puts outside every handler |
| RefinedModel.ProductionExits | pbgit_chatgpt_refined.py:93-97 | the production stage follows update of prod inside the handler, then the unguarded merge of pp, push of prod and checkout of base: the calls made are the plan's, position by position; a return or exit 0 only after all of them succeeded; exit 1 only when none failed or the last one failed inside a handler of the plan; a GitError only right after a failed call the plan puts outside every handler |
| RefinedModel.BaseStageExits | pbgit_chatgpt_refined.py:81-82 | the base stage follows update base inside the handler, then the unguarded push of base: the calls made are the plan's, position by position; a return or exit 0 only after all of them succeeded; exit 1 only when none failed or the last one failed inside a handler of the plan; a GitError only right after a failed call the plan puts outside every handler |
| RefinedModel.PpStageExits | pbgit_chatgpt_refined.py:84-86 | the pp stage follows update of pp inside the handler, then the unguarded merge of base and push of pp: the calls made are the plan's, position by position; a return or exit 0 only after all of them succeeded; exit 1 only when none failed or the last one failed inside a handler of the plan; a GitError only right after a failed call the plan puts outside every handler |
| RefinedModel.AfterPpExits | pbgit_chatgpt_refined.py:88-97 | what follows the pp stage follows nothing when production is skipped; otherwise the unguarded checkout of base, then the production stage: the calls made are the plan's, position by position; a return or exit 0 only after all of them succeeded; exit 1 only when none failed or the last one failed inside a handler of the plan; a GitError only right after a failed call the plan puts outside every handler |
| RefinedModel.FromPpExits | pbgit_chatgpt_refined.py:84-97 | the run from the pp stage on follows the pp plan and then the plan after pp: the calls made are the plan's, position by position; a return or exit 0 only after all of them succeeded; exit 1 only when none failed or the last one failed inside a handler of the plan; a GitError only right after a failed call the plan puts outside every handler |
| RefinedModel.PromotionsExits | pbgit_chatgpt_refined.py:81-97 | the stages follow the base plan and then the plan from pp on: the calls made are the plan's, position by position; a return or exit 0 only after all of them succeeded; exit 1 only when none failed or the last one failed inside a handler of the plan; a GitError only right after a failed call the plan puts outside every handler |
| RefinedModel.FetchAndPromoteExits | pbgit_chatgpt_refined.py:79-97 | fetch and stages follow the unguarded fetch and then the stages' plan: the calls made are the plan's, position by position; a return or exit 0 only after all of them succeeded; exit 1 only when none failed or the last one failed inside a handler of the plan; a GitError only right after a failed call the plan puts outside every handler |
| RefinedModel.CommandExits | pbgit_chatgpt_refined.py:75-97 | past the guards, the command body follows the whole run's plan: the calls made are the plan's, position by position; a return or exit 0 only after all of them succeeded; exit 1 only when none failed or the last one failed inside a handler of the plan; a GitError only right after a failed call the plan puts outside every handler |
| RefinedModel.RolloutExits | pbgit_chatgpt_refined.py:74-97 | a rollout exits 0 only when none of its calls failed, and exits 1 only when none failed (a guard or a missing branch stopped it) or the last call failed at a position the plan puts inside a handler: a checkout or pull of update_branch |
| RefinedModel.FailedCallOutcome | pbgit_chatgpt_refined.py:74-97 | when the last call of a rollout failed, it is the plan's call at its position, and the rollout exits 1 exactly when the plan puts that call inside a handler (a checkout or pull of update_branch) and ends uncaught otherwise: the fetch, the merges, the pushes and every checkout of base made outside update_branch (the one before production and the final one) |
| Refined.GetRepo | pbgit_chatgpt_refined.py:11-21 | computes the model's get_repo |
| Refined.IsBareRepo | pbgit_chatgpt_refined.py:24-27 | computes the model's bare check on the handle |
| Refined.HasDirtyChanges | pbgit_chatgpt_refined.py:30-33 | computes the model's dirty check on the handle |
| Refined.GetRemoteRepo | pbgit_chatgpt_refined.py:36-40 | computes the model's remote lookup on the handle |
| Refined.ValidateBranch | pbgit_chatgpt_refined.py:55-58 | computes the model's branch validation on the handle |
| Refined.UpdateBranch | pbgit_chatgpt_refined.py:43-52 | validation, checkout and pull on the handle as the model describes |
| Refined.Rollout | pbgit_chatgpt_refined.py:61-97 | the straight-line command on the handle; outcome and final handle are the model's |
| RefactoredModel.GetRepo | pbgit_chatgpt_refactored.py:11-17 | raises exactly when the repository cannot be opened, and then raises exit 1 |
| RefactoredModel.IsBareRepo | pbgit_chatgpt_refactored.py:20-24 | raises exactly for a bare repository, and then raises exit 0 |
| RefactoredModel.HasDirtyChanges | pbgit_chatgpt_refactored.py:27-31 | raises exactly for changes or untracked files, and then raises exit 1 |
| RefactoredModel.GetRemoteRepo | pbgit_chatgpt_refactored.py:34-43 | raises exactly for an unknown name or a falsy remote, and then raises exit 1 |
| RefactoredModel.UpdateBranch | pbgit_chatgpt_refactored.py:46-54 | no existence check: checkout then plain pull; returns exactly when both succeed, ending on the branch; exit 1 otherwise, after a failed checkout or pull as the last call |
| RefactoredModel.Production | pbgit_chatgpt_refactored.py:90-94 | update prod, merge pp, push, checkout base: completes exactly when no call fails, ends on base |
| RefactoredModel.ProductionNoRecovery | pbgit_chatgpt_refactored.py:90-94 | the production stage has no recovery |
| RefactoredModel.BaseStage | pbgit_chatgpt_refactored.py:78-79 | update base then push: completes exactly when no call fails, ends on base |
| RefactoredModel.BaseStageNoRecovery | pbgit_chatgpt_refactored.py:78-79 | the base stage has no recovery |
| RefactoredModel.PpStage | pbgit_chatgpt_refactored.py:81-83 | update pp, merge base, push: completes exactly when no call fails, ends on pp |
| RefactoredModel.PpStageNoRecovery | pbgit_chatgpt_refactored.py:81-83 | the pp stage has no recovery |
| RefactoredModel.AfterPp | pbgit_chatgpt_refactored.py:85-94 | with production skipped, exit 0 at once and the tree stays on pp; otherwise checkout base and the production stage |
| RefactoredModel.AfterPpNoRecovery | pbgit_chatgpt_refactored.py:85-94 | what follows the pp stage has no recovery |
| RefactoredModel.FromPp | pbgit_chatgpt_refactored.py:81-94 | from the pp stage on, only exit requests 0 or 1 or a GitError are raised, exit 0 only on completion |
| RefactoredModel.FromPpCompletes | pbgit_chatgpt_refactored.py:81-94 | from the pp stage on, a run completes exactly when no call fails, ending on pp when skipped, on base otherwise |
| RefactoredModel.FromPpNoRecovery | pbgit_chatgpt_refactored.py:81-94 | from the pp stage on there is no recovery |
| RefactoredModel.Promotions | pbgit_chatgpt_refactored.py:78-94 | the stages raise only exit requests 0 or 1 or a GitError |
| RefactoredModel.PromotionsComplete | pbgit_chatgpt_refactored.py:78-94 | the stages complete exactly when no call fails, recording the promotion calls in order |
| RefactoredModel.PromotionsNoRecovery | pbgit_chatgpt_refactored.py:78-94 | the stages have no recovery |
| RefactoredModel.FetchAndPromote | pbgit_chatgpt_refactored.py:76-94 | fetch then the stages raise only exit requests 0 or 1 or a GitError |
| RefactoredModel.FetchAndPromoteCompletes | pbgit_chatgpt_refactored.py:76-94 | after the guards, a run completes exactly when no call fails and then made exactly the success trace |
| RefactoredModel.FetchAndPromoteNoRecovery | pbgit_chatgpt_refactored.py:76-94 | fetch and stages have no recovery |
| RefactoredModel.Command | pbgit_chatgpt_refactored.py:71-94 | the guards in order before any git call: bare exit 0, dirty exit 1, unknown or falsy remote exit 1; past them fetch and stages |
| RefactoredModel.CommandNoRecovery | pbgit_chatgpt_refactored.py:71-94 | the body has no recovery |
| RefactoredModel.FetchComesFirst | pbgit_chatgpt_refactored.py:74-76 | once the guards pass, the first call is the fetch of the remote that was looked up |
| RefactoredModel.Rollout | pbgit_chatgpt_refactored.py:57-94 | unopenable gives exit 1; bare exit 0, dirty exit 1, unknown or falsy remote exit 1, all with no git call; the outcome is exit 0, exit 1 or uncaught |
| RefactoredModel.RolloutSucceedsIff | pbgit_chatgpt_refactored.py:70-94 | exit 0 exactly when the repository opens and is bare, or is clean with a truthy remote and no call fails, whether or not the branches exist beforehand; a complete run made exactly the success trace and ends on pp when skipped, on base otherwise |
| RefactoredModel.RolloutNoRecovery | pbgit_chatgpt_refactored.py:70-94 | a rollout only appends calls, nothing follows a failing call, and an uncaught end is the GitError of an unguarded last call |
| RefactoredModel.PlanIsSuccessTrace | pbgit_chatgpt_refactored.py:70-94 | the plan of a run, each call marked inside or outside a handler, made with every call succeeding, is exactly the success trace |
| RefactoredModel.UpdateBranchExits | pbgit_chatgpt_refactored.py:46-54 | follows the checkout and the plain pull of update_branch, both inside its handler: the calls made are the plan's, position by position; a return or exit 0 only after all of them succeeded; exit 1 only when none failed or the last one failed inside a handler of the plan; a GitError only right after a failed call the plan puts outside every handler |
| RefactoredModel.ProductionExits | pbgit_chatgpt_refactored.py:90-94 | the production stage follows update of prod inside the handler, then the unguarded merge of pp, push of prod and checkout of base: the calls made are the plan's, position by position; a return or exit 0 only after all of them succeeded; exit 1 only when none failed or the last one failed inside a handler of the plan; a GitError only right after a failed call the plan puts outside every handler |
| RefactoredModel.BaseStageExits | pbgit_chatgpt_refactored.py:78-79 | the base stage follows update base inside the handler, then the unguarded push of base: the calls made are the plan's, position by position; a return or exit 0 only after all of them succeeded; exit 1 only when none failed or the last one failed inside a handler of the plan; a GitError only right after a failed call the plan puts outside every handler |
| RefactoredModel.PpStageExits | pbgit_chatgpt_refactored.py:81-83 | the pp stage follows update of pp inside the handler, then the unguarded merge of base and push of pp: the calls made are the plan's, position by position; a return or exit 0 only after all of them succeeded; exit 1 only when none failed or the last one failed inside a handler of the plan; a GitError only right after a failed call the plan puts outside every handler |
| RefactoredModel.AfterPpExits | pbgit_chatgpt_refactored.py:85-94 | what follows the pp stage follows nothing when production is skipped; otherwise the unguarded checkout of base, then the production stage: the calls made are the plan's, position by position; a return or exit 0 only after all of them succeeded; exit 1 only when none failed or the last one failed inside a handler of the plan; a GitError only right after a failed call the plan puts outside every handler |
| RefactoredModel.FromPpExits | pbgit_chatgpt_refactored.py:81-94 | the run from the pp stage on follows the pp plan and then the plan after pp: the calls made are the plan's, position by position; a return or exit 0 only after all of them succeeded; exit 1 only when none failed or the last one failed inside a handler of the plan; a GitError only right after a failed call the plan puts outside every handler |
| RefactoredModel.PromotionsExits | pbgit_chatgpt_refactored.py:78-94 | the stages follow the base plan and then the plan from pp on: the calls made are the plan's, position by position; a return or exit 0 only after all of them succeeded; exit 1 only when none failed or the last one failed inside a handler of the plan; a GitError only right after a failed call the plan puts outside every handler |
| RefactoredModel.FetchAndPromoteExits | pbgit_chatgpt_refactored.py:76-94 | fetch and stages follow the unguarded fetch and then the stages' plan: the calls made are the plan's, position by position; a return or exit 0 only after all of them succeeded; exit 1 only when none failed or the last one failed inside a handler of the plan; a GitError only right after a failed call the plan puts outside every handler |
| RefactoredModel.CommandExits | pbgit_chatgpt_refactored.py:71-94 | past the guards, the command body follows the whole run's plan: the calls made are the plan's, position by position; a return or exit 0 only after all of them succeeded; exit 1 only when none failed or the last one failed inside a handler of the plan; a GitError only right after a failed call the plan puts outside every handler |
| RefactoredModel.RolloutExits | pbgit_chatgpt_refactored.py:70-94 | a rollout exits 0 only when none of its calls failed, and exits 1 only when none failed (a guard stopped it) or the last call failed at a position the plan puts inside a handler: a checkout or pull of update_branch |
| RefactoredModel.FailedCallOutcome | pbgit_chatgpt_refactored.py:70-94 | when the last call of a rollout failed, it is the plan's call at its position, and the rollout exits 1 exactly when the plan puts that call inside a handler (a checkout or pull of update_branch) and ends uncaught otherwise: the fetch, the merges, the pushes and every checkout of base made outside update_branch (the one before production and the final one) |
| Refactored.GetRepo | pbgit_chatgpt_refactored.py:11-17 | computes the model's get_repo |
| Refactored.IsBareRepo | pbgit_chatgpt_refactored.py:20-24 | computes the model's bare check on the handle |
| Refactored.HasDirtyChanges | pbgit_chatgpt_refactored.py:27-31 | computes the model's dirty check on the handle |
| Refactored.GetRemoteRepo | pbgit_chatgpt_refactored.py:34-43 | computes the model's remote lookup on the handle |
| Refactored.UpdateBranch | pbgit_chatgpt_refactored.py:46-54 | checkout and pull on the handle as the model describes |
| Refactored.Rollout | pbgit_chatgpt_refactored.py:57-94 | the straight-line command on the handle; outcome and final handle are the model's |
| PbgitModel.UpdateBranch | pbgit.py:61-67 | the guarded checkout and plain pull: returns exactly when both succeed, ending on the branch; exit 1 otherwise, after a failed checkout or pull of that branch as the last call |
| PbgitModel.BaseStage | pbgit.py:52-59 | checkout, pull and push of base in one handler: completes exactly when none fails, ending on base, otherwise exit 1 |
| PbgitModel.BaseStageFailure | pbgit.py:52-59 | the base stage's exit 1 always follows a failed checkout, pull or push of base as its last call |
| PbgitModel.BaseStageNoRecovery | pbgit.py:52-59 | the base stage has no recovery |
| PbgitModel.PpStage | pbgit.py:61-72 | guarded update of pp, then unguarded merge of base and push: completes exactly when no call fails, ends on pp |
| PbgitModel.PpStageNoRecovery | pbgit.py:61-72 | the pp stage has no recovery |
| PbgitModel.Production | pbgit.py:78-91 | guarded update of prod, then unguarded merge of pp, push and checkout of base: completes exactly when no call fails, ends on base |
| PbgitModel.ProductionNoRecovery | pbgit.py:78-91 | the production stage has no recovery |
| PbgitModel.AfterPp | pbgit.py:74-91 | with production skipped, checkout base then exit 0, so the tree ends on base; otherwise the production stage; completes exactly when no call fails |
| PbgitModel.AfterPpNoRecovery | pbgit.py:74-91 | what follows the pp stage has no recovery |
| PbgitModel.FromPp | pbgit.py:61-91 | from the pp stage on, only exit requests 0 or 1 or a GitError are raised, exit 0 only on completion |
| PbgitModel.FromPpCompletes | pbgit.py:61-91 | from the pp stage on, a run completes exactly when no call fails, recording the expected calls and ending on base |
| PbgitModel.FromPpNoRecovery | pbgit.py:61-91 | from the pp stage on there is no recovery |
| PbgitModel.Promotions | pbgit.py:52-91 | the stages raise only exit requests 0 or 1 or a GitError |
| PbgitModel.PromotionsComplete | pbgit.py:52-91 | the stages complete exactly when no call fails, recording the promotion calls in order and ending on base |
| PbgitModel.PromotionsNoRecovery | pbgit.py:52-91 | the stages have no recovery |
| PbgitModel.FetchAndPromote | pbgit.py:50-91 | the unguarded fetch then the stages raise only exit requests 0 or 1 or a GitError |
| PbgitModel.FetchAndPromoteCompletes | pbgit.py:50-91 | after the guards, a run completes exactly when no call fails and then made exactly the success trace |
| PbgitModel.FetchAndPromoteNoRecovery | pbgit.py:50-91 | fetch and stages have no recovery |
| PbgitModel.Command | pbgit.py:32-91 | bare exit 0, then dirty exit 1, then an unknown remote exit 1, all before any git call; a falsy remote does not stop the run |
| PbgitModel.CommandNoRecovery | pbgit.py:32-91 | the body has no recovery |
| PbgitModel.FetchComesFirst | pbgit.py:42-50 | once the checks pass, even with a falsy remote, the first call is the fetch of that remote |
| PbgitModel.Rollout | pbgit.py:12-91 | unopenable gives exit 1; bare exit 0, dirty exit 1, unknown remote exit 1, all with no git call; the outcome is exit 0, exit 1 or uncaught |
| PbgitModel.RolloutSucceedsIff | pbgit.py:26-91 | exit 0 exactly when the repository opens and is bare, or is clean with a known remote and no call fails; a complete run made exactly the success trace and ends on base, skipped or not |
| PbgitModel.RolloutNoRecovery | pbgit.py:26-91 | a rollout only appends calls, nothing follows a failing call, and an uncaught end is the GitError of the fetch, a merge, the push of pp or prod or a checkout of base made as the last call |
| PbgitModel.PlanIsSuccessTrace | pbgit.py:26-91 | the plan of a run, each call marked inside or outside a handler, made with every call succeeding, is exactly the success trace |
| PbgitModel.UpdateBranchExits | pbgit.py:61-67 | follows the checkout and the plain pull of pp or prod, both inside their stage handler: the calls made are the plan's, position by position; a return or exit 0 only after all of them succeeded; exit 1 only when none failed or the last one failed inside a handler of the plan; a GitError only right after a failed call the plan puts outside every handler |
| PbgitModel.ProductionExits | pbgit.py:78-91 | the production stage follows update of prod inside the handler, then the unguarded merge of pp, push of prod and checkout of base: the calls made are the plan's, position by position; a return or exit 0 only after all of them succeeded; exit 1 only when none failed or the last one failed inside a handler of the plan; a GitError only right after a failed call the plan puts outside every handler |
| PbgitModel.BaseStageExits | pbgit.py:52-59 | the base stage follows the checkout, pull and push of base, all three inside one handler: the calls made are the plan's, position by position; a return or exit 0 only after all of them succeeded; exit 1 only when none failed or the last one failed inside a handler of the plan; a GitError only right after a failed call the plan puts outside every handler |
| PbgitModel.PpStageExits | pbgit.py:61-72 | the pp stage follows update of pp inside the handler, then the unguarded merge of base and push of pp: the calls made are the plan's, position by position; a return or exit 0 only after all of them succeeded; exit 1 only when none failed or the last one failed inside a handler of the plan; a GitError only right after a failed call the plan puts outside every handler |
| PbgitModel.AfterPpExits | pbgit.py:74-91 | what follows the pp stage follows the unguarded checkout of base when production is skipped; otherwise the production stage: the calls made are the plan's, position by position; a return or exit 0 only after all of them succeeded; exit 1 only when none failed or the last one failed inside a handler of the plan; a GitError only right after a failed call the plan puts outside every handler |
| PbgitModel.FromPpExits | pbgit.py:61-91 | the run from the pp stage on follows the pp plan and then the plan after pp: the calls made are the plan's, position by position; a return or exit 0 only after all of them succeeded; exit 1 only when none failed or the last one failed inside a handler of the plan; a GitError only right after a failed call the plan puts outside every handler |
| PbgitModel.PromotionsExits | pbgit.py:52-91 | the stages follow the base plan and then the plan from pp on: the calls made are the plan's, position by position; a return or exit 0 only after all of them succeeded; exit 1 only when none failed or the last one failed inside a handler of the plan; a GitError only right after a failed call the plan puts outside every handler |
| PbgitModel.FetchAndPromoteExits | pbgit.py:50-91 | fetch and stages follow the unguarded fetch and then the stages' plan: the calls made are the plan's, position by position; a return or exit 0 only after all of them succeeded; exit 1 only when none failed or the last one failed inside a handler of the plan; a GitError only right after a failed call the plan puts outside every handler |
| PbgitModel.CommandExits | pbgit.py:32-91 | past the guards, the command body follows the whole run's plan: the calls made are the plan's, position by position; a return or exit 0 only after all of them succeeded; exit 1 only when none failed or the last one failed inside a handler of the plan; a GitError only right after a failed call the plan puts outside every handler |
| PbgitModel.RolloutExits | pbgit.py:26-91 | a rollout exits 0 only when none of its calls failed, and exits 1 only when none failed (a guard stopped it) or the last call failed at a position the plan puts inside a handler: a checkout or pull inside a stage handler or the push of base |
| PbgitModel.FailedCallOutcome | pbgit.py:26-91 | when the last call of a rollout failed, it is the plan's call at its position, and the rollout exits 1 exactly when the plan puts that call inside a handler (a checkout or pull inside a stage handler or the push of base) and ends uncaught otherwise: the fetch, the merges, the pushes of pp and prod (also when one of them is named like base) and the checkouts of base outside the base stage |
| Pbgit.UpdateBranch | pbgit.py:61-67 | the guarded checkout and pull on the handle as the model describes |
| Pbgit.Rollout | pbgit.py:12-91 | the inline command on the handle; outcome and final handle are the model's |
| Variants.UnopenableAgrees | pbgit_chatgpt_further_refactored.py:136-138 | all four revisions exit 1 with no git call when the repository cannot be opened |
| Variants.BareRepositoryDiffers | pbgit_chatgpt_further_refactored.py:142 | on a bare repository the further-refactored revision exits 1 after the recovery checkout, the other three exit 0 with no call |
| Variants.DirtyTreeDiffers | pbgit_chatgpt_further_refactored.py:161-164 | on a dirty tree all revisions exit 1, but only the further-refactored one makes a call, the recovery checkout |
| Variants.FalsyRemoteDiffers | pbgit.py:42-50 | a falsy remote stops the further-refactored and refactored revisions before any fetch, while the refined revision and pbgit.py fetch it |
| Variants.SkipProductionEndsDiffer | pbgit_chatgpt_refined.py:88-89 | with production skipped, a run that exits 0 ends on base in the further-refactored revision and pbgit.py, on pp in the refined and refactored revisions |
| Variants.SkipProductionSparesProd | pbgit_chatgpt_further_refactored.py:151-155 | with production skipped and distinct branch names, no call of a complete further-refactored run touches the production branch |
| Variants.RefinedSkipSparesProd | pbgit_chatgpt_refined.py:88-89 | the same for the refined revision |
| Variants.RefactoredSkipSparesProd | pbgit_chatgpt_refactored.py:85-86 | the same for the refactored revision |
| Variants.PbgitSkipSparesProd | pbgit.py:74-76 | the same for pbgit.py |

## Left out

- The behaviour of git itself is not modelled: commits, what fetch, pull, rebase, merge and push do to history, `is_dirty`, `untracked_files`, and tracking refs. Each call is recorded in the trace, and its success comes from the oracle.
- Python truthiness of returned objects is two oracle flags: whether the Remote object is truthy, and whether `fetch()` returns a non-empty list.
- Typer's argument parsing and the working-directory option with its current-directory default are not modelled. Whether the directory opens as a repository is an oracle flag.
- Printed text is not modelled: messages and the verbose narration.
- The verbose `active_branch` narration of `pbgit.py` (line 36) is not modelled, and neither is its error path. On a detached HEAD, `repo.active_branch` raises a TypeError outside every handler, so a verbose run ends uncaught before the dirty check. The model has no detached-HEAD state, so the rollout of `pbgit.py` is the non-verbose one.
- The command's outcome is abstracted: `exit()` and `typer.Exit` become exit codes, and an exception that escapes becomes `Uncaught` rather than Python's traceback and exit status.
- A failed `set_tracking_branch` lookup, and a `repo.remote(name)` of an unknown remote, are modelled as a non-git lookup error. The further-refactored loop turns either into a failed step.
- A successful checkout of a branch known only on the remote leaves a local head of that name, as git does.
- `git.Repo` on a missing directory raises NoSuchPathError, a GitError subclass. It is modelled as "cannot be opened".
- Running the rollout twice in a row with the same final state is not modelled. That idempotence needs real commit semantics.
- `test_rollout.py` builds real repositories on disk and is not part of this model. It also expects two messages that the further-refactored revision, the one it imports, does not print.
- The property "with production skipped, production is untouched" is stated on each revision's success trace (`Variants.SkipProductionSparesProd` and the three lemmas after it). It is not restated on the rollout itself. Each revision's `RolloutSucceedsIff` equates a complete run's trace with that success trace.
