# fioup: update pipeline, daemon, event queue and version table

A Dafny model of the fioup update agent and proofs about it. Fetch, install, start, update and cancel
are fixed lists of stages over one persisted update record; any run may fail, or its process may die,
between any two steps, and the next run, possibly of another action, goes on from the record. Around
them stand the daemon that polls for targets, the durable queue of events, the table of installed
versions, and the arithmetic on blobs.

`dafny verify dfyconfig.toml` checks everything.

## How it is modelled

* **Effects.** A run leaves a list of effects: creation of an update, runner calls and what they persist,
  events, stopping apps, cancellation (`Runner.dfy`). A process that dies leaves a prefix of the list. A
  history is any sequence of runs, whole or cut short, and cancellations, with any environment answers.
  The main safety results hold for every history (`Histories.dfy`, `Safety.dfy`, `Grammar.dfy`). What a run
  answers is told from its effects (`Outcomes.dfy`), what Check answers from its causes (`Answers.dfy`).
* **Two forms of the stages.** `Stages.dfy` says as functions what each stage computes from the context,
  the recorded updates and the answers of the environment. `UpdateContext.dfy` and `Api.dfy` are the
  program's form: objects whose fields the stages assign, loops over apps and stages, a store that changes
  step by step. Each method is proved to do exactly what its function says, effects included.
* **Favourable runs.** `GoodRuns.dfy` gives the result of a run in closed form when the environment
  co-operates, for `Stepwise.dfy` (three actions against one), `Completion.dfy` (success reported twice),
  `Convergence.dfy` and `Limits.dfy` (the daemon).
* **Concurrency.** The event sender is a state machine over the steps of one calling thread and of the
  workers it has started (`EventSender.dfy`, `FlushRequests.dfy`). The table under it is a class (`EventTable.dfy`).
* `done` in `Runner.Update` and `from` in the event queue's worker are history variables: nothing the model
  does depends on them.

## What is assumed

The composeapp library is not part of this model. `Runner.dfy` states its contract:

* An operation called in one of its two legal stages may refuse and change nothing, or record that it runs
  and then succeed, fail and stay in that stage, or fail and move the update to Failed. Called anywhere else
  it returns an error and changes nothing.
* The order is Created/Initializing, Initialized/Fetching, Fetched/Installing, Installed/Starting,
  Started/Completing, Completed. The app list of an update is recorded when Init takes it out of Created.
* The current update is the newest one if it has not ended; a new update is only made when there is none.
  The failed updates of a target are those recorded as Failed under its ID. Creating an update succeeds.
* A start that fails for good moves the update to Failed, as test/integration/daemon_test.go:64-69 relies on.

Of SQLite: a new row of the event table gets the highest id plus one, a `SELECT` with `LIMIT` and no order
reads in id order, a single statement is atomic. JSON text is a lossless copy. An HTTP error status counts as
taken by the gateway, since the sender returns no error for it (internal/events/event_sender.go:86-94).

## What came out

Properties that fail, each with its exact condition and an input on which it fails:

* A completion attempt that moves the update to Failed is followed by further calls of the runner on an update
  that has ended. No other call is out of place (`Completion.ActIsLegalIff`, `Completion.RunCanBeIllegal`).
* A process that dies between the creation of an update and Init leaves a record with no apps. The run that
  resumes it installs none of the target's apps and completes (`Decisions.ResumedCreationRecordsNothing`,
  `Decisions.ResumedCreationRecordsAppsIff`, `Decisions.DeathAtCreationLosesApps`).
* The attempt limit is not looked at for the target that the daemon falls back to. If that target fails to start,
  the daemon tries it again without waiting and without end, unless it is the current target and in sync: that goes
  for the current target itself when its status is bad or cannot be read, and for another target listed under the
  current one's version (`Daemon.PollExceedsIff`, `Limits.FallbackFailsForeverIff`, `Limits.CurrentFailsForever`).
* When the latest target has used its attempts up, no current target is known and the app status cannot be read, the
  daemon installs the unknown target. No current target is known on a device that has never installed one, and just
  as well when the record of the last successful update cannot be read or resolved. In the second case one unreadable
  poll is enough to lose the current target: the unknown target is then the last one completed
  (`Limits.UnknownIsInstalledIff`, `Limits.NoCurrentTargetIff`, `Limits.UnknownIsInstalled`, `Limits.CurrentIsLost`).
* The daemon settles on its current target if and only if no disabled app of it has the URI of an enabled one: apps
  are recorded by URI and selected by name. Otherwise every poll synchronizes again, whatever statuses it reads
  (`Convergence.ConvergesIff`, `Convergence.NeverSettles`, `Limits.SharedUriNeverSettles`).
* A poll does nothing, and does not cancel either, as long as the target of the update in progress can be neither
  found nor rebuilt from its record. The daemon then stands still for good (`Limits.StandsStillIff`,
  `Limits.StandsStill`).
* A target that failed and later succeeded is still said to be failing if another target was saved in between, and
  one that succeeded is as soon as it is started again after another one (`InstalledVersions.FailingAfterIff`,
  `InstalledVersions.SuccessClearsIff`, `InstalledVersions.SuccessfulYetFailing`).

One property holds only as far as its condition says: success of one update is reported once, and by a later run
again if and only if all completion attempts of the run that reported it failed without failing the update
(`Completion.SuccessIsRepeatedIff`).

Where the code and its comments differ the model follows the code. The comment in Stop speaks of the installing
state among those that need no stopping, the code stops apps in it (pkg/state/stop.go:27-30). The comment in
`getSyncTarget` speaks of the current target, the code takes the first listed target of its version
(pkg/state/check.go:205-211). The log line on attempts speaks of the latest target also when the current one was
asked for (pkg/state/check.go:183-191).

## Model

| member | source | states |
|---|---|---|
| Histories.RunIsWellPlaced | pkg/api/update_runner.go:96-111 | Any stage list that keeps the order Check, Init, Fetch or Stop, Install, Start makes only legal runner calls and sends each event, under the update's own target, when exactly that much has been done |
| Histories.ActionsAreOrdered | pkg/api/start.go:16-35 | The lists of update, fetch, install and start all keep that order |
| Histories.InstallIsSafeIff | pkg/state/install.go:27-37 | On an initialized update Install is well placed if and only if the download has finished, since it has no guard of its own |
| Histories.InstallNeedsAGuard | pkg/api/install.go:28-31 | Either Fetch or Stop between Init and Install gives that guard, and without both the order is broken |
| Decisions.UnguardedInstallIsIllegal | pkg/state/install.go:28-37 | A run of Check, Init and Install alone calls the runner too early on every update whose download has not finished |
| Decisions.UnguardedInstallFails | pkg/state/install.go:28-37 | An update on which that happens |
| Histories.StopLeaves | pkg/state/stop.go:26-34 | Stop changes no update and lets only updates through whose download has finished, the lower bound that Install itself lacks |
| Histories.InstallLeaves | pkg/state/install.go:27-50 | After Stop, Install calls the runner only where it may, and success leaves an installed update |
| Histories.StartLeaves | pkg/state/start.go:29-56 | Start and the completion attempts are well placed from every stage, its failures included |
| Histories.CompleteLeaves | pkg/state/start.go:58-89 | The completion attempts end as the first attempt that completes or fails the update, and do nothing to it afterwards |
| Safety.OperationsInOrder | pkg/state/init.go:31-44 | Over every history the operations that succeed on an update are exactly the next ones of Init, Fetch, Install, Start, Complete; nothing is redone or skipped, and it is Completed exactly when all five are done |
| Safety.NeverBackwards | pkg/state/fetch.go:35-65 | Between any two moments of any history an update keeps its target and its recorded apps, its stage moves only forward or into Canceled or Failed, and never out of a final stage |
| Safety.CallsAreLegal | pkg/state/install.go:28-37 | Every runner call of every history is made in a legal stage of the newest update, but for one kind: completion after an attempt that failed the update |
| Safety.RetryIsIllegalIff | pkg/state/start.go:58-89 | That illegal call happens if and only if an attempt other than the last fails the update before one succeeds |
| Safety.RetryCanBeIllegal | pkg/state/start.go:58-89 | A series of attempts for which it happens |
| Safety.OneTargetPerUpdate | pkg/state/state.go:118 | All events of one update over all runs name the target it was created for |
| Safety.EventsNeverGoBack | pkg/state/start.go:54 | Crashes included, the events of one update never go back from download to initialization, from installation to download, or from a reported success to anything else |
| Grammar.EventsFollowGrammar | pkg/state/init.go:38-50 | When every run ends by itself the events of an update follow the grammar (started, completed with failure)* started, completed, stage after stage, and between runs they agree with the operations done |
| Grammar.CompletionRepeatsIff | pkg/state/start.go:58-89 | A series of completion attempts leaves its update open exactly if each of them fails without failing the update |
| Completion.StartLeavesOpenIff | pkg/state/start.go:29-56 | So does a successful Start stage, which then leaves the update in a stage of completion |
| Completion.SuccessIsRepeatedIff | pkg/state/start.go:54-89 | After a run that has reported success for an update, some later history reports it again if and only if all completion attempts of that run failed without failing the update |
| Completion.HistoryIsSilent | pkg/state/state.go:107-121 | No event is sent for an update that has ended, over any later history, crashes included |
| Completion.NextRunReports | pkg/state/start.go:29-56 | An update left open by its completion is reported successful by the next update run that goes well |
| Completion.StartCallsAreLegalIff | pkg/state/start.go:29-89 | A successful Start stage calls the runner in legal stages only, if and only if no completion attempt but the last fails the update before one succeeds |
| Completion.ActIsLegalIff | pkg/state/start.go:58-89 | A run of any action does so unless it reports success after such an attempt |
| Completion.RunCanBeIllegal | pkg/state/start.go:58-89 | An update run that does not |
| Outcomes.ActTells | pkg/api/update_runner.go:96-106 | The error of a run past Check is the one its effects tell: by the stage whose failure the last event reports, and the operations called before it; a run that does not get past Check has no effects |
| Outcomes.StopDecides | pkg/state/stop.go:66-83 | A run answers that stopping failed if and only if apps were stopped and that failed; the report of the failure is then the next and last effect and nothing is installed, and if it succeeded the installation is called for |
| Outcomes.NowaitIff | cmd/fioup/daemon.go:193-206 | A poll asks for the next one at once if and only if it has canceled an update or its effects end in the report that the apps could not be started |
| Outcomes.ActKnowsStatus | pkg/state/start.go:43-47 | After a run the context has the status read at the end of the installation, if its end was reported and the status could be read, and else the one that Check left |
| Outcomes.FetchKnowsUsage | pkg/state/fetch.go:41-64 | After Fetch the context has the last storage usage that could be read, with the requirement only if nothing was read since, and knows whether there was nothing to fetch |
| Outcomes.StartKnowsUsage | pkg/state/start.go:49-52 | After Start it has the usage read then |
| Stepwise.StepwiseIsOneShot | pkg/api/install.go:14-33 | Fetch, then install, then start leaves the same records and sends the same events as one forced update, from nothing in progress, when all goes well |
| Stepwise.ResumeCompletes | pkg/api/update.go:106-126 | One update run that goes well takes an update in progress with a resolvable target from whatever stage to Completed, with the app list it had recorded, unless the latest target is insisted on and is another one |
| Stepwise.OneShot | pkg/api/update.go:106-126 | A forced update that goes well adds one completed record with the enabled apps of the selected target and sends seven events |
| Stepwise.FetchOnly | pkg/api/fetch.go:13-27 | A fetch that goes well leaves one fetched record of that target and four events |
| Stepwise.InstallOnly | pkg/api/install.go:14-33 | An install run takes an update from Fetched and from Installing to Installed and sends the two installation events |
| Stepwise.StartOnly | pkg/api/start.go:14-36 | A start run takes an update from each of Installed, Starting, Started and Completing to Completed and reports success once |
| Stepwise.FetchResumes | pkg/api/fetch.go:13-27 | A fetch run takes an update in progress to Fetched and leaves one alone that has got so far |
| GoodRuns.StartFails | pkg/state/start.go:29-43 | When only the start fails a new update ends as one Failed record with its apps, and the error says so |
| GoodRuns.ResumedStartFails | pkg/state/start.go:29-43 | When only the start fails an update in progress whose apps have not been started ends as Failed, from whatever stage |
| GoodRuns.ResumedCompletes | pkg/state/start.go:31-40 | An update whose apps have been started is completed without starting them again |
| GoodRuns.RunInParts | pkg/api/update_runner.go:96-111 | Running two stage lists one after the other is running their concatenation, if the first ends without error |
| Decisions.NoUpdateIff | pkg/state/check.go:136-141 | Check answers that there is no update if and only if it is a new unforced sync, no app is added, removed or updated, the status is readable and every target app is fetched, installed and running |
| Answers.ErrorsOfCheckIff | pkg/state/check.go:58-124 | Each error of Check comes from one cause, stated in terms of the environment and the records |
| Answers.NewTargetIs | pkg/state/check.go:170-201 | A new update is for the version asked for, the current target or the latest one, and for the current one when failures are limited and used up |
| Answers.SyncTargetIs | pkg/state/check.go:205-216 | The current target is the first listed one of its version, and the known one if none is listed |
| Answers.SyncCompletes | pkg/api/update.go:106-126 | A forced update of the current target that goes well completes its listed and enabled apps |
| Answers.StatusIsReadIff | pkg/state/check.go:232-247 | The status is read exactly for a new unforced sync, unless its lists differ and nothing stays as it is |
| Answers.ResolvesIff | pkg/state/check.go:319-333 | An update resolves if and only if its target is listed, or its ID has a version and all its apps are known |
| Decisions.ListsAgreeIff | pkg/state/check.go:278-295 | No difference is found if and only if the new list has distinct names and holds exactly the apps that count in the old one, name and URI |
| Decisions.InstallAndStartAreGuarded | pkg/state/check.go:58-79 | Install and start do nothing outside their own stages, and say why; Stepwise.InstallOnly and Stepwise.StartOnly are the other direction |
| Stopping.StopHasStatus | pkg/state/check.go:232-252 | A new sync that goes ahead with a non-empty sync list and a readable status reaches Stop with that status |
| Stopping.StopsExactlyIntended | pkg/state/stop.go:38-72 | Stop stops exactly the intended apps, and never by the empty list that means all |
| Stopping.RunStopsExactly | pkg/state/stop.go:34-72 | Over a whole run of any action: if an installation starts, the apps stopped are by name and URI all of the current target for a version change or forced update, else those whose name the target drops and those that stay but are not known to be healthy; if none starts, nothing is stopped |
| Decisions.FetchesIffItFits | pkg/state/fetch.go:39-61 | The runner is asked to fetch if and only if the download has not finished and the required total of the 64-bit arithmetic fits or usage could not be read; for recorded blobs below 2^64 bytes that is the true total |
| Decisions.RequestedVersionKept | pkg/state/check.go:145-200 | A run past Check has the version that was asked for, and a resumed one the target ID of the update in progress |
| Decisions.TargetIsRebuilt | pkg/state/check.go:377-391 | A target whose ID ends in its version is rebuilt whole from the record of its update once it has left the list |
| Decisions.CreationRecordsApps | pkg/state/init.go:30-42 | A run that creates its update records exactly the enabled apps of its target |
| Decisions.InitIsGivenApps | pkg/state/init.go:30-42 | The runner is given the apps of the target when it initializes an update just created, and none when it goes on with that |
| Decisions.ResumedCreationRecordsNothing | pkg/state/check.go:319-324 | A run that resumes an update before its Init records an empty app list |
| Decisions.ResumedCreationRecordsAppsIff | pkg/state/check.go:319-324 | Which is what the listed target asks for if and only if it asks for none |
| Decisions.DeathAtCreationLosesApps | pkg/state/init.go:26-36 | A history in which this happens: one run dies after creation, the next completes the update with no apps |
| Decisions.WholeRunRecordsApps | pkg/state/init.go:26-36 | The same run without the death records the app |
| Targets.DiffSplits | pkg/target/target.go:153-175 | The difference sorts the apps by name and URI into added, removed, unchanged, and pairs of an old and a new app of one name; of a repeated name the last old and the first new app count, later new ones are added |
| Targets.WalkInOrder | pkg/target/target.go:158-170 | The lists of the difference keep the order of the new list |
| Targets.LatestIsHighest | pkg/target/target.go:189-195 | The latest target is listed and no listed target within the limit has a higher version |
| Targets.FirstHighestIsLatest | pkg/target/target.go:189-195 | Of several targets of the highest version within the limit the first one is the latest |
| Targets.FirstVersionIsFound | pkg/target/target.go:198-205 | Looking a version up finds the first target of that version |
| Targets.FirstIdIsFound | pkg/target/target.go:207-214 | Looking an ID up finds the first target of that ID |
| Targets.VersionIsReadBack | pkg/state/check.go:408-419 | A version written in decimal after the last dash of an ID is read back, whatever dashes precede it |
| Targets.VersionIff | pkg/state/check.go:408-419 | What follows the last dash is a version if and only if it is a decimal number of 64 bits, with or without a plus |
| Targets.ParsesIff | pkg/state/check.go:393-406 | An app list is read if and only if each of its URIs is, and then app by app |
| Targets.KeepsInOrder | pkg/target/target.go:79-122 | Shortlisting by name or URI keeps the order |
| Targets.KeepUris | pkg/target/target.go:103-122 | Exactly the apps whose URI is listed stay, none for an empty list |
| Daemon.Updater.CheckUpdates | cmd/fioup/daemon.go:180-208 | One poll: the update run, then cancellation or the decision not to wait, as the specification of an iteration says |
| Daemon.Updater.DoDaemon | cmd/fioup/daemon.go:117-130 | The loop, for any number of rounds: what is stored is the run of its polls, each with the configuration read last, and it sleeps once for each poll that does not ask to go on at once |
| Daemon.AsleepCountsIff | cmd/fioup/daemon.go:117-130 | A configuration read while the daemon would sleep counts from the next poll on if it does sleep, and not at all if it goes on at once |
| Daemon.PollCancelsIff | cmd/fioup/daemon.go:193-201 | A poll cancels the update in progress if and only if its target resolves and is not the latest; it does nothing else then, and nothing is in progress afterwards |
| Daemon.StandstillPoll | pkg/state/check.go:145-151 | A poll rejects the update in progress as invalid, does nothing and does not cancel it, if and only if its target is neither listed nor can be rebuilt |
| Limits.StandsStillIff | cmd/fioup/daemon.go:193-206 | All polls do that if and only if it holds for the first one |
| Limits.StandsStill | pkg/state/check.go:408-419 | An update that stops the daemon: its ID has no version and it is not listed |
| Decisions.CreatesFirst | pkg/state/check.go:170-194 | A run creates an update exactly if Check passes with none in progress, as its first effect, one only, for the target selected |
| Daemon.PollSelects | pkg/state/check.go:177-193 | A poll with nothing in progress is for the latest target until that has failed as often as allowed, then for the fallback |
| Daemon.PollPassesIff | pkg/state/check.go:121-141 | With nothing in progress a poll creates an update if and only if targets load, there is a latest one, and the chosen target is not the current one in sync |
| Daemon.AttemptBound | pkg/state/check.go:183-194 | Along every daemon run, with any lists, deaths and cancellations, the failed updates to a target and the one in progress never exceed the limit, if no poll creates an update to it when its attempts are used up |
| Daemon.OnlyFallbackExceeds | pkg/state/check.go:183-194 | No poll that can count failures does so for a target other than the one it would fall back to |
| Daemon.OthersAreBounded | cmd/fioup/daemon.go:181-203 | So the bound holds along every run for a target that is never the one to fall back to |
| Daemon.PollExceedsIff | pkg/state/check.go:189-192 | A poll exceeds the limit for a target if and only if there is something to create, that target is chosen, and its attempts are used up |
| Convergence.Converges | cmd/fioup/daemon.go:117-129 | From k failures of a latest target that cannot start, the polls are exactly limit minus k failing runs without waiting, then at most one sync run, and otherwise find nothing to do, for every sequence of truthful statuses |
| Convergence.NeverSettles | pkg/state/check.go:125-141 | When a disabled app shares its URI with an enabled one, every poll after the failing runs synchronizes, for every sequence of statuses |
| Convergence.ConvergesIff | pkg/state/check.go:125-141 | So in every run of at least two polls more than there are attempts left, the daemon, reading truthful statuses, settles if and only if no disabled app shares its URI with an enabled one |
| Convergence.FirstPoll | cmd/fioup/daemon.go:180-206 | What a poll does with an update in progress: nothing if its target cannot be resolved, cancel it if it is not for the latest target, else complete it if its apps have been started, and fail to start them if not |
| Convergence.ConvergesFromProgress | cmd/fioup/daemon.go:180-206 | From an update in progress that resolves, and has not started the latest target, one poll leads to nothing in progress without waiting, and the daemon converges from there |
| Limits.SteadyWorldExists | test/integration/daemon_test.go:60-76 | The assumptions of the convergence theorem can be met |
| Convergence.FailingPoll | cmd/fioup/daemon.go:201-204 | Below the limit a poll fails to start the latest target, asks for the next poll at once and adds one failure |
| Convergence.SyncPoll | pkg/state/check.go:189-192 | At the limit a poll leaves everything alone if the current target is in sync, and otherwise completes it |
| Convergence.SettledPollIff | pkg/state/check.go:125-141 | Once settled a poll finds nothing to do if and only if no disabled app shares its URI with an enabled one |
| Limits.FallbackFailsForever | pkg/state/check.go:183-194 | A fallback target that has to be installed and fails to start fails once more in every poll, without waiting, however often |
| Limits.FallbackFailsForeverIff | pkg/state/check.go:183-194 | At the limit, with starts that fail, all polls fail without waiting if and only if the fallback is not the current target in sync |
| Limits.CurrentFailsForever | cmd/fioup/daemon.go:201-204 | The current target itself, with unreadable status, on which this happens |
| Limits.UnknownIsInstalledIff | pkg/state/check.go:183-215 | A poll goes on with the unknown target if and only if the latest one has used up its attempts, the fallback is the unknown one, and that is not known to be in sync |
| Limits.UnknownIsUpToDateIff | pkg/state/check.go:232-248 | The unknown target is known to be in sync if and only if the status can be read |
| Limits.NoCurrentTargetIff | pkg/state/check.go:297-317 | There is no current target if and only if the last successful update cannot be read, does not exist, or resolves neither from the list nor from its record |
| Limits.LostForever | pkg/state/check.go:183-215 | As long as no status is read every further poll completes the unknown target once more |
| Limits.UnknownIsRemembered | pkg/state/check.go:297-317 | Once it is the last one completed no current target is known, whatever is read later |
| Limits.CurrentIsLost | pkg/state/check.go:297-317 | A device that loses its current target this way, in one poll that cannot read the last successful update |
| Limits.UnknownIsInstalled | pkg/state/check.go:183-193 | A device on which this happens, and the completed record it leaves |
| Limits.SharedUriNeverSettles | pkg/state/check.go:125-141 | A daemon that synchronizes in every poll, although it has completed its current target: a disabled app has the URI of an enabled one |
| UpdateContexts.UpdateContext.ExecuteCheck | pkg/state/check.go:53-143 | Check as field assignments and early returns ends in the context and error of its specification |
| UpdateContexts.UpdateContext.SelectToTarget | pkg/state/check.go:145-203 | Selection assigns the target and returns the error of its specification |
| UpdateContexts.UpdateContext.IsTargetInSync | pkg/state/check.go:232-276 | With its early exits it answers the plain question: do the lists agree and is every app of the target healthy |
| UpdateContexts.UpdateContext.CheckAppDiff | pkg/state/check.go:278-295 | The nested loop detects a change exactly if one of the three lists is not empty |
| UpdateContexts.UpdateContext.ExecuteInit | pkg/state/init.go:24-55 | Init as it runs: creation, runner call and events as specified, from a new or a resumed update |
| UpdateContexts.UpdateContext.ExecuteFetch | pkg/state/fetch.go:33-67 | Fetch as it runs: space check, runner call and events as specified |
| UpdateContexts.UpdateContext.ExecuteStop | pkg/state/stop.go:25-84 | Stop as it runs: state guard, events and stopped apps as specified |
| UpdateContexts.UpdateContext.ChooseAppsToStop | pkg/state/stop.go:38-64 | The appending loop chooses the apps that the specification lists, in that order |
| UpdateContexts.UpdateContext.ExecuteInstall | pkg/state/install.go:27-51 | Install as it runs: state guard, runner call and one event by its outcome |
| UpdateContexts.UpdateContext.ExecuteStart | pkg/state/start.go:29-56 | Start as it runs: guard, start unless already started, completion, status and usage readings, event |
| UpdateContexts.UpdateContext.CompleteUpdate | pkg/state/start.go:58-89 | Four attempts in turn, up to the first success |
| Api.UpdateRunner.Run | pkg/api/update_runner.go:94-112 | The loop runs the stages up to the first error, and the stage number tells how far it got |
| Api.CancelUpdate | pkg/api/cancel.go:13-19 | Cancel ends the update in progress, if there is one, and reports its target |
| FreeSpace.RequiredBytes | pkg/state/fetch.go:69-81 | The loop, wrapping at 64 bits signed, and the unsigned conversion give the true total modulo 2^64 |
| FreeSpace.AlignIsLeast | pkg/state/fetch.go:75 | The rounded size is the least number of whole blocks that holds the size |
| FreeSpace.NeverNegative | pkg/state/fetch.go:74-79 | On recorded blobs the total is at least the run-time sizes, and equal to them once all is fetched |
| FreeSpace.NeverGrows | pkg/state/fetch.go:74-79 | Fetching more never raises the total |
| FreeSpace.RequirementIsTrue | pkg/state/fetch.go:80-84 | The comparison with the available space is the true one for totals below 2^64, and the total is misread above |
| EventTables.EventTable.GetEvents | internal/events/event_db.go:91-141 | The loop returns the first six events in id order and the id of the last of them |
| EventTables.EventTable.FlushEvents | internal/events/event_sender.go:96-118 | A flush posts the first six events and removes exactly those if the delete succeeds, and nothing otherwise |
| EventTables.DeletesTheBatch | internal/events/event_db.go:83 | Deleting up to the highest id of a batch read earlier removes exactly that batch, whatever was inserted since |
| EventTables.IdsStartAgain | internal/events/event_db.go:34 | An id is used again once the table has been emptied |
| EventTables.DrainsInOrder | internal/events/event_db.go:105-134 | k successful flushes post the first 6k events in order and leave the others, none if there are no more |
| EventTables.EventTable.Drain | internal/events/event_sender.go:141-156 | k flushes of the worker's loop in a row do this |
| EventSenders.NoEventLost | internal/events/event_sender.go:96-118 | After every interleaving of calls and worker steps, with failing posts and deletes, restarts and deaths, each saved event is in the table at its place or is in a batch that the gateway took |
| EventSenders.FailureLeavesAll | internal/events/event_sender.go:96-118 | A read, post or delete that fails ends the flush and leaves the table and what was sent as they are; so do a save that fails and the death of the process |
| EventSenders.ExactlyOnce | internal/events/event_sender.go:96-118 | If no delete fails and no process dies between post and delete, the posted batches in a row are a beginning of the enqueued events, each once |
| EventSenders.SavedAreEnqueued | internal/events/event_sender.go:174-204 | The saved events of a run are those enqueued without error, in order |
| EventSenders.UninterruptedFlush | internal/events/event_sender.go:96-118 | The three critical sections of a worker, uninterrupted, do what the sequential flush does |
| EventSenders.NeverStuck | internal/events/event_sender.go:129-172 | While a call, a flush request or a flush is under way some step of the sender or its worker is enabled |
| EventSenders.InternalStepsEnd | internal/events/event_sender.go:140-157 | In every schedule these steps are bounded in number by the load, plus four for each tick |
| EventSenders.CallsReturn | internal/events/event_sender.go:160-172 | At most one worker exists; a flush request and a Stop return in every schedule run to its end, however often the timer fires; after Stop no worker is left and what has not been deleted is still in the table |
| FlushRequests.RequestIsCarriedOut | internal/events/event_sender.go:145-149 | When a schedule in which the worker takes a flush request is run to its end, with flushes that succeed, a whole batch more has been posted and deleted, or all there was |
| FlushRequests.EnqueueIsCarriedOut | internal/events/event_sender.go:174-204 | An event saved while the sender runs leads to such a request, so that a whole batch more is gone in the end, or every event up to this one |
| FlushRequests.FlushIsCarriedOut | internal/events/event_sender.go:206-212 | So does a request to flush |
| FlushRequests.StopFlushesFirst | internal/events/event_sender.go:160-172 | A stopped sender can be started and stopped with one flush in between: Stop asks for a flush before it asks the worker to end |
| InstalledVersions.InstalledVersionsTable.Save | internal/targets/target_db.go:143-236 | The bulk writes, whole or cut short, as specified, with the choice of update or insert made from the newest row; a scan that fails goes unnoticed and leads to an insert |
| InstalledVersions.InstalledVersionsTable.GetCurrentTarget | internal/targets/target_db.go:103-141 | The scan returns the stored description of a row marked current, or the empty target |
| InstalledVersions.InstalledVersionsTable.IsFailingTarget | internal/targets/target_db.go:75-101 | A target is failing if and only if some row of its name was not installed, and never when the scan fails, which goes unnoticed |
| InstalledVersions.OneCurrentOnePending | internal/targets/target_db.go:157-236 | In every reachable table all current rows share one name and all pending rows share one name |
| InstalledVersions.NamesRepeat | internal/targets/target_db.go:164-190 | Although several rows may bear one name |
| InstalledVersions.InsertsIff | internal/targets/target_db.go:157-232 | A save inserts a row exactly if it does not see its target's row as the newest one, be it that the scan failed |
| InstalledVersions.CurrentFollows | internal/targets/target_db.go:178-236 | The current target becomes the one that succeeded, none when it is started again while its row is the newest or a success is cut short, and changes in no other way |
| InstalledVersions.CurrentSurvives | internal/targets/target_db.go:103-141 | It outlives every series of starts of other targets and of failures |
| InstalledVersions.FailingStays | internal/targets/target_db.go:192-213 | After a failure a target stays failing through every series of calls without a success of it |
| InstalledVersions.FailingAfterIff | internal/targets/target_db.go:192-232 | Whether a target is failing after a call of any kind, whole or cut short, in terms of the table before it |
| InstalledVersions.NotFailingStays | internal/targets/target_db.go:204-211 | A target that is not failing stays so through calls for other targets, successes, and starts of it while its row is the newest |
| InstalledVersions.StartedAgain | internal/targets/target_db.go:204-211 | A target that succeeded and is started again is not failing |
| InstalledVersions.PendingAfterIff | internal/targets/target_db.go:178-232 | Which rows are pending after a call of any kind |
| InstalledVersions.CorrelationFollows | internal/targets/target_db.go:204-232 | The newest row bears the correlation of the last start or success, and no other call changes one |
| InstalledVersions.SuccessClearsIff | internal/targets/target_db.go:192-232 | A success ends the failing state if and only if the newest row is seen to be the target's or no row of it was failing |
| InstalledVersions.SuccessfulYetFailing | internal/targets/target_db.go:75-101 | A series of calls after which the current target is said to be failing |
| DiffReports.AppBlobs | pkg/api/diff.go:155-174 | The map holds exactly the digests of the apps' trees, each with the last node that has it |
| DiffReports.InfoIs | pkg/api/diff.go:159-167 | A blob takes the least number of whole blocks in the store, and what the app adds at run time |
| DiffReports.OneMoreBlob | pkg/api/diff.go:113-116 | One blob more adds its size to the wire size, and its store and run-time sizes to the disk size |
| DiffReports.DiffReport.constructor | pkg/api/diff.go:108-120 | In whatever order the map is walked, sizes are the sums over the new digests, wrapped at 64 bits signed, and each of these is in the group of its locator once |
| DiffReports.DiffReport.BlobCount | pkg/api/diff.go:125-131 | The count is the sum of the group sizes in whatever order |
| DiffReports.Diff | pkg/api/diff.go:92-123 | The report of two app lists, with as many blobs as there are digests in the target and not in the source |
| DiffReports.DiskHoldsWire | pkg/api/diff.go:115-116 | The true disk size is at least the true wire size, and is reported as it is if and only if it fits 64 bits signed |
| DiffReports.Detour | pkg/api/diff.go:113-119 | Going from a to c through b costs the direct download plus exactly what b needs in vain and what b drops |
| DiffReports.Triangle | pkg/api/diff.go:113-119 | The triangle inequality for wire sizes |

## Left out

- HTTP, certificates, proxies, system information, registration, configuration files, the command line and file locks.
- Loading and checking target lists (plain and TUF repositories): a run is given the lists it loads, or their failure.
- The outcome of opening the database, creating the gateway client or the sender at the beginning of a run.
- The event for a metadata update, with its own correlation id; event details, times and identifiers.
- The failure of creating an update in Init (pkg/state/init.go:26-28): creation succeeds.
- Progress and state handlers, sizes and times that are only displayed.
- The daemon's signals, how its configuration changes and how long it sleeps: its loop runs for any finite number of rounds.
- Which two targets the difference report is about (pkg/api/diff.go:60-90), and the walk of an app tree failing.
- Convergence.ConvergesFromProgress: not from an update that has started the latest target, which contradicts that its start fails; Convergence.FirstPoll says that it is completed.
- Convergence.Converges: asks that apps just completed are reported healthy, which the environment must provide.
- Targets.Diff: lists removed apps in the order of the old list, the program in that of a map; nothing here depends on it.
- Targets.Atoi: texts with a minus sign cannot follow the last dash and are not read.
- EventTables.Inserted: ids are unbounded; what SQLite does beyond 2^63 rows is not modelled.
- InstalledVersions.InstalledVersionsTable.Save: the columns that are always the same are left out.
