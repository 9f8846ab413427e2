# A model of the Deadline worker agent

The AWS Deadline Cloud worker agent takes work from a scheduling service, runs it in sessions, reports
what became of it, and streams the logs. This project models its hardest parts in Dafny and proves
what they promise.

- **The session-action protocol** (`actions`, `lifecycle`, `session_queue`, `session`,
  `session_promises`, `scheduler`, `protocol*`, `environment_*`). `protocol.dfy` is a state machine of one scheduler, its service and
  any number of sessions. A step is one critical section of the action-update lock (collect, commit,
  assign, give back, start, callback, the report of a cleanup), one of the steps that the cleanup takes
  without the lock when it cancels the queue (list, pop, remove), or one move of the environment (serve,
  lose a request or its reply, stop). Runs are arbitrary sequences of enabled steps, so results hold for
  every interleaving. The service is a contract: it appends assignable actions with new ids and answers with
  those it does not know to be completed. The runtime is one: a started action yields RUNNING callbacks
  with increasing times and then one terminal callback. `environment_stack.dfy` adds that the service,
  going by its own older view, issues ENV_EXITs innermost first.
- **The objects of the protocol** (`scheduler_class`, `session_queue_class`, `session_class`): the
  scheduler's map, the queue and the session as classes that change in place, each method proved equal
  to the function of the state machine. Answers of the job entities, the runtime and the clock are
  parameters. A ghost log in the scheduler records every report in order. `queue_cancelation.dfy` is the
  cancelation of a queue without the lock, as a function of the assignments that fall into it.
- **The locks** (`lock_order`): threads made of the critical sections, one lock operation at a time.
- **The log pipeline** (`greedy_split`, `utf8`, `log_chunks`, `log_batch`, `log_collector`, `log_rate`,
  `log_rate_five`, `log_stream`): UTF-8 chunking, the two deques, batches, the stable sort, the throttle,
  the retries and the run loop. Arrivals are functions of the turn, so another thread may emit anything
  before any turn.
- **Smaller parts**: the credentials refresher, the job-entity cache (values and class), and the log
  redactor.

Where the code and its documentation differ, the model follows the code:

- The throttle's documentation promises five calls a second; the code gives six. Five holds exactly as
  long as every call is made at the time recorded for its upload (`FiveExactlyWhenOnTime`): a pause of
  the throttle, a retry or a delay breaks it.
- `dequeue` raises before it removes the entry, so an action whose lookup fails stays queued. Any but an
  ENV_EXIT is then reported twice at once; an ENV_EXIT is completed once, and breaks its life cycle when
  it is started while it is still at the head. `LifeCyclesSurviveExactlyWhen` and
  `CompletedExitBreaksWhenStarted` say so. What does not depend on it holds in every run (`AnyRuns`); the
  results about life cycles are for *clean* runs, those without such a lookup (`Clean`), which is the
  exact condition for their invariant (`StepKeepsExactlyWhenClean`).
- `_cleanup` cancels the queue without the update lock. An action is completed and yet queued exactly
  after an assignment between its removal from the queue and its report
  (`QueueGoesWrongExactlyByLateAssignment`, and `CompletedAndQueued` is the run). An assignment as a whole
  between the pop of an entry and its removal makes the removal raise, which ends the cleanup before any
  environment is exited (`PoppedEntryIsLostExactlyByAssignment`, `RaisesExactlyWhenAssignedInBetween`,
  `RaiseLeavesEnvironments`). Each action still gets at most one terminal status.
- `cancel_actions` is documented to cancel queued actions; the code cancels only the running one.
- The callback is documented to mark what is pending as FAILED when an ENV_ENTER or a download failed; the
  code marks it NEVER_ATTEMPTED whatever failed (`CallbackCancelsExactlyOnFailure`).
- Two updates of one action with equal times cannot be told apart by the commit; the results need
  update times that increase, and `CommitLosesNothingIff` gives the exact condition.
- A log event refused for its time is replaced by a reason with the same timestamp, which is refused
  again; the collecting loop ends when times are admissible. `CollectingEndsIffRefusalsPass` and
  `RefusedHeadEnds` say exactly when it ends otherwise, for any clock that never goes back.
- An ENV_ENTER whose start raises is reported as FAILED but its environment is not active, so its
  ENV_EXIT fails. Starting an action keeps the environments right exactly when the runtime refuses no
  environment action (`StartKeepsEnvironmentsExactlyWhenAccepted`), and the results about environments
  are for such runtimes (`EnvAllowed`).
- Keys of the entity cache do not carry the kind of the entity; `TransparentIffKeysDiffer` says when
  that matters.

`dafny verify dfyconfig.toml` checks the whole project.

## Model

| member | source | states |
|---|---|---|
| AnyRuns.NothingStartsTwice | src/deadline_worker_agent/sessions/session.py:632-731 | In every interleaving of collecting, service replies, commits, assignments, starts, callbacks, stops and cleanups of any number of sessions, whatever the lookups answer, no action id is started twice |
| ProtocolTheorems.NothingAfterCompletion | src/deadline_worker_agent/sessions/session.py:1082-1169 | In every clean run each action id gets at most one terminal status, and nothing is started or reported about it afterwards, over all races between callback, cleanup, a cancelation that holds no lock, assignments that break into it, and the return of a dead session's actions |
| AnyRuns.NoSuccessWithoutUpload | src/deadline_worker_agent/sessions/session.py:1047-1080 | In every run, where attachments are synchronised, a task is reported SUCCEEDED only after its own upload was started |
| AnyRuns.SuccessComesFromTheUpload | src/deadline_worker_agent/sessions/session.py:994-1045 | In every run, where attachments are synchronised, a SUCCEEDED report comes from a successful end of that very action; for a task, of its upload |
| ProtocolHistory.ActionsOnlyMoveForward | src/deadline_worker_agent/scheduler/session_queue.py:301-302 | In every clean run each id only moves forward: queued, running, perhaps upload queued and upload running, done |
| ProtocolHistory.EndsWhatStarted | src/deadline_worker_agent/sessions/session.py:1082-1169 | In every clean run whatever is reported SUCCEEDED, CANCELED or INTERRUPTED was started before |
| ProtocolHistory.NeverAttemptedMeansNotStarted | src/deadline_worker_agent/scheduler/session_queue.py:216-233 | In every clean run what is reported NEVER_ATTEMPTED was never started, unless it is a task whose upload was queued and about which nothing was said since |
| ProtocolHistory.EveryReportIsWellTimed | src/deadline_worker_agent/scheduler/scheduler.py:1453-1485 | In every run, whatever the lookups answer, NEVER_ATTEMPTED is reported without times, every other completion with start and end, and progress with its update time and no end |
| ProtocolTheorems.NoUpdateLost | src/deadline_worker_agent/scheduler/scheduler.py:525-572 | At every state of every clean run the service's knowledge overlaid with the pending map is the last status reported about every id, through lost requests, lost replies and updates that land while a request is under way |
| AnyRuns.TargetOwnsTheUpload | src/deadline_worker_agent/sessions/session.py:994-1045 | In every run, while a finished task awaits its upload and the session is not in cleanup, either nothing runs and its upload heads the queue, or the current action is that upload |
| AnyRuns.CallbackNeverCrashes | src/deadline_worker_agent/sessions/session.py:983-986 | The assertion that a callback without a current action means a stop never fails in any run, whatever the lookups answer |
| AnyRuns.QueueIsWhatIsLeftOrAnExit | src/deadline_worker_agent/scheduler/scheduler.py:1356-1367 | In every run, the queue of a session in its run loop is exactly what was delivered to it, is not completed and is not running, in the service's order, with at most one completed ENV_EXIT in front |
| AnyRuns.RunAny | src/deadline_worker_agent/sessions/session.py:382-405 | The invariant behind these results, about what was started, completed and uploaded, holds after every run |
| FailureRuns.FailureCancelsWhatWaits | src/deadline_worker_agent/sessions/session.py:988-1124 | In every run, of the actions that were delivered, are not completed and do not run, a callback says something exactly when it ends the running one as FAILED, CANCELED or timed out and they are no ENV_EXITs; it says then that they were never attempted |
| FailureRuns.NothingThatWaitedStarts | src/deadline_worker_agent/sessions/session.py:1112-1124 | In every run, none of the actions that waited when another one failed, was cancelled or timed out is ever started, but the ENV_EXITs |
| AttachmentRuns.TasksUploadAfterADownload | src/deadline_worker_agent/sessions/actions/run_attachment_download.py:202-203 | In every run, once a download for the whole job has begun in a session with an asset sync, every task of that session that is started later and reported SUCCEEDED had its upload started in between |
| AttachmentRuns.UploadsNeedADownload | src/deadline_worker_agent/sessions/session.py:1047-1077 | In every run, an upload is queued only in a session with an asset sync that has started a download for the whole job; a download for a step never leads to one |
| StopRuns.LastStopDecides | src/deadline_worker_agent/sessions/session.py:421-451 | In every run, the cleanup reports the running action once, with the result of the last stop, and with its message unless an exception came later; it reports nothing when no action runs |
| StopRuns.LastStopDecidesCancelations | src/deadline_worker_agent/sessions/session.py:453-455 | In every run, what the cleanup cancels is reported NEVER_ATTEMPTED with the message of the last stop |
| StopRuns.CrashLeadsToCleanup | src/deadline_worker_agent/sessions/session.py:347-360 | An exception that leaves the start of an action lets the cleanup begin, with a message of its own and the result asked for before |
| ProtocolTheorems.QueueIsWhatIsLeft | src/deadline_worker_agent/scheduler/scheduler.py:1356-1367 | In every clean run, until its cleanup begins to cancel, a session's queue is exactly what was delivered to it, is not completed and is not running, in the service's order |
| ProtocolTheorems.RunKeeps | src/deadline_worker_agent/sessions/session.py:382-405 | The invariant of scheduler, service and all sessions holds after every clean run |
| ProtocolTheorems.StepKeepsExactlyWhenClean | src/deadline_worker_agent/scheduler/session_queue.py:413-434 | A step keeps the invariant of scheduler, service and sessions if and only if it is not the start of an action whose entity lookup raises an error that names the action |
| ProtocolTheorems.FailedLookupBreaks | src/deadline_worker_agent/sessions/session.py:635-668 | Every such failed lookup breaks that invariant: the action is completed twice, or, if it is an ENV_EXIT, completed while it is still queued |
| ProtocolLookups.LifeCyclesSurviveExactlyWhen | src/deadline_worker_agent/scheduler/session_queue.py:413-434 | After a step every id has had at most one terminal status and nothing after it if and only if the step was not such a failed lookup, or the action was an ENV_EXIT |
| ProtocolLookups.CompletedExitBreaksWhenStarted | src/deadline_worker_agent/sessions/session.py:635-668 | An ENV_EXIT completed by its failed lookup is said something about after its completion as soon as its session starts it, whatever happened between, lookups that fail included |
| ProtocolTheorems.FailedLookupCompletesTwice | src/deadline_worker_agent/sessions/session.py:635-668 | The concrete run: a task whose lookup fails is reported FAILED and then NEVER_ATTEMPTED |
| ProtocolTheorems.SameTimeUpdateIsLost | src/deadline_worker_agent/scheduler/scheduler.py:532-542 | Two progress updates with the same time: the second, reported while the first is under way, is dropped by the commit |
| ProtocolTheorems.CommitLosesNothingIff | src/deadline_worker_agent/scheduler/scheduler.py:562-570 | A commit loses nothing if and only if every pending update that looks like a sent one is the one that was sent |
| ProtocolShared.NewUpdateIsNotInTransaction | src/deadline_worker_agent/scheduler/scheduler.py:532-542 | With strictly increasing update times and one terminal status per id, a report that lands while a request is under way is never mistaken for one that was sent |
| ProtocolShared.CommitKeeps | src/deadline_worker_agent/scheduler/scheduler.py:562-570 | The commit keeps the whole invariant: it forgets only what the service holds |
| ProtocolShared.LoseReplyKeeps | src/deadline_worker_agent/scheduler/scheduler.py:439-470 | A request that took effect but whose reply was lost is never committed, and keeps the invariant |
| ProtocolShared.ServeKeeps | src/deadline_worker_agent/scheduler/scheduler.py:439-470 | A reply lists the actions not completed when it was made, and keeps the invariant while sessions go on |
| ProtocolStart.StartKeeps | src/deadline_worker_agent/sessions/session.py:632-731 | Starting the next action, whatever the runtime answers and whatever the lookup answers but an error that names the action, keeps the session's invariant |
| ProtocolCallback.CallbackKeeps | src/deadline_worker_agent/sessions/session.py:934-1080 | Every callback of the runtime keeps the session's invariant |
| ProtocolCallback.CallbackMeansStopped | src/deadline_worker_agent/sessions/session.py:983-986 | A callback that finds no current action in a session that is not interrupted finds the stop event set |
| ProtocolAssign.AssignKeeps | src/deadline_worker_agent/scheduler/scheduler.py:1356-1367 | A new assignment keeps the session's invariant although it may have been made before the latest completions, and in a session that is being cancelled |
| ProtocolAssign.GiveBackKeeps | src/deadline_worker_agent/scheduler/scheduler.py:1453-1485 | Returning a dead session's actions completes only actions that were never completed |
| ProtocolAssign.InterruptKeeps | src/deadline_worker_agent/sessions/session.py:421-451 | The cleanup's report of the running action keeps the session's invariant |
| ProtocolAssign.TornAssignKeeps | src/deadline_worker_agent/scheduler/scheduler.py:1356-1367 | An assignment whose pass over the actions the cancelation broke into keeps the session's invariant |
| ProtocolCleanup.ListKeeps | src/deadline_worker_agent/scheduler/session_queue.py:251-256 | When the cleanup lists the ids to cancel, none of them was completed, is running or is an ENV_EXIT |
| ProtocolCleanup.RemoveKeeps | src/deadline_worker_agent/scheduler/session_queue.py:210-213 | Taking a popped entry out of the list, or ending the cleanup because it is no longer there, keeps the session's invariant, whatever was assigned meanwhile |
| ProtocolCleanup.ReportKeeps | src/deadline_worker_agent/scheduler/session_queue.py:216-233 | The report of a cancelled action completes it for the first time, although assignments may have come between |
| ProtocolRaces.QueueGoesWrongExactlyByLateAssignment | src/deadline_worker_agent/scheduler/session_queue.py:210-233 | In a session whose thread has not ended and where nothing queued is completed or taken out to be completed, a step without a failed lookup breaks that if and only if it assigns the session its actions between the removal of an entry and its report |
| ProtocolRaces.CompletedAndQueued | src/deadline_worker_agent/sessions/session.py:453-455 | The concrete continuation: the task is assigned again before it is reported, and is then completed and queued in a session whose thread has not ended |
| ProtocolRaces.TakenIsReached | src/deadline_worker_agent/sessions/session.py:453-455 | The run from the initial state to the moment before: a task is served, assigned, and taken out of the queue by the cleanup |
| ProtocolRaces.PoppedEntryIsLostExactlyByAssignment | src/deadline_worker_agent/scheduler/session_queue.py:210-212 | While an entry is popped and not yet removed, it leaves the list if and only if the session is assigned its actions, by a pass that did not look the entry up before the pop |
| AnyRaised.RaiseLeavesEnvironments | src/deadline_worker_agent/sessions/session.py:453-493 | After a removal that raised, in whatever run follows, the thread has ended, no environment of the session is ever exited, and those that were active stay active |
| AnyRaised.RaiseLeavesTheRestToGiveBack | src/deadline_worker_agent/scheduler/scheduler.py:1453-1485 | After a removal that raised, in whatever run follows, nothing is said about the actions that the cancelation had still to report but by the scheduler's return of the session's actions |
| QueueCancelation.RaisesExactlyWhenAssignedInBetween | src/deadline_worker_agent/scheduler/session_queue.py:210-212 | For assignments that each list what is still to be cancelled when they are made, a removal raises if and only if one falls between the pop of an entry and its removal; exactly the ids before that one are reported, and all of them otherwise |
| QueueCancelation.OutstandingListsAll | src/deadline_worker_agent/scheduler/scheduler.py:1356-1367 | The scheduler's assignments do: what is neither completed nor running lists every id that is still to be cancelled, each once and of a known type |
| QueueCancelation.CancelationLeaves | src/deadline_worker_agent/scheduler/session_queue.py:210-265 | What the cancelation leaves when no removal raises: each assignment puts its list in place, each removal takes its id out; an assignment after the last removal decides alone |
| ProtocolCleanup.StepsCancelAsTheQueueDoes | src/deadline_worker_agent/scheduler/session_queue.py:210-216 | The steps of the cleanup in the state machine do to the queue what the cancelation of one entry does, with an assignment in between or none |
| EnvironmentRuns.ActiveEnvironmentsAreTheEntered | src/deadline_worker_agent/sessions/session.py:840-873 | In every clean run in which the runtime refuses no environment action, the active environments are those whose ENV_ENTER was started and whose ENV_EXIT was not, in pipeline order |
| EnvironmentRuns.EveryExitPasses | src/deadline_worker_agent/sessions/session.py:857-868 | In every such run every ENV_EXIT that comes to the head of a session's queue is for its innermost active environment, although the service decides by an older view and failures cancel the actions between |
| EnvironmentRuns.StartKeepsEnvironmentsExactlyWhenAccepted | src/deadline_worker_agent/sessions/session.py:840-873 | Starting an action keeps the active environments those that were entered and not exited if and only if the runtime does not refuse an environment action |
| EnvironmentRuns.RefusedEnterFailsItsExit | src/deadline_worker_agent/sessions/session.py:694-731 | Why environment actions must not be refused: an ENV_ENTER whose start raises leaves an ENV_EXIT that fails the innermost check |
| SessionObject.CleanupExitsEverything | src/deadline_worker_agent/sessions/session.py:454-493 | The exits attempted by the cleanup are those of exactly the active environments, innermost first, if and only if the cancelation of the queue did not raise, or there is none to exit, and no step before the last ends the cleanup |
| SessionObject.CleanupCancelsTheRunningFirst | src/deadline_worker_agent/sessions/session.py:425-463 | Unless the cancelation of the queue raised, the cleanup cancels the running action if and only if there is one, once and first; what follows is a front of the exits, innermost first; when it raised, nothing is attempted |
| SessionObject.CancelationRaisesExactlyWhenAssigned | src/deadline_worker_agent/sessions/session.py:453-463 | The cancelation of the queue keeps the cleanup from exiting the environments if and only if an assignment falls between the pop of an entry and its removal |
| Lifecycle.StartedOnce | src/deadline_worker_agent/sessions/session.py:632-731 | A history without a broken life cycle starts no id twice |
| Lifecycle.SilentAfterCompletion | src/deadline_worker_agent/sessions/session.py:1159-1169 | A history without a broken life cycle reports nothing about an id after its terminal status |
| Lifecycle.SuccessAfterUpload | src/deadline_worker_agent/sessions/session.py:1047-1080 | A history without a broken life cycle has the upload between the start and the success of a task with attachments |
| SchedulerModel.ReturnStoppedRecords | src/deadline_worker_agent/scheduler/scheduler.py:1453-1485 | Every assigned action ends with a record, existing records stay, a new record is FAILED for the first action and for every ENV_EXIT and NEVER_ATTEMPTED without times otherwise |
| SchedulerModel.ReturnEventsTrack | src/deadline_worker_agent/scheduler/scheduler.py:1453-1485 | Every returned id is reported once, if it had no record; no other id is touched |
| ProtocolSteps.GiveBackRecords | src/deadline_worker_agent/scheduler/scheduler.py:1453-1485 | The give-back step of the state machine writes the records that the return of a stopped session's actions writes |
| SchedulerObject.Scheduler.HandleUpdate | src/deadline_worker_agent/scheduler/scheduler.py:675-683 | The pending map holds the newest status under its id |
| SchedulerObject.Scheduler.CollectUpdates | src/deadline_worker_agent/scheduler/scheduler.py:546-555 | The request carries the whole map, and the transaction is the set of the update ids in it |
| SchedulerObject.Scheduler.CommitUpdates | src/deadline_worker_agent/scheduler/scheduler.py:562-570 | Exactly the updates whose id is in the transaction are deleted |
| SchedulerObject.Scheduler.ReturnSessionActions | src/deadline_worker_agent/scheduler/scheduler.py:1453-1485 | The loop writes the records of a dead session's actions, in list order, and keeps existing ones |
| SessionObject.UpdateSessionActions | src/deadline_worker_agent/scheduler/scheduler.py:1326-1375 | A live session gets the listed actions that have no terminal update; a dead one has them returned; the running action is asked to cancel exactly when it is to be cancelled and has no terminal update pending, in a dead session as well; it fails exactly on an unknown type |
| QueueModel.ReplaceFollows | src/deadline_worker_agent/scheduler/session_queue.py:325-365 | `replace` yields the given order, keeps known entries as they are and makes new ones for the others, and stays coherent |
| QueueModel.FillFailsOnUnknownType | src/deadline_worker_agent/scheduler/session_queue.py:332-357 | `replace` fails if and only if an action that is not known by its id has an unknown type |
| QueueModel.FailedReplaceKeepsTheList | src/deadline_worker_agent/scheduler/session_queue.py:325-365 | When `replace` fails, the list stays as it is and the queue coherent; the dictionary has gained entries for the actions before the one of unknown type |
| QueueModel.ReplaceBySelf | src/deadline_worker_agent/scheduler/session_queue.py:325-365 | Replacing the queue by its own actions changes neither list nor dictionary |
| QueueModel.InsertFrontCoherent | src/deadline_worker_agent/scheduler/session_queue.py:279-302 | Inserting keeps the queue coherent if and only if the id is not queued |
| QueueModel.DequeueIsTail | src/deadline_worker_agent/scheduler/session_queue.py:406-551 | A successful `dequeue` returns the head, leaves the tail, and forgets the id |
| QueueModel.CancelAllLeaves | src/deadline_worker_agent/scheduler/session_queue.py:251-265 | `cancel_all` leaves exactly the ENV_EXIT entries in their order, or nothing, and sets the events of all others |
| QueueModel.CancelReportsTrack | src/deadline_worker_agent/scheduler/session_queue.py:257-265 | Each cancelled id is reported NEVER_ATTEMPTED exactly once, no other id at all |
| SessionQueueObject.SessionActionQueue.Replace | src/deadline_worker_agent/scheduler/session_queue.py:305-365 | The pass over the actions, with its early dictionary updates and its failure half way |
| SessionQueueObject.SessionActionQueue.InsertFront | src/deadline_worker_agent/scheduler/session_queue.py:279-302 | The new entry is first in the list and stored under its id |
| SessionQueueObject.SessionActionQueue.Cancel | src/deadline_worker_agent/scheduler/session_queue.py:191-233 | The entry is gone from list and dictionary, its event is set, and one report is made, with times only when FAILED |
| SessionQueueObject.SessionActionQueue.CancelAll | src/deadline_worker_agent/scheduler/session_queue.py:235-265 | The loop of single cancelations has the result and the reports of `cancel_all` as a whole |
| SessionQueueObject.SessionActionQueue.CancelAllUnlocked | src/deadline_worker_agent/scheduler/session_queue.py:235-265 | The loop without the lock, with assignments before each pop, between pop and removal, and before each report: what is left, what was reported and whether a removal raised |
| SessionQueueObject.QuietCancelation | src/deadline_worker_agent/scheduler/session_queue.py:235-265 | When nothing is assigned in between, the loop without the lock is `cancel_all` as a whole |
| SessionQueueObject.SessionActionQueue.Dequeue | src/deadline_worker_agent/scheduler/session_queue.py:380-551 | The entry is removed only when an action is returned; every failed lookup leaves it in place |
| SessionQueueObject.CancelledCompose | src/deadline_worker_agent/scheduler/session_queue.py:257-265 | Cancelling ids in two rounds is cancelling them in one |
| SessionQueueObject.SessionActionQueue.IsEmpty | src/deadline_worker_agent/scheduler/session_queue.py:134-141 | The queue is empty |
| SessionObject.Session.StartAction | src/deadline_worker_agent/sessions/session.py:632-731 | The new state and the reports of starting the next action, for every answer of lookup and runtime |
| SessionPromises.StartsExactlyWhenReady | src/deadline_worker_agent/sessions/session.py:632-700 | The head of the queue starts, and nothing else happens, exactly when its lookup succeeds, the session is ready for it and the runtime accepts it; attachments are synchronised afterwards exactly when they were or it is a download for the whole job |
| SessionPromises.StartFailureCancelsQueue | src/deadline_worker_agent/sessions/session.py:696-731 | An action that was looked up and does not start is reported FAILED, under its task's id when it is an upload, and every queued action but the ENV_EXITs NEVER_ATTEMPTED, in order |
| SessionPromises.LookupFailureCancelsQueue | src/deadline_worker_agent/sessions/session.py:635-668 | An action whose lookup fails is reported FAILED, and then it and the rest of the queue but the ENV_EXITs NEVER_ATTEMPTED, in order |
| SessionPromises.UnknownTypesCrash | src/deadline_worker_agent/scheduler/session_queue.py:446-447 | An action of unknown type ends the step with an exception and stays queued |
| SessionObject.Session.StartDefinition | src/deadline_worker_agent/sessions/session.py:686-693 | The current action is set before it is started; a failed start is handled |
| SessionObject.Session.LaunchAction | src/deadline_worker_agent/sessions/actions/run_attachment_download.py:199-215 | What starting an action leaves in the session: environments entered and exited, job attachment details stored |
| SessionObject.Session.FailToDequeue | src/deadline_worker_agent/sessions/session.py:638-668 | A lookup error is reported FAILED under the named id, and the queue is cancelled |
| SessionObject.Session.FailToStart | src/deadline_worker_agent/sessions/session.py:694-731 | A failed upload start is reported under the task that awaits it, any other under the action itself; the queue is cancelled |
| SessionObject.Session.ActionUpdated | src/deadline_worker_agent/sessions/session.py:934-1080 | The four ways of the callback: interrupted, no action, upload of a finished task, running action; a task that owes an upload is followed by it |
| SessionPromises.CallbackCancelsExactlyOnFailure | src/deadline_worker_agent/sessions/session.py:988-1169 | The end of an action or of an upload cancels the rest of the queue exactly when it is a failure, a cancelation or a time-out: ENV_EXITs stay, all others are reported NEVER_ATTEMPTED in order, then the action with its result and times; otherwise the queue stays, but for the upload that a task owes |
| SessionPromises.NothingIsSaidTwice | src/deadline_worker_agent/sessions/session.py:972-986 | A callback of an interrupted action, or without an action, reports nothing and leaves the queue alone |
| SessionObject.Session.HandleActionUpdate | src/deadline_worker_agent/sessions/session.py:1113-1169 | The queue is cancelled on failure, the action ends unless it is running, and the status is reported unless an upload is awaited |
| SessionObject.Session.ReplaceAssignedActions | src/deadline_worker_agent/sessions/session.py:531-554 | The queue is replaced by the given actions less the running one |
| SessionObject.Session.CancelActions | src/deadline_worker_agent/sessions/session.py:574-608 | Only the running action is cancelled, and only when it is listed; listed actions that are queued stay queued |
| SessionObject.Session.EnterEnvironment | src/deadline_worker_agent/sessions/session.py:840-855 | An environment is pushed only when the runtime entered it |
| SessionObject.Session.ExitEnvironment | src/deadline_worker_agent/sessions/session.py:857-873 | Only the innermost environment can be exited; a refused exit leaves the list as it was |
| SessionObject.Session.InterruptAndCancel | src/deadline_worker_agent/sessions/session.py:421-455 | The cleanup reports the running action with the result the stop asked for, under the locks, and then cancels the queue without them, whatever is assigned meanwhile |
| SessionObject.Session.Cleanup | src/deadline_worker_agent/sessions/session.py:407-493 | The running action is cancelled first if there is one, then the environments are exited, innermost first, up to the step that ends the cleanup; none of it when the cancelation of the queue raised |
| SessionObject.Session.Stop | src/deadline_worker_agent/sessions/session.py:1229-1234 | The stop parameters and the stop event are set |
| SessionObject.Session.Idle | src/deadline_worker_agent/sessions/session.py:1236-1245 | Idle means no current action and an empty queue |
| LockOrder.SessionLockHolderHoldsUpdateLock | src/deadline_worker_agent/sessions/session.py:391-403 | In every reachable state of any number of threads, a thread that holds any session's lock holds the update lock, even while a report probes the other sessions |
| LockOrder.WaitedForCanRun | src/deadline_worker_agent/sessions/session.py:902-909 | Whoever is waited for can run, so the wait-for graph has no cycle |
| LockOrder.NeverStuck | src/deadline_worker_agent/scheduler/scheduler.py:679-683 | A run that cannot go on has finished with every lock free; no lock is released by a thread that does not hold it |
| LockOrder.AssignmentDisciplined | src/deadline_worker_agent/scheduler/scheduler.py:1345-1367 | Handing over cancelations and actions takes the session's lock alone only under the update lock |
| LockOrder.SectionDisciplined | src/deadline_worker_agent/sessions/session.py:568-572 | Every critical section, nested callbacks included, keeps the lock order and gives back what it takes |
| LockOrder.WrongOrderDeadlocks | src/deadline_worker_agent/sessions/session.py:393-400 | A thread that took a session's lock first would deadlock with a report that probes that session |
| LogChunks.ChunkString | src/deadline_worker_agent/log_sync/cloudwatch.py:313-361 | The pieces and their exact sizes; the cut fails if and only if the text cannot be encoded in UTF-8 |
| LogChunks.PieceEnd | src/deadline_worker_agent/log_sync/cloudwatch.py:339-352 | Backtracking over continuation bytes stops at the end of the longest front that fits, and never fails |
| LogChunks.ChunksReassemble | src/deadline_worker_agent/log_sync/cloudwatch.py:313-361 | The pieces put together are the text; each is non-empty, encodable, at most `size` bytes, and all but the last have at least `size - 3` |
| LogChunks.ChunksAreFewest | src/deadline_worker_agent/log_sync/cloudwatch.py:313-361 | No other cut between code points within the limit has fewer pieces |
| LogChunks.ShortTextIsOnePiece | src/deadline_worker_agent/log_sync/cloudwatch.py:281-285 | A message within the limit is left whole |
| Utf8.DecodeIsInverse | src/deadline_worker_agent/log_sync/cloudwatch.py:336-355 | Decoding accepts exactly the encodings of encodable text, by sections 3 and 4 of RFC 3629 |
| Utf8.EncodesAsTheStandard | src/deadline_worker_agent/log_sync/cloudwatch.py:336-355 | The first example of section 7 of RFC 3629 |
| Utf8.EncodesTheBounds | src/deadline_worker_agent/log_sync/cloudwatch.py:336-355 | The first and last code points of each width |
| Utf8.CodePointBytes | src/deadline_worker_agent/log_sync/cloudwatch.py:345-347 | Exactly the bytes that do not begin a code point look like continuation bytes |
| Utf8.MaskIsHighBits | src/deadline_worker_agent/log_sync/cloudwatch.py:345-347 | The mask test on a byte holds if and only if its two highest bits are 10 |
| GreedySplit.GreedyIsFewest | src/deadline_worker_agent/log_sync/cloudwatch.py:451-484 | Taking the longest part that fits needs no more parts than any other split into consecutive parts |
| LogBatch.Batch.Add | src/deadline_worker_agent/log_sync/cloudwatch.py:102-126 | An accepted event is appended; the batch stays within the limits, and its recorded times are the true extremes |
| LogBatch.Batch.Validate | src/deadline_worker_agent/log_sync/cloudwatch.py:128-191 | The verdict, check by check in the order of the code |
| LogBatch.Batch.Size | src/deadline_worker_agent/log_sync/cloudwatch.py:193-195 | The size counts the padding of every event |
| LogBatch.AcceptedStaysWithinLimits | src/deadline_worker_agent/log_sync/cloudwatch.py:142-191 | Accepting keeps at most 10000 events, 1048576 padded bytes and a span of 24 hours |
| LogBatch.JudgesByTheLimits | src/deadline_worker_agent/log_sync/cloudwatch.py:128-191 | Each verdict exactly, in the service's numbers: room for 10000 events and a mebibyte with 26 bytes for each event, two hours ahead, a span of a day, a day behind |
| LogBatch.AdmissibleIsAccepted | src/deadline_worker_agent/log_sync/cloudwatch.py:142-191 | An event with an admissible time is refused only for lack of room |
| LogBatch.RefusalRepeats | src/deadline_worker_agent/log_sync/cloudwatch.py:472-480 | After a refusal for its time, the reason with the same timestamp is refused again, unless it does not fit |
| LogBatch.RefusalPersists | src/deadline_worker_agent/log_sync/cloudwatch.py:173-191 | Waiting does not help an event that is too old or makes the span too long |
| LogBatch.StableSortSorts | src/deadline_worker_agent/log_sync/cloudwatch.py:486-494 | The events of a request are a rearrangement of the batch in time order |
| LogBatch.StableSortIsStable | src/deadline_worker_agent/log_sync/cloudwatch.py:486-494 | Events that share a timestamp keep their order |
| LogCollector.Partitioner.Next | src/deadline_worker_agent/log_sync/cloudwatch.py:242-265 | The next event of both deques together, or nothing when both are empty; nothing else is lost |
| LogCollector.Partitioner.AppendLeft | src/deadline_worker_agent/log_sync/cloudwatch.py:267-268 | The event is first again |
| LogCollector.Partitioner.PartitionRawEvent | src/deadline_worker_agent/log_sync/cloudwatch.py:270-307 | A message becomes its pieces with its timestamp |
| LogCollector.Partitioner.HasItems | src/deadline_worker_agent/log_sync/cloudwatch.py:309-311 | Items remain if and only if an event is still to come |
| LogCollector.CollectOne | src/deadline_worker_agent/log_sync/cloudwatch.py:461-484 | One turn of the loop: accept, replace by the reason, or keep for the next batch and stop |
| LogCollector.RefusedGivesWay | src/deadline_worker_agent/log_sync/cloudwatch.py:461-484 | An event with room that is too far ahead or too old gives way to the text of its reason, with its timestamp; the rest stays |
| LogCollector.CollectLogs | src/deadline_worker_agent/log_sync/cloudwatch.py:451-496 | With admissible times the loop ends while messages keep arriving; nothing is lost or made up; the request is within the limits and in time order; it stops only when nothing is left or the next event does not fit |
| LogCollector.RefusedHeadEnds | src/deadline_worker_agent/log_sync/cloudwatch.py:472-484 | At a clock that never goes back: with a head that is too old or makes the span too long, collecting ends if and only if some reason in the chain of reasons does not fit; a head that is too far ahead is refused for ever if and only if all reasons fit and no later reading accepts it |
| LogCollector.CollectingEndsIffRefusalsPass | src/deadline_worker_agent/log_sync/cloudwatch.py:461-484 | At a clock that never goes back, when reasons fit and nothing arrives, collecting ends if and only if every refused event is too far ahead and some later reading accepts it |
| LogCollector.CollectingEndsIffNeverStuck | src/deadline_worker_agent/log_sync/cloudwatch.py:461-484 | Without arrivals, at any clock and with any reasons, collecting ends if and only if no turn leaves it with a head that is refused for ever |
| LogCollector.BatchesNeededIsFewest | src/deadline_worker_agent/log_sync/cloudwatch.py:451-484 | No split of a queue into consecutive requests within the limits on count and size has fewer of them than collecting makes |
| LogCollector.OneBatchLess | src/deadline_worker_agent/log_sync/cloudwatch.py:461-484 | One collection without arrivals leaves a queue that needs exactly one batch less |
| LogRate.SixCallsPerSecond | src/deadline_worker_agent/log_sync/cloudwatch.py:546-587 | No half-open window of one second has more than six PutLogEvents calls, failed ones and retries included |
| LogRate.SixIsReached | src/deadline_worker_agent/log_sync/cloudwatch.py:584-587 | Six is reached: of eleven uploads back to back the last six calls fall on one moment, because the time recorded is the one before the sleep |
| LogRateFive.FiveWhenOnTime | src/deadline_worker_agent/log_sync/cloudwatch.py:546-587 | As long as every call is made at the time recorded for its upload, no window of one second has more than five calls |
| LogRateFive.SixAfterLateCall | src/deadline_worker_agent/log_sync/cloudwatch.py:584-587 | After any call that is later than its record, five prompt uploads put six calls into the second that begins with it, whatever the history |
| LogRateFive.PauseMakesLate | src/deadline_worker_agent/log_sync/cloudwatch.py:574-587 | A pass of the throttle that pauses makes its call later than its record |
| LogRateFive.FiveExactlyWhenOnTime | src/deadline_worker_agent/log_sync/cloudwatch.py:546-587 | In a history that was on time up to its last call, five a second survives five more prompt uploads if and only if that call was on time as well |
| LogRate.SevenCallsTakeASecond | src/deadline_worker_agent/log_sync/cloudwatch.py:514-540 | Any seven calls in a row take at least a second |
| LogRate.Pacer.Throttle | src/deadline_worker_agent/log_sync/cloudwatch.py:546-587 | Pruning, pausing and recording; at most six records are kept, and dropped ones are a second old |
| LogRate.Pacer.Prune | src/deadline_worker_agent/log_sync/cloudwatch.py:562-573 | The records that are less than a second old remain |
| LogRate.PruneKeeps | src/deadline_worker_agent/log_sync/cloudwatch.py:562-573 | At most five records remain after pruning |
| LogRate.PausesNoLongerThanNeeded | src/deadline_worker_agent/log_sync/cloudwatch.py:546-587 | A sleep is at least the pause if and only if after it the fifth latest record is a second old, or there are fewer than five |
| LogRate.Pacer.Upload | src/deadline_worker_agent/log_sync/cloudwatch.py:514-540 | The attempts of an upload, a second apart, until one succeeds or five failures found the stop event set |
| LogRate.SettledMeans | src/deadline_worker_agent/log_sync/cloudwatch.py:514-540 | An upload gives up exactly at the fifth failure that found the stop event set |
| LogStream.MessagesReassemble | src/deadline_worker_agent/log_sync/cloudwatch.py:434-449 | The pieces of a message in the order in which they were sent, followed by those still queued, put together are the emitted message; when the queue is empty all were sent |
| LogStream.LogStreamThread.Run | src/deadline_worker_agent/log_sync/cloudwatch.py:434-449 | The thread exits only with the stop event set and both deques empty; a batch is dropped only after five failures that found the stop event set; without arrivals the requests are as few as can be; the pieces of every message are in requests and queue in order, and at the exit every emitted message is in the requests as a whole; times need only be admissible round by round |
| LogStream.LogStreamThread.RunRound | src/deadline_worker_agent/log_sync/cloudwatch.py:441-449 | One round keeps everything emitted in a request or in the queue, in order |
| LogStream.LogStreamThread.UploadLogs | src/deadline_worker_agent/log_sync/cloudwatch.py:498-544 | A batch is sent or dropped |
| LogStream.LogStreamThread.IsRunning | src/deadline_worker_agent/log_sync/cloudwatch.py:427-432 | The thread goes on until the stop event is set and nothing is left |
| LogStream.SentKeepsOrder | src/deadline_worker_agent/log_sync/cloudwatch.py:486-496 | Sorting each batch keeps the pieces of one message in order across batches |
| LogStream.EmittedIsWellFormed | src/deadline_worker_agent/log_sync/cloudwatch.py:627-650 | Whatever can be encoded can be streamed, blank lines included; the timestamp is truncated to a millisecond |
| CredentialsRefresher.AtMostOnePending | src/deadline_worker_agent/aws_credentials/credentials_refresher.py:110-149 | In every run at most one timer is pending, and only inside the context |
| CredentialsRefresher.EnoughLeftAtEveryFiring | src/deadline_worker_agent/aws_credentials/credentials_refresher.py:134-149 | Every firing finds at least the advisory timeout, or the mandatory timeout less a minute, left |
| CredentialsRefresher.AttemptsBound | src/deadline_worker_agent/aws_credentials/credentials_refresher.py:134-192 | `Attempts` is at most floor((advisory - mandatory) / 1 minute) + 2, and exactly that from outside the advisory period |
| CredentialsRefresher.FutileAttemptsCease | src/deadline_worker_agent/aws_credentials/credentials_refresher.py:159-192 | When every attempt leaves the expiry as it is, the timer is pending before the last of exactly `Attempts` attempts and never after it |
| CredentialsRefresher.FutileFiringsAreFew | src/deadline_worker_agent/aws_credentials/credentials_refresher.py:159-192 | In every legal run of firings none of which obtains a later expiry, an earlier one included, there are at most `Attempts` firings, and fewer while a timer is pending |
| CredentialsRefresher.FutileRefreshingCeases | src/deadline_worker_agent/aws_credentials/credentials_refresher.py:134-192 | Such a run has at most floor((advisory - mandatory) / 1 minute) + 2 firings, no timer is pending after that many, and when none is its last firing told the owner, unless it was interrupted |
| CredentialsRefresher.EnteredRefreshingCeases | src/deadline_worker_agent/aws_credentials/credentials_refresher.py:110-192 | From the first entry into the context: refreshing that never obtains a later expiry ends after at most that many firings, and then the owner was told, unless the last one was interrupted |
| CredentialsRefresher.LeftAloneExactlyWhenInTime | src/deadline_worker_agent/aws_credentials/credentials_refresher.py:159-192 | Over any run the owner is never told if and only if every attempt was interrupted or succeeded with at least the mandatory timeout left |
| CredentialsRefresher.GoesOnWhileInTime | src/deadline_worker_agent/aws_credentials/credentials_refresher.py:110-192 | As long as every attempt succeeds in time, a timer is pending inside the context |
| CredentialsRefresher.TellsExactly | src/deadline_worker_agent/aws_credentials/credentials_refresher.py:159-192 | The number of notifications for each outcome and time left, and when the next timer is set and for when |
| CredentialsRefresher.AwsCredentialsRefresher.EnterContext | src/deadline_worker_agent/aws_credentials/credentials_refresher.py:110-118 | Only the first entry sets the timer |
| CredentialsRefresher.AwsCredentialsRefresher.LeaveContext | src/deadline_worker_agent/aws_credentials/credentials_refresher.py:120-127 | Only the last exit cancels the timer |
| CredentialsRefresher.AwsCredentialsRefresher.StartTimer | src/deadline_worker_agent/aws_credentials/credentials_refresher.py:134-149 | The old timer is cancelled and a new one set, for the start of the advisory period or a minute ahead |
| CredentialsRefresher.AwsCredentialsRefresher.OnTimer | src/deadline_worker_agent/aws_credentials/credentials_refresher.py:159-192 | The timer is set again or not, and the owner is told so many times: once of each error, once more when too little time is left after an attempt that goes on, never of an interruption or of a refresh in time |
| JobEntityModel.WarmingIsTransparent | src/deadline_worker_agent/sessions/job_entities/job_entities.py:124-160 | A request returns what the service says, whatever was warmed or requested before, with payload-size errors, failed batches and earlier errors |
| JobEntityModel.CacheAlwaysAgrees | src/deadline_worker_agent/sessions/job_entities/job_entities.py:209-283 | After any sequence of warm-ups and requests every record is empty or holds the service's answer, and cached data never changes |
| JobEntityModel.WarmedIsAnswered | src/deadline_worker_agent/sessions/job_entities/job_entities.py:217-283 | After any use of the cache, a warm-up stores everything the replies list until one raises, and after any further use a request for a listed entity is answered from the cache |
| JobEntityModel.RaiseEndsWarming | src/deadline_worker_agent/sessions/job_entities/job_entities.py:217-241 | A warm-up goes through all batches exactly when none raises, and ends with the first that does |
| JobEntityModel.BatchedCovers | src/deadline_worker_agent/sessions/job_entities/job_entities.py:78-85 | The batches cover the identifiers exactly once, in order, within the maximum size, all but the last full |
| JobEntityModel.TransparentIffKeysDiffer | src/deadline_worker_agent/sessions/job_entities/job_entities.py:162-192 | Requesting one identifier never changes what another returns, for every service, if and only if they do not share a key |
| JobEntityModel.KeysCollide | src/deadline_worker_agent/sessions/job_entities/job_entities.py:162-192 | Exactly which identifiers share a key |
| JobEntitiesObject.JobEntities.CreateRecords | src/deadline_worker_agent/sessions/job_entities/job_entities.py:209-215 | Empty records for the identifiers that have none |
| JobEntitiesObject.JobEntities.SaveEntities | src/deadline_worker_agent/sessions/job_entities/job_entities.py:242-262 | The data of every listed entity is stored in its record |
| JobEntitiesObject.JobEntities.SaveErrors | src/deadline_worker_agent/sessions/job_entities/job_entities.py:264-283 | Every listed error but payload size is stored in its record |
| JobEntitiesObject.JobEntities.CacheOneBatch | src/deadline_worker_agent/sessions/job_entities/job_entities.py:221-283 | One batch: records, then entities, then errors |
| JobEntitiesObject.JobEntities.CacheEntities | src/deadline_worker_agent/sessions/job_entities/job_entities.py:217-283 | The batches one after the other; a refused one is skipped, an exception ends them |
| JobEntitiesObject.JobEntities.RequestEntity | src/deadline_worker_agent/sessions/job_entities/job_entities.py:124-160 | Cached data, or what asking for this one identifier gives |
| Redaction.DictsDoNotInterfere | src/deadline_worker_agent/session_events.py:200-226 | Two bodies of the same structure that agree on every path the allow-list marks are logged alike, however they differ elsewhere |
| Redaction.RedactTwice | src/deadline_worker_agent/session_events.py:200-226 | Redacting a redacted body changes nothing |
| Redaction.LoggedFields | src/deadline_worker_agent/session_events.py:206-222 | Values marked by their own key are logged, values that no rule covers never, and no key is made up |
| Redaction.EveryFlagIsObeyed | src/deadline_worker_agent/session_events.py:200-226 | Wherever the allow-list decides about a value, below any dictionaries and lists, it is logged at the same place when allowed, a date as its text, and REDACTED there when not |
| Redaction.LoggingFailsOnlyOnOddEntries | src/deadline_worker_agent/session_events.py:223-225 | Redaction fails if and only if, under keys, a list has an entry that is neither a dictionary nor null |

## Left out

- ProtocolStart.StartKeeps: does not cover a lookup error that names the action, after which the invariant fails; `AnySteps.LookupFails` does, for the invariant of `AnyRuns`.
- ProtocolTheorems.NothingAfterCompletion: covers clean runs, since it is false of others; likewise the forward movement, the lost updates and the queue, for which `LifeCyclesSurviveExactlyWhen`, `FailedLookupBreaks` and `QueueIsWhatIsLeftOrAnExit` say what holds then.
- SessionQueueObject.SessionActionQueue.CancelAllUnlocked: an assignment falls as a whole between two operations of the cancelation; one that is broken into is in the protocol (`TornAssign`).
- SessionObject.Session.Cleanup: nothing else of the session changes meanwhile, apart from whole assignments to the queue; callbacks and stops during the cleanup are in the protocol.
- EnvironmentRuns.EveryExitPasses: only for runtimes that refuse no environment action, as a refusal breaks it for good.
- EnvironmentRuns.ActiveEnvironmentsAreTheEntered: only for such runtimes, for the same reason.
- LogCollector.CollectingEndsIffRefusalsPass: for a queue to which nothing is added while a batch is collected.
- An assignment that the cancelation breaks into is any result that its pass can have (`Torn`), in one step.
- A RUNNING callback from inside the start of an action is a start followed by a callback; the order of the locks in that nest is in `LockOrder`.
- The wake-up event, the removal of finished sessions, the creation of sessions and `_fail_all_actions` are not modelled.
- What the service says about the actions to cancel has no effect in the protocol beyond callbacks that end an action as CANCELED at any time.
- Messages, progress, exit codes and manifests of a status are one opaque number; they never decide anything.
- Grace times: how long a cleanup step may take comes in as its outcome, since a zero timeout takes the unbounded branch.
- An error from `parameters_from_api_response` in `dequeue` is not modelled; it would stop the thread as other exceptions do.
- LogCollector.Partitioner.PartitionRawEvent: messages must be encodable and not empty, because the branch for other messages puts its warning between the pieces of the next message; `emit` pads empty ones, and `ChunkString` has the error.
- LogCollector.CollectLogs: needs admissible times; without them the loop may not end, and `CollectingEndsIffRefusalsPass` says when it does, for a queue to which nothing is added meanwhile.
- LogStream.LogStreamThread.Run: covers as many rounds as it is given, and uploads that are settled by the attempts given; an upload that fails for ever without a stop never returns.
- Local time zones and the rounding of floating-point seconds in timestamps and clock readings.
- The text of a rejection reason is a parameter; only its timestamp and size matter.
- CredentialsRefresher.EnoughLeftAtEveryFiring: timers fire on time and a refresh takes no time and is atomic relative to entering and leaving the context.
- The checks of the refresher's constructor on too small timeouts.
- JobEntityModel.WarmingIsTransparent: the service answers one identifier always the same, lists every identifier it was asked for, and reports payload size only for batches of more than one.
- Validating entity data, which removes a key from the cached dictionary of job details.
- Deduplication of logged requests, and logging itself.
- AWS and HTTP calls, the Open Job Description runtime, job attachments, file systems, users, configuration and installers.
