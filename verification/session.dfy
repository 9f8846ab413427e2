/** What one session does in each of its critical sections, as functions of the session's state.

    Every function returns the new state together with the events of the step, among them the
    status updates handed to the scheduler. The mutable `Session` in session_class.dfy is proved
    against these functions; the protocol in protocol.dfy interleaves them. */
module SessionModel {
  import opened Actions
  import opened Lifecycle
  import opened QueueModel

  datatype CurrentAction = CurrentAction(spec: ActionSpec, startTime: Time)

  /** `target` is the finished task whose outputs are being uploaded. `assetSync` and
      `jobAttachments` tell whether the asset sync object and the job attachment details exist. */
  datatype Sess = Sess(
    queue: Queue,
    current: Option<CurrentAction>,
    target: Option<CurrentAction>,
    interrupted: bool,
    stop: bool,
    stopResult: CompletedStatus,
    stopDetail: int,
    envs: seq<EnvId>,
    assetSync: bool,
    jobAttachments: bool)
  {
    predicate Attachments() {
      assetSync && jobAttachments
    }
  }

  function NewSession(assetSync: bool): Sess {
    Sess(EmptyQueue, None, None, false, false, FAILED, 0, [], assetSync, false)
  }

  /** The result of a step; `crashed` when an exception leaves the step. */
  datatype Effect = Effect(sess: Sess, events: seq<Event>, crashed: bool)

  function UploadSpec(task: CurrentAction): ActionSpec {
    ActionSpec(task.spec.id, SyncOutput, 0, task.spec.step)
  }

  /** Cancels the queue's actions other than ENV_EXITs and reports them. */
  function CancelQueued(s: Sess, detail: int): Effect {
    Effect(s.(queue := CancelAll(s.queue, true)),
           CancelReports(CancelIds(s.queue.actions, true), detail, s.Attachments()),
           false)
  }

  // ----- starting an action

  /** Whether the runtime accepts the action. `stored` matters for a job attachments download only:
      whether the failure came after the job attachment details were stored in the session. */
  datatype StartOutcome = Begins | Raises(stored: bool)

  predicate Innermost(envs: seq<EnvId>, env: EnvId) {
    envs != [] && envs[|envs| - 1] == env
  }

  predicate LaunchSucceeds(s: Sess, spec: ActionSpec, outcome: StartOutcome) {
    && outcome.Begins?
    && (spec.kind.EnvExit? ==> Innermost(s.envs, spec.env))
    && (spec.kind.SyncInput? ==> s.assetSync && (spec.step.None? || s.jobAttachments))
  }

  /** What `start` of the action's definition leaves in the session, whether it raises or not. */
  function Launch(s: Sess, spec: ActionSpec, outcome: StartOutcome): Sess {
    match spec.kind
    case EnvEnter => if outcome.Begins? then s.(envs := s.envs + [spec.env]) else s
    case EnvExit =>
      if LaunchSucceeds(s, spec, outcome) then s.(envs := s.envs[..|s.envs| - 1]) else s
    case SyncInput =>
      if spec.step.None? && (outcome.Begins? || outcome.stored) then s.(jobAttachments := true) else s
    case _ => s
  }

  function StartEvent(spec: ActionSpec): Event {
    if spec.kind.SyncOutput? then UploadStarted(spec.id) else Started(spec.id, spec.kind.TaskRun?)
  }

  /** The id a failure to start is reported under: the finished task's, when it awaits its upload. */
  function FailedId(s: Sess, spec: ActionSpec): ActionId {
    if s.target.Some? then s.target.value.spec.id else spec.id
  }

  function StartAction(s: Sess, answer: Answer, outcome: StartOutcome, now: Time, detail: int): Effect {
    match DequeueOutcome(s.queue, answer)
    case Nothing => Effect(s.(current := None), [], false)
    case Crash => Effect(s, [], true)
    case ActionError(id) =>
      var c := CancelQueued(s, detail);
      Effect(c.sess.(current := None), [Reported(FailedAt(id, now, detail), s.Attachments())] + c.events, false)
    case NextAction(spec) =>
      var begun := Begun(s, answer, spec, now);
      var launched := Launch(begun, spec, outcome);
      if LaunchSucceeds(begun, spec, outcome) then Effect(launched, [StartEvent(spec)], false)
      else FailStart(launched, spec, now, detail)
  }

  function Begun(s: Sess, answer: Answer, spec: ActionSpec, now: Time): Sess {
    s.(queue := Dequeue(s.queue, answer), current := Some(CurrentAction(spec, now)))
  }

  /** `start` raised: the action is reported as failed and the queue is cancelled. */
  function FailStart(s: Sess, spec: ActionSpec, now: Time, detail: int): Effect {
    var c := CancelQueued(s.(target := None), detail);
    Effect(c.sess.(current := None),
           [StartEvent(spec), Reported(FailedAt(FailedId(s, spec), now, detail), s.Attachments())] + c.events,
           false)
  }

  // ----- the runtime's callback

  function StatusOf(action: CurrentAction, state: ActionState, now: Time, detail: int): Status {
    Status(action.spec.id,
           CompletedStatusOf(state),
           if state.RUNNING? then Some(now) else None,
           Some(action.startTime),
           if state.RUNNING? then None else Some(now),
           detail)
  }

  function HandleUpdate(s: Sess, state: ActionState, action: CurrentAction, now: Time, detail: int): Effect {
    var c := if Unsuccessful(state) then CancelQueued(s, detail) else Effect(s, [], false);
    var ended := if state.RUNNING? then c.sess else c.sess.(current := None);
    Effect(ended,
           if ended.target.None? then c.events + [Reported(StatusOf(action, state, now, detail), s.Attachments())]
           else c.events,
           false)
  }

  predicate OwesUpload(s: Sess, state: ActionState)
    requires s.current.Some?
  {
    state.SUCCESS? && s.current.value.spec.kind.TaskRun? && s.Attachments()
  }

  function ActionUpdated(s: Sess, state: ActionState, now: Time, detail: int): Effect {
    if s.interrupted then
      Effect(if state.RUNNING? then s else s.(current := None, interrupted := false), [], false)
    else if s.current.None? then
      Effect(s, [], !s.stop)
    else if s.target.Some? then
      if CompletedStatusOf(state).Some? then
        HandleUpdate(s.(target := None), state, s.target.value, now, detail)
      else Effect(s, [], false)
    else if OwesUpload(s, state) then
      Effect(s.(queue := InsertFront(s.queue, UploadSpec(s.current.value)), target := s.current, current := None),
             [UploadQueued(s.current.value.spec.id)], false)
    else
      HandleUpdate(s, state, s.current.value, now, detail)
  }

  // ----- assignments from the scheduler

  function CurrentIds(s: Sess): set<ActionId> {
    if s.current.Some? then {s.current.value.spec.id} else {}
  }

  function ReplaceAssigned(s: Sess, specs: seq<ActionSpec>): Sess {
    s.(queue := Replace(s.queue, Outstanding(specs, CurrentIds(s))))
  }

  // ----- stopping and cleaning up

  function Stopped(s: Sess, result: CompletedStatus, detail: int): Sess {
    s.(stop := true, stopResult := result, stopDetail := detail)
  }

  /** The first section of the cleanup: the running action, if any, is reported with the result
      the stop asked for. */
  function Interrupt(s: Sess, now: Time): Effect {
    if s.current.None? then Effect(s, [], false)
    else
      Effect(s.(interrupted := true),
             [Reported(Status(s.current.value.spec.id, Some(s.stopResult), None,
                              Some(s.current.value.startTime), Some(now), s.stopDetail), s.Attachments())],
             false)
  }

  function Reverse(envs: seq<EnvId>): (r: seq<EnvId>)
    ensures |r| == |envs| && forall i | 0 <= i < |r| :: r[i] == envs[|envs| - 1 - i]
  {
    seq(|envs|, i requires 0 <= i < |envs| => envs[|envs| - 1 - i])
  }
}
