/** The mutable session, proved against the values of session.dfy, and the part of the scheduler
    that hands a session its share of the service's answer.

    What the job entities, the runtime and the clock answer comes in as parameters. */
module SessionObject {
  import opened Actions
  import opened Lifecycle
  import opened QueueModel
  import opened QueueCancelation
  import opened SessionModel
  import opened SchedulerModel
  import opened SchedulerObject
  import opened SessionQueueObject

  /** How one cleanup step went: it raised when it was started; it was started and completed; it was
      started and did not complete in time; or watching it raised something else. */
  datatype CleanupOutcome = CleanupRaised | CleanupCompleted | CleanupTimedOut | CleanupUnwatchable
  {
    predicate EndsCleanup() {
      CleanupTimedOut? || CleanupUnwatchable?
    }
  }

  datatype CleanupStep = CancelRunning | ExitEnv(env: EnvId)

  /** The cleanup steps of a session: the running action first, then its environments, innermost
      first. */
  function CleanupSteps(running: bool, envs: seq<EnvId>): seq<CleanupStep> {
    (if running then [CancelRunning] else []) + ExitSteps(envs)
  }

  function ExitSteps(envs: seq<EnvId>): (r: seq<CleanupStep>)
    ensures |r| == |envs| && forall i | 0 <= i < |r| :: r[i] == ExitEnv(envs[|envs| - 1 - i])
  {
    seq(|envs|, i requires 0 <= i < |envs| => ExitEnv(envs[|envs| - 1 - i]))
  }

  /** The running action is not in the queue. */
  predicate NotQueued(current: Option<CurrentAction>, q: Queue) {
    current.Some? ==> !HasId(Specs(q.actions), current.value.spec.id)
  }

  lemma NoneNotQueued(q: Queue)
    ensures NotQueued(None, q)
  {
  }

  lemma CancelKeepsOut(current: Option<CurrentAction>, q: Queue)
    requires NotQueued(current, q)
    ensures NotQueued(current, QueueModel.CancelAll(q, true))
  {
    var gone := IdSet(CancelIds(q.actions, true));
    DropSpecs(q.actions, gone);
    if current.Some? {
      OutstandingHasId(Specs(q.actions), gone, current.value.spec.id);
    }
  }

  lemma DequeueKeepsOut(current: Option<CurrentAction>, q: Queue, answer: Answer)
    requires Coherent(q) && NotQueued(current, q)
    ensures var r, next := QueueModel.Dequeue(q, answer), DequeueOutcome(q, answer);
            && NotQueued(current, r)
            && (next.NextAction? ==> forall start :: NotQueued(Some(CurrentAction(next.spec, start)), r))
  {
    var r, next := QueueModel.Dequeue(q, answer), DequeueOutcome(q, answer);
    if next.NextAction? {
      DequeueIsTail(q, answer);
      forall i | 0 <= i < |r.actions| ensures Specs(r.actions)[i] == Specs(q.actions)[i + 1]
                                           && Specs(r.actions)[i].id != next.spec.id {
        EntriesDistinct(q, 0, i + 1);
      }
    }
  }

  lemma ReplaceKeepsOut(current: Option<CurrentAction>, q: Queue, specs: seq<ActionSpec>)
    requires Coherent(q) && NotQueued(current, q)
    requires ReplaceSucceeds(q, specs) ==> DistinctIds(specs)
    requires current.Some? ==> forall a | a in specs :: a.id != current.value.spec.id
    ensures NotQueued(current, QueueModel.Replace(q, specs))
  {
    if ReplaceSucceeds(q, specs) {
      ReplaceFollows(q, specs);
      var r := QueueModel.Replace(q, specs);
      forall i | 0 <= i < |r.actions| ensures current.Some? ==> Specs(r.actions)[i].id != current.value.spec.id {
        assert Ids(Specs(r.actions))[i] == Ids(specs)[i];
        assert specs[i] in specs;
      }
    }
  }

  /** What starting the current action's definition leaves. */
  function DefinitionStarted(begun: Sess, spec: ActionSpec, outcome: StartOutcome, now: Time, detail: int): Effect {
    var launched := Launch(begun, spec, outcome);
    if LaunchSucceeds(begun, spec, outcome) then Effect(launched, [StartEvent(spec)], false)
    else FailStart(launched, spec, now, detail)
  }

  class Session {
    const scheduler: Scheduler
    const queue: SessionActionQueue
    const assetSync: bool
    var current: Option<CurrentAction>
    var target: Option<CurrentAction>
    var interrupted: bool
    var stop: bool
    var stopResult: CompletedStatus
    var stopDetail: int
    var envs: seq<EnvId>
    var jobAttachments: bool
    /** The cancelations sent to the runtime. */
    var cancelsSent: seq<ActionId>

    function State(): Sess
      reads this, queue
    {
      Sess(queue.State(), current, target, interrupted, stop, stopResult, stopDetail, envs, assetSync, jobAttachments)
    }

    ghost predicate Valid()
      reads this, queue, scheduler
    {
      queue.scheduler == scheduler && queue.Valid() && NotQueued(current, queue.State())
    }

    constructor (scheduler: Scheduler, assetSync: bool)
      requires scheduler.Valid()
      ensures Valid() && this.scheduler == scheduler && fresh(queue)
      ensures State() == NewSession(assetSync) && cancelsSent == []
    {
      this.scheduler, this.assetSync := scheduler, assetSync;
      queue := new SessionActionQueue(scheduler);
      current, target, interrupted, stop := None, None, false, false;
      stopResult, stopDetail, envs, jobAttachments, cancelsSent := FAILED, 0, [], false, [];
    }

    method Idle() returns (idle: bool)
      ensures idle <==> current.None? && queue.State().actions == []
    {
      var empty := queue.IsEmpty();
      idle := current.None? && empty;
    }

    method CancelQueue(now: Time, detail: int)
      requires Valid()
      modifies queue, scheduler
      ensures Valid()
      ensures var e := CancelQueued(old(State()), detail); State() == e.sess && scheduler.Absorbed(e.events)
    {
      CancelKeepsOut(current, queue.State());
      queue.CancelAll(true, now, detail, assetSync && jobAttachments);
    }

    // ----- environments

    method EnterEnvironment(env: EnvId, begins: bool) returns (ok: bool)
      modifies this`envs
      ensures ok == begins && envs == if begins then old(envs) + [env] else old(envs)
    {
      if begins {
        envs := envs + [env];
      }
      ok := begins;
    }

    /** Only the innermost active environment can be exited. */
    method ExitEnvironment(env: EnvId, begins: bool) returns (ok: bool)
      modifies this`envs
      ensures ok <==> begins && Innermost(old(envs), env)
      ensures if ok then envs + [env] == old(envs) else envs == old(envs)
    {
      if |envs| == 0 || envs[|envs| - 1] != env {
        return false;
      }
      if begins {
        envs := envs[..|envs| - 1];
      }
      ok := begins;
    }

    // ----- starting an action

    /** The `start` of the action's definition. */
    method LaunchAction(spec: ActionSpec, outcome: StartOutcome) returns (ok: bool)
      requires Valid()
      modifies this`envs, this`jobAttachments
      ensures Valid()
      ensures State() == Launch(old(State()), spec, outcome)
      ensures ok <==> LaunchSucceeds(old(State()), spec, outcome)
    {
      if spec.kind.EnvEnter? {
        ok := EnterEnvironment(spec.env, outcome.Begins?);
      } else if spec.kind.EnvExit? {
        ok := ExitEnvironment(spec.env, outcome.Begins?);
      } else if spec.kind.SyncInput? {
        ok := outcome.Begins? && assetSync && (spec.step.None? || jobAttachments);
        if spec.step.None? && (outcome.Begins? || outcome.stored) {
          jobAttachments := true;
        }
      } else {
        ok := outcome.Begins?;
      }
    }

    method StartAction(answer: Answer, outcome: StartOutcome, now: Time, detail: int) returns (crashed: bool)
      requires Valid()
      modifies this, queue, scheduler
      ensures Valid()
      ensures var e := SessionModel.StartAction(old(State()), answer, outcome, now, detail);
              State() == e.sess && crashed == e.crashed && scheduler.Absorbed(e.events)
    {
      hide Absorb, QueueModel.CancelAll, QueueModel.Dequeue, DequeueOutcome, CancelIds, CancelReports, Coherent, NotQueued, Launch, FailStart,
        LaunchSucceeds, CancelQueued, SessionModel.StartAction, DefinitionStarted;
      ghost var s, updates := State(), scheduler.updates;
      AbsorbNothing(updates);
      DequeueKeepsOut(current, s.queue, answer);
      NothingDequeued(s.queue, answer);
      StartActionByOutcome(s, answer, outcome, now, detail);
      crashed := false;
      var next := queue.Dequeue(answer);
      match next {
        case Nothing =>
          current := None;
          NoneNotQueued(queue.State());
        case Crash => crashed := true;
        case ActionError(id) => FailToDequeue(id, now, detail);
        case NextAction(spec) =>
          current := Some(CurrentAction(spec, now));
          StartDefinition(spec, outcome, now, detail);
      }
    }

    /** The current action's definition is started. */
    method StartDefinition(spec: ActionSpec, outcome: StartOutcome, now: Time, detail: int)
      requires Valid()
      modifies this, queue, scheduler
      ensures Valid()
      ensures var e := DefinitionStarted(old(State()), spec, outcome, now, detail);
              State() == e.sess && !e.crashed && scheduler.Absorbed(e.events)
    {
      hide Absorb, QueueModel.CancelAll, CancelIds, CancelReports, Coherent, NotQueued, Launch, LaunchSucceeds, FailStart;
      ghost var s, updates := State(), scheduler.updates;
      scheduler.Note(StartEvent(spec));
      var ok := LaunchAction(spec, outcome);
      if !ok {
        ghost var launched := Launch(s, spec, outcome);
        assert State() == launched;
        FailToStart(spec, now, detail);
        FailStartEvents(launched, spec, now, detail);
        AbsorbAfterFirst(updates, [StartEvent(spec)], FailStart(launched, spec, now, detail).events);
      }
    }

    /** The handler of an exception from the queue that names the action. */
    method FailToDequeue(id: ActionId, now: Time, detail: int)
      requires Valid()
      modifies this`current, queue, scheduler
      ensures Valid()
      ensures var e := CancelQueued(old(State()), detail);
              && State() == e.sess.(current := None)
              && scheduler.Absorbed([Reported(FailedAt(id, now, detail), old(State()).Attachments())] + e.events)
    {
      hide Absorb, QueueModel.CancelAll, CancelIds, CancelReports, Coherent;
      ghost var s := State();
      AbsorbAppend(scheduler.updates, [Reported(FailedAt(id, now, detail), s.Attachments())], CancelQueued(s, detail).events);
      scheduler.HandleUpdate(FailedAt(id, now, detail), assetSync && jobAttachments);
      CancelQueue(now, detail);
      current := None;
    }

    /** The handler of an exception from `start`. */
    method FailToStart(spec: ActionSpec, now: Time, detail: int)
      requires Valid()
      modifies this`target, this`current, queue, scheduler
      ensures Valid()
      ensures var e := FailStart(old(State()), spec, now, detail);
              State() == e.sess && scheduler.Absorbed(e.events[1..])
    {
      hide Absorb, QueueModel.CancelAll, CancelIds, CancelReports, Coherent, NotQueued;
      ghost var s := State();
      var failed := spec.id;
      if target.Some? {
        failed := target.value.spec.id;
        target := None;
      }
      assert State() == s.(target := None) && failed == FailedId(s, spec);
      FailToDequeue(failed, now, detail);
      FailStartEvents(s, spec, now, detail);
    }

    // ----- the runtime's callback

    method ActionUpdated(state: ActionState, now: Time, detail: int) returns (crashed: bool)
      requires Valid()
      modifies this, queue, scheduler
      ensures Valid()
      ensures var e := SessionModel.ActionUpdated(old(State()), state, now, detail);
              State() == e.sess && crashed == e.crashed && scheduler.Absorbed(e.events)
    {
      hide CancelQueued, StatusOf;
      crashed := false;
      if interrupted {
        if !state.RUNNING? {
          current, interrupted := None, false;
        }
      } else if current.None? {
        crashed := !stop;
      } else if target.Some? {
        if CompletedStatusOf(state).Some? {
          var task := target.value;
          target := None;
          HandleActionUpdate(state, task, now, detail);
        }
      } else if state.SUCCESS? && current.value.spec.kind.TaskRun? && assetSync && jobAttachments {
        queue.InsertFront(UploadSpec(current.value));
        target, current := current, None;
        scheduler.Note(UploadQueued(target.value.spec.id));
      } else {
        HandleActionUpdate(state, current.value, now, detail);
      }
    }

    method HandleActionUpdate(state: ActionState, action: CurrentAction, now: Time, detail: int)
      requires Valid()
      modifies this`current, queue, scheduler
      ensures Valid()
      ensures var e := SessionModel.HandleUpdate(old(State()), state, action, now, detail);
              State() == e.sess && scheduler.Absorbed(e.events)
    {
      hide Absorb, CancelQueued, Coherent, NotQueued, StatusOf, Unsuccessful, SessionModel.HandleUpdate;
      ghost var s, updates := State(), scheduler.updates;
      AbsorbNothing(updates);
      CancelKeeps(s, detail);
      HandleUpdateParts(s, state, action, now, detail);
      if Unsuccessful(state) {
        CancelQueue(now, detail);
      }
      if !state.RUNNING? {
        current := None;
        NoneNotQueued(queue.State());
      }
      if target.None? {
        ghost var canceled := if Unsuccessful(state) then CancelQueued(s, detail).events else [];
        AbsorbAppend(updates, canceled, [Reported(StatusOf(action, state, now, detail), s.Attachments())]);
        Report(state, action, now, detail);
      }
    }

    method Report(state: ActionState, action: CurrentAction, now: Time, detail: int)
      requires Valid()
      modifies scheduler
      ensures Valid()
      ensures scheduler.Absorbed([Reported(StatusOf(action, state, now, detail), State().Attachments())])
    {
      scheduler.HandleUpdate(
        Status(action.spec.id, CompletedStatusOf(state), if state.RUNNING? then Some(now) else None,
               Some(action.startTime), if state.RUNNING? then None else Some(now), detail),
        assetSync && jobAttachments);
    }

    // ----- assignments and cancelations from the scheduler

    method ReplaceAssignedActions(specs: seq<ActionSpec>) returns (ok: bool)
      requires Valid()
      modifies queue
      ensures State() == ReplaceAssigned(old(State()), specs)
      ensures ok <==> ReplaceSucceeds(old(queue.State()), Outstanding(specs, CurrentIds(old(State()))))
      ensures !ok || DistinctIds(specs) ==> Valid()
    {
      var running := CurrentIds(State());
      var kept := FilterOut(specs, running);
      OutstandingMembers(specs, running);
      ghost var q := queue.State();
      ok := queue.Replace(kept);
      if !ok || DistinctIds(specs) {
        ReplaceKeepsOut(current, q, kept);
      }
    }

    /** Asks the runtime to cancel the running action when it is listed; listed actions that are
        only queued stay queued. */
    method CancelActions(ids: seq<ActionId>)
      requires Valid()
      modifies this`cancelsSent
      ensures State() == old(State())
      ensures if current.Some? && current.value.spec.id in ids
              then |cancelsSent| > |old(cancelsSent)| && old(cancelsSent) <= cancelsSent
                && forall i | |old(cancelsSent)| <= i < |cancelsSent| :: cancelsSent[i] == current.value.spec.id
              else cancelsSent == old(cancelsSent)
    {
      for i := 0 to |ids|
        invariant old(cancelsSent) <= cancelsSent
        invariant if current.Some? && current.value.spec.id in ids[..i]
                  then |cancelsSent| > |old(cancelsSent)|
                    && forall k | |old(cancelsSent)| <= k < |cancelsSent| :: cancelsSent[k] == current.value.spec.id
                  else cancelsSent == old(cancelsSent)
      {
        if current.Some? && current.value.spec.id == ids[i] {
          cancelsSent := cancelsSent + [ids[i]];
        }
      }
    }

    // ----- stopping and cleaning up

    method Stop(result: CompletedStatus, detail: int)
      requires Valid()
      modifies this`stop, this`stopResult, this`stopDetail
      ensures Valid() && State() == Stopped(old(State()), result, detail)
    {
      stopResult, stopDetail := result, detail;
      stop := true;
    }

    /** What the cleanup leaves of the session before its steps: the running action is reported, and
        the queue is cancelled as far as no removal raised. */
    twostate predicate InterruptedAndCancelled(before: Sess, now: Time, gaps: seq<Gaps>, raised: bool)
      requires |gaps| == |CancelIds(before.queue.actions, true)|
      reads this, queue, scheduler
    {
      var i := Interrupt(before, now);
      var c := CancelEach(before.queue, CancelIds(before.queue.actions, true), gaps);
      && State() == i.sess.(queue := c.queue) && raised == c.raised
      && scheduler.Absorbed(i.events + CancelReports(c.reported, before.stopDetail, before.Attachments()))
    }

    /** The running action is reported with the result the stop asked for, under the locks; then the
        queue is cancelled without them. */
    method InterruptAndCancel(now: Time, gaps: seq<Gaps>) returns (raised: bool)
      requires Valid() && |gaps| == |CancelIds(queue.actions, true)|
      modifies this`interrupted, queue, scheduler
      ensures scheduler.Valid() && InterruptedAndCancelled(old(State()), now, gaps, raised)
    {
      hide Absorb, CancelEach, CancelIds, CancelReports, Coherent, NotQueued;
      ghost var s, updates := State(), scheduler.updates;
      ghost var i := Interrupt(s, now);
      if current.Some? {
        interrupted := true;
        scheduler.HandleUpdate(
          Status(current.value.spec.id, Some(stopResult), None, Some(current.value.startTime), Some(now), stopDetail),
          assetSync && jobAttachments);
      } else {
        AbsorbNothing(updates);
      }
      assert State() == i.sess && scheduler.Absorbed(i.events);
      ghost var c := CancelEach(s.queue, CancelIds(s.queue.actions, true), gaps);
      AbsorbAppend(updates, i.events, CancelReports(c.reported, stopDetail, s.Attachments()));
      raised := queue.CancelAllUnlocked(gaps, stopDetail, assetSync && jobAttachments);
    }

    /** The exits of the active environments, innermost first. */
    method PlanExits() returns (steps: seq<CleanupStep>)
      ensures steps == ExitSteps(envs)
    {
      steps := [];
      ghost var all := ExitSteps(envs);
      var i := |envs|;
      while i > 0
        invariant 0 <= i <= |envs| && |steps| == |all| - i && steps == all[..|all| - i]
      {
        i := i - 1;
        assert all[|steps|] == ExitEnv(envs[i]);
        steps := steps + [ExitEnv(envs[i])];
      }
    }

    /** The cleanup after the run loop ended, as far as no callback comes in between. `gaps` are the
        assignments that fall into the cancelation of the queue. When a removal raises, the cleanup
        ends there; otherwise its steps are attempted in order until one does not end in time or
        cannot be watched. */
    method Cleanup(now: Time, gaps: seq<Gaps>, outcomes: seq<CleanupOutcome>)
      returns (raised: bool, attempted: seq<CleanupStep>)
      requires Valid() && |gaps| == |CancelIds(queue.actions, true)|
      requires |outcomes| == |CleanupSteps(current.Some?, envs)|
      modifies this`interrupted, queue, scheduler
      ensures scheduler.Valid() && InterruptedAndCancelled(old(State()), now, gaps, raised)
      ensures AttemptedUntil(raised, CleanupSteps(current.Some?, envs), outcomes, attempted)
      ensures raised ==> attempted == []
      ensures !raised && current.Some? ==> attempted != [] && attempted[0].CancelRunning? && ExitsInnermostFirst(attempted[1..], envs)
      ensures !raised && current.None? ==> ExitsInnermostFirst(attempted, envs)
    {
      var planned := if current.Some? then [CancelRunning] else [];
      raised := InterruptAndCancel(now, gaps);
      if raised {
        return true, [];
      }
      var exits := PlanExits();
      attempted := AttemptSteps(planned + exits, outcomes);
      RunningFirst(current.Some?, envs, outcomes, attempted);
    }
  }

  /** A front of the exits of the environments, innermost first. */
  predicate ExitsInnermostFirst(steps: seq<CleanupStep>, envs: seq<EnvId>) {
    |steps| <= |envs| && forall i | 0 <= i < |steps| :: steps[i] == ExitEnv(envs[|envs| - 1 - i])
  }

  /** Unless the cancelation of the queue raised, the cleanup cancels the running action if and only if
      there is one, once and before it exits anything; what follows are exits, innermost first. When it
      raised, nothing is attempted. */
  lemma CleanupCancelsTheRunningFirst(running: bool, envs: seq<EnvId>, raised: bool, outcomes: seq<CleanupOutcome>,
          attempted: seq<CleanupStep>)
    requires |outcomes| == |CleanupSteps(running, envs)|
    requires AttemptedUntil(raised, CleanupSteps(running, envs), outcomes, attempted)
    ensures |outcomes| == |envs| + if running then 1 else 0
    ensures CancelRunning in attempted <==> running && !raised
    ensures raised ==> attempted == []
    ensures forall i | 0 <= i < |attempted| && attempted[i].CancelRunning? :: i == 0
    ensures ExitsInnermostFirst(if running && !raised then attempted[1..] else attempted, envs)
  {
    if !raised {
      RunningFirst(running, envs, outcomes, attempted);
      if running {
        assert attempted == [attempted[0]] + attempted[1..];
        assert forall i | 1 <= i < |attempted| :: attempted[i] == attempted[1..][i - 1];
      }
    }
  }

  lemma RunningFirst(running: bool, envs: seq<EnvId>, outcomes: seq<CleanupOutcome>, attempted: seq<CleanupStep>)
    requires |outcomes| == |CleanupSteps(running, envs)|
    requires AttemptedUntil(false, CleanupSteps(running, envs), outcomes, attempted)
    ensures running ==> attempted != [] && attempted[0].CancelRunning?
    ensures ExitsInnermostFirst(if running then attempted[1..] else attempted, envs)
  {
    var steps, exits := CleanupSteps(running, envs), ExitSteps(envs);
    if running {
      assert steps[1..] == exits;
      forall i | 1 <= i < |attempted| ensures attempted[i] == exits[i - 1] {
        assert attempted[i] == steps[i];
      }
    } else {
      assert steps == exits;
    }
  }

  /** Which steps were attempted: none when the cancelation raised; otherwise all, or those up to the
      first one that ended the cleanup. */
  predicate AttemptedUntil(raised: bool, steps: seq<CleanupStep>, outcomes: seq<CleanupOutcome>, attempted: seq<CleanupStep>)
    requires |outcomes| == |steps|
  {
    if raised then attempted == []
    else
      && attempted <= steps
      && (forall k | 0 <= k < |attempted| - 1 :: !outcomes[k].EndsCleanup())
      && (|attempted| < |outcomes| ==> attempted != [] && outcomes[|attempted| - 1].EndsCleanup())
  }

  method AttemptSteps(steps: seq<CleanupStep>, outcomes: seq<CleanupOutcome>) returns (attempted: seq<CleanupStep>)
    requires |outcomes| == |steps|
    ensures AttemptedUntil(false, steps, outcomes, attempted)
  {
    attempted := [];
    for k := 0 to |steps|
      invariant |attempted| == k && attempted == steps[..k]
      invariant forall m | 0 <= m < k :: !outcomes[m].EndsCleanup()
    {
      attempted := attempted + [steps[k]];
      if outcomes[k].EndsCleanup() {
        break;
      }
    }
  }

  /** The exits that the cleanup attempts are those of exactly the active environments, innermost
      first, if and only if the cancelation of the queue did not raise, or there is none to exit, and
      no step before the last one ends the cleanup. */
  lemma CleanupExitsEverything(running: bool, envs: seq<EnvId>, raised: bool, outcomes: seq<CleanupOutcome>,
          attempted: seq<CleanupStep>)
    requires |outcomes| == |CleanupSteps(running, envs)|
    requires AttemptedUntil(raised, CleanupSteps(running, envs), outcomes, attempted)
    ensures EnvExits(attempted) == Reverse(envs)
            <==> if raised then envs == []
                 else forall k | 0 <= k < |outcomes| - 1 :: outcomes[k].CleanupRaised? || outcomes[k].CleanupCompleted?
  {
    hide CleanupSteps, EnvExits;
    var steps := CleanupSteps(running, envs);
    ExitsAreReversed(running, envs);
    if raised {
      NoExits();
      assert envs != [] ==> |Reverse(envs)| > 0;
    } else if |attempted| == |outcomes| {
      assert attempted == steps;
    } else {
      assert outcomes[|attempted| - 1].EndsCleanup() && attempted == steps[..|attempted|];
      FewerExits(running, envs, |attempted|);
    }
  }

  lemma NoExits()
    ensures EnvExits([]) == []
  {
  }

  /** For assignments that list everything still to be cancelled, as the scheduler's do, the cleanup
      exits no environment because of the cancelation exactly when one of them falls between the pop
      of an entry and its removal. */
  lemma CancelationRaisesExactlyWhenAssigned(q: Queue, gaps: seq<Gaps>)
    requires Coherent(q) && |gaps| == |CancelIds(q.actions, true)| && AllListed(gaps, CancelIds(q.actions, true))
    ensures var c := CancelEach(q, CancelIds(q.actions, true), gaps);
            c.raised <==> exists i :: 0 <= i < |gaps| && gaps[i].between.Some?
  {
    ListedHolds(q);
    RaisesExactlyWhenAssignedInBetween(q, CancelIds(q.actions, true), gaps);
  }

  function EnvExits(steps: seq<CleanupStep>): seq<EnvId> {
    if steps == [] then []
    else (if steps[0].ExitEnv? then [steps[0].env] else []) + EnvExits(steps[1..])
  }

  lemma {:induction false} EnvExitsAll(steps: seq<CleanupStep>)
    requires forall i | 0 <= i < |steps| :: steps[i].ExitEnv?
    ensures |EnvExits(steps)| == |steps| && forall i | 0 <= i < |steps| :: EnvExits(steps)[i] == steps[i].env
  {
    if steps != [] {
      EnvExitsAll(steps[1..]);
      forall i | 1 <= i < |steps| ensures EnvExits(steps)[i] == steps[i].env {
        assert EnvExits(steps)[i] == EnvExits(steps[1..])[i - 1] == steps[1..][i - 1].env;
      }
    }
  }

  lemma ExitsAreReversed(running: bool, envs: seq<EnvId>)
    ensures EnvExits(CleanupSteps(running, envs)) == Reverse(envs)
  {
    EnvExitsAll(ExitSteps(envs));
    if running {
      assert CleanupSteps(running, envs)[1..] == ExitSteps(envs);
    } else {
      assert CleanupSteps(running, envs) == ExitSteps(envs);
    }
  }

  /** Stopping before the last step leaves an environment out. */
  lemma FewerExits(running: bool, envs: seq<EnvId>, n: nat)
    requires n < |CleanupSteps(running, envs)| && n > 0
    ensures EnvExits(CleanupSteps(running, envs)[..n]) != Reverse(envs)
  {
    var steps := CleanupSteps(running, envs);
    if running {
      assert steps[..n][1..] == ExitSteps(envs)[..n - 1];
      EnvExitsAll(ExitSteps(envs)[..n - 1]);
    } else {
      assert steps[..n] == ExitSteps(envs)[..n];
      EnvExitsAll(ExitSteps(envs)[..n]);
    }
  }

  lemma HandleUpdateParts(s: Sess, state: ActionState, action: CurrentAction, now: Time, detail: int)
    ensures var e, c := SessionModel.HandleUpdate(s, state, action, now, detail), CancelQueued(s, detail);
            var canceled := if Unsuccessful(state) then c.events else [];
            && e.sess == s.(queue := if Unsuccessful(state) then c.sess.queue else s.queue,
                            current := if state.RUNNING? then s.current else None)
            && e.events == if s.target.None? then canceled + [Reported(StatusOf(action, state, now, detail), s.Attachments())]
                           else canceled
  {
  }

  lemma CancelKeeps(s: Sess, detail: int)
    ensures var c := CancelQueued(s, detail); c.sess == s.(queue := c.sess.queue) && !c.crashed
  {
  }

  lemma StartActionByOutcome(s: Sess, answer: Answer, outcome: StartOutcome, now: Time, detail: int)
    ensures var e := SessionModel.StartAction(s, answer, outcome, now, detail);
            match DequeueOutcome(s.queue, answer)
            case Nothing => e == Effect(s.(current := None), [], false)
            case Crash => e == Effect(s, [], true)
            case ActionError(id) =>
              var c := CancelQueued(s, detail);
              && e.sess == c.sess.(current := None)
              && e.events == [Reported(FailedAt(id, now, detail), s.Attachments())] + c.events
              && !e.crashed
            case NextAction(spec) => e == DefinitionStarted(Begun(s, answer, spec, now), spec, outcome, now, detail)
  {
  }

  lemma NothingDequeued(q: Queue, answer: Answer)
    ensures DequeueOutcome(q, answer).NextAction? || QueueModel.Dequeue(q, answer) == q
  {
  }

  lemma AbsorbNothing(updates: map<ActionId, Status>)
    ensures Absorb(updates, []) == updates
  {
  }

  lemma FailStartEvents(s: Sess, spec: ActionSpec, now: Time, detail: int)
    ensures var e := FailStart(s, spec, now, detail);
            && !e.crashed && |e.events| > 0 && e.events[0] == StartEvent(spec)
            && e.events[1..] == [Reported(FailedAt(FailedId(s, spec), now, detail), s.Attachments())]
                                + CancelQueued(s.(target := None), detail).events
  {
    var c := CancelQueued(s.(target := None), detail);
    assert FailStart(s, spec, now, detail).events
        == [StartEvent(spec)] + ([Reported(FailedAt(FailedId(s, spec), now, detail), s.Attachments())] + c.events);
  }

  lemma AbsorbAfterFirst(updates: map<ActionId, Status>, first: seq<Event>, events: seq<Event>)
    requires |first| == 1 && events != [] && events[0] == first[0]
    ensures Absorb(Absorb(updates, first), events[1..]) == Absorb(updates, events)
    ensures first + events[1..] == events
  {
    AbsorbAppend(updates, first, events[1..]);
    assert first + events[1..] == events;
  }

  /** The specs whose id is not in `gone`, as the loop that filters them. */
  method FilterOut(specs: seq<ActionSpec>, gone: set<ActionId>) returns (kept: seq<ActionSpec>)
    ensures kept == Outstanding(specs, gone)
  {
    kept := [];
    assert specs[..0] == [];
    for i := 0 to |specs|
      invariant kept == Outstanding(specs[..i], gone)
    {
      OutstandingAppend(specs[..i], [specs[i]], gone);
      assert specs[..i + 1] == specs[..i] + [specs[i]];
      if specs[i].id !in gone {
        kept := kept + [specs[i]];
      }
    }
    assert specs[..|specs|] == specs;
  }

  /** The new queue is accepted unless it lists an action of an unknown type that the queue does not
      know by its id. */
  lemma AcceptedUnlessUnknown(q: Queue, listed: seq<ActionSpec>, done: set<ActionId>, running: set<ActionId>)
    requires DistinctIds(listed)
    ensures ReplaceSucceeds(q, Outstanding(Outstanding(listed, done), running))
            <==> forall a | a in listed ::
                   a.id in done || a.id in running || a.id in q.byId || a.kind.StartsWithEnv() || a.kind.TaskRun? || a.kind.SyncInput?
  {
    OutstandingMembers(listed, done);
    OutstandingMembers(Outstanding(listed, done), running);
    FillFailsOnUnknownType(q.byId, q.nextEvent, Outstanding(Outstanding(listed, done), running));
  }

  /** The scheduler's work for one session of a response: cancelations first, then the new queue;
      when the session's thread has ended, its actions are returned instead. The running action is
      asked to cancel exactly when the service wants it cancelled and no completion of it is pending,
      whether the thread has ended or not. */
  method UpdateSessionActions(scheduler: Scheduler, session: Session, listed: seq<ActionSpec>, cancel: seq<ActionId>,
          ended: bool, now: Time, detail: int)
    returns (ok: bool)
    requires session.Valid() && session.scheduler == scheduler && DistinctIds(listed)
    modifies scheduler, session`cancelsSent, session.queue
    ensures session.Valid()
    ensures if ended then
              && session.State() == old(session.State())
              && scheduler.updates == ReturnStopped(old(scheduler.updates), listed, now, detail)
            else
              && session.State() == ReplaceAssigned(old(session.State()), Unfinished(listed, old(scheduler.updates)))
              && unchanged(scheduler)
    ensures if session.current.Some? && session.current.value.spec.id in cancel
               && !(session.current.value.spec.id in old(scheduler.updates)
                    && old(scheduler.updates)[session.current.value.spec.id].completed.Some?)
            then |session.cancelsSent| > |old(session.cancelsSent)| && old(session.cancelsSent) <= session.cancelsSent
              && forall i | |old(session.cancelsSent)| <= i < |session.cancelsSent| ::
                   session.cancelsSent[i] == session.current.value.spec.id
            else session.cancelsSent == old(session.cancelsSent)
    ensures ok <==> ended || forall a | a in listed ::
                      || (a.id in old(scheduler.updates) && old(scheduler.updates)[a.id].completed.Some?)
                      || (session.current.Some? && a.id == session.current.value.spec.id)
                      || a.id in old(session.queue.byId)
                      || a.kind.StartsWithEnv() || a.kind.TaskRun? || a.kind.SyncInput?
  {
    var pending: seq<ActionId> := [];
    for i := 0 to |cancel|
      invariant forall id :: id in pending <==> id in cancel[..i] && id !in TerminalIds(scheduler.updates)
    {
      if !(cancel[i] in scheduler.updates && scheduler.updates[cancel[i]].completed.Some?) {
        pending := pending + [cancel[i]];
      }
    }
    session.CancelActions(pending);
    ok := true;
    if ended {
      scheduler.ReturnSessionActions(listed, now, detail);
    } else {
      AcceptedUnlessUnknown(session.queue.State(), listed, TerminalIds(scheduler.updates), CurrentIds(session.State()));
      var todo := FilterOut(listed, TerminalIds(scheduler.updates));
      OutstandingMembers(listed, TerminalIds(scheduler.updates));
      ok := session.ReplaceAssignedActions(todo);
    }
  }
}
