/** More results about the history of a run: in a run without a failed lookup that names its action,
    actions only move forward; and in every run, each report carries the times its status calls for. */
module ProtocolHistory {
  import opened Actions
  import opened Lifecycle
  import opened QueueModel
  import opened SessionModel
  import opened SchedulerModel
  import opened Protocol
  import opened ProtocolTheorems
  import opened AnySides
  import opened AnyRuns

  // ----- forward only

  /** How far along an action is. */
  function Rank(p: Phase): nat {
    match p
    case Queued => 0
    case Running(_) => 1
    case UploadWaiting => 2
    case Uploading => 3
    case Done => 4
    case Broken => 5
  }

  lemma {:induction false} TrackForward(t: Track, events: seq<Event>, id: ActionId)
    ensures Rank(t.phase) <= Rank(TrackFrom(t, events, id).phase)
    decreases events
  {
    if events != [] {
      TrackForward(Follow(t, events[0], id), events[1..], id);
    }
  }

  /** In a run without a failed lookup that names its action, whatever succeeds, is cancelled or is
      interrupted was started before. */
  lemma EndsWhatStarted(s: State, steps: seq<Step>, j: nat) returns (i: nat)
    requires Init(s) && Legal(s, steps) && j < |Exec(s, steps).log| && Exec(s, steps).log[j].Reported?
    requires Exec(s, steps).log[j].status.completed in {Some(SUCCEEDED), Some(CANCELED), Some(INTERRUPTED)}
    ensures i < j && Exec(s, steps).log[i].Started? && Exec(s, steps).log[i].id == Exec(s, steps).log[j].status.id
  {
    InitHolds(s);
    RunKeeps(s, steps);
    var log := Exec(s, steps).log;
    assert !PhaseOf(log, log[j].status.id).Broken?;
    hide *;
    i := EndsAfterStart(log, log[j].status.id, j);
  }

  /** And what is reported as never attempted was never started, unless it is a task that awaits its
      upload: then nothing was said about it since the upload was queued. */
  lemma NeverAttemptedMeansNotStarted(s: State, steps: seq<Step>, i: nat, j: nat) returns (k: nat)
    requires Init(s) && Legal(s, steps) && i < j < |Exec(s, steps).log| && Exec(s, steps).log[j].Reported?
    requires Exec(s, steps).log[j].status.completed == Some(NEVER_ATTEMPTED)
    requires Exec(s, steps).log[i].Started? && Exec(s, steps).log[i].id == Exec(s, steps).log[j].status.id
    ensures var log := Exec(s, steps).log;
            && i < k < j && log[i].task && log[k] == UploadQueued(log[i].id)
            && forall m | k < m < j :: log[m].Subject() != log[i].id
  {
    InitHolds(s);
    RunKeeps(s, steps);
    var log := Exec(s, steps).log;
    assert !PhaseOf(log, log[i].id).Broken?;
    hide *;
    k := NeverAttemptedAfterStart(log, log[i].id, i, j);
  }

  /** In such a run each action only moves forward: queued, running, perhaps its upload queued, its
      upload running, done. */
  lemma ActionsOnlyMoveForward(s: State, steps: seq<Step>, id: ActionId, i: nat, j: nat)
    requires Init(s) && Legal(s, steps) && i <= j <= |Exec(s, steps).log|
    ensures var log := Exec(s, steps).log;
            Rank(PhaseOf(log[..i], id)) <= Rank(PhaseOf(log[..j], id)) <= Rank(Done)
  {
    InitHolds(s);
    RunKeeps(s, steps);
    var log := Exec(s, steps).log;
    assert !PhaseOf(log, id).Broken?;
    hide *;
    ForwardIn(log, id, i, j);
  }

  lemma ForwardIn(log: seq<Event>, id: ActionId, i: nat, j: nat)
    requires i <= j <= |log| && !PhaseOf(log, id).Broken?
    ensures Rank(PhaseOf(log[..i], id)) <= Rank(PhaseOf(log[..j], id)) <= Rank(Done)
  {
    assert log[..j] == log[..i] + log[i..j];
    TrackAppend(log[..i], log[i..j], id);
    TrackForward(TrackOf(log[..i], id), log[i..j], id);
    PrefixUnbroken(log, j, id);
  }

  // ----- times

  /** An action that was never attempted carries no times, one that was completed otherwise carries
      when it started and ended, and progress carries when it was made. */
  predicate WellTimed(st: Status) {
    if st.completed == Some(NEVER_ATTEMPTED) then st.startTime.None? && st.endTime.None? && st.updateTime.None?
    else if st.Terminal() then
      st.startTime.Some? && st.endTime.Some? && st.updateTime.None?
    else st.startTime.Some? && st.endTime.None? && st.updateTime.Some?
  }

  predicate AllWellTimed(events: seq<Event>) {
    forall e | e in events && e.Reported? :: WellTimed(e.status)
  }

  lemma BothWellTimed(a: seq<Event>, b: seq<Event>)
    requires AllWellTimed(a) && AllWellTimed(b)
    ensures AllWellTimed(a + b)
  {
  }

  lemma CancelTimes(s: Sess, detail: int)
    ensures AllWellTimed(CancelQueued(s, detail).events)
  {
    hide CancelAll, CancelIds;
  }

  lemma StartTimes(s: Sess, answer: Answer, outcome: StartOutcome, now: Time, detail: int)
    ensures AllWellTimed(StartAction(s, answer, outcome, now, detail).events)
  {
    hide CancelQueued, Dequeue, Launch, LaunchSucceeds, DequeueOutcome, FailStart, Begun;
    CancelTimes(s, detail);
    match DequeueOutcome(s.queue, answer) {
      case NextAction(spec) => FailStartTimes(Launch(Begun(s, answer, spec, now), spec, outcome), spec, now, detail);
      case _ =>
    }
  }

  lemma FailStartTimes(s: Sess, spec: ActionSpec, now: Time, detail: int)
    ensures AllWellTimed(FailStart(s, spec, now, detail).events)
  {
    hide CancelQueued;
    CancelTimes(s.(target := None), detail);
  }

  lemma HandleTimes(s: Sess, state: ActionState, action: CurrentAction, now: Time, detail: int)
    ensures AllWellTimed(HandleUpdate(s, state, action, now, detail).events)
  {
    hide CancelQueued;
    CancelTimes(s, detail);
  }

  lemma CallbackTimes(s: Sess, state: ActionState, now: Time, detail: int)
    ensures AllWellTimed(ActionUpdated(s, state, now, detail).events)
  {
    hide HandleUpdate, InsertFront;
    if s.target.Some? {
      HandleTimes(s.(target := None), state, s.target.value, now, detail);
    }
    if s.current.Some? {
      HandleTimes(s, state, s.current.value, now, detail);
    }
  }

  lemma {:induction false} ReturnTimes(updates: map<ActionId, Status>, listed: seq<ActionSpec>, first: bool,
          now: Time, detail: int)
    ensures AllWellTimed(ReturnEvents(updates, listed, first, now, detail))
    decreases listed
  {
    if listed != [] {
      var st := ReturnStatus(listed[0], first, now, detail);
      ReturnTimes(updates, listed[1..], false, now, detail);
      ReturnTimes(updates[st.id := st], listed[1..], false, now, detail);
    }
  }

  lemma StepTimes(s: State, step: Step)
    requires AnyInv(s) && Enabled(s, step) && AllWellTimed(s.log)
    ensures AllWellTimed(Next(s, step).log)
  {
    hide AnyInv, StartAction, ActionUpdated, ReturnEvents, CancelQueued, AllWellTimed, Absorb, Respond, Extend,
      Commit, Transaction, AfterStart, ReplaceAssigned, Unfinished;
    NothingTimed();
    CancelReportTimed(s, step);
    match step {
      case Start(sid, answer, outcome, now, detail) =>
        StartTimes(s.sides[sid].sess, answer, outcome, now, detail);
        BothWellTimed(s.log, StartAction(s.sides[sid].sess, answer, outcome, now, detail).events);
      case Callback(sid, state, now, detail) =>
        CallbackTimes(s.sides[sid].sess, state, now, detail);
        BothWellTimed(s.log, ActionUpdated(s.sides[sid].sess, state, now, detail).events);
      case GiveBack(sid, now, detail) =>
        ReturnTimes(s.updates, s.link.response[sid], true, now, detail);
        BothWellTimed(s.log, ReturnEvents(s.updates, s.link.response[sid], true, now, detail));
      case CleanupInterrupt(sid, now) =>
        InterruptTimes(s, sid, now);
        BothWellTimed(s.log, Interrupt(s.sides[sid].sess, now).events);
      case CleanupReport(sid) =>
        BothWellTimed(s.log, [CancelReport(s.sides[sid])]);
      case _ =>
        BothWellTimed(s.log, []);
        assert s.log + [] == s.log;
    }
  }

  lemma CancelReportTimed(s: State, step: Step)
    requires Enabled(s, step)
    ensures step.CleanupReport? ==> AllWellTimed([CancelReport(s.sides[step.sid])])
  {
  }

  lemma NothingTimed()
    ensures AllWellTimed([])
  {
  }

  lemma InterruptTimes(s: State, sid: SessionId, now: Time)
    requires AnyInv(s) && sid in s.sides
    ensures AllWellTimed(Interrupt(s.sides[sid].sess, now).events)
  {
    hide AnyInv, AnySide, Interrupt, AllWellTimed;
    AnyParts(s, sid);
    PipelineIsOk(s.sides[sid], MarksOf(s.log), s.updates, s.view);
    InterruptWellTimed(s.sides[sid].sess, now);
  }

  lemma InterruptWellTimed(s: Sess, now: Time)
    requires s.stopResult in {INTERRUPTED, FAILED}
    ensures AllWellTimed(Interrupt(s, now).events)
  {
  }

  lemma {:induction false} RunTimes(s: State, steps: seq<Step>)
    requires AnyInv(s) && Possible(s, steps) && AllWellTimed(s.log)
    ensures AllWellTimed(Reached(s, steps).log)
    decreases steps
  {
    hide AnyInv, Enabled, Next, AllWellTimed;
    if steps != [] {
      StepTimes(s, steps[0]);
      StepAny(s, steps[0]);
      RunTimes(Next(s, steps[0]), steps[1..]);
    }
  }

  /** Every report of every run is well timed, whatever the lookups answer. */
  lemma EveryReportIsWellTimed(s: State, steps: seq<Step>, i: nat)
    requires Init(s) && Possible(s, steps) && i < |Reached(s, steps).log| && Reached(s, steps).log[i].Reported?
    ensures WellTimed(Reached(s, steps).log[i].status)
  {
    hide AnyInv, Possible, Enabled, Next;
    AnyInit(s);
    NothingTimed();
    RunTimes(s, steps);
    assert Reached(s, steps).log[i] in Reached(s, steps).log;
  }
}
