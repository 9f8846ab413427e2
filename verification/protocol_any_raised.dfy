/** What it means for a session that the cancelation of its queue raised: its cleanup is over. */
module AnyRaised {
  import opened Actions
  import opened Lifecycle
  import opened QueueModel
  import opened SessionModel
  import opened SchedulerModel
  import opened Protocol
  import opened ProtocolShared
  import opened ProtocolSides
  import opened ProtocolCallback
  import opened ProtocolSteps
  import opened ProtocolRaces
  import opened AnySides
  import opened AnySteps
  import opened AnyCallbacks
  import opened AnyMoves
  import opened AnyLog
  import opened AnyRuns

  lemma CallbackKeepsEnvs(s: Sess, state: ActionState, now: Time, detail: int)
    ensures ActionUpdated(s, state, now, detail).sess.envs == s.envs
  {
    hide InsertFront, HandleUpdate;
    if s.target.Some? {
      EndKeepsEnvs(s.(target := None), state, s.target.value, now, detail);
    } else if s.current.Some? {
      EndKeepsEnvs(s, state, s.current.value, now, detail);
    }
  }

  lemma EndKeepsEnvs(s: Sess, state: ActionState, action: CurrentAction, now: Time, detail: int)
    ensures HandleUpdate(s, state, action, now, detail).sess.envs == s.envs
  {
    hide CancelAll, CancelIds, StatusOf;
  }

  /** A session whose thread has ended stays so, with the environments it had. */
  lemma EndedStays(s: State, step: Step, sid: SessionId)
    requires Enabled(s, step) && sid in s.sides && s.sides[sid].thread.Ended?
    ensures sid in Next(s, step).sides && Next(s, step).sides[sid].thread.Ended?
    ensures Next(s, step).sides[sid].sess.envs == s.sides[sid].sess.envs
    ensures s.sides[sid].pipeline <= Next(s, step).sides[sid].pipeline
  {
    hide Torn, Replace, Absorb, ActionUpdated, ReturnEvents, StartAction, Interrupt;
    if step.Callback? && step.sid == sid {
      CallbackKeepsEnvs(s.sides[sid].sess, step.state, step.now, step.detail);
    }
  }

  lemma {:induction false} EndedForGood(s: State, steps: seq<Step>, sid: SessionId)
    requires AnyInv(s) && Possible(s, steps) && sid in s.sides && s.sides[sid].thread.Ended?
    ensures var r := Reached(s, steps);
            && AnyInv(r) && sid in r.sides && r.sides[sid].thread.Ended? && r.sides[sid].sess.envs == s.sides[sid].sess.envs
            && s.sides[sid].pipeline <= r.sides[sid].pipeline
    decreases steps
  {
    hide AnyInv, Enabled, Next;
    if steps != [] {
      StepAny(s, steps[0]);
      EndedStays(s, steps[0], sid);
      EndedForGood(Next(s, steps[0]), steps[1..], sid);
    }
  }

  /** What a step of one session says is about that session's actions, in every run. */
  lemma EventsAreOwnAny(s: State, step: Step)
    requires AnyInv(s) && Enabled(s, step) && SessionStepOf(step).Some?
    ensures step.sid in s.sides && forall e | e in StepEvents(s, step) :: HasId(s.sides[step.sid].pipeline, e.Subject())
  {
    hide AnyInv, AnySide, Enabled, Next, AtRest, AllClosed, StartAction, ActionUpdated, ReturnEvents, Interrupt, CancelReport, EventsOk,
      MarksOf, Absorb;
    EnabledFacts(s, step);
    AnyParts(s, step.sid);
    var side, m := s.sides[step.sid], MarksOf(s.log);
    match step {
      case Start(_, answer, outcome, now, detail) =>
        AnyIdle(side, m, s.updates, s.view);
        StartAny(side, m, s.updates, s.view, answer, outcome, now, detail);
        OwnEvents(side.pipeline, m, StepEvents(s, step));
      case Callback(_, state, now, detail) =>
        CallbackAny(side, m, s.updates, s.view, state, now, detail);
        OwnEvents(side.pipeline, m, StepEvents(s, step));
      case GiveBack(_, now, detail) =>
        NextGiveBack(s, step);
        ListedIs(s, step.sid);
        GiveBackAny(side, m, s.updates, s.view, s.link.response[step.sid], now, detail);
        OwnEvents(side.pipeline, m, StepEvents(s, step));
      case CleanupInterrupt(_, now) =>
        InterruptAny(side, m, s.updates, s.view, now);
        OwnEvents(side.pipeline, m, StepEvents(s, step));
      case CleanupReport(_) =>
        ReportAny(side, m, s.updates, s.view);
        OwnEvents(side.pipeline, m, StepEvents(s, step));
      case _ =>
    }
  }

  /** Only the return of its actions says anything about an action of a session whose thread ended. */
  lemma EndedIsSilent(s: State, step: Step, sid: SessionId, e: Event)
    requires AnyInv(s) && Enabled(s, step) && sid in s.sides && s.sides[sid].thread.Ended?
    requires e in StepEvents(s, step) && HasId(s.sides[sid].pipeline, e.Subject())
    ensures step.GiveBack? && step.sid == sid
  {
    hide AnyInv, AnySide, Enabled, StartAction, ActionUpdated, ReturnEvents, Interrupt, CancelReport, HasId;
    if SessionStepOf(step).Some? {
      EventsAreOwnAny(s, step);
      if step.sid != sid {
        PipelinesApart(s, step.sid, sid, e.Subject());
      } else {
        EnabledFacts(s, step);
        if step.Callback? {
          AnyParts(s, sid);
          PastCallback(s.sides[sid], MarksOf(s.log), s.updates, s.view, step.state, step.now, step.detail);
        }
      }
    }
  }

  lemma PipelinesApart(s: State, one: SessionId, two: SessionId, id: ActionId)
    requires AnyInv(s) && one in s.sides && two in s.sides && one != two
    ensures !(HasId(s.sides[one].pipeline, id) && HasId(s.sides[two].pipeline, id))
  {
    hide AllSides, LogOk, AnyLink;
    assert SharesNoId(s.sides[one].pipeline, s.sides[two].pipeline);
  }

  /** The state after a removal that raised, and after any run from there. */
  ghost predicate Raised(s: State, sid: SessionId, steps: seq<Step>) {
    && AnyInv(s) && Enabled(s, CleanupRemove(sid))
    && s.sides[sid].thread.stage.entry !in s.sides[sid].sess.queue.actions
    && Possible(Next(s, CleanupRemove(sid)), steps)
  }

  ghost function AfterRaise(s: State, sid: SessionId, steps: seq<Step>): State
    requires Raised(s, sid, steps)
  {
    Reached(Next(s, CleanupRemove(sid)), steps)
  }

  lemma RaiseEnds(s: State, sid: SessionId, steps: seq<Step>)
    requires Raised(s, sid, steps)
    ensures Enabled(s, CleanupRemove(sid)) && sid in s.sides && s.sides[sid].thread.Cancelling?
    ensures var r := Next(s, CleanupRemove(sid));
            && Possible(r, steps) && AnyInv(r) && sid in r.sides && r.sides[sid].thread.Ended?
            && r.sides[sid].sess.envs == s.sides[sid].sess.envs && r.sides[sid].pipeline == s.sides[sid].pipeline
  {
    hide AnyInv, Enabled, Next, RemoveFirst;
    CancelationMoves(s, CleanupRemove(sid));
    NextSilent(s, CleanupRemove(sid));
    StepAny(s, CleanupRemove(sid));
  }

  /** A removal that raises ends the cleanup for good: whatever happens from then on, the thread does
      not go on, no environment is exited, and those that were active stay active. */
  lemma RaiseLeavesEnvironments(s: State, sid: SessionId, steps: seq<Step>, env: EnvId)
    requires Raised(s, sid, steps)
    ensures var r := AfterRaise(s, sid, steps);
            && sid in s.sides && sid in r.sides && r.sides[sid].thread.Ended?
            && r.sides[sid].sess.envs == s.sides[sid].sess.envs && !Enabled(r, CleanupExitEnv(sid, env))
  {
    hide Raised, AnyInv, Enabled, Next;
    RaiseEnds(s, sid, steps);
    EndedForGood(Next(s, CleanupRemove(sid)), steps, sid);
    EndedExitsNothing(AfterRaise(s, sid, steps), sid, env);
  }

  lemma EndedExitsNothing(s: State, sid: SessionId, env: EnvId)
    requires sid in s.sides && s.sides[sid].thread.Ended?
    ensures !Enabled(s, CleanupExitEnv(sid, env))
  {
  }

  /** What the cancelation had still to report is completed only when the scheduler gives the session's
      actions back. */
  lemma RaiseLeavesTheRestToGiveBack(s: State, sid: SessionId, steps: seq<Step>, step: Step, e: Event)
    requires Raised(s, sid, steps) && Enabled(AfterRaise(s, sid, steps), step)
    requires e in StepEvents(AfterRaise(s, sid, steps), step) && e.Subject() in s.sides[sid].thread.Unreported()
    ensures step.GiveBack? && step.sid == sid
  {
    RaiseEnds(s, sid, steps);
    UnreportedIsOwn(s, sid);
    hide Raised, AnyInv, Enabled, Next, StepEvents, HasId;
    EndedForGood(Next(s, CleanupRemove(sid)), steps, sid);
    var r := AfterRaise(s, sid, steps);
    LongerHasId(s.sides[sid].pipeline, r.sides[sid].pipeline, e.Subject());
    EndedIsSilent(r, step, sid, e);
  }

  lemma UnreportedIsOwn(s: State, sid: SessionId)
    requires AnyInv(s) && sid in s.sides && s.sides[sid].thread.Cancelling?
    ensures forall id | id in s.sides[sid].thread.Unreported() :: HasId(s.sides[sid].pipeline, id)
  {
    AnyParts(s, sid);
    hide AnyInv;
  }

  lemma LongerHasId(one: seq<ActionSpec>, two: seq<ActionSpec>, id: ActionId)
    requires one <= two && HasId(one, id)
    ensures HasId(two, id)
  {
    var i :| 0 <= i < |one| && one[i].id == id;
    assert two[i].id == id;
  }
}
