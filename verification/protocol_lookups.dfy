/** What a failed job entity lookup does to the life cycles: exactly when they survive the step, and
    what becomes of the one that survives. */
module ProtocolLookups {
  import opened Actions
  import opened Lifecycle
  import opened QueueModel
  import opened SessionModel
  import opened SchedulerModel
  import opened Protocol
  import opened ProtocolShared
  import opened ProtocolSides
  import opened ProtocolStart
  import opened ProtocolSteps
  import opened ProtocolTheorems

  /** The session has an ENV_EXIT next. */
  predicate ExitIsNext(side: Side) {
    side.sess.queue.actions != [] && side.sess.queue.actions[0].spec.kind.EnvExit?
  }

  // ----- the step itself

  lemma NoTargetBeforeExit(side: Side, done: set<ActionId>, log: seq<Event>)
    requires Resting(side, done, log) && ExitIsNext(side)
    ensures side.sess.target.None?
  {
    HeadFacts(side, done, log);
  }

  lemma QueuedPhase(side: Side, done: set<ActionId>, log: seq<Event>, i: nat)
    requires Resting(side, done, log) && side.sess.target.None? && i < |side.sess.queue.actions|
    ensures PhaseOf(log, side.sess.queue.actions[i].spec.id).Queued?
  {
    RestingQueue(side, done, log);
    assert Specs(side.sess.queue.actions)[i] == Left(side, done)[i];
    LeftPhases(side, done, log, i);
  }

  lemma GonePhases(side: Side, done: set<ActionId>, log: seq<Event>)
    requires Resting(side, done, log) && side.sess.target.None?
    ensures forall id | id in CancelGone(side.sess.queue) :: PhaseOf(log, id).Queued?
  {
    RestingParts(side, done, log);
    CancelGoneIs(side.sess.queue);
    hide Resting, CancelGone;
    forall id | id in CancelGone(side.sess.queue) ensures PhaseOf(log, id).Queued? {
      var specs := Specs(side.sess.queue.actions);
      var i :| 0 <= i < |specs| && specs[i].id == id;
      QueuedPhase(side, done, log, i);
    }
  }

  /** One action fails, others are cancelled, and each of them was still to be started. */
  lemma FailedAmongCancelled(log: seq<Event>, failed: Event, rest: seq<Event>, gone: set<ActionId>)
    requires Unbroken(log) && CancelsExactly(rest, gone) && failed.Subject() !in gone
    requires failed.Completes() && failed.status.completed == Some(FAILED) && PhaseOf(log, failed.Subject()).Queued?
    requires forall id | id in gone :: PhaseOf(log, id).Queued?
    ensures Unbroken(log + ([failed] + rest))
    ensures PhaseOf(log + ([failed] + rest), failed.Subject()).Done?
  {
    forall id
      ensures !PhaseOf(log + ([failed] + rest), id).Broken?
      ensures id == failed.Subject() ==> PhaseOf(log + ([failed] + rest), id).Done?
    {
      TrackAppend(log, [failed] + rest, id);
      TrackFromAppend(TrackOf(log, id), [failed], rest, id);
      TrackOne(TrackOf(log, id), failed, id);
      assert !PhaseOf(log, id).Broken?;
    }
  }

  lemma ExitLookupFails(side: Side, done: set<ActionId>, log: seq<Event>, answer: Answer, outcome: StartOutcome,
          now: Time, detail: int)
    requires Resting(side, done, log) && Unbroken(log) && ExitIsNext(side)
    requires DequeueOutcome(side.sess.queue, answer).ActionError?
    ensures var log' := log + StartAction(side.sess, answer, outcome, now, detail).events;
            Unbroken(log') && PhaseOf(log', side.sess.queue.actions[0].spec.id).Done?
  {
    hide SideInv, Coupled, Resting, CancelsExactly, CancelGone, StartAction, CancelQueued, DequeueOutcome;
    RestingParts(side, done, log);
    NoTargetBeforeExit(side, done, log);
    QueuedPhase(side, done, log, 0);
    GonePhases(side, done, log);
    CancelGoneIs(side.sess.queue);
    CancelEventFacts(side.sess, detail);
    FailedLookupEvents(side.sess, answer, outcome, now, detail);
    var failed := Reported(FailedAt(side.sess.queue.actions[0].spec.id, now, detail), side.sess.Attachments());
    FailedAmongCancelled(log, failed, CancelQueued(side.sess, detail).events, CancelGone(side.sess.queue));
  }

  lemma InvIsUnbroken(s: State)
    requires Inv(s)
    ensures Unbroken(s.log)
  {
  }

  /** A failed lookup of an ENV_EXIT completes it and leaves it at the head of the queue. */
  lemma ExitCompletesAndStays(s: State, step: Step)
    requires Inv(s) && Enabled(s, step) && !Clean(s, step) && ExitIsNext(s.sides[step.sid])
    ensures var r, exit := Next(s, step), s.sides[step.sid].sess.queue.actions[0].spec;
            && Unbroken(r.log) && PhaseOf(r.log, exit.id).Done?
            && step.sid in r.sides && r.sides[step.sid].thread.Looping? && r.sides[step.sid].sess.current.None?
            && ExitIsNext(r.sides[step.sid]) && r.sides[step.sid].sess.queue.actions[0].spec == exit
  {
    hide Inv, SideInv, Coupled, CancelAll, Enabled, Next, StartAction, DequeueOutcome, DoneIds;
    NextStart(s, step);
    InvParts(s, step.sid);
    var side := s.sides[step.sid];
    RestingParts(side, DoneIds(s), s.log);
    ExitStaysFirst(side.sess.queue);
    FailedLookupIs(side.sess, step.answer, step.outcome, step.now, step.detail);
    ExitLookupFails(side, DoneIds(s), s.log, step.answer, step.outcome, step.now, step.detail);
  }

  lemma ExitStaysFirst(q: Queue)
    requires Coherent(q) && q.actions != [] && q.actions[0].spec.kind.EnvExit?
    ensures CancelAll(q, true).actions != [] && CancelAll(q, true).actions[0] == q.actions[0]
  {
    CancelGoneIs(q);
  }

  /** The life cycles survive a step exactly when it is not the start of an action whose lookup
      fails with an error that names it, or that action is an ENV_EXIT. */
  lemma LifeCyclesSurviveExactlyWhen(s: State, step: Step)
    requires Inv(s) && Enabled(s, step)
    ensures Unbroken(Next(s, step).log) <==> Clean(s, step) || ExitIsNext(s.sides[step.sid])
  {
    if Clean(s, step) {
      StepKeeps(s, step);
      InvIsUnbroken(Next(s, step));
    } else if ExitIsNext(s.sides[step.sid]) {
      ExitCompletesAndStays(s, step);
    } else {
      OtherLookupBreaks(s, step);
    }
  }

  lemma OtherLookupBreaks(s: State, step: Step)
    requires Inv(s) && Enabled(s, step) && !Clean(s, step) && !ExitIsNext(s.sides[step.sid])
    ensures !Unbroken(Next(s, step).log)
  {
    hide Inv, SideInv, Coupled, Enabled, Next, StartAction, DequeueOutcome, DoneIds, Absorb;
    NextStart(s, step);
    InvParts(s, step.sid);
    var side := s.sides[step.sid];
    FailedLookupIs(side.sess, step.answer, step.outcome, step.now, step.detail);
    FailedLookupPhase(side, DoneIds(s), s.log, step.answer, step.outcome, step.now, step.detail);
    assert PhaseOf(Next(s, step).log, side.sess.queue.actions[0].spec.id).Broken?;
  }

  // ----- afterwards

  lemma StepExtendsLog(s: State, step: Step)
    requires Enabled(s, step)
    ensures s.log <= Next(s, step).log
  {
    hide StartAction, ActionUpdated, ReturnEvents, Interrupt, Absorb, Respond, Extend, Commit, Transaction, AfterStart,
      ReplaceAssigned, Unfinished, PopNext, RemovePopped, CancelIds, CancelReport;
  }

  lemma {:induction false} RunExtendsLog(s: State, steps: seq<Step>)
    requires Possible(s, steps)
    ensures s.log <= Reached(s, steps).log
    decreases steps
  {
    if steps != [] {
      StepExtendsLog(s, steps[0]);
      RunExtendsLog(Next(s, steps[0]), steps[1..]);
    }
  }

  lemma NotQueuedAgain(log: seq<Event>, longer: seq<Event>, id: ActionId)
    requires log <= longer && PhaseOf(log, id).Done?
    ensures PhaseOf(longer, id).Done? || PhaseOf(longer, id).Broken?
  {
    var rest := longer[|log|..];
    assert longer == log + rest;
    TrackAppend(log, rest, id);
    DoneEndsOrBreaks(TrackOf(log, id), rest, id);
  }

  lemma DoneEndsOrBreaks(t: Track, events: seq<Event>, id: ActionId)
    requires t.phase.Done? || t.phase.Broken?
    ensures TrackFrom(t, events, id).phase.Done? || TrackFrom(t, events, id).phase.Broken?
    decreases events
  {
    if events != [] {
      DoneEndsOrBreaks(Follow(t, events[0], id), events[1..], id);
    }
  }

  /** Starting an ENV_EXIT logs something about it, whatever the lookup and the runtime answer. */
  lemma StartLogsExit(s: Sess, answer: Answer, outcome: StartOutcome, now: Time, detail: int)
    requires s.queue.actions != [] && s.queue.actions[0].spec.kind.EnvExit?
    ensures var events := StartAction(s, answer, outcome, now, detail).events;
            events != [] && events[0].Subject() == s.queue.actions[0].spec.id
  {
    hide CancelQueued, Launch, LaunchSucceeds, Dequeue;
  }

  lemma SaysMoreBreaks(log: seq<Event>, events: seq<Event>)
    requires events != []
    requires PhaseOf(log, events[0].Subject()).Done? || PhaseOf(log, events[0].Subject()).Broken?
    ensures PhaseOf(log + events, events[0].Subject()).Broken?
  {
    var id := events[0].Subject();
    TrackAppend(log, events, id);
    BrokenStays(Follow(TrackOf(log, id), events[0], id), events[1..], id);
  }

  /** The step starts the session's ENV_EXIT `id`. */
  ghost predicate StartsExit(s: State, step: Step, sid: SessionId, id: ActionId) {
    && step.Start? && step.sid == sid && Enabled(s, step)
    && ExitIsNext(s.sides[sid]) && s.sides[sid].sess.queue.actions[0].spec.id == id
  }

  lemma StartsExitLogs(s: State, step: Step, sid: SessionId, id: ActionId)
    requires StartsExit(s, step, sid, id) && (PhaseOf(s.log, id).Done? || PhaseOf(s.log, id).Broken?)
    ensures PhaseOf(Next(s, step).log, id).Broken?
  {
    hide StartAction, Absorb, PhaseOf;
    var sess := s.sides[sid].sess;
    StartLogsExit(sess, step.answer, step.outcome, step.now, step.detail);
    SaysMoreBreaks(s.log, StartAction(sess, step.answer, step.outcome, step.now, step.detail).events);
  }

  /** The ENV_EXIT whose lookup failed breaks its life cycle later: whatever happened in between, the
      session's next start breaks it if the exit is still at the head of the queue. */
  lemma CompletedExitBreaksWhenStarted(s: State, step: Step, exit: ActionId, steps: seq<Step>, start: Step)
    requires Inv(s) && step.Start? && StartsExit(s, step, step.sid, exit) && !Clean(s, step)
    requires Possible(Next(s, step), steps)
    requires StartsExit(Reached(Next(s, step), steps), start, step.sid, exit)
    ensures !Unbroken(Next(Reached(Next(s, step), steps), start).log)
  {
    hide Inv, Enabled, Next, Clean, PhaseOf, StartsExit;
    StartsHead(s, step, step.sid, exit);
    ExitCompletesAndStays(s, step);
    var first, r := Next(s, step), Reached(Next(s, step), steps);
    RunExtendsLog(first, steps);
    NotQueuedAgain(first.log, r.log, exit);
    StartsExitLogs(r, start, step.sid, exit);
    StartsHead(r, start, step.sid, exit);
    assert PhaseOf(Next(r, start).log, exit).Broken?;
  }

  lemma StartsHead(s: State, step: Step, sid: SessionId, id: ActionId)
    requires StartsExit(s, step, sid, id)
    ensures step.Start? && step.sid == sid && Enabled(s, step) && sid in s.sides
    ensures ExitIsNext(s.sides[sid]) && s.sides[sid].sess.queue.actions[0].spec.id == id
  {
  }
}
