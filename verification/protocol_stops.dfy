/** What a stop decides: the result that the cleanup reports for the action it interrupts. */
module StopRuns {
  import opened Actions
  import opened Lifecycle
  import opened QueueModel
  import opened SessionModel
  import opened SchedulerModel
  import opened Protocol
  import opened ProtocolCallback
  import opened ProtocolSteps
  import opened ProtocolRaces

  lemma StartKeepsStop(s: Sess, answer: Answer, outcome: StartOutcome, now: Time, detail: int)
    ensures var r := StartAction(s, answer, outcome, now, detail).sess;
            r.stop == s.stop && r.stopResult == s.stopResult && r.stopDetail == s.stopDetail
  {
    hide CancelQueued, Dequeue, DequeueOutcome, Launch, LaunchSucceeds, StartEvent;
    var n := DequeueOutcome(s.queue, answer);
    CancelChangesTheQueue(s, detail);
    if n.NextAction? {
      var launched := Launch(Begun(s, answer, n.spec, now), n.spec, outcome);
      LaunchChanges(Begun(s, answer, n.spec, now), n.spec, outcome);
      CancelChangesTheQueue(launched.(target := None), detail);
    }
  }

  lemma CancelChangesTheQueue(s: Sess, detail: int)
    ensures CancelQueued(s, detail).sess == s.(queue := CancelQueued(s, detail).sess.queue)
  {
    hide CancelAll, CancelIds;
  }

  lemma LaunchChanges(s: Sess, spec: ActionSpec, outcome: StartOutcome)
    ensures var l := Launch(s, spec, outcome); l == s.(envs := l.envs, jobAttachments := l.jobAttachments)
  {
  }

  lemma CallbackKeepsStop(s: Sess, state: ActionState, now: Time, detail: int)
    ensures var r := ActionUpdated(s, state, now, detail).sess;
            r.stop == s.stop && r.stopResult == s.stopResult && r.stopDetail == s.stopDetail
  {
    hide HandleUpdate, InsertFront;
    if s.target.Some? {
      HandleKeepsStop(s.(target := None), state, s.target.value, now, detail);
    } else if s.current.Some? {
      HandleKeepsStop(s, state, s.current.value, now, detail);
    }
  }

  lemma HandleKeepsStop(s: Sess, state: ActionState, action: CurrentAction, now: Time, detail: int)
    ensures var r := HandleUpdate(s, state, action, now, detail).sess;
            r.stop == s.stop && r.stopResult == s.stopResult && r.stopDetail == s.stopDetail
  {
    hide CancelAll, CancelIds, CancelReports, StatusOf;
  }

  lemma OtherStepsKeepStop(s: State, step: Step, sid: SessionId)
    requires Enabled(s, step) && sid in s.sides && !step.Start? && !step.Callback? && !(step.Stop? && step.sid == sid)
    ensures sid in Next(s, step).sides
    ensures var one, two := s.sides[sid].sess, Next(s, step).sides[sid].sess;
            two.stop == one.stop && two.stopResult == one.stopResult && two.stopDetail == one.stopDetail
  {
    hide Torn, Replace, Absorb, ReturnEvents, CancelIds, RemoveFirst, Unfinished, CancelReport, Respond, Commit, Transaction;
  }

  /** The start of one of the session's actions ends with an exception. */
  ghost predicate Crashes(s: State, step: Step, sid: SessionId) {
    && step.Start? && step.sid == sid && Enabled(s, step)
    && StartAction(s.sides[sid].sess, step.answer, step.outcome, step.now, step.detail).crashed
  }

  /** The result of a stop stays until another stop, its message also only until an exception. */
  lemma StopStays(s: State, step: Step, sid: SessionId)
    requires Enabled(s, step) && sid in s.sides && s.sides[sid].sess.stop && !(step.Stop? && step.sid == sid)
    ensures sid in Next(s, step).sides
    ensures var one, two := s.sides[sid].sess, Next(s, step).sides[sid].sess;
            two.stop && two.stopResult == one.stopResult && (!Crashes(s, step, sid) ==> two.stopDetail == one.stopDetail)
  {
    hide Enabled, Next, StartAction, ActionUpdated, Absorb;
    match step {
      case Start(_, answer, outcome, now, d) =>
        NextStart(s, step);
        StartKeepsStop(s.sides[step.sid].sess, answer, outcome, now, d);
      case Callback(_, state, now, d) =>
        NextCallback(s, step);
        CallbackKeepsStop(s.sides[step.sid].sess, state, now, d);
      case _ => OtherStepsKeepStop(s, step, sid);
    }
  }

  /** A run without another stop of the session, and, where that matters, without an exception. */
  ghost predicate Undisturbed(s: State, steps: seq<Step>, sid: SessionId, crashes: bool)
    requires Possible(s, steps)
    decreases steps
  {
    steps == [] || (&& !(steps[0].Stop? && steps[0].sid == sid) && (crashes || !Crashes(s, steps[0], sid))
                    && Undisturbed(Next(s, steps[0]), steps[1..], sid, crashes))
  }

  lemma {:induction false} StopStaysOverRuns(s: State, steps: seq<Step>, sid: SessionId, crashes: bool)
    requires Possible(s, steps) && sid in s.sides && s.sides[sid].sess.stop && Undisturbed(s, steps, sid, crashes)
    ensures sid in Reached(s, steps).sides
    ensures var one, two := s.sides[sid].sess, Reached(s, steps).sides[sid].sess;
            two.stop && two.stopResult == one.stopResult && (!crashes ==> two.stopDetail == one.stopDetail)
    decreases steps
  {
    hide Enabled, Next, Crashes;
    if steps != [] {
      StopStays(s, steps[0], sid);
      StopStaysOverRuns(Next(s, steps[0]), steps[1..], sid, crashes);
    }
  }

  /** The cleanup after a stop can begin as soon as no other cleanup has, and reports the running action
      once, with the result of the last stop, the action's own start and the moment of the cleanup, and
      with the message of that stop unless an exception came later; nothing when no action runs. */
  lemma LastStopDecides(s: State, stop: Step, steps: seq<Step>, interrupt: Step, crashes: bool)
    requires stop.Stop? && Enabled(s, stop) && Possible(Next(s, stop), steps)
    requires Undisturbed(Next(s, stop), steps, stop.sid, crashes)
    requires interrupt.CleanupInterrupt? && interrupt.sid == stop.sid
    ensures var r := Reached(Next(s, stop), steps);
            && stop.sid in r.sides
            && (Enabled(r, interrupt) <==> r.sides[stop.sid].thread.Looping?)
            && (Enabled(r, interrupt) ==>
                  var sess := r.sides[stop.sid].sess;
                  if sess.current.None? then StepEvents(r, interrupt) == []
                  else exists detail ::
                    && (!crashes ==> detail == stop.detail)
                    && StepEvents(r, interrupt)
                       == [Reported(Status(sess.current.value.spec.id, Some(stop.result), None, Some(sess.current.value.startTime),
                                           Some(interrupt.now), detail), sess.assetSync && sess.jobAttachments)])
  {
    hide Next, Undisturbed;
    StopSets(s, stop);
    StopStaysOverRuns(Next(s, stop), steps, stop.sid, crashes);
    var r := Reached(Next(s, stop), steps);
    if Enabled(r, interrupt) && r.sides[stop.sid].sess.current.Some? {
      var sess := r.sides[stop.sid].sess;
      assert StepEvents(r, interrupt)
          == [Reported(Status(sess.current.value.spec.id, Some(stop.result), None, Some(sess.current.value.startTime),
                              Some(interrupt.now), sess.stopDetail), sess.assetSync && sess.jobAttachments)];
    }
  }

  /** And so it is with the message of what the cleanup reports as cancelled. */
  lemma LastStopDecidesCancelations(s: State, stop: Step, steps: seq<Step>, report: Step)
    requires stop.Stop? && Enabled(s, stop) && Possible(Next(s, stop), steps)
    requires Undisturbed(Next(s, stop), steps, stop.sid, false)
    requires report.CleanupReport? && report.sid == stop.sid && Enabled(Reached(Next(s, stop), steps), report)
    ensures var r := Reached(Next(s, stop), steps);
            var side := r.sides[stop.sid];
            && side.thread.Cancelling? && side.thread.stage.Removed?
            && StepEvents(r, report)
               == [Reported(Status(side.thread.stage.entry.spec.id, Some(NEVER_ATTEMPTED), None, None, None, stop.detail),
                            side.sess.assetSync && side.sess.jobAttachments)]
  {
    hide Next, Undisturbed;
    StopSets(s, stop);
    StopStaysOverRuns(Next(s, stop), steps, stop.sid, false);
  }

  lemma StopSets(s: State, stop: Step)
    requires stop.Stop? && Enabled(s, stop)
    ensures stop.sid in Next(s, stop).sides
    ensures var sess := Next(s, stop).sides[stop.sid].sess; sess.stop && sess.stopResult == stop.result && sess.stopDetail == stop.detail
  {
    hide Absorb;
  }

  /** An exception that leaves the start of an action leads to the cleanup as well, with its message and
      the result asked for before. */
  lemma CrashLeadsToCleanup(s: State, start: Step, now: Time)
    requires start.Start? && Enabled(s, start)
    requires StartAction(s.sides[start.sid].sess, start.answer, start.outcome, start.now, start.detail).crashed
    ensures Enabled(Next(s, start), CleanupInterrupt(start.sid, now))
    ensures var one, two := s.sides[start.sid].sess, Next(s, start).sides[start.sid].sess;
            two.stopResult == one.stopResult && two.stopDetail == start.detail
  {
    StartKeepsStop(s.sides[start.sid].sess, start.answer, start.outcome, start.now, start.detail);
    hide StartAction, Absorb;
    NextStart(s, start);
  }
}
