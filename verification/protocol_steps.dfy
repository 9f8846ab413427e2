/** What each kind of enabled step finds and what it does to the state, so that the proofs about
    steps need not look into all of them at once. */
module ProtocolSteps {
  import opened Actions
  import opened Lifecycle
  import opened QueueModel
  import opened SessionModel
  import opened SchedulerModel
  import opened Protocol
  import opened ProtocolCallback

  lemma SameClock(s: State)
    ensures s.(clock := s.clock) == s
  {
  }

  lemma NextStart(s: State, step: Step)
    requires Enabled(s, step) && step.Start?
    ensures step.sid in s.sides && s.sides[step.sid].thread.Looping? && s.sides[step.sid].sess.current.None?
    ensures var e := StartAction(s.sides[step.sid].sess, step.answer, step.outcome, step.now, step.detail);
            Next(s, step) == Post(s.(clock := s.clock), step.sid, AfterStart(s.sides[step.sid], e, step.detail), e.events)
  {
    hide StartAction, Absorb, AfterStart;
    SameClock(s);
  }

  lemma NextCallback(s: State, step: Step)
    requires Enabled(s, step) && step.Callback?
    ensures step.sid in s.sides && s.sides[step.sid].work.Some? && (step.state.RUNNING? ==> step.now > s.clock)
    ensures var side := s.sides[step.sid];
            var e := ActionUpdated(side.sess, step.state, step.now, step.detail);
            Next(s, step) == Post(s.(clock := if step.state.RUNNING? then step.now else s.clock), step.sid,
                                  AfterCallback(side, step.state, e), e.events)
  {
    hide ActionUpdated, Absorb;
  }

  lemma NextGiveBack(s: State, step: Step)
    requires Enabled(s, step) && step.GiveBack?
    ensures s.link.Settled? && step.sid in s.sides && step.sid in s.link.response && s.sides[step.sid].thread.Ended?
    ensures Next(s, step) == Post(s.(clock := s.clock), step.sid, s.sides[step.sid],
                                  ReturnEvents(s.updates, s.link.response[step.sid], true, step.now, step.detail))
  {
    hide ReturnEvents, Absorb;
    SameClock(s);
  }

  /** Giving back records what the return of a stopped session's actions records. */
  lemma GiveBackRecords(s: State, step: Step)
    requires Enabled(s, step) && step.GiveBack?
    ensures Next(s, step).updates == ReturnStopped(s.updates, s.link.response[step.sid], step.now, step.detail)
    ensures Next(s, step).sides == s.sides
  {
    hide ReturnEvents, Absorb;
  }

  lemma NextInterrupt(s: State, step: Step)
    requires Enabled(s, step) && step.CleanupInterrupt?
    ensures step.sid in s.sides && s.sides[step.sid].thread.Looping? && s.sides[step.sid].sess.stop
    ensures var e := Interrupt(s.sides[step.sid].sess, step.now);
            Next(s, step) == Post(s.(clock := s.clock), step.sid, s.sides[step.sid].(sess := e.sess, thread := Stopping), e.events)
  {
    hide Interrupt, Absorb;
    SameClock(s);
  }

  lemma NextReport(s: State, step: Step)
    requires Enabled(s, step) && step.CleanupReport?
    ensures step.sid in s.sides && s.sides[step.sid].thread.Cancelling? && s.sides[step.sid].thread.stage.Removed?
    ensures var side := s.sides[step.sid];
            Next(s, step) == Post(s.(clock := s.clock), step.sid, side.(thread := Cancelling(side.thread.ids, Between)),
                                  [CancelReport(side)])
  {
    hide CancelReport, Absorb;
    SameClock(s);
  }

  /** Where a step of a session that reports nothing leads. */
  function Moved(s: State, step: Step): Side
    requires Enabled(s, step) && Silent(step)
  {
    Next(s, step).sides[step.sid]
  }

  predicate Silent(step: Step) {
    || step.Assign? || step.TornAssign? || step.Stop? || step.CleanupList? || step.CleanupPop?
    || step.CleanupRemove? || step.CleanupCancelled? || step.CleanupExitEnv? || step.EndThread?
  }

  lemma NextSilent(s: State, step: Step)
    requires Enabled(s, step) && Silent(step)
    ensures step.sid in s.sides && Next(s, step) == Post(s.(clock := s.clock), step.sid, Moved(s, step), [])
    ensures var side, side' := s.sides[step.sid], Moved(s, step);
            && side'.pipeline == side.pipeline && side'.sess.envs == side.sess.envs
            && (side.thread.Ended? ==> side'.thread.Ended?)
  {
    hide Torn, Replace, CancelIds, Absorb, RemoveFirst, Unfinished;
    SameClock(s);
    AbsorbOfNothing(s.updates);
  }

  /** An assignment, whole or broken into, is one of what is not completed. */
  lemma AssignMoves(s: State, step: Step)
    requires Enabled(s, step) && (step.Assign? || step.TornAssign?)
    ensures s.link.Settled? && step.sid in s.sides && step.sid in s.link.response
    ensures var side, todo := s.sides[step.sid], Unfinished(s.link.response[step.sid], s.updates);
            && (step.Assign? ==> Moved(s, step) == side.(sess := ReplaceAssigned(side.sess, todo), known := |side.pipeline|))
            && (step.TornAssign? ==>
                  && Moved(s, step) == side.(sess := side.sess.(queue := step.queue), known := |side.pipeline|)
                  && side.thread.Cancelling?
                  && Torn(side.sess.queue, side.thread.stage, Outstanding(todo, CurrentIds(side.sess)), step.queue))
  {
    hide Torn, ReplaceAssigned, Absorb, Unfinished, Outstanding, CurrentIds;
  }

  lemma CancelationMoves(s: State, step: Step)
    requires Enabled(s, step) && (step.CleanupList? || step.CleanupPop? || step.CleanupRemove? || step.CleanupCancelled?)
    ensures step.sid in s.sides
    ensures var side := s.sides[step.sid];
            match step
            case CleanupList(_) =>
              side.thread.Stopping?
              && Moved(s, step) == side.(thread := Cancelling(CancelIds(side.sess.queue.actions, true), Between))
            case CleanupPop(_) => Cancels(side, Between) && side.thread.ids != [] && Moved(s, step) == PopNext(side)
            case CleanupRemove(_) =>
              side.thread.Cancelling? && side.thread.stage.Popped? && Moved(s, step) == RemovePopped(side)
            case CleanupCancelled(_) =>
              Cancels(side, Between) && side.thread.ids == [] && Moved(s, step) == side.(thread := Exiting)
  {
    hide PopNext, RemovePopped, CancelIds, Absorb;
  }

  lemma EndMoves(s: State, step: Step)
    requires Enabled(s, step) && (step.Stop? || step.CleanupExitEnv? || step.EndThread?)
    ensures step.sid in s.sides
    ensures var side := s.sides[step.sid];
            match step
            case Stop(_, result, detail) =>
              result in {INTERRUPTED, FAILED} && Moved(s, step) == side.(sess := Stopped(side.sess, result, detail))
            case CleanupExitEnv(_, env) => side.thread.Exiting? && Moved(s, step) == side.(work := Some(CleanupExit(env)))
            case EndThread(_) => side.thread.Exiting? && Moved(s, step) == side.(thread := Ended)
  {
    hide Absorb;
  }

  lemma AbsorbOfNothing(updates: map<ActionId, Status>)
    ensures Absorb(updates, []) == updates
  {
  }
}
