/** What the failure of an action means in every run for the other actions of its session. */
module FailureRuns {
  import opened Actions
  import opened Lifecycle
  import opened QueueModel
  import opened SessionModel
  import opened Protocol
  import opened ProtocolShared
  import opened ProtocolSides
  import opened ProtocolAssign
  import opened ProtocolCallback
  import opened ProtocolSteps
  import opened ProtocolRaces
  import opened AnySides
  import opened AnySteps
  import opened AnyCallbacks
  import opened AnyRuns
  import opened AnyRaised
  import opened AttachmentRuns
  import opened SessionPromises

  /** A callback of an action that runs and was not interrupted. */
  ghost predicate EndsAction(s: State, step: Step) {
    && step.Callback? && Enabled(s, step)
    && s.sides[step.sid].sess.current.Some? && !s.sides[step.sid].sess.interrupted
  }

  predicate Fails(state: ActionState) {
    state.FAILED_STATE? || state.CANCELED_STATE? || state.TIMEOUT?
  }

  /** The action was delivered to the session, is not completed, and is not the running one. */
  ghost predicate Waits(s: State, sid: SessionId, a: ActionSpec) {
    && sid in s.sides && s.sides[sid].known <= |s.sides[sid].pipeline|
    && a in s.sides[sid].pipeline[..s.sides[sid].known]
    && a.id !in CompletedIds(s.log) && a.id !in CurrentIds(s.sides[sid].sess)
  }

  lemma WaitingIsQueued(side: Side, m: Marks, updates: map<ActionId, Status>, view: map<ActionId, Status>, a: ActionSpec)
    requires AnySide(side, m, updates, view) && side.sess.current.Some? && !side.sess.interrupted
    requires side.known <= |side.pipeline| && a in side.pipeline[..side.known] && a.id !in m.ended && a.id !in CurrentIds(side.sess)
    ensures Coherent(side.sess.queue) && exists e :: e in side.sess.queue.actions && e.spec == a
  {
    var gone, q := m.ended + CurrentIds(side.sess), side.sess.queue;
    var left := Outstanding(side.pipeline[..side.known], gone);
    OutstandingMembers(side.pipeline[..side.known], gone);
    assert Specs(q.actions) == Presented(side.sess.target, left);
    var i :| 0 <= i < |left| && left[i] == a;
    assert Presented(side.sess.target, left)[i] == a;
    assert q.actions[i].spec == Specs(q.actions)[i];
  }

  lemma QueuedOnce(q: Queue, one: Entry, two: Entry)
    requires Coherent(q) && one in q.actions && two in q.actions && one.spec.id == two.spec.id
    ensures one == two
  {
  }

  /** Which reports of a callback are about a waiting action. */
  lemma AboutWaiting(s: Sess, state: ActionState, now: Time, detail: int, entry: Entry)
    requires Coherent(s.queue) && s.current.Some? && !s.interrupted && entry in s.queue.actions
    requires entry.spec.id != s.current.value.spec.id && (s.target.Some? ==> entry.spec.id != s.target.value.spec.id)
    ensures var events := ActionUpdated(s, state, now, detail).events;
            && ((exists e :: e in events && e.Subject() == entry.spec.id) <==> Fails(state) && !entry.spec.kind.EnvExit?)
            && (Fails(state) && !entry.spec.kind.EnvExit? ==>
                  Reported(Status(entry.spec.id, Some(NEVER_ATTEMPTED), None, None, None, detail), s.Attachments()) in events)
  {
    CallbackCancelsExactlyOnFailure(s, state, now, detail);
    OnlyMembers(s.queue.actions, false);
    var events, others := ActionUpdated(s, state, now, detail).events, Only(s.queue.actions, false);
    var rest := Unattempted(others, detail, s.assetSync && s.jobAttachments);
    hide ActionUpdated, Only, Coherent;
    if Fails(state) {
      assert forall e | e in rest :: e in events;
      if !entry.spec.kind.EnvExit? {
        var i :| 0 <= i < |others| && others[i] == entry;
        assert rest[i] in rest;
      } else {
        forall e | e in events ensures e.Subject() != entry.spec.id {
          if e in rest {
            var i :| 0 <= i < |rest| && rest[i] == e;
            assert others[i] in others;
            if others[i].spec.id == entry.spec.id {
              QueuedOnce(s.queue, others[i], entry);
            }
          }
        }
      }
    }
  }

  /** Of the actions that wait, a callback says something exactly when it ends the running one by a
      failure, a cancelation or a time-out, and they are no ENV_EXITs; and what it says then is that
      they were never attempted. */
  lemma FailureCancelsWhatWaits(s: State, steps: seq<Step>, step: Step, a: ActionSpec)
    requires Init(s) && Possible(s, steps) && EndsAction(Reached(s, steps), step) && Waits(Reached(s, steps), step.sid, a)
    ensures var r := Reached(s, steps);
            && ((exists e :: e in StepEvents(r, step) && e.Subject() == a.id) <==> Fails(step.state) && !a.kind.EnvExit?)
            && (Fails(step.state) && !a.kind.EnvExit? ==>
                  Reported(Status(a.id, Some(NEVER_ATTEMPTED), None, None, None, step.detail), r.sides[step.sid].sess.Attachments())
                  in StepEvents(r, step))
  {
    hide AnyInv, AnySide, Init, Possible, Enabled, ActionUpdated, Reached, MarksOf;
    AnyReachable(s, steps);
    var r := Reached(s, steps);
    NextCallback(r, step);
    AnyParts(r, step.sid);
    EndedIsMarked(r.log);
    WaitingIsQueued(r.sides[step.sid], MarksOf(r.log), r.updates, r.view, a);
    TargetIsCurrent(r.sides[step.sid], MarksOf(r.log), r.updates, r.view);
    var entry :| entry in r.sides[step.sid].sess.queue.actions && entry.spec == a;
    AboutWaiting(r.sides[step.sid].sess, step.state, step.now, step.detail, entry);
  }

  lemma EndedIsMarked(log: seq<Event>)
    ensures MarksOf(log).ended == CompletedIds(log)
  {
  }

  lemma TargetIsCurrent(side: Side, m: Marks, updates: map<ActionId, Status>, view: map<ActionId, Status>)
    requires AnySide(side, m, updates, view) && side.sess.current.Some? && !side.sess.interrupted
    ensures side.sess.target.Some? ==> side.sess.target.value.spec.id == side.sess.current.value.spec.id
  {
  }

  /** What is completed is started only when it is an ENV_EXIT. */
  lemma OnlyExitsStartAfterwards(s: State, start: Step, id: ActionId, task: bool, a: ActionSpec)
    requires AnyInv(s) && Enabled(s, start) && Started(id, task) in StepEvents(s, start) && start.sid in s.sides
    requires id in CompletedIds(s.log) && a in s.sides[start.sid].pipeline && a.id == id
    ensures a.kind.EnvExit?
  {
    hide AnyInv, AnySide, Enabled, StartAction, MarksOf;
    OnlyStartsStart(s, start, id, task);
    NextStart(s, start);
    AnyParts(s, start.sid);
    var side := s.sides[start.sid];
    StartsHeadOnly(side.sess, start.answer, start.outcome, start.now, start.detail, id, task);
    EndedIsMarked(s.log);
    HeadIsOpen(side, MarksOf(s.log), s.updates, s.view, a);
  }

  lemma OnlyStartsStart(s: State, step: Step, id: ActionId, task: bool)
    requires Enabled(s, step) && Started(id, task) in StepEvents(s, step)
    ensures step.Start?
  {
    hide Torn;
    match step {
      case Callback(sid, state, now, detail) => CallbackStartsNothing(s.sides[sid].sess, state, now, detail);
      case GiveBack(sid, now, detail) => ReturnsAreReports(s.updates, s.link.response[sid], true, now, detail);
      case _ =>
    }
  }

  lemma CallbackStartsNothing(s: Sess, state: ActionState, now: Time, detail: int)
    ensures forall e | e in ActionUpdated(s, state, now, detail).events :: !e.Started?
  {
    hide HandleUpdate, InsertFront;
    if s.target.Some? {
      HandleAttaches(s.(target := None), state, s.target.value, now, detail);
    } else if s.current.Some? {
      HandleAttaches(s, state, s.current.value, now, detail);
    }
  }

  lemma StartsHeadOnly(s: Sess, answer: Answer, outcome: StartOutcome, now: Time, detail: int, id: ActionId, task: bool)
    requires Started(id, task) in StartAction(s, answer, outcome, now, detail).events
    ensures s.queue.actions != [] && s.queue.actions[0].spec.id == id && !s.queue.actions[0].spec.kind.SyncOutput?
  {
    hide CancelQueued, Dequeue, Launch, LaunchSucceeds;
    CancelAttaches(s, detail);
    var n := DequeueOutcome(s.queue, answer);
    if n.NextAction? {
      CancelAttaches(Launch(Begun(s, answer, n.spec, now), n.spec, outcome).(target := None), detail);
    }
  }

  lemma HeadIsOpen(side: Side, m: Marks, updates: map<ActionId, Status>, view: map<ActionId, Status>, a: ActionSpec)
    requires AnySide(side, m, updates, view) && side.thread.Looping? && side.sess.current.None?
    requires side.sess.queue.actions != [] && side.sess.queue.actions[0].spec.id == a.id && a in side.pipeline
    requires a.id in m.ended && !side.sess.queue.actions[0].spec.kind.SyncOutput?
    ensures a.kind.EnvExit?
  {
    var head := side.sess.queue.actions[0].spec;
    AnyIdle(side, m, updates, view);
    HeadStarts(side, m);
    SameIdSameAction(side.pipeline, a, head);
    assert Specs(side.sess.queue.actions)[0] == head;
    OutstandingMembers(side.pipeline[..side.known], m.ended + CurrentIds(side.sess));
  }

  /** After an action failed, was cancelled or ran out of time, none of the actions that waited is ever
      started, but the ENV_EXITs. */
  lemma NothingThatWaitedStarts(s: State, before: seq<Step>, step: Step, a: ActionSpec, after: seq<Step>, start: Step, e: Event)
    requires Init(s) && Possible(s, before) && EndsAction(Reached(s, before), step) && Waits(Reached(s, before), step.sid, a)
    requires Fails(step.state) && !a.kind.EnvExit?
    requires Possible(Next(Reached(s, before), step), after)
    requires var r := Reached(Next(Reached(s, before), step), after); Enabled(r, start) && e in StepEvents(r, start) && e.Started?
    ensures e.id != a.id
  {
    hide AnyInv, Init, Possible, Enabled, Next, StepEvents, CompletedIds, HasId, Grown;
    var mid := Next(Reached(s, before), step);
    var r := Reached(mid, after);
    AnyReachable(s, before);
    FailureCancelsWhatWaits(s, before, step, a);
    NextLog(Reached(s, before), step);
    StepAny(Reached(s, before), step);
    RunAny(mid, after);
    if e.id == a.id {
      WaitsSide(Reached(s, before), step.sid, a);
      OneGrows(Reached(s, before), step, step.sid);
      RunGrows(mid, after, step.sid);
      GrownPipeline(Reached(s, before).sides[step.sid], mid.sides[step.sid]);
      GrownPipeline(mid.sides[step.sid], r.sides[step.sid]);
      var report := Reported(Status(a.id, Some(NEVER_ATTEMPTED), None, None, None, step.detail),
                             Reached(s, before).sides[step.sid].sess.Attachments());
      CompletedStays(mid.log, r.log, report);
      OwnerStarts(r, start, e, step.sid, a);
      OnlyExitsStartAfterwards(r, start, e.id, e.task, a);
      assert false;
    }
  }

  lemma WaitsSide(s: State, sid: SessionId, a: ActionSpec)
    requires Waits(s, sid, a)
    ensures sid in s.sides && a in s.sides[sid].pipeline
  {
  }

  lemma CompletedStays(one: seq<Event>, two: seq<Event>, e: Event)
    requires one <= two && e in one && e.Completes()
    ensures e.Subject() in CompletedIds(two)
  {
    assert e in two;
  }

  lemma OwnerStarts(s: State, start: Step, e: Event, sid: SessionId, a: ActionSpec)
    requires AnyInv(s) && Enabled(s, start) && e in StepEvents(s, start) && e.Started? && e.id == a.id
    requires sid in s.sides && a in s.sides[sid].pipeline
    ensures start.Start? && start.sid == sid
  {
    hide AnyInv, Enabled, StepEvents;
    OnlyStartsStart(s, start, e.id, e.task);
    EventsAreOwnAny(s, start);
    if start.sid != sid {
      PipelinesApart(s, start.sid, sid, a.id);
    }
  }
}
