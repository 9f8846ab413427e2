/** Callbacks and assignments keep what holds of a session in every run. */
module AnyCallbacks {
  import opened Actions
  import opened Lifecycle
  import opened QueueModel
  import opened SessionModel
  import opened SchedulerModel
  import opened Protocol
  import opened ProtocolShared
  import opened ProtocolSides
  import opened ProtocolStart
  import opened ProtocolCallback
  import opened ProtocolAssign
  import opened ProtocolCleanup
  import opened ProtocolTheorems
  import opened AnySides
  import opened AnySteps

  ghost predicate Running(side: Side, m: Marks) {
    PipelineOk(side) && side.thread.Looping? && Loops(side, m) && side.sess.current.Some?
  }

  lemma RunningParts(side: Side, m: Marks)
    requires Running(side, m)
    ensures PipelineOk(side) && side.thread.Looping? && Loops(side, m) && side.sess.current.Some?
    ensures KeysOk(side.sess.queue, m.ended) && Coherent(side.sess.queue) && side.known <= |side.pipeline|
    ensures !side.sess.interrupted && side.work == Some(OfAction(side.sess.current.value.spec))
    ensures HasId(side.pipeline, side.sess.current.value.spec.id)
    ensures forall id | HasId(Specs(side.sess.queue.actions), id) :: HasId(side.pipeline, id)
    ensures forall id | id in CurrentIds(side.sess) + TargetIds(side.sess) :: id == side.sess.current.value.spec.id
  {
    QueuedInPipeline(side, m);
    BehindCurrent(side, m);
  }

  // ----- the running action ends

  /** The report of an action's success follows the upload of its task. */
  lemma SuccessIsDue(side: Side, m: Marks, s: Sess, state: ActionState, action: CurrentAction, now: Time, detail: int)
    requires Running(side, m) && Finishing(side, s, state, action)
    ensures var st := StatusOf(action, state, now, detail);
            && st.id == side.sess.current.value.spec.id && st.Terminal()
            && (s.Attachments() && st.completed == Some(SUCCEEDED) ==>
                  st.id in m.uploaded || forall a | a in side.pipeline && a.id == st.id :: !a.kind.TaskRun?)
  {
    var c := side.sess.current.value.spec;
    if !c.kind.SyncOutput? {
      forall a | a in side.pipeline && a.id == c.id ensures a == c {
        SameIdSameAction(side.pipeline, a, c);
      }
    }
  }

  /** A completion after what it cancels. */
  lemma EndLogs(side: Side, m: Marks, rest: seq<Event>, gone: set<ActionId>, st: Status, attachments: bool)
    requires HasId(side.pipeline, st.id) && st.Terminal()
    requires attachments && st.completed == Some(SUCCEEDED) ==>
               st.id in m.uploaded || forall a | a in side.pipeline && a.id == st.id :: !a.kind.TaskRun?
    requires forall e | e in rest :: e.Completes() && HasId(side.pipeline, e.Subject()) && e.status.completed == Some(NEVER_ATTEMPTED)
    requires CompletedIds(rest) == gone
    ensures var events := rest + [Reported(st, attachments)];
            && EventsOk(side.pipeline, m, events) && (forall e | e in events && e.Reported? :: e.Completes())
            && Add(m, events) == m.(ended := m.ended + ({st.id} + gone)) && CompletedIds(events) == {st.id} + gone
  {
    var report := Reported(st, attachments);
    var events := rest + [report];
    MarksOfTwo(rest, [report]);
    MarksOfOne(report);
    OnlyCompletions(rest);
    hide CompletedIds, StartedIds, UploadedIds;
    assert forall e :: e in events <==> e in rest || e == report;
    forall k | 0 <= k < |events| ensures events[k].Completes() {
      assert events[k] in events;
    }
  }

  /** What the end of the running action leaves, put together. */
  lemma EndOk(side: Side, m: Marks, updates: map<ActionId, Status>, view: map<ActionId, Status>, side': Side,
          rest: seq<Event>, gone: set<ActionId>, st: Status, attachments: bool)
    requires Running(side, m) && AllClosed(side, m, updates, view)
    requires st.id == side.sess.current.value.spec.id && st.Terminal()
    requires attachments && st.completed == Some(SUCCEEDED) ==>
               st.id in m.uploaded || forall a | a in side.pipeline && a.id == st.id :: !a.kind.TaskRun?
    requires forall e | e in rest :: e.Completes() && HasId(side.pipeline, e.Subject()) && e.status.completed == Some(NEVER_ATTEMPTED)
    requires CompletedIds(rest) == gone
    requires side'.pipeline == side.pipeline && side'.known == side.known && side'.thread == side.thread
    requires side'.sess.stopResult == side.sess.stopResult && side'.work.None? && !side'.sess.interrupted
    requires side'.sess.current.None? && side'.sess.target.None? && KeysOk(side'.sess.queue, m.ended)
    requires Specs(side'.sess.queue.actions) == Outstanding(Specs(side.sess.queue.actions), gone)
    ensures StepOk(side, m, updates, view, side', rest + [Reported(st, attachments)])
  {
    hide Running, KeysOk, Loops, LoopQueue, AllClosed, EventsOk, Absorb, CompletedIds, Outstanding;
    RunningParts(side, m);
    BehindCurrent(side, m);
    EndLogs(side, m, rest, gone, st, attachments);
    QueueAfter(side, m, side', side.sess.current.value.spec, gone);
    IdleLoops(side, m, side', Add(m, rest + [Reported(st, attachments)]));
    AllClosedAfter(side, m, updates, view, side', rest + [Reported(st, attachments)]);
  }

  lemma SuccessIs(s: Sess, state: ActionState, action: CurrentAction, now: Time, detail: int)
    requires !Unsuccessful(state) && !state.RUNNING? && s.target.None?
    ensures HandleUpdate(s, state, action, now, detail)
         == Effect(s.(current := None), [Reported(StatusOf(action, state, now, detail), s.Attachments())], false)
  {
    var none: seq<Event> := [];
    assert none + [Reported(StatusOf(action, state, now, detail), s.Attachments())]
        == [Reported(StatusOf(action, state, now, detail), s.Attachments())];
  }

  lemma EndAny(side: Side, m: Marks, updates: map<ActionId, Status>, view: map<ActionId, Status>, s: Sess, state: ActionState,
          action: CurrentAction, now: Time, detail: int)
    requires Running(side, m) && AllClosed(side, m, updates, view) && Finishing(side, s, state, action)
    ensures var e := HandleUpdate(s, state, action, now, detail);
            StepOk(side, m, updates, view, AfterCallback(side, state, e), e.events) && !e.crashed
  {
    hide Running, AllClosed, StepOk, HandleUpdate, CancelQueued, StatusOf, KeysOk, CancelGone, CancelAll, Coherent, CompletedIds,
      Outstanding;
    RunningParts(side, m);
    SuccessIsDue(side, m, s, state, action, now, detail);
    var e, st := HandleUpdate(s, state, action, now, detail), StatusOf(action, state, now, detail);
    if Unsuccessful(state) {
      FailureIs(s, state, action, now, detail);
      CancelLogs(side, s, detail);
      CancelQueuedIs(s, detail);
      CancelledKeys(s.queue, m.ended);
      EndOk(side, m, updates, view, AfterCallback(side, state, e), CancelQueued(s, detail).events, CancelGone(s.queue), st,
            s.Attachments());
    } else {
      SuccessIs(s, state, action, now, detail);
      MarksOfNone();
      OutstandingNothingGone(Specs(s.queue.actions), {});
      EndOk(side, m, updates, view, AfterCallback(side, state, e), [], {}, st, s.Attachments());
      assert [] + [Reported(st, s.Attachments())] == [Reported(st, s.Attachments())];
    }
  }

  /** What the callback does while an action runs. */
  lemma CallbackCases(s: Sess, state: ActionState, now: Time, detail: int)
    requires !s.interrupted && s.current.Some?
    ensures var e := ActionUpdated(s, state, now, detail);
            if s.target.Some? then
              if state.RUNNING? then e == Effect(s, [], false)
              else e == HandleUpdate(s.(target := None), state, s.target.value, now, detail)
            else if OwesUpload(s, state) then
              e == Effect(s.(queue := InsertFront(s.queue, UploadSpec(s.current.value)), target := s.current, current := None),
                          [UploadQueued(s.current.value.spec.id)], false)
            else if state.RUNNING? then
              e == Effect(s, [Reported(StatusOf(s.current.value, RUNNING, now, detail), s.Attachments())], false)
            else e == HandleUpdate(s, state, s.current.value, now, detail)
  {
    hide CancelQueued, InsertFront;
    var none: seq<Event> := [];
    var report := Reported(StatusOf(s.current.value, RUNNING, now, detail), s.Attachments());
    assert none + [report] == [report];
  }

  // ----- a task that owes an upload

  lemma UploadAny(side: Side, m: Marks, updates: map<ActionId, Status>, view: map<ActionId, Status>, state: ActionState,
          now: Time, detail: int)
    requires Running(side, m) && AllClosed(side, m, updates, view) && side.sess.target.None? && OwesUpload(side.sess, state)
    ensures var e := ActionUpdated(side.sess, state, now, detail);
            StepOk(side, m, updates, view, AfterCallback(side, state, e), e.events) && !e.crashed
  {
    hide ActionUpdated, Running, AllClosed, InsertFront, CompletedIds, StartedIds, UploadedIds, Loops, KeysOk, Coherent, Absorb;
    RunningParts(side, m);
    CallbackCases(side.sess, state, now, detail);
    var s, c := side.sess, side.sess.current.value;
    var e := ActionUpdated(s, state, now, detail);
    var side' := AfterCallback(side, state, e);
    MarksOfOne(UploadQueued(c.spec.id));
    assert Add(m, e.events) == m;
    UploadWaits(side, m, state, side');
    AllClosedAfter(side, m, updates, view, side', e.events);
  }

  lemma UploadWaits(side: Side, m: Marks, state: ActionState, side': Side)
    requires Running(side, m) && side.sess.target.None? && OwesUpload(side.sess, state)
    requires var s, c := side.sess, side.sess.current.value;
             && side' == side.(sess := side'.sess, work := None)
             && side'.sess == s.(queue := InsertFront(s.queue, UploadSpec(c)), target := Some(c), current := None)
    ensures Loops(side', m)
  {
    var c, left := side.sess.current.value, Outstanding(side.pipeline[..side.known], m.ended);
    BehindCurrent(side, m);
    InsertedKeys(side.sess.queue, UploadSpec(c), m.ended);
    InFrontIsFirst(side, c.spec.id, m.ended);
    OutstandingTail(side.pipeline[..side.known], m.ended);
    LeftPresentsUpload(left, c, Specs(side.sess.queue.actions));
    assert m.ended + CurrentIds(side'.sess) == m.ended;
    hide KeysOk, InsertFront;
    InFrontGrows(side, side', c.spec.id, m.ended, m.ended);
  }

  lemma InsertedKeys(q: Queue, spec: ActionSpec, ended: set<ActionId>)
    requires KeysOk(q, ended) && !HasId(Specs(q.actions), spec.id)
    ensures KeysOk(InsertFront(q, spec), ended)
    ensures Specs(InsertFront(q, spec).actions) == [spec] + Specs(q.actions)
  {
    var r := InsertFront(q, spec);
    InsertFrontCoherent(q, spec);
    assert Specs(r.actions) == [spec] + Specs(q.actions);
    hide Coherent;
    forall k | k in r.byId ensures HasId(Specs(r.actions), k) || k in ended {
      if k == spec.id {
        assert Specs(r.actions)[0].id == k;
      } else if HasId(Specs(q.actions), k) {
        var i :| 0 <= i < |Specs(q.actions)| && Specs(q.actions)[i].id == k;
        assert Specs(r.actions)[i + 1].id == k;
      }
    }
  }

  // ----- progress

  lemma ProgressAny(side: Side, m: Marks, updates: map<ActionId, Status>, view: map<ActionId, Status>, now: Time, detail: int)
    requires Running(side, m) && AllClosed(side, m, updates, view) && side.sess.target.None?
    ensures var e := ActionUpdated(side.sess, RUNNING, now, detail);
            StepOk(side, m, updates, view, AfterCallback(side, RUNNING, e), e.events) && !e.crashed
  {
    hide ActionUpdated, Running, AllClosed, Loops, CompletedIds, StartedIds, UploadedIds, KeysOk, Coherent, Absorb;
    RunningParts(side, m);
    CallbackCases(side.sess, RUNNING, now, detail);
    var s, c := side.sess, side.sess.current.value;
    var e := ActionUpdated(s, RUNNING, now, detail);
    var report := Reported(StatusOf(c, RUNNING, now, detail), s.Attachments());
    assert AfterCallback(side, RUNNING, e) == side;
    MarksOfOne(report);
    assert Add(m, e.events) == m;
    AllClosedAfter(side, m, updates, view, side, e.events);
  }

  /** Every callback. */
  lemma CallbackAny(side: Side, m: Marks, updates: map<ActionId, Status>, view: map<ActionId, Status>, state: ActionState,
          now: Time, detail: int)
    requires AnySide(side, m, updates, view) && side.work.Some?
    ensures var e := ActionUpdated(side.sess, state, now, detail);
            StepOk(side, m, updates, view, AfterCallback(side, state, e), e.events) && !e.crashed
  {
    hide AnySide, Running, AllClosed, StepOk, ActionUpdated, HandleUpdate;
    var s := side.sess;
    if !side.thread.Looping? {
      PastCallback(side, m, updates, view, state, now, detail);
    } else {
      LoopingRuns(side, m, updates, view);
      CallbackCases(s, state, now, detail);
      if s.target.Some? && !state.RUNNING? {
        EndAny(side, m, updates, view, s.(target := None), state, s.target.value, now, detail);
      } else if s.target.Some? {
        NothingChanges(side, m, updates, view);
        assert AfterCallback(side, state, Effect(s, [], false)) == side;
      } else if state.RUNNING? {
        ProgressAny(side, m, updates, view, now, detail);
      } else if OwesUpload(s, state) {
        UploadAny(side, m, updates, view, state, now, detail);
      } else {
        EndAny(side, m, updates, view, s, state, s.current.value, now, detail);
      }
    }
  }

  lemma NothingChanges(side: Side, m: Marks, updates: map<ActionId, Status>, view: map<ActionId, Status>)
    requires AnySide(side, m, updates, view)
    ensures StepOk(side, m, updates, view, side, [])
  {
    NothingLogged(side, m);
  }

  lemma LoopingRuns(side: Side, m: Marks, updates: map<ActionId, Status>, view: map<ActionId, Status>)
    requires AnySide(side, m, updates, view) && side.work.Some? && side.thread.Looping?
    ensures Running(side, m) && AllClosed(side, m, updates, view) && !side.sess.interrupted && side.sess.current.Some?
    ensures side.sess.target.Some? ==> side.sess.target.value.spec.id == side.sess.current.value.spec.id
  {
  }

  /** Past the run loop a callback reports nothing. */
  lemma PastCallback(side: Side, m: Marks, updates: map<ActionId, Status>, view: map<ActionId, Status>, state: ActionState,
          now: Time, detail: int)
    requires AnySide(side, m, updates, view) && side.work.Some? && !side.thread.Looping?
    ensures var e := ActionUpdated(side.sess, state, now, detail);
            && e.events == [] && !e.crashed
            && StepOk(side, m, updates, view, AfterCallback(side, state, e), e.events)
  {
    NothingLogged(side, m);
    hide Loops, AllClosed;
  }
}
