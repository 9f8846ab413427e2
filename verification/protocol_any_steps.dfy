/** The steps of a session keep what holds of it in every run. */
module AnySteps {
  import opened Actions
  import opened Lifecycle
  import opened QueueModel
  import opened SessionModel
  import opened SchedulerModel
  import opened Protocol
  import opened ProtocolShared
  import opened ProtocolSides
  import opened ProtocolStart
  import opened ProtocolCallback
  import opened ProtocolAssign
  import opened ProtocolCleanup
  import opened ProtocolTheorems
  import opened AnySides

  // ----- parts of the new state

  /** What is queued when an action is completed, or was completed without leaving the queue, and
      others are cancelled. */
  lemma QueueAfter(side: Side, m: Marks, side': Side, x: ActionSpec, gone: set<ActionId>)
    requires PipelineOk(side) && side'.pipeline == side.pipeline && side'.known == side.known
    requires side'.sess.current.None? && side'.sess.target.None? && KeysOk(side'.sess.queue, m.ended)
    requires var tail := Outstanding(side.pipeline[..side.known], m.ended + {x.id});
             || Specs(side'.sess.queue.actions) == Outstanding(tail, gone)
             || (Specs(side'.sess.queue.actions) == [x] + Outstanding(tail, gone)
                 && x in side.pipeline && x.kind.EnvExit? && x.id !in m.started && InFront(side, x.id, m.ended))
    ensures LoopQueue(side', m.(ended := m.ended + ({x.id} + gone)))
    ensures Specs(side'.sess.queue.actions) == Outstanding(Outstanding(side.pipeline[..side.known], m.ended + {x.id}), gone) ==>
              Specs(side'.sess.queue.actions) == Listed(side', m.ended + ({x.id} + gone))
  {
    var ended' := m.ended + ({x.id} + gone);
    var m', tail := m.(ended := ended'), Outstanding(side.pipeline[..side.known], m.ended + {x.id});
    OutstandingCompose(side.pipeline[..side.known], m.ended + {x.id}, gone);
    assert m.ended + {x.id} + gone == ended' + CurrentIds(side'.sess);
    PresentedSame(None, Outstanding(tail, gone));
    MoreEnded(side'.sess.queue, m.ended, {x.id} + gone);
    hide KeysOk;
    if Specs(side'.sess.queue.actions) != Outstanding(tail, gone) {
      assert Specs(side'.sess.queue.actions)[0] == x && Specs(side'.sess.queue.actions)[1..] == Outstanding(tail, gone);
      InFrontGrows(side, side', x.id, m.ended, ended');
    }
  }

  /** With nothing running and nothing awaited only the queue matters. */
  lemma IdleLoops(side: Side, m: Marks, side': Side, m': Marks)
    requires Loops(side, m) && side'.pipeline == side.pipeline && LoopQueue(side', m')
    requires side'.sess.current.None? && side'.sess.target.None? && !side'.sess.interrupted && side'.work.None?
    requires m.ended <= m'.ended
    requires forall id | id in m'.started :: id in m.started || id in m'.ended
    requires forall id | id in CurrentIds(side.sess) + TargetIds(side.sess) :: id in m'.ended
    ensures Loops(side', m')
  {
    hide LoopQueue;
  }

  // ----- what is logged

  lemma OnlyCompletions(events: seq<Event>)
    requires forall e | e in events :: e.Completes()
    ensures StartedIds(events) == {} && UploadedIds(events) == {}
  {
  }

  /** The ids that are cancelled are completed, and in the pipeline. */
  lemma CancelLogs(side: Side, s: Sess, detail: int)
    requires Coherent(s.queue)
    requires forall id | HasId(Specs(s.queue.actions), id) :: HasId(side.pipeline, id)
    ensures var events := CancelQueued(s, detail).events;
            && CompletedIds(events) == CancelGone(s.queue) && StartedIds(events) == {} && UploadedIds(events) == {}
            && (forall e | e in events :: e.Completes() && HasId(side.pipeline, e.Subject()))
            && (forall e | e in events :: e.status.completed == Some(NEVER_ATTEMPTED))
    ensures forall i | 0 <= i < |s.queue.actions| ::
              s.queue.actions[i].spec.id in CancelGone(s.queue) <==> !s.queue.actions[i].spec.kind.EnvExit?
  {
    var ids := CancelIds(s.queue.actions, true);
    CancelEventFacts(s, detail);
    CancelGoneIs(s.queue);
    hide CancelIds, CancelAll, CancelGone, Coherent;
    OnlyCompletions(CancelQueued(s, detail).events);
    forall e | e in CancelQueued(s, detail).events ensures HasId(side.pipeline, e.Subject()) {
      assert e.Subject() in CancelGone(s.queue);
    }
  }

  lemma MarksOfTwo(a: seq<Event>, b: seq<Event>)
    ensures CompletedIds(a + b) == CompletedIds(a) + CompletedIds(b)
    ensures StartedIds(a + b) == StartedIds(a) + StartedIds(b)
    ensures UploadedIds(a + b) == UploadedIds(a) + UploadedIds(b)
  {
    assert forall e :: e in a + b <==> e in a || e in b;
  }

  lemma MarksOfOne(e: Event)
    ensures CompletedIds([e]) == if e.Completes() then {e.Subject()} else {}
    ensures StartedIds([e]) == if e.Started? then {e.id} else {}
    ensures UploadedIds([e]) == if e.UploadStarted? then {e.id} else {}
  {
    assert e in [e];
  }

  // ----- starting an action

  /** An action fails, perhaps after it was started, and takes the queue with it. */
  ghost predicate FailsWith(side: Side, m: Marks, x: ActionSpec, first: seq<Event>, st: Status, q: Queue, rest: seq<Event>) {
    && HasId(side.pipeline, x.id) && st.id == x.id && st.Terminal() && st.completed != Some(SUCCEEDED)
    && (first == [] || (first == [StartEvent(x)] && if x.kind.SyncOutput? then x.id in m.started else x in side.pipeline && x.id !in m.started))
    && (forall e | e in rest :: e.Completes() && HasId(side.pipeline, e.Subject()) && e.status.completed == Some(NEVER_ATTEMPTED))
    && CompletedIds(rest) == CancelGone(q)
  }

  lemma FailureLogs(side: Side, m: Marks, x: ActionSpec, first: seq<Event>, st: Status, attachments: bool, q: Queue,
          rest: seq<Event>)
    requires PipelineOk(side) && FailsWith(side, m, x, first, st, q, rest)
    ensures var events := first + [Reported(st, attachments)] + rest;
            && EventsOk(side.pipeline, m, events)
            && (forall e | e in events && e.Reported? :: e.Completes())
            && Add(m, events).ended == m.ended + ({x.id} + CancelGone(q))
            && Add(m, events).started == m.started + (if first == [] || x.kind.SyncOutput? then {} else {x.id})
            && CompletedIds(events) == {x.id} + CancelGone(q)
  {
    var report := Reported(st, attachments);
    hide EventsOk, CompletedIds, StartedIds, UploadedIds, CancelGone;
    MarksOfTwo(first + [report], rest);
    MarksOfTwo(first, [report]);
    MarksOfOne(report);
    MarksOfOne(StartEvent(x));
    OnlyCompletions(rest);
    MarksOfNone();
    FailureEvents(side, m, x, first, st, attachments, q, rest);
  }

  lemma FailureEvents(side: Side, m: Marks, x: ActionSpec, first: seq<Event>, st: Status, attachments: bool, q: Queue,
          rest: seq<Event>)
    requires PipelineOk(side) && FailsWith(side, m, x, first, st, q, rest)
    ensures var events := first + [Reported(st, attachments)] + rest;
            EventsOk(side.pipeline, m, events) && forall e | e in events && e.Reported? :: e.Completes()
  {
    var report := Reported(st, attachments);
    var events := first + [report] + rest;
    hide CompletedIds, CancelGone;
    assert forall e :: e in events <==> e in first || e == report || e in rest;
    if first != [] && !x.kind.SyncOutput? {
      forall a | a in side.pipeline && a.id == x.id ensures a == x {
        SameIdSameAction(side.pipeline, a, x);
      }
    }
    forall k | 1 <= k < |events| ensures !events[k].Started? && !events[k].UploadStarted? {
      if k > |first| {
        assert events[k] == rest[k - |first| - 1] && rest[k - |first| - 1] in rest;
      }
    }
  }

  lemma MarksOfNone()
    ensures CompletedIds([]) == {} && StartedIds([]) == {} && UploadedIds([]) == {}
  {
  }

  /** A failure put together: the queue is what the failed action leaves, nothing runs any more. */
  lemma FailureOk(side: Side, m: Marks, updates: map<ActionId, Status>, view: map<ActionId, Status>, side': Side,
          x: ActionSpec, first: seq<Event>, st: Status, attachments: bool, q: Queue, rest: seq<Event>)
    requires PipelineOk(side) && side.thread.Looping? && Loops(side, m) && AllClosed(side, m, updates, view)
    requires FailsWith(side, m, x, first, st, q, rest)
    requires side'.pipeline == side.pipeline && side'.known == side.known && side'.thread == side.thread
    requires side'.sess.stopResult == side.sess.stopResult && side'.work.None? && !side'.sess.interrupted
    requires side'.sess.current.None? && side'.sess.target.None?
    requires LoopQueue(side', m.(ended := m.ended + ({x.id} + CancelGone(q))))
    requires first != [] ==> Specs(side'.sess.queue.actions) == Listed(side', m.ended + ({x.id} + CancelGone(q)))
    requires forall id | id in CurrentIds(side.sess) + TargetIds(side.sess) :: id == x.id
    ensures StepOk(side, m, updates, view, side', first + [Reported(st, attachments)] + rest)
  {
    var events := first + [Reported(st, attachments)] + rest;
    var m' := Add(m, events);
    FailureLogs(side, m, x, first, st, attachments, q, rest);
    hide Loops, LoopQueue, FailsWith, EventsOk, Absorb, CompletedIds, StartedIds, UploadedIds, CancelGone, AllClosed, Listed;
    StartedMayGrow(side', m.(ended := m.ended + ({x.id} + CancelGone(q))), m');
    IdleLoops(side, m, side', m');
    AllClosedAfter(side, m, updates, view, side', events);
  }

  /** More starts do not matter to the queue, unless its head is an ENV_EXIT whose lookup failed. */
  lemma StartedMayGrow(side: Side, m: Marks, m': Marks)
    requires LoopQueue(side, m) && m'.ended == m.ended
    requires m'.started == m.started || Specs(side.sess.queue.actions) == Listed(side, m.ended)
    ensures LoopQueue(side, m')
  {
    hide KeysOk, Listed, InFront;
  }

  ghost predicate AtRest(side: Side, m: Marks) {
    PipelineOk(side) && side.thread.Looping? && Loops(side, m) && side.sess.current.None?
  }

  lemma IdleParts(side: Side, m: Marks)
    requires AtRest(side, m)
    ensures side.known <= |side.pipeline| && KeysOk(side.sess.queue, m.ended) && Coherent(side.sess.queue)
    ensures forall id | HasId(Specs(side.sess.queue.actions), id) :: HasId(side.pipeline, id)
    ensures !side.sess.interrupted && side.work.None? && side.sess.stopResult in {INTERRUPTED, FAILED}
    ensures side.sess.queue.actions != [] ==>
              forall id | id in CurrentIds(side.sess) + TargetIds(side.sess) :: id == side.sess.queue.actions[0].spec.id
  {
    QueuedInPipeline(side, m);
    if side.sess.queue.actions != [] {
      HeadIs(side, m);
    }
  }

  lemma SplitHead(q: Queue, gone: set<ActionId>)
    requires q.actions != []
    ensures var x, tail := q.actions[0].spec, Specs(q.actions)[1..];
            && Specs(q.actions) == [x] + tail
            && Outstanding(Specs(q.actions), gone) == if x.id in gone then Outstanding(tail, gone) else [x] + Outstanding(tail, gone)
  {
  }

  /** The lookup of the head fails with an error that names it. */
  lemma LookupFails(side: Side, m: Marks, updates: map<ActionId, Status>, view: map<ActionId, Status>, answer: Answer,
          outcome: StartOutcome, now: Time, detail: int)
    requires AtRest(side, m) && AllClosed(side, m, updates, view) && DequeueOutcome(side.sess.queue, answer).ActionError?
    ensures var e := StartAction(side.sess, answer, outcome, now, detail);
            StepOk(side, m, updates, view, AfterStart(side, e, detail), e.events)
  {
    hide AtRest, Loops, AllClosed, StepOk, StartAction, CancelQueued, CancelGone, CancelAll, CompletedIds, Coherent, DequeueOutcome,
      LoopQueue, PipelineOk, FailsWith;
    LookupNotUpload(side.sess.queue, answer);
    FailedLookupIs(side.sess, answer, outcome, now, detail);
    FailedLookupEvents(side.sess, answer, outcome, now, detail);
    IdleIsLooping(side, m);
    IdleParts(side, m);
    LookupFailureLogs(side, m, answer, now, detail);
    var q, e := side.sess.queue, StartAction(side.sess, answer, outcome, now, detail);
    var x, side' := q.actions[0].spec, AfterStart(side, e, detail);
    LookupFailureQueue(side, m, answer, side');
    var st, rest := FailedAt(x.id, now, detail), CancelQueued(side.sess, detail).events;
    assert [] + [Reported(st, side.sess.Attachments())] + rest == e.events;
    FailureOk(side, m, updates, view, side', x, [], st, side.sess.Attachments(), q, rest);
  }

  lemma LookupFailureLogs(side: Side, m: Marks, answer: Answer, now: Time, detail: int)
    requires AtRest(side, m) && DequeueOutcome(side.sess.queue, answer).ActionError? && side.sess.queue.actions != []
    ensures side.sess.target.None?
    ensures var x := side.sess.queue.actions[0].spec;
            FailsWith(side, m, x, [], FailedAt(x.id, now, detail), side.sess.queue, CancelQueued(side.sess, detail).events)
  {
    LookupNotUpload(side.sess.queue, answer);
    hide AtRest, CancelQueued, CancelGone, CompletedIds, DequeueOutcome;
    IdleParts(side, m);
    HeadStarts(side, m);
    IdleIsLooping(side, m);
    HeadIs(side, m);
    CancelLogs(side, side.sess, detail);
  }

  /** The queue after a lookup that failed: all that is not an ENV_EXIT is gone, so the action stays
      only if it is one. */
  lemma LookupFailureQueue(side: Side, m: Marks, answer: Answer, side': Side)
    requires AtRest(side, m) && DequeueOutcome(side.sess.queue, answer).ActionError? && side.sess.queue.actions != []
    requires side'.pipeline == side.pipeline && side'.known == side.known && side.known <= |side.pipeline|
    requires side'.sess.current.None? && side'.sess.target.None? && side.sess.target.None?
    requires side'.sess.queue == CancelAll(side.sess.queue, true)
    ensures LoopQueue(side', m.(ended := m.ended + ({side.sess.queue.actions[0].spec.id} + CancelGone(side.sess.queue))))
  {
    hide CancelGone, CancelAll, DequeueOutcome, LoopQueue, Outstanding, Listed;
    IdleIsLooping(side, m);
    IdleParts(side, m);
    HeadIs(side, m);
    CancelGoneIs(side.sess.queue);
    CancelledKeys(side.sess.queue, m.ended);
    hide AtRest, Loops, KeysOk, InFront, Coherent;
    SplitHead(side.sess.queue, CancelGone(side.sess.queue));
    QueueAfter(side, m, side', side.sess.queue.actions[0].spec, CancelGone(side.sess.queue));
  }

  lemma IdleIsLooping(side: Side, m: Marks)
    requires AtRest(side, m)
    ensures PipelineOk(side) && side.thread.Looping? && Loops(side, m)
  {
  }

  /** The lookup of an upload never fails so. */
  lemma LookupNotUpload(q: Queue, answer: Answer)
    requires DequeueOutcome(q, answer).ActionError?
    ensures q.actions != [] && !q.actions[0].spec.kind.SyncOutput?
  {
  }

  /** What starts, as far as the marks are concerned. */
  lemma HeadStarts(side: Side, m: Marks)
    requires AtRest(side, m) && side.sess.queue.actions != []
    ensures var x := side.sess.queue.actions[0].spec;
            && HasId(side.pipeline, x.id)
            && if x.kind.SyncOutput? then x.id in m.started && side.sess.target.Some?
               else x in side.pipeline && x.id !in m.started && side.sess.target.None?
  {
    HeadIs(side, m);
    if side.sess.target.None? {
      assert side.sess.queue.actions[0].spec.kind.Assignable();
    }
  }

  /** The head is started and fails at once. */
  lemma StartFailsAny(side: Side, m: Marks, updates: map<ActionId, Status>, view: map<ActionId, Status>, answer: Answer,
          launched: Sess, now: Time, detail: int)
    requires AtRest(side, m) && AllClosed(side, m, updates, view) && DequeueOutcome(side.sess.queue, answer).NextAction?
    requires side.sess.queue.actions != [] && launched.queue == Dequeue(side.sess.queue, answer)
    requires launched.target == side.sess.target && launched.interrupted == side.sess.interrupted
    requires launched.stopResult == side.sess.stopResult
    ensures var e := FailStart(launched, side.sess.queue.actions[0].spec, now, detail);
            StepOk(side, m, updates, view, AfterStart(side, e, detail), e.events)
  {
    hide AtRest, Loops, AllClosed, StepOk, FailStart, CancelQueued, CancelGone, CancelAll, CompletedIds, InFront, Coherent,
      DequeueOutcome, Dequeue, LoopQueue, Outstanding, Listed, PipelineOk, FailsWith;
    IdleIsLooping(side, m);
    IdleParts(side, m);
    var x, q := side.sess.queue.actions[0].spec, launched.queue;
    var s, st := launched.(target := None), FailedAt(x.id, now, detail);
    var c, e := CancelQueued(s, detail), FailStart(launched, x, now, detail);
    FailStartIs(launched, x, now, detail);
    CancelQueuedIs(s, detail);
    FailedIdIs(side, m, launched);
    StartFailureLogs(side, m, answer, s, st, detail);
    StartFailureQueue(side, m, answer, AfterStart(side, e, detail));
    assert [StartEvent(x)] + [Reported(st, launched.Attachments())] + c.events == e.events;
    FailureOk(side, m, updates, view, AfterStart(side, e, detail), x, [StartEvent(x)], st, launched.Attachments(), q, c.events);
  }

  lemma FailedIdIs(side: Side, m: Marks, launched: Sess)
    requires AtRest(side, m) && side.sess.queue.actions != [] && launched.target == side.sess.target
    ensures FailedId(launched, side.sess.queue.actions[0].spec) == side.sess.queue.actions[0].spec.id
  {
    HeadIs(side, m);
  }

  lemma StartFailureLogs(side: Side, m: Marks, answer: Answer, s: Sess, st: Status, detail: int)
    requires AtRest(side, m) && DequeueOutcome(side.sess.queue, answer).NextAction? && side.sess.queue.actions != []
    requires s.queue == Dequeue(side.sess.queue, answer)
    requires st.id == side.sess.queue.actions[0].spec.id && st.completed == Some(FAILED)
    ensures FailsWith(side, m, side.sess.queue.actions[0].spec, [StartEvent(side.sess.queue.actions[0].spec)], st, s.queue,
                      CancelQueued(s, detail).events)
  {
    hide AtRest, CancelQueued, CancelGone, CompletedIds, DequeueOutcome, Dequeue;
    IdleParts(side, m);
    HeadStarts(side, m);
    DequeuedKeys(side.sess.queue, answer, m.ended);
    TailIds(side, s.queue);
    CancelLogs(side, s, detail);
  }

  /** The queue after a start that failed: the action is gone, and all that is not an ENV_EXIT. */
  lemma StartFailureQueue(side: Side, m: Marks, answer: Answer, side': Side)
    requires AtRest(side, m) && DequeueOutcome(side.sess.queue, answer).NextAction? && side.sess.queue.actions != []
    requires side'.pipeline == side.pipeline && side'.known == side.known && side.known <= |side.pipeline|
    requires side'.sess.current.None? && side'.sess.target.None?
    requires side'.sess.queue == CancelAll(Dequeue(side.sess.queue, answer), true)
    ensures var x, gone := side.sess.queue.actions[0].spec, CancelGone(Dequeue(side.sess.queue, answer));
            && LoopQueue(side', m.(ended := m.ended + ({x.id} + gone)))
            && Specs(side'.sess.queue.actions) == Listed(side', m.ended + ({x.id} + gone))
  {
    hide CancelGone, CancelAll, DequeueOutcome, Dequeue, LoopQueue, Outstanding, Listed;
    IdleIsLooping(side, m);
    IdleParts(side, m);
    HeadIs(side, m);
    hide AtRest, Loops, KeysOk, InFront;
    DequeuedKeys(side.sess.queue, answer, m.ended);
    CancelledKeys(Dequeue(side.sess.queue, answer), m.ended);
    QueueAfter(side, m, side', side.sess.queue.actions[0].spec, CancelGone(Dequeue(side.sess.queue, answer)));
  }

  lemma CancelQueuedIs(s: Sess, detail: int)
    ensures CancelQueued(s, detail).sess == s.(queue := CancelAll(s.queue, true))
  {
  }

  lemma TailIds(side: Side, q: Queue)
    requires side.sess.queue.actions != [] && Specs(q.actions) == Specs(side.sess.queue.actions)[1..]
    requires forall id | HasId(Specs(side.sess.queue.actions), id) :: HasId(side.pipeline, id)
    ensures forall id | HasId(Specs(q.actions), id) :: HasId(side.pipeline, id)
  {
    forall id | HasId(Specs(q.actions), id) ensures HasId(side.pipeline, id) {
      var i :| 0 <= i < |Specs(q.actions)| && Specs(q.actions)[i].id == id;
      assert Specs(side.sess.queue.actions)[i + 1].id == id;
    }
  }

  /** The head is started. */
  lemma StartBeginsAny(side: Side, m: Marks, updates: map<ActionId, Status>, view: map<ActionId, Status>, answer: Answer,
          launched: Sess, now: Time, detail: int)
    requires AtRest(side, m) && AllClosed(side, m, updates, view) && DequeueOutcome(side.sess.queue, answer).NextAction?
    requires side.sess.queue.actions != [] && launched.queue == Dequeue(side.sess.queue, answer)
    requires launched.current == Some(CurrentAction(side.sess.queue.actions[0].spec, now))
    requires launched.target == side.sess.target && launched.interrupted == side.sess.interrupted
    requires launched.stopResult == side.sess.stopResult
    ensures var e := Effect(launched, [StartEvent(side.sess.queue.actions[0].spec)], false);
            StepOk(side, m, updates, view, AfterStart(side, e, detail), e.events)
  {
    hide AtRest, AllClosed, DequeueOutcome, Dequeue, LoopQueue, LoopCurrent, LoopTarget, StartedOk, EventsOk, StartedIds, CompletedIds,
      UploadedIds;
    IdleIsLooping(side, m);
    IdleParts(side, m);
    var x := side.sess.queue.actions[0].spec;
    var e := Effect(launched, [StartEvent(x)], false);
    var side' := AfterStart(side, e, detail);
    MarksOfOne(StartEvent(x));
    StartEventOk(side, m);
    BegunQueueAny(side, m, answer, side');
    BegunMarks(side, m, side', Add(m, e.events));
    AllClosedAfter(side, m, updates, view, side', e.events);
  }

  lemma StartEventOk(side: Side, m: Marks)
    requires AtRest(side, m) && side.sess.queue.actions != []
    ensures EventsOk(side.pipeline, m, [StartEvent(side.sess.queue.actions[0].spec)])
  {
    var x := side.sess.queue.actions[0].spec;
    HeadStarts(side, m);
    IdleIsLooping(side, m);
    hide AtRest, Loops;
    if !x.kind.SyncOutput? {
      forall a | a in side.pipeline && a.id == x.id ensures a == x {
        SameIdSameAction(side.pipeline, a, x);
      }
    }
  }

  lemma BegunQueueAny(side: Side, m: Marks, answer: Answer, side': Side)
    requires AtRest(side, m) && DequeueOutcome(side.sess.queue, answer).NextAction? && side.sess.queue.actions != []
    requires side'.pipeline == side.pipeline && side'.known == side.known && side'.sess.target == side.sess.target
    requires side'.sess.queue == Dequeue(side.sess.queue, answer)
    requires side'.sess.current.Some? && side'.sess.current.value.spec == side.sess.queue.actions[0].spec
    ensures forall m': Marks :: m'.ended == m.ended ==> LoopQueue(side', m')
  {
    hide DequeueOutcome, Dequeue, Outstanding;
    IdleIsLooping(side, m);
    IdleParts(side, m);
    HeadIs(side, m);
    DequeuedKeys(side.sess.queue, answer, m.ended);
    hide AtRest, Loops, KeysOk, InFront;
    var x := side.sess.queue.actions[0].spec;
    assert CurrentIds(side'.sess) == {x.id};
    OutstandingMembers(side.pipeline[..side.known], m.ended + {x.id});
    PresentedSame(side.sess.target, Outstanding(side.pipeline[..side.known], m.ended + {x.id}));
  }

  lemma BegunMarks(side: Side, m: Marks, side': Side, m': Marks)
    requires AtRest(side, m) && side.sess.queue.actions != []
    requires side'.pipeline == side.pipeline && side'.known == side.known && side'.sess.target == side.sess.target
    requires var x := side.sess.queue.actions[0].spec;
             && side'.sess.current.Some? && side'.sess.current.value.spec == x && side'.work == Some(OfAction(x))
             && m'.ended == m.ended
             && m'.started == m.started + (if x.kind.SyncOutput? then {} else {x.id})
             && m'.uploaded == m.uploaded + (if x.kind.SyncOutput? then {x.id} else {})
    ensures LoopCurrent(side', m') && LoopTarget(side', m') && StartedOk(side', m')
  {
    HeadStarts(side, m);
    HeadIs(side, m);
    hide LoopQueue;
    var x := side.sess.queue.actions[0].spec;
    forall id | InFront(side, id, m.ended) ensures InFront(side', id, m'.ended) {
      InFrontGrows(side, side', id, m.ended, m.ended);
    }
  }

  /** Nothing to start, or an exception that ends the run loop. */
  lemma StartIdlesAny(side: Side, m: Marks, updates: map<ActionId, Status>, view: map<ActionId, Status>, answer: Answer,
          outcome: StartOutcome, now: Time, detail: int)
    requires AtRest(side, m) && AllClosed(side, m, updates, view)
    requires DequeueOutcome(side.sess.queue, answer).Nothing? || DequeueOutcome(side.sess.queue, answer).Crash?
    ensures var e := StartAction(side.sess, answer, outcome, now, detail);
            StepOk(side, m, updates, view, AfterStart(side, e, detail), e.events)
  {
    var e := StartAction(side.sess, answer, outcome, now, detail);
    var side' := AfterStart(side, e, detail);
    assert e.events == [] && side' == side.(sess := side'.sess)
        && side'.sess == side.sess.(stop := side'.sess.stop, stopDetail := side'.sess.stopDetail);
    hide StartAction, AllClosed;
    IdleIsLooping(side, m);
    SameLoops(side, m, side');
    NothingLogged(side, m);
    AllClosedAfter(side, m, updates, view, side', []);
  }

  lemma NothingLogged(side: Side, m: Marks)
    ensures EventsOk(side.pipeline, m, []) && Add(m, []) == m
  {
    MarksOfNone();
  }

  /** The stop event and the stop's parameters do not matter to the run loop's invariant. */
  lemma SameLoops(side: Side, m: Marks, side': Side)
    requires Loops(side, m) && side'.pipeline == side.pipeline && side'.known == side.known && side'.work == side.work
    requires side'.sess.queue == side.sess.queue && side'.sess.current == side.sess.current
    requires side'.sess.target == side.sess.target && side'.sess.interrupted == side.sess.interrupted
    ensures Loops(side', m)
  {
    forall id | InFront(side, id, m.ended) ensures InFront(side', id, m.ended) {
      InFrontGrows(side, side', id, m.ended, m.ended);
    }
  }

  /** Starting the next action, whatever the lookup and the runtime answer. */
  lemma StartAny(side: Side, m: Marks, updates: map<ActionId, Status>, view: map<ActionId, Status>, answer: Answer,
          outcome: StartOutcome, now: Time, detail: int)
    requires AtRest(side, m) && AllClosed(side, m, updates, view)
    ensures var e := StartAction(side.sess, answer, outcome, now, detail);
            StepOk(side, m, updates, view, AfterStart(side, e, detail), e.events)
  {
    hide AtRest, AllClosed, StepOk, StartAction, LaunchSucceeds, Launch, FailStart, Dequeue, Coherent, Begun;
    IdleParts(side, m);
    match DequeueOutcome(side.sess.queue, answer) {
      case ActionError(_) => LookupFails(side, m, updates, view, answer, outcome, now, detail);
      case NextAction(spec) =>
        StartCases(side.sess, answer, outcome, now, detail);
        var begun := Begun(side.sess, answer, spec, now);
        var launched := Launch(begun, spec, outcome);
        LaunchKeeps(begun, spec, outcome);
        if LaunchSucceeds(begun, spec, outcome) {
          StartBeginsAny(side, m, updates, view, answer, launched, now, detail);
        } else {
          StartFailsAny(side, m, updates, view, answer, launched, now, detail);
        }
      case _ => StartIdlesAny(side, m, updates, view, answer, outcome, now, detail);
    }
  }
}
