/** What holds of a session in every run, also in those in which a job entity lookup fails with an
    error that names its action. Such a lookup breaks the life cycle of an action, so the invariant
    speaks of what was logged instead: what was started, what was completed, whose upload was
    started. */
module AnySides {
  import opened Actions
  import opened Lifecycle
  import opened QueueModel
  import opened SessionModel
  import opened SchedulerModel
  import opened Protocol
  import opened ProtocolShared
  import opened ProtocolSides
  import opened ProtocolStart
  import opened ProtocolCallback
  import opened ProtocolAssign
  import opened ProtocolCleanup

  /** The ids that a log started, completed, and started the upload of. */
  datatype Marks = Marks(started: set<ActionId>, ended: set<ActionId>, uploaded: set<ActionId>)

  function UploadedIds(log: seq<Event>): set<ActionId> {
    set e | e in log && e.UploadStarted? :: e.id
  }

  function MarksOf(log: seq<Event>): Marks {
    Marks(StartedIds(log), CompletedIds(log), UploadedIds(log))
  }

  function Add(m: Marks, events: seq<Event>): Marks {
    Marks(m.started + StartedIds(events), m.ended + CompletedIds(events), m.uploaded + UploadedIds(events))
  }

  lemma MarksAppend(a: seq<Event>, b: seq<Event>)
    ensures MarksOf(a + b) == Add(MarksOf(a), b)
  {
    assert forall e :: e in a + b <==> e in a || e in b;
  }

  // ----- the invariant of one session

  function TargetIds(s: Sess): set<ActionId> {
    if s.target.Some? then {s.target.value.spec.id} else {}
  }

  /** What the queue lists when no failed lookup intervened. */
  function Listed(side: Side, ended: set<ActionId>): seq<ActionSpec>
    requires side.known <= |side.pipeline|
  {
    Presented(side.sess.target, Outstanding(side.pipeline[..side.known], ended + CurrentIds(side.sess)))
  }

  predicate KeysOk(q: Queue, ended: set<ActionId>) {
    Coherent(q) && forall k | k in q.byId :: HasId(Specs(q.actions), k) || k in ended
  }

  /** The only completed action that can be queued: an ENV_EXIT at the head whose lookup failed. */
  ghost predicate StaleHead(side: Side, m: Marks)
    requires side.known <= |side.pipeline|
  {
    && side.sess.current.None? && side.sess.target.None? && side.sess.queue.actions != []
    && var x := side.sess.queue.actions[0].spec;
       && Specs(side.sess.queue.actions)[1..] == Listed(side, m.ended)
       && x in side.pipeline && x.kind.EnvExit? && x.id in m.ended && x.id !in m.started && InFront(side, x.id, m.ended)
  }

  ghost predicate LoopQueue(side: Side, m: Marks) {
    && side.known <= |side.pipeline| && KeysOk(side.sess.queue, m.ended)
    && (Specs(side.sess.queue.actions) == Listed(side, m.ended) || StaleHead(side, m))
  }

  ghost predicate LoopCurrent(side: Side, m: Marks) {
    var s := side.sess;
    if s.current.None? then side.work.None?
    else
      var c := s.current.value.spec;
      && side.work == Some(OfAction(c)) && InFront(side, c.id, m.ended) && c.id in m.started
      && if c.kind.SyncOutput? then s.target.Some? && c == UploadSpec(s.target.value) && c.id in m.uploaded
         else s.target.None? && c in side.pipeline && (c.id in m.ended ==> c.kind.EnvExit?)
  }

  ghost predicate LoopTarget(side: Side, m: Marks) {
    side.sess.target.Some? ==>
      var x := side.sess.target.value.spec;
      x in side.pipeline && x.kind.TaskRun? && InFront(side, x.id, m.ended) && x.id !in m.ended && x.id in m.started
  }

  /** What was started is completed, but for the running action and the one that awaits its upload. */
  ghost predicate StartedOk(side: Side, m: Marks) {
    forall a | a in side.pipeline && a.id in m.started :: a.id in m.ended + CurrentIds(side.sess) + TargetIds(side.sess)
  }

  /** The scheduler will not list the action again. */
  predicate Closed(id: ActionId, updates: map<ActionId, Status>, view: map<ActionId, Status>) {
    if id in updates then updates[id].Terminal() else id in view && view[id].Terminal()
  }

  ghost predicate AllClosed(side: Side, m: Marks, updates: map<ActionId, Status>, view: map<ActionId, Status>) {
    forall a | a in side.pipeline && a.id in m.ended && a.id !in CurrentIds(side.sess) + TargetIds(side.sess) ::
      Closed(a.id, updates, view)
  }

  ghost predicate Loops(side: Side, m: Marks) {
    !side.sess.interrupted && LoopQueue(side, m) && LoopCurrent(side, m) && LoopTarget(side, m) && StartedOk(side, m)
  }

  /** Past the run loop nothing is started any more, and callbacks find the stop event set. */
  ghost predicate Past(side: Side) {
    && side.sess.stop && (side.sess.current.None? || side.sess.interrupted) && QueueShape(side)
    && forall id | id in side.thread.Unreported() :: HasId(side.pipeline, id)
  }

  ghost predicate PipelineOk(side: Side) {
    && DistinctIds(side.pipeline) && (forall a | a in side.pipeline :: a.kind.Assignable())
    && side.known <= |side.pipeline| && side.sess.stopResult in {INTERRUPTED, FAILED}
  }

  ghost predicate AnySide(side: Side, m: Marks, updates: map<ActionId, Status>, view: map<ActionId, Status>) {
    PipelineOk(side) && if side.thread.Looping? then Loops(side, m) && AllClosed(side, m, updates, view) else Past(side)
  }

  /** What a step may log: at most its first event starts something, which was not started before; an
      upload follows the start of its task; and a task succeeds after its upload. */
  ghost predicate EventsOk(pipeline: seq<ActionSpec>, m: Marks, events: seq<Event>) {
    && (forall e | e in events :: HasId(pipeline, e.Subject()))
    && (forall k | 0 <= k < |events| && (events[k].Started? || events[k].UploadStarted?) :: k == 0)
    && (forall e | e in events && e.Started? ::
          e.id !in m.started && forall a | a in pipeline && a.id == e.id :: a.kind.TaskRun? == e.task)
    && (forall e | e in events && e.UploadStarted? :: e.id in m.started)
    && (forall e | e in events && e.Reported? && e.attachments && e.status.completed == Some(SUCCEEDED) ::
          e.status.id in m.uploaded || forall a | a in pipeline && a.id == e.status.id :: !a.kind.TaskRun?)
  }

  /** The step of a session from `side` to `side'` with these events is as it should be. */
  ghost predicate StepOk(side: Side, m: Marks, updates: map<ActionId, Status>, view: map<ActionId, Status>, side': Side,
          events: seq<Event>) {
    && side'.pipeline == side.pipeline && EventsOk(side.pipeline, m, events)
    && AnySide(side', Add(m, events), Absorb(updates, events), view)
  }

  // ----- what is closed stays closed

  lemma {:induction false} AbsorbHas(updates: map<ActionId, Status>, events: seq<Event>, e: Event)
    requires e in events && e.Reported?
    ensures e.Subject() in Absorb(updates, events)
    decreases events
  {
    var f := events[0];
    var m := if f.Reported? then updates[f.status.id := f.status] else updates;
    if e == f {
      StaysIn(m, events[1..], e.Subject());
    } else {
      assert events == [f] + events[1..];
      AbsorbHas(m, events[1..], e);
    }
  }

  lemma {:induction false} StaysIn(updates: map<ActionId, Status>, events: seq<Event>, id: ActionId)
    requires id in updates
    ensures id in Absorb(updates, events)
    decreases events
  {
    if events != [] {
      var f := events[0];
      StaysIn(if f.Reported? then updates[f.status.id := f.status] else updates, events[1..], id);
    }
  }

  /** An id that only completions were reported about, if anything, is closed when it was before or
      one of them was. */
  lemma ClosedAfter(updates: map<ActionId, Status>, view: map<ActionId, Status>, events: seq<Event>, id: ActionId)
    requires forall e | e in events && e.Reported? && e.Subject() == id :: e.Completes()
    requires Closed(id, updates, view) || id in CompletedIds(events)
    ensures Closed(id, Absorb(updates, events), view)
  {
    if id in CompletedIds(events) {
      var e :| e in events && e.Completes() && e.Subject() == id;
      AbsorbHas(updates, events, e);
    }
    if id in Absorb(updates, events) {
      AbsorbSource(updates, events, id);
    } else if id in updates {
      StaysIn(updates, events, id);
    }
  }

  /** The step's completions are closed; the rest was, unless it is exempt afterwards as well. */
  lemma AllClosedAfter(side: Side, m: Marks, updates: map<ActionId, Status>, view: map<ActionId, Status>, side': Side,
          events: seq<Event>)
    requires AllClosed(side, m, updates, view) && side'.pipeline == side.pipeline
    requires forall e | e in events && e.Reported? :: e.Completes() || e.Subject() in CurrentIds(side'.sess)
    requires forall id | id in CurrentIds(side.sess) + TargetIds(side.sess) ::
               id in CompletedIds(events) || id in CurrentIds(side'.sess) + TargetIds(side'.sess)
    ensures AllClosed(side', Add(m, events), Absorb(updates, events), view)
  {
    forall a | a in side'.pipeline && a.id in Add(m, events).ended
            && a.id !in CurrentIds(side'.sess) + TargetIds(side'.sess)
      ensures Closed(a.id, Absorb(updates, events), view)
    {
      ClosedAfter(updates, view, events, a.id);
    }
  }

  // ----- the queue

  lemma CancelledKeys(q: Queue, ended: set<ActionId>)
    requires KeysOk(q, ended)
    ensures KeysOk(CancelAll(q, true), ended)
    ensures Specs(CancelAll(q, true).actions) == Outstanding(Specs(q.actions), CancelGone(q))
  {
    var gone, r := CancelGone(q), CancelAll(q, true);
    CancelAllLeaves(q, true);
    DropSpecs(q.actions, gone);
    hide Coherent;
    forall k | k in r.byId ensures HasId(Specs(r.actions), k) || k in ended {
      OutstandingHasId(Specs(q.actions), gone, k);
    }
  }

  lemma DequeuedKeys(q: Queue, answer: Answer, ended: set<ActionId>)
    requires KeysOk(q, ended) && DequeueOutcome(q, answer).NextAction?
    ensures KeysOk(Dequeue(q, answer), ended)
    ensures q.actions != [] && Specs(Dequeue(q, answer).actions) == Specs(q.actions)[1..]
  {
    hide Coherent, DequeueOutcome;
    var r := Dequeue(q, answer);
    DequeueIsTail(q, answer);
    BehindHead(q, answer);
    forall k | k in r.byId ensures HasId(Specs(r.actions), k) || k in ended {
      if HasId(Specs(q.actions), k) {
        var i :| 0 <= i < |Specs(q.actions)| && Specs(q.actions)[i].id == k;
        assert Specs(r.actions)[i - 1].id == k;
      }
    }
  }

  lemma MoreEnded(q: Queue, ended: set<ActionId>, more: set<ActionId>)
    requires KeysOk(q, ended)
    ensures KeysOk(q, ended + more)
  {
    hide Coherent;
  }

  lemma ListedIds(side: Side, ended: set<ActionId>, id: ActionId)
    requires side.known <= |side.pipeline|
    ensures HasId(Listed(side, ended), id) ==> HasId(side.pipeline, id) && id !in ended + CurrentIds(side.sess)
  {
    var o := Outstanding(side.pipeline[..side.known], ended + CurrentIds(side.sess));
    if HasId(Listed(side, ended), id) {
      var i :| 0 <= i < |Listed(side, ended)| && Listed(side, ended)[i].id == id;
      assert o[i].id == id;
      OutstandingHasId(side.pipeline[..side.known], ended + CurrentIds(side.sess), id);
      var k :| 0 <= k < |side.pipeline[..side.known]| && side.pipeline[..side.known][k].id == id;
      assert side.pipeline[k].id == id;
    }
  }

  lemma QueuedInPipeline(side: Side, m: Marks)
    requires LoopQueue(side, m)
    ensures forall id | HasId(Specs(side.sess.queue.actions), id) :: HasId(side.pipeline, id)
  {
    var specs := Specs(side.sess.queue.actions);
    forall id | HasId(specs, id) ensures HasId(side.pipeline, id) {
      ListedIds(side, m.ended, id);
      var i :| 0 <= i < |specs| && specs[i].id == id;
      if specs != Listed(side, m.ended) {
        if i == 0 {
          var k :| 0 <= k < |side.pipeline| && side.pipeline[k] == specs[0];
          assert side.pipeline[k].id == id;
        } else {
          assert specs[1..][i - 1].id == id;
        }
      }
    }
  }

  /** A session that runs nothing, with something queued: the head can be started, and what is behind
      it is what is left when the head is completed. */
  lemma HeadIs(side: Side, m: Marks)
    requires PipelineOk(side) && Loops(side, m) && side.sess.current.None? && side.sess.queue.actions != []
    ensures var x := side.sess.queue.actions[0].spec;
            && HasId(side.pipeline, x.id) && InFront(side, x.id, m.ended)
            && Specs(side.sess.queue.actions)[1..] == Outstanding(side.pipeline[..side.known], m.ended + {x.id})
            && (if side.sess.target.Some? then x == UploadSpec(side.sess.target.value)
                else x in side.pipeline && x.id !in m.started && (x.id in m.ended ==> x.kind.EnvExit?))
  {
    var s, o := side.sess, Outstanding(side.pipeline[..side.known], m.ended);
    assert m.ended + CurrentIds(s) == m.ended;
    OutstandingFacts(side, m.ended);
    if Specs(s.queue.actions) == Listed(side, m.ended) {
      HeadOfListed(side, m, o);
    } else {
      var x := s.queue.actions[0].spec;
      assert m.ended + {x.id} == m.ended;
      PresentedSame(None, o);
      InFrontGrows(side, side, x.id, m.ended, m.ended);
    }
  }

  lemma HeadOfListed(side: Side, m: Marks, o: seq<ActionSpec>)
    requires PipelineOk(side) && Loops(side, m) && side.sess.current.None? && side.sess.queue.actions != []
    requires o == Outstanding(side.pipeline[..side.known], m.ended) && DistinctIds(o)
    requires forall i | 0 <= i < |o| :: o[i] in side.pipeline && HasId(side.pipeline, o[i].id) && o[i].id !in m.ended
    requires Specs(side.sess.queue.actions) == Presented(side.sess.target, o)
    ensures var x := side.sess.queue.actions[0].spec;
            && HasId(side.pipeline, x.id) && InFront(side, x.id, m.ended)
            && Specs(side.sess.queue.actions)[1..] == Outstanding(side.pipeline[..side.known], m.ended + {x.id})
            && (if side.sess.target.Some? then x == UploadSpec(side.sess.target.value)
                else x in side.pipeline && x.id !in m.started && (x.id in m.ended ==> x.kind.EnvExit?))
  {
    var s := side.sess;
    assert |Specs(s.queue.actions)| == |o|;
    FirstIsInFront(side, m.ended);
    OutstandingTail(side.pipeline[..side.known], m.ended);
    if s.target.Some? {
      InFrontIsFirst(side, s.target.value.spec.id, m.ended);
    }
    assert Specs(s.queue.actions)[0] == Presented(s.target, o)[0];
    assert Presented(s.target, o)[1..] == o[1..];
  }

  /** While an action runs the queue lists what is left when it is completed. */
  lemma BehindCurrent(side: Side, m: Marks)
    requires PipelineOk(side) && Loops(side, m) && side.sess.current.Some?
    ensures var c := side.sess.current.value.spec;
            && HasId(side.pipeline, c.id)
            && Specs(side.sess.queue.actions) == Outstanding(side.pipeline[..side.known], m.ended + {c.id})
            && !HasId(Specs(side.sess.queue.actions), c.id)
  {
    var c := side.sess.current.value.spec;
    assert CurrentIds(side.sess) == {c.id};
    InFrontGrows(side, side, c.id, m.ended, m.ended);
    OutstandingFacts(side, m.ended + {c.id});
    PresentedSame(side.sess.target, Outstanding(side.pipeline[..side.known], m.ended + {c.id}));
    ListedIds(side, m.ended, c.id);
  }
}
