/** The runtime's callback keeps the invariant of a session. */
module ProtocolCallback {
  import opened Actions
  import opened Lifecycle
  import opened QueueModel
  import opened SessionModel
  import opened Protocol
  import opened ProtocolShared
  import opened ProtocolSides
  import opened ProtocolStart

  function AfterCallback(side: Side, state: ActionState, e: Effect): Side {
    side.(sess := e.sess, work := if state.RUNNING? then side.work else None)
  }

  /** A callback finds the running action, or a session that is being cleaned up: the assertion that
      a missing action means a stop never fails. */
  lemma CallbackMeansStopped(side: Side, done: set<ActionId>, log: seq<Event>)
    requires SideInv(side, done, log) && side.work.Some?
    requires !side.sess.interrupted && side.sess.current.None?
    ensures side.sess.stop
  {
  }

  ghost predicate CallbackOk(side: Side, done: set<ActionId>, log: seq<Event>, state: ActionState, e: Effect) {
    && SideInv(AfterCallback(side, state, e), done + CompletedIds(e.events), log + e.events)
    && StaysUnbroken(log, e.events)
    && !e.crashed
    && forall f | f in e.events :: HasId(side.pipeline, f.Subject())
  }

  lemma NoEvents(log: seq<Event>, done: set<ActionId>)
    requires Unbroken(log)
    ensures log + [] == log && done + CompletedIds([]) == done && StaysUnbroken(log, [])
  {
    forall id ensures !TrackFrom(TrackOf(log, id), [], id).phase.Broken? {
      assert !PhaseOf(log, id).Broken?;
    }
  }

  /** Nothing is reported while the session cleans up. */
  lemma CleanupCallback(side: Side, done: set<ActionId>, log: seq<Event>, state: ActionState, now: Time, detail: int)
    requires SideInv(side, done, log) && Unbroken(log)
    requires side.work.Some? && (side.sess.interrupted || side.sess.current.None?)
    ensures CallbackOk(side, done, log, state, ActionUpdated(side.sess, state, now, detail))
    ensures ActionUpdated(side.sess, state, now, detail).events == []
  {
    var e := ActionUpdated(side.sess, state, now, detail);
    assert e.events == [];
    NoEvents(log, done);
    if side.sess.interrupted {
      assert done + CurrentIds(side.sess) == done + CurrentIds(e.sess);
    }
  }

  ghost predicate Busy(side: Side, done: set<ActionId>, log: seq<Event>) {
    SideInv(side, done, log) && Coupled(done, log) && side.sess.current.Some? && !side.sess.interrupted
  }

  /** A session that runs an action: what is queued was never started, and nothing in the queue
      belongs to a finished task. */
  lemma BusyQueue(side: Side, done: set<ActionId>, log: seq<Event>)
    requires Busy(side, done, log)
    ensures var s, c := side.sess, side.sess.current.value.spec;
            && Exact(s.queue)
            && HasId(side.pipeline, c.id) && c.id !in done && InFront(side, c.id, done)
            && Specs(s.queue.actions) == Left(side, done + {c.id})
            && !HasId(Specs(s.queue.actions), c.id)
            && forall id | HasId(Specs(s.queue.actions), id) :: PhaseOf(log, id).Queued? && HasId(side.pipeline, id)
  {
    BusyList(side, done, log);
    hide InFront, Exact, Busy, Left;
    var s, c := side.sess, side.sess.current.value.spec;
    var o := Left(side, done + {c.id});
    forall id | HasId(Specs(s.queue.actions), id)
      ensures PhaseOf(log, id).Queued? && HasId(side.pipeline, id) && id != c.id
    {
      var i :| 0 <= i < |o| && o[i].id == id;
      BehindTheRunning(side, done, log, i);
    }
  }

  lemma BusyList(side: Side, done: set<ActionId>, log: seq<Event>)
    requires Busy(side, done, log)
    ensures var s, c := side.sess, side.sess.current.value.spec;
            && Exact(s.queue) && side.known <= |side.pipeline|
            && HasId(side.pipeline, c.id) && c.id !in done && InFront(side, c.id, done)
            && Specs(s.queue.actions) == Left(side, done + {c.id})
  {
    var s, c := side.sess, side.sess.current.value.spec;
    hide Coupled, PhasesOk, CancelOk, Exact;
    InFrontGrows(side, side, c.id, done, done);
    assert CurrentIds(s) == {c.id};
    OutstandingFacts(side, done + {c.id});
    PresentedSame(s.target, Left(side, done + {c.id}));
  }

  lemma BehindTheRunning(side: Side, done: set<ActionId>, log: seq<Event>, i: nat)
    requires Busy(side, done, log) && side.known <= |side.pipeline| && i < |Left(side, done + {side.sess.current.value.spec.id})|
    ensures var c := side.sess.current.value.spec;
            var a := Left(side, done + {c.id})[i];
            PhaseOf(log, a.id).Queued? && HasId(side.pipeline, a.id) && a.id != c.id
  {
    hide QueueOk, CurrentOk, TargetOk, CancelOk;
    var c := side.sess.current.value.spec;
    OutstandingFacts(side, done + {c.id});
    var a := Left(side, done + {c.id})[i];
    var k :| 0 <= k < |side.pipeline| && side.pipeline[k] == a;
    assert a.id !in done && !PhaseOf(log, a.id).Done?;
  }

  /** A task that owes an upload leaves the upload at the head of the queue. */
  lemma UploadCallback(side: Side, done: set<ActionId>, log: seq<Event>, state: ActionState, now: Time, detail: int)
    requires Busy(side, done, log) && Unbroken(log)
    requires side.sess.target.None? && OwesUpload(side.sess, state)
    ensures CallbackOk(side, done, log, state, ActionUpdated(side.sess, state, now, detail))
    ensures forall f | f in ActionUpdated(side.sess, state, now, detail).events :: !f.Reported?
  {
    var s, c := side.sess, side.sess.current.value;
    var e := ActionUpdated(s, state, now, detail);
    var side' := AfterCallback(side, state, e);
    BusyQueue(side, done, log);
    assert e.events == [UploadQueued(c.spec.id)];
    OneStep(log, UploadQueued(c.spec.id));
    assert CompletedIds(e.events) == {};
    assert done + CompletedIds(e.events) == done;
    UploadQueue(side, done, log);
    assert done + CurrentIds(e.sess) == done;
    InFrontGrows(side, side', c.spec.id, done, done);
    assert QueueOk(side', done);
  }

  lemma UploadQueue(side: Side, done: set<ActionId>, log: seq<Event>)
    requires Busy(side, done, log)
    ensures var c := side.sess.current.value;
            var q := InsertFront(side.sess.queue, UploadSpec(c));
            && Exact(q)
            && Specs(q.actions) == Presented(Some(c), Left(side, done))
  {
    var c, left := side.sess.current.value, Left(side, done);
    BusyQueue(side, done, log);
    InsertFrontExact(side.sess.queue, UploadSpec(c));
    InFrontIsFirst(side, c.spec.id, done);
    OutstandingTail(side.pipeline[..side.known], done);
    LeftPresentsUpload(left, c, Specs(side.sess.queue.actions));
  }

  lemma LeftPresentsUpload(left: seq<ActionSpec>, c: CurrentAction, queued: seq<ActionSpec>)
    requires left != [] && left[0].id == c.spec.id && queued == left[1..] && !HasId(queued, c.spec.id)
    ensures [UploadSpec(c)] + queued == Presented(Some(c), left)
  {
    forall i | 1 <= i < |left| ensures left[i].id != c.spec.id {
      assert queued[i - 1].id != c.spec.id;
    }
  }

  lemma InsertFrontExact(q: Queue, spec: ActionSpec)
    requires Exact(q) && !HasId(Specs(q.actions), spec.id)
    ensures Exact(InsertFront(q, spec))
    ensures Specs(InsertFront(q, spec).actions) == [spec] + Specs(q.actions)
  {
    var r := InsertFront(q, spec);
    InsertFrontCoherent(q, spec);
    assert Specs(r.actions) == [spec] + Specs(q.actions);
    forall k | k in r.byId ensures HasId(Specs(r.actions), k) {
      if k == spec.id {
        assert Specs(r.actions)[0].id == k;
      } else {
        var i :| 0 <= i < |Specs(q.actions)| && Specs(q.actions)[i].id == k;
        assert Specs(r.actions)[i + 1].id == k;
      }
    }
  }

  /** A completed action: what it takes with it was never attempted, the action itself is done. */
  lemma CompletionTracks(log: seq<Event>, rest: seq<Event>, gone: set<ActionId>, last: Event)
    requires Unbroken(log) && CancelsExactly(rest, gone) && last.Completes() && last.Subject() !in gone
    requires forall id | id in gone :: PhaseOf(log, id).Queued?
    requires Advance(PhaseOf(log, last.Subject()), last) == Done
    ensures var events := rest + [last];
            && StaysUnbroken(log, events)
            && CompletedIds(events) == gone + {last.Subject()}
            && (forall f | f in events :: f.Subject() in gone + {last.Subject()})
            && (forall id :: PhaseOf(log + events, id) == if id in gone + {last.Subject()} then Done else PhaseOf(log, id))
  {
    var events := rest + [last];
    LogGrows(log, events);
    forall id
      ensures TrackFrom(TrackOf(log, id), events, id).phase
              == if id in gone + {last.Subject()} then Done else PhaseOf(log, id)
      ensures !TrackFrom(TrackOf(log, id), events, id).phase.Broken?
    {
      assert !PhaseOf(log, id).Broken?;
      TrackFromAppend(TrackOf(log, id), rest, [last], id);
      TrackOne(TrackFrom(TrackOf(log, id), rest, id), last, id);
    }
    CompletedIdsAppend(rest, [last]);
    assert CompletedIds([last]) == {last.Subject()} by {
      assert [last][0] == last;
    }
  }

  lemma CompletionSide(side: Side, done: set<ActionId>, log: seq<Event>, sess: Sess, gone: set<ActionId>,
          log': seq<Event>)
    requires Busy(side, done, log)
    requires sess.current.None? && sess.target.None? && !sess.interrupted && sess.stopResult == side.sess.stopResult
    requires Exact(sess.queue)
    requires Specs(sess.queue.actions) == Outstanding(Specs(side.sess.queue.actions), gone)
    requires forall id :: PhaseOf(log', id) == if id in gone + {side.sess.current.value.spec.id} then Done else PhaseOf(log, id)
    ensures SideInv(side.(sess := sess, work := None), done + (gone + {side.sess.current.value.spec.id}), log')
  {
    CompletionQueue(side, done, log, sess, gone);
    CompletionPhases(side, done, log, sess, gone, log');
    CompletionCancels(side, done, log, sess, gone, log');
    hide QueueOk, PhasesOk, Coupled, InFront, Exact, CancelOk;
  }

  /** A session that runs an action is not cancelling its queue. */
  lemma CompletionCancels(side: Side, done: set<ActionId>, log: seq<Event>, sess: Sess, gone: set<ActionId>,
          log': seq<Event>)
    requires Busy(side, done, log)
    ensures side.thread.Looping?
    ensures CancelOk(side.(sess := sess, work := None), done + (gone + {side.sess.current.value.spec.id}), log')
  {
    hide QueueOk, TargetOk, PhasesOk, Coupled, InFront, Open;
  }

  lemma CompletionQueue(side: Side, done: set<ActionId>, log: seq<Event>, sess: Sess, gone: set<ActionId>)
    requires Busy(side, done, log)
    requires sess.current.None? && sess.target.None? && Exact(sess.queue)
    requires Specs(sess.queue.actions) == Outstanding(Specs(side.sess.queue.actions), gone)
    ensures side.thread.Orderly() ==>
              QueueOk(side.(sess := sess, work := None), done + (gone + {side.sess.current.value.spec.id}))
  {
    var id := side.sess.current.value.spec.id;
    BusyQueue(side, done, log);
    hide Coupled, CurrentOk, TargetOk, PhasesOk, InFront, Exact;
    OutstandingCompose(side.pipeline[..side.known], done + {id}, gone);
    assert done + (gone + {id}) + CurrentIds(sess) == done + {id} + gone;
    PresentedSame(None, Specs(sess.queue.actions));
  }

  lemma CompletionPhases(side: Side, done: set<ActionId>, log: seq<Event>, sess: Sess, gone: set<ActionId>,
          log': seq<Event>)
    requires Busy(side, done, log) && sess.current.None? && sess.target.None?
    requires forall id :: PhaseOf(log', id) == if id in gone + {side.sess.current.value.spec.id} then Done else PhaseOf(log, id)
    ensures PhasesOk(side.(sess := sess, work := None), log')
  {
    hide Coupled, CurrentOk, TargetOk, QueueOk, InFront;
  }

  predicate Finishing(side: Side, s: Sess, state: ActionState, action: CurrentAction)
    requires side.sess.current.Some?
  {
    && s == side.sess.(target := None) && action.spec.id == side.sess.current.value.spec.id
    && !state.RUNNING? && (side.sess.target.Some? || !OwesUpload(side.sess, state))
  }

  lemma CompletionAdvances(side: Side, done: set<ActionId>, log: seq<Event>, s: Sess, state: ActionState,
          action: CurrentAction, now: Time, detail: int)
    requires Busy(side, done, log) && Finishing(side, s, state, action)
    ensures var last := Reported(StatusOf(action, state, now, detail), s.Attachments());
            && last.Completes() && last.Subject() == side.sess.current.value.spec.id
            && Advance(PhaseOf(log, last.Subject()), last) == Done
  {
  }

  /** What the completion of the running action leaves, put together. */
  lemma CompletedOk(side: Side, done: set<ActionId>, log: seq<Event>, state: ActionState, sess: Sess,
          events: seq<Event>, gone: set<ActionId>)
    requires !state.RUNNING? && CompletedIds(events) == gone && StaysUnbroken(log, events)
    requires SideInv(side.(sess := sess, work := None), done + gone, log + events)
    requires forall f | f in events :: f.Subject() in gone
    requires forall id | id in gone :: HasId(side.pipeline, id)
    ensures CallbackOk(side, done, log, state, Effect(sess, events, false))
  {
    hide SideInv, StaysUnbroken, CompletedIds;
  }

  lemma FailureIs(s: Sess, state: ActionState, action: CurrentAction, now: Time, detail: int)
    requires Unsuccessful(state) && s.target.None?
    ensures var c := CancelQueued(s, detail);
            && c.sess == s.(queue := c.sess.queue)
            && HandleUpdate(s, state, action, now, detail)
               == Effect(c.sess.(current := None), c.events + [Reported(StatusOf(action, state, now, detail), s.Attachments())], false)
  {
  }

  /** The running action fails, is cancelled or times out. */
  lemma FailureCallback(side: Side, done: set<ActionId>, log: seq<Event>, s: Sess, state: ActionState,
          action: CurrentAction, now: Time, detail: int)
    requires Busy(side, done, log) && Unbroken(log) && Finishing(side, s, state, action) && Unsuccessful(state)
    ensures CallbackOk(side, done, log, state, HandleUpdate(s, state, action, now, detail))
  {
    BusyParts(side, done, log);
    hide SideInv, Busy, Unbroken, CancelsExactly, StatusOf, CancelQueued, HandleUpdate, CallbackOk, StaysUnbroken, CompletedIds, InFront,
      Coherent, Left, Advance, CancelGone;
    CompletionAdvances(side, done, log, s, state, action, now, detail);
    BusyGone(side, done, log);
    CancelEventFacts(s, detail);
    CancelQueueFacts(s, detail);
    FailureIs(s, state, action, now, detail);
    var c, gone, id := CancelQueued(s, detail), CancelGone(s.queue), action.spec.id;
    var last := Reported(StatusOf(action, state, now, detail), s.Attachments());
    CompletionTracks(log, c.events, gone, last);
    CompletionSide(side, done, log, c.sess.(current := None), gone, log + (c.events + [last]));
    CompletedOk(side, done, log, state, c.sess.(current := None), c.events + [last], gone + {id});
  }

  /** What a failure cancels was never started. */
  lemma BusyGone(side: Side, done: set<ActionId>, log: seq<Event>)
    requires Busy(side, done, log)
    ensures Exact(side.sess.queue) && HasId(side.pipeline, side.sess.current.value.spec.id)
    ensures forall id | id in CancelGone(side.sess.queue) ::
              PhaseOf(log, id).Queued? && HasId(side.pipeline, id) && id != side.sess.current.value.spec.id
  {
    BusyQueue(side, done, log);
    CancelGoneIs(side.sess.queue);
    hide Busy, Exact, CancelGone, Left;
    forall id | id in CancelGone(side.sess.queue)
      ensures PhaseOf(log, id).Queued? && HasId(side.pipeline, id) && id != side.sess.current.value.spec.id
    {
      assert HasId(Specs(side.sess.queue.actions), id);
    }
  }

  lemma BusyParts(side: Side, done: set<ActionId>, log: seq<Event>)
    requires Busy(side, done, log)
    ensures side.sess.current.Some? && !side.sess.interrupted
  {
  }

  /** The running action succeeds. */
  lemma SuccessCallback(side: Side, done: set<ActionId>, log: seq<Event>, s: Sess, state: ActionState,
          action: CurrentAction, now: Time, detail: int)
    requires Busy(side, done, log) && Unbroken(log) && Finishing(side, s, state, action) && !Unsuccessful(state)
    ensures CallbackOk(side, done, log, state, HandleUpdate(s, state, action, now, detail))
  {
    CompletionAdvances(side, done, log, s, state, action, now, detail);
    BusyQueue(side, done, log);
    var last := Reported(StatusOf(action, state, now, detail), s.Attachments());
    var none: seq<Event> := [];
    assert none + [last] == [last];
    assert HandleUpdate(s, state, action, now, detail) == Effect(s.(current := None), [last], false);
    NothingCancelled();
    CompletionTracks(log, [], {}, last);
    OutstandingNothingGone(Specs(s.queue.actions), {});
    CompletionSide(side, done, log, s.(current := None), {}, log + [last]);
    hide Busy, SideInv, Unbroken, CancelsExactly;
  }

  /** A completion that is reported: of an action that owes no upload, or of the upload on behalf of
      its task. */
  lemma CompletionCallback(side: Side, done: set<ActionId>, log: seq<Event>, s: Sess, state: ActionState,
          action: CurrentAction, now: Time, detail: int)
    requires Busy(side, done, log) && Unbroken(log) && Finishing(side, s, state, action)
    ensures CallbackOk(side, done, log, state, HandleUpdate(s, state, action, now, detail))
    ensures forall f | f in HandleUpdate(s, state, action, now, detail).events :: f.Reported? && f.status.Terminal()
  {
    hide Busy, Unbroken, CallbackOk, HandleUpdate;
    HandleTerminal(s, state, action, now, detail);
    if Unsuccessful(state) {
      FailureCallback(side, done, log, s, state, action, now, detail);
    } else {
      SuccessCallback(side, done, log, s, state, action, now, detail);
    }
  }

  lemma HandleTerminal(s: Sess, state: ActionState, action: CurrentAction, now: Time, detail: int)
    requires !state.RUNNING?
    ensures forall f | f in HandleUpdate(s, state, action, now, detail).events :: f.Reported? && f.status.Terminal()
  {
    hide CancelAll, CancelIds;
  }

  lemma NothingCancelled()
    ensures CancelsExactly([], {})
  {
  }

  /** A progress update of an action that is not an upload. */
  lemma ProgressCallback(side: Side, done: set<ActionId>, log: seq<Event>, now: Time, detail: int)
    requires Busy(side, done, log) && Unbroken(log) && side.sess.target.None?
    ensures CallbackOk(side, done, log, RUNNING, ActionUpdated(side.sess, RUNNING, now, detail))
    ensures forall f | f in ActionUpdated(side.sess, RUNNING, now, detail).events ::
              f.Reported? && f.status.updateTime == Some(now)
  {
    var s, c := side.sess, side.sess.current.value;
    var e := ActionUpdated(s, RUNNING, now, detail);
    var report := Reported(StatusOf(c, RUNNING, now, detail), s.Attachments());
    assert e.events == [report];
    BusyQueue(side, done, log);
    OneStep(log, report);
    assert CompletedIds(e.events) == {};
    assert done + CompletedIds(e.events) == done;
    assert e.sess == s && AfterCallback(side, RUNNING, e) == side;
    forall a | a in side.pipeline ensures PhaseOf(log, a.id) == PhaseOf(log + e.events, a.id) {}
    SideFrame(side, done, log, done, log + e.events);
  }

  lemma CallbackKeeps(side: Side, done: set<ActionId>, log: seq<Event>, state: ActionState, now: Time, detail: int)
    requires SideInv(side, done, log) && Coupled(done, log) && Unbroken(log) && side.work.Some?
    ensures CallbackOk(side, done, log, state, ActionUpdated(side.sess, state, now, detail))
    ensures forall f | f in ActionUpdated(side.sess, state, now, detail).events && f.Reported? ::
              f.status.Terminal() || (state.RUNNING? && f.status.updateTime == Some(now))
  {
    var s := side.sess;
    if s.interrupted || s.current.None? {
      CleanupCallback(side, done, log, state, now, detail);
    } else if s.target.Some? {
      if state.RUNNING? {
        NoEvents(log, done);
        assert ActionUpdated(s, state, now, detail) == Effect(s, [], false);
        assert AfterCallback(side, state, Effect(s, [], false)) == side;
      } else {
        CompletionCallback(side, done, log, s.(target := None), state, s.target.value, now, detail);
      }
    } else if state.RUNNING? {
      ProgressCallback(side, done, log, now, detail);
    } else if OwesUpload(s, state) {
      UploadCallback(side, done, log, state, now, detail);
    } else {
      CompletionCallback(side, done, log, s, state, s.current.value, now, detail);
    }
  }
}
