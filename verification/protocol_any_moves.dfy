/** Assignments and the cleanup keep what holds of a session in every run. */
module AnyMoves {
  import opened Actions
  import opened Lifecycle
  import opened QueueModel
  import opened SessionModel
  import opened SchedulerModel
  import opened Protocol
  import opened ProtocolShared
  import opened ProtocolSides
  import opened ProtocolStart
  import opened ProtocolCallback
  import opened ProtocolAssign
  import opened ProtocolCleanup
  import opened AnySides
  import opened AnySteps
  import opened AnyCallbacks

  // ----- assignments to a session that runs

  /** What the scheduler assigns to the session. */
  function Assigns(side: Side, updates: map<ActionId, Status>, view: map<ActionId, Status>): seq<ActionSpec> {
    Outstanding(Unfinished(Outstanding(side.pipeline, TerminalIds(view)), updates), CurrentIds(side.sess))
  }

  lemma AssignsIs(side: Side, updates: map<ActionId, Status>, view: map<ActionId, Status>)
    ensures Assigns(side, updates, view)
         == Outstanding(side.pipeline, TerminalIds(view) + TerminalIds(updates) + CurrentIds(side.sess))
  {
    OutstandingCompose(side.pipeline, TerminalIds(view), TerminalIds(updates));
    OutstandingCompose(side.pipeline, TerminalIds(view) + TerminalIds(updates), CurrentIds(side.sess));
  }

  /** It is all that is neither completed nor running: everything completed is known to be. */
  lemma AssignsWhatIsLeft(side: Side, m: Marks, updates: map<ActionId, Status>, view: map<ActionId, Status>)
    requires AllClosed(side, m, updates, view) && LoopTarget(side, m)
    requires TerminalIds(view) <= m.ended && TerminalIds(updates) <= m.ended
    ensures Assigns(side, updates, view) == Outstanding(side.pipeline, m.ended + CurrentIds(side.sess))
  {
    AssignsIs(side, updates, view);
    var known := TerminalIds(view) + TerminalIds(updates) + CurrentIds(side.sess);
    forall a | a in side.pipeline ensures a.id in known <==> a.id in m.ended + CurrentIds(side.sess) {
      if a.id in m.ended && a.id !in CurrentIds(side.sess) {
        assert a.id !in TargetIds(side.sess);
        assert Closed(a.id, updates, view);
      }
    }
    OutstandingAgree(side.pipeline, known, m.ended + CurrentIds(side.sess));
  }

  lemma QueuedEntry(side: Side, m: Marks, id: ActionId) returns (i: nat, k: nat)
    requires PipelineOk(side) && LoopQueue(side, m) && HasId(Specs(side.sess.queue.actions), id) && id !in m.ended
    ensures i < |side.sess.queue.actions| && side.sess.queue.actions[i].spec.id == id
    ensures k < |Listed(side, m.ended)| && Listed(side, m.ended)[k] == side.sess.queue.actions[i].spec
  {
    var specs := Specs(side.sess.queue.actions);
    i :| 0 <= i < |specs| && specs[i].id == id;
    if specs == Listed(side, m.ended) {
      k := i;
    } else {
      assert i > 0;
      k := i - 1;
      assert specs[1..][k] == specs[i];
    }
  }

  /** An entry that the queue already has shows its action as before. */
  lemma KnownShows(side: Side, m: Marks, a: ActionSpec)
    requires PipelineOk(side) && LoopQueue(side, m) && a in side.pipeline && a.id !in m.ended
    requires a.id in side.sess.queue.byId
    ensures side.sess.queue.byId[a.id].spec == Presented(side.sess.target, [a])[0]
    ensures HasId(Specs(side.sess.queue.actions), a.id)
  {
    var i, k := QueuedEntry(side, m, a.id);
    var q, left := side.sess.queue, Outstanding(side.pipeline[..side.known], m.ended + CurrentIds(side.sess));
    OutstandingFacts(side, m.ended + CurrentIds(side.sess));
    assert q.byId[q.actions[i].spec.id] == q.actions[i];
    assert left[k].id == a.id && left[k] in side.pipeline;
    SameIdSameAction(side.pipeline, left[k], a);
  }

  lemma WaitingIsKnown(side: Side, m: Marks)
    requires PipelineOk(side) && Loops(side, m) && side.sess.target.Some? && side.sess.current.None?
    ensures side.sess.target.value.spec.id in side.sess.queue.byId
  {
    var q := side.sess.queue;
    assert m.ended + CurrentIds(side.sess) == m.ended;
    InFrontIsFirst(side, side.sess.target.value.spec.id, m.ended);
    assert |Specs(q.actions)| == |q.actions| && q.actions != [];
    HeadIs(side, m);
    assert q.actions[0].spec.id in q.byId;
  }

  lemma AssignedShows(side: Side, m: Marks, i: nat)
    requires PipelineOk(side) && Loops(side, m) && i < |Outstanding(side.pipeline, m.ended + CurrentIds(side.sess))|
    ensures var specs, byId := Outstanding(side.pipeline, m.ended + CurrentIds(side.sess)), side.sess.queue.byId;
            Presented(side.sess.target, specs)[i]
            == if specs[i].id in byId then byId[specs[i].id].spec else specs[i]
  {
    var specs := Outstanding(side.pipeline, m.ended + CurrentIds(side.sess));
    OutstandingMembers(side.pipeline, m.ended + CurrentIds(side.sess));
    assert specs[i] in specs;
    if specs[i].id in side.sess.queue.byId {
      KnownShows(side, m, specs[i]);
    } else if side.sess.target.Some? && side.sess.target.value.spec.id == specs[i].id {
      WaitingIsKnown(side, m);
    }
  }

  lemma AssignedQueue(side: Side, m: Marks)
    requires PipelineOk(side) && Loops(side, m)
    ensures var specs := Outstanding(side.pipeline, m.ended + CurrentIds(side.sess));
            var r := Replace(side.sess.queue, specs);
            KeysOk(r, m.ended) && Specs(r.actions) == Presented(side.sess.target, specs)
  {
    LoopsKeys(side, m);
    hide Loops, Coherent;
    var q, specs := side.sess.queue, Outstanding(side.pipeline, m.ended + CurrentIds(side.sess));
    var r := Replace(q, specs);
    ToQueue(side, m.ended);
    ReplaceFollows(q, specs);
    FillKeeps(q.byId, q.nextEvent, specs);
    assert |Ids(Specs(r.actions))| == |Ids(specs)|;
    forall i | 0 <= i < |specs| ensures Specs(r.actions)[i] == Presented(side.sess.target, specs)[i] {
      AssignedShows(side, m, i);
    }
    forall k | k in r.byId ensures HasId(Specs(r.actions), k) || k in m.ended {
      if k in q.byId && k !in m.ended {
        StaysListed(side, m, k);
      }
      if k !in m.ended {
        var i :| 0 <= i < |specs| && specs[i].id == k;
        assert Specs(r.actions)[i].id == k;
      }
    }
  }

  lemma LoopsKeys(side: Side, m: Marks)
    requires Loops(side, m)
    ensures KeysOk(side.sess.queue, m.ended) && side.known <= |side.pipeline| && LoopQueue(side, m)
  {
  }

  lemma StaysListed(side: Side, m: Marks, id: ActionId)
    requires PipelineOk(side) && Loops(side, m) && id in side.sess.queue.byId && id !in m.ended
    ensures HasId(Outstanding(side.pipeline, m.ended + CurrentIds(side.sess)), id)
  {
    var i, k := QueuedEntry(side, m, id);
    assert Listed(side, m.ended)[k].id == id;
    ListedIds(side, m.ended, id);
    OutstandingHasId(side.pipeline, m.ended + CurrentIds(side.sess), id);
  }

  lemma AssignLoops(side: Side, m: Marks, side': Side)
    requires PipelineOk(side) && Loops(side, m)
    requires side' == side.(sess := side.sess.(queue := side'.sess.queue), known := |side.pipeline|)
    requires side'.sess.queue == Replace(side.sess.queue, Outstanding(side.pipeline, m.ended + CurrentIds(side.sess)))
    ensures Loops(side', m)
  {
    AssignedQueue(side, m);
    assert side'.pipeline[..side'.known] == side.pipeline && CurrentIds(side'.sess) == CurrentIds(side.sess);
    hide LoopQueue, KeysOk, Replace;
    assert Listed(side', m.ended) == Presented(side.sess.target, Outstanding(side.pipeline, m.ended + CurrentIds(side.sess)));
    QueueIsListed(side', m);
    forall id | InFront(side, id, m.ended) ensures InFront(side', id, m.ended) {
      InFrontKnown(side, side', id, m.ended);
    }
  }

  lemma QueueIsListed(side: Side, m: Marks)
    requires side.known <= |side.pipeline| && KeysOk(side.sess.queue, m.ended)
    requires Specs(side.sess.queue.actions) == Listed(side, m.ended)
    ensures LoopQueue(side, m)
  {
  }

  // ----- sessions past their run loop

  lemma AssignsShape(side: Side, updates: map<ActionId, Status>, view: map<ActionId, Status>)
    requires PipelineOk(side)
    ensures var specs := Assigns(side, updates, view);
            DistinctIds(specs) && forall a | a in specs :: a.kind.Assignable() && HasId(side.pipeline, a.id)
  {
    AssignsIs(side, updates, view);
    var gone := TerminalIds(view) + TerminalIds(updates) + CurrentIds(side.sess);
    OutstandingMembers(side.pipeline, gone);
    forall a | a in Outstanding(side.pipeline, gone) ensures HasId(side.pipeline, a.id) {
      var i :| 0 <= i < |side.pipeline| && side.pipeline[i] == a;
    }
  }

  lemma TornIsShaped(side: Side, specs: seq<ActionSpec>, queue: Queue)
    requires QueueShape(side) && side.thread.Cancelling? && Torn(side.sess.queue, side.thread.stage, specs, queue)
    requires DistinctIds(specs) && forall a | a in specs :: HasId(side.pipeline, a.id)
    ensures QueueShape(side.(sess := side.sess.(queue := queue), known := |side.pipeline|))
  {
    SameIdsShape(side, specs, queue);
  }

  /** An assignment, whole or broken into. */
  lemma AssignAny(side: Side, m: Marks, updates: map<ActionId, Status>, view: map<ActionId, Status>, queue: Queue)
    requires AnySide(side, m, updates, view) && TerminalIds(view) <= m.ended && TerminalIds(updates) <= m.ended
    requires var specs := Assigns(side, updates, view);
             queue == Replace(side.sess.queue, specs)
             || (side.thread.Cancelling? && Torn(side.sess.queue, side.thread.stage, specs, queue))
    ensures StepOk(side, m, updates, view, side.(sess := side.sess.(queue := queue), known := |side.pipeline|), [])
  {
    hide LoopQueue, LoopCurrent, StartedOk, QueueShape, Torn, Replace;
    NothingLogged(side, m);
    AssignsShape(side, updates, view);
    var side' := side.(sess := side.sess.(queue := queue), known := |side.pipeline|);
    if side.thread.Looping? {
      AssignsWhatIsLeft(side, m, updates, view);
      AssignLoops(side, m, side');
      AllClosedAfter(side, m, updates, view, side', []);
    } else if queue == Replace(side.sess.queue, Assigns(side, updates, view)) {
      ReplaceShape(side, Assigns(side, updates, view));
      ShapeIgnoresKnown(side.(sess := side.sess.(queue := queue)), |side.pipeline|);
    } else {
      TornIsShaped(side, Assigns(side, updates, view), queue);
    }
  }

  lemma ShapeIgnoresKnown(side: Side, known: nat)
    requires QueueShape(side)
    ensures QueueShape(side.(known := known))
  {
  }

  // ----- the cleanup

  lemma LoopsShape(side: Side, m: Marks)
    requires PipelineOk(side) && Loops(side, m)
    ensures QueueShape(side)
  {
    QueuedInPipeline(side, m);
  }

  /** The cleanup reports the running action. */
  lemma InterruptAny(side: Side, m: Marks, updates: map<ActionId, Status>, view: map<ActionId, Status>, now: Time)
    requires AnySide(side, m, updates, view) && side.thread.Looping? && side.sess.stop
    ensures var e := Interrupt(side.sess, now);
            StepOk(side, m, updates, view, side.(sess := e.sess, thread := Stopping), e.events)
  {
    hide Loops, AllClosed, Absorb;
    LoopsShape(side, m);
    var e := Interrupt(side.sess, now);
    var side' := side.(sess := e.sess, thread := Stopping);
    assert side'.thread.Unreported() == [];
    if side.sess.current.Some? {
      BehindCurrent(side, m);
    } else {
      NothingLogged(side, m);
    }
  }

  lemma ListAny(side: Side, m: Marks, updates: map<ActionId, Status>, view: map<ActionId, Status>)
    requires AnySide(side, m, updates, view) && side.thread.Stopping?
    ensures StepOk(side, m, updates, view, side.(thread := Cancelling(CancelIds(side.sess.queue.actions, true), Between)), [])
  {
    hide Loops, AllClosed;
    NothingLogged(side, m);
    var ids := CancelIds(side.sess.queue.actions, true);
    var side' := side.(thread := Cancelling(ids, Between));
    CancelIdsMembers(side.sess.queue.actions, true);
    assert side'.thread.Unreported() == ids;
    forall id | id in ids ensures HasId(side.pipeline, id) {
      var e :| e in side.sess.queue.actions && e.spec.id == id;
      var i :| 0 <= i < |side.sess.queue.actions| && side.sess.queue.actions[i] == e;
      assert Specs(side.sess.queue.actions)[i].id == id;
    }
  }

  lemma PopAny(side: Side, m: Marks, updates: map<ActionId, Status>, view: map<ActionId, Status>)
    requires AnySide(side, m, updates, view) && Cancels(side, Between) && side.thread.ids != []
    ensures StepOk(side, m, updates, view, PopNext(side), [])
  {
    hide Loops, AllClosed, QueueShape;
    NothingLogged(side, m);
    PoppedShape(side);
    PoppedIds(side);
  }

  lemma PoppedIds(side: Side)
    requires QueueShape(side) && Cancels(side, Between) && side.thread.ids != []
    ensures forall id | id in PopNext(side).thread.Unreported() :: id in side.thread.Unreported()
    ensures PopNext(side).pipeline == side.pipeline && PopNext(side).known == side.known && PopNext(side).thread.Cancelling?
    ensures PopNext(side).sess == side.sess.(queue := PopNext(side).sess.queue)
  {
    var ids := side.thread.ids;
    assert side.thread.Unreported() == ids && [ids[0]] + ids[1..] == ids;
    assert PopNext(side).thread.Unreported() == if ids[0] in side.sess.queue.byId then ids else ids[1..];
  }

  lemma RemoveAny(side: Side, m: Marks, updates: map<ActionId, Status>, view: map<ActionId, Status>)
    requires AnySide(side, m, updates, view) && side.thread.Cancelling? && side.thread.stage.Popped?
    ensures StepOk(side, m, updates, view, RemovePopped(side), [])
  {
    hide Loops, AllClosed, QueueShape, RemoveFirst;
    NothingLogged(side, m);
    RemovedShape(side);
    var entry := side.thread.stage.entry;
    assert RemovePopped(side).thread.Unreported()
        == if entry in side.sess.queue.actions then side.thread.Unreported() else [];
  }

  lemma ReportAny(side: Side, m: Marks, updates: map<ActionId, Status>, view: map<ActionId, Status>)
    requires AnySide(side, m, updates, view) && side.thread.Cancelling? && side.thread.stage.Removed?
    ensures StepOk(side, m, updates, view, side.(thread := Cancelling(side.thread.ids, Between)), [CancelReport(side)])
  {
    hide Loops, AllClosed, QueueShape, Absorb;
    var id, ids := side.thread.stage.entry.spec.id, side.thread.ids;
    var side' := side.(thread := Cancelling(ids, Between));
    assert side.thread.Unreported() == [id] + ids && side'.thread.Unreported() == ids;
    assert [id][0] in [id] + ids;
    ShapeIgnoresThread(side, side');
  }

  lemma ShapeIgnoresThread(side: Side, side': Side)
    requires QueueShape(side) && side'.pipeline == side.pipeline && side'.sess.queue == side.sess.queue
    ensures QueueShape(side')
  {
  }

  /** A thread that ends, or that exits environments, and a session that is told to stop. */
  lemma QuietAny(side: Side, m: Marks, updates: map<ActionId, Status>, view: map<ActionId, Status>, side': Side)
    requires AnySide(side, m, updates, view) && side'.pipeline == side.pipeline && side'.known == side.known
    requires side'.sess == side.sess.(stop := side'.sess.stop, stopResult := side'.sess.stopResult, stopDetail := side'.sess.stopDetail)
    requires side'.sess.stopResult in {INTERRUPTED, FAILED} && (side.sess.stop ==> side'.sess.stop)
    requires if side.thread.Looping? then side'.thread.Looping? && side'.work == side.work
             else !side'.thread.Looping? && forall id | id in side'.thread.Unreported() :: id in side.thread.Unreported()
    ensures StepOk(side, m, updates, view, side', [])
  {
    hide LoopQueue, LoopCurrent, LoopTarget, StartedOk, QueueShape;
    NothingLogged(side, m);
    if side.thread.Looping? {
      SameLoops(side, m, side');
      AllClosedAfter(side, m, updates, view, side', []);
    } else {
      ShapeIgnoresThread(side, side');
    }
  }

  lemma GiveBackAny(side: Side, m: Marks, updates: map<ActionId, Status>, view: map<ActionId, Status>,
          listed: seq<ActionSpec>, now: Time, detail: int)
    requires AnySide(side, m, updates, view) && side.thread.Ended? && DistinctIds(listed)
    requires forall a | a in listed :: HasId(side.pipeline, a.id)
    ensures var events := ReturnEvents(updates, listed, true, now, detail);
            StepOk(side, m, updates, view, side, events) && forall e | e in events :: e.Completes()
  {
    hide Loops, AllClosed, QueueShape, Absorb, ReturnEvents;
    var events := ReturnEvents(updates, listed, true, now, detail);
    ReturnEventsMembers(updates, listed, true, now, detail);
    forall e | e in events ensures HasId(side.pipeline, e.Subject()) {
      var i :| 0 <= i < |listed| && listed[i].id == e.Subject();
      assert listed[i] in listed;
    }
    forall k | 0 <= k < |events| ensures events[k].Completes() {
      assert events[k] in events;
    }
  }
}
