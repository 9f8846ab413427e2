/** What can go wrong between the cancelation of a session's queue and an assignment that comes in
    between, and exactly when. */
module ProtocolRaces {
  import opened Actions
  import opened Lifecycle
  import opened QueueModel
  import opened SessionModel
  import opened SchedulerModel
  import opened Protocol
  import opened ProtocolShared
  import opened ProtocolSides
  import opened ProtocolStart
  import opened ProtocolCallback
  import opened ProtocolAssign
  import opened ProtocolCleanup
  import opened ProtocolSteps
  import opened ProtocolTheorems

  /** The cancelation has taken the action out of the queue and not yet reported it. */
  predicate Taken(side: Side, id: ActionId) {
    side.thread.Cancelling? && side.thread.stage.Removed? && side.thread.stage.entry.spec.id == id
  }

  /** Nothing that was completed, or taken out to be completed, is queued. */
  ghost predicate Sound(side: Side, done: set<ActionId>) {
    forall id | HasId(Specs(side.sess.queue.actions), id) :: id !in done && !Taken(side, id)
  }

  lemma OrderlyIsSound(side: Side, done: set<ActionId>)
    requires side.thread.Orderly() && QueueOk(side, done) && DistinctIds(side.pipeline)
    ensures Sound(side, done)
  {
    OutstandingFacts(side, done + CurrentIds(side.sess));
  }

  /** The queue with the actions `specs`, however its entries came about. */
  lemma AssignedIsSound(side: Side, done: set<ActionId>, log: seq<Event>, side': Side)
    requires SideInv(side, done, log) && !side.thread.Orderly()
    requires side'.thread == side.thread
    requires Ids(Specs(side'.sess.queue.actions)) == Ids(Outstanding(side.pipeline, done + CurrentIds(side.sess)))
    ensures Sound(side', done) <==> !(side.thread.Cancelling? && side.thread.stage.Removed?)
  {
    var gone := done + CurrentIds(side.sess);
    var specs, queued := Outstanding(side.pipeline, gone), Specs(side'.sess.queue.actions);
    assert |queued| == |Ids(queued)| == |specs|;
    forall id ensures HasId(queued, id) <==> HasId(side.pipeline, id) && id !in gone {
      OutstandingHasId(side.pipeline, gone, id);
      if HasId(specs, id) {
        var i :| 0 <= i < |specs| && specs[i].id == id;
        assert Ids(queued)[i] == queued[i].id == id;
      }
      if HasId(queued, id) {
        var i :| 0 <= i < |queued| && queued[i].id == id;
        assert Ids(specs)[i] == specs[i].id == id;
      }
    }
    if side.thread.Cancelling? && side.thread.stage.Removed? {
      var id := side.thread.stage.entry.spec.id;
      assert id == side.thread.Unreported()[0] && id in side.thread.Unreported();
      assert Open(id, side.pipeline, done, log);
      assert HasId(queued, id) && Taken(side', id);
    }
  }

  /** What a step reports or starts. */
  function StepEvents(s: State, step: Step): seq<Event>
    requires Enabled(s, step)
  {
    match step
    case Start(sid, answer, outcome, now, detail) => StartAction(s.sides[sid].sess, answer, outcome, now, detail).events
    case Callback(sid, state, now, detail) => ActionUpdated(s.sides[sid].sess, state, now, detail).events
    case GiveBack(sid, now, detail) => ReturnEvents(s.updates, s.link.response[sid], true, now, detail)
    case CleanupInterrupt(sid, now) => Interrupt(s.sides[sid].sess, now).events
    case CleanupReport(sid) => [CancelReport(s.sides[sid])]
    case _ => []
  }

  lemma NextLog(s: State, step: Step)
    requires Enabled(s, step)
    ensures Next(s, step).log == s.log + StepEvents(s, step)
    ensures SessionStepOf(step).Some? ==>
              && step.sid in s.sides
              && forall sid | sid in s.sides && sid != step.sid ::
                   sid in Next(s, step).sides && Next(s, step).sides[sid] == s.sides[sid]
  {
    hide Torn, Replace, PopNext, RemovePopped, Absorb, StartAction, ActionUpdated, ReturnEvents, Interrupt, CancelReport,
      AfterStart, CancelIds, Unfinished, ServiceAppends;
    assert s.log + [] == s.log;
  }

  /** What a session's step finds. */
  lemma EnabledFacts(s: State, step: Step)
    requires Enabled(s, step) && SessionStepOf(step).Some?
    ensures step.sid in s.sides
    ensures var side := s.sides[step.sid];
            && (step.Start? ==> side.thread.Looping? && side.sess.current.None?)
            && (step.Callback? ==> side.work.Some?)
            && (step.CleanupInterrupt? ==> side.thread.Looping? && side.sess.stop)
            && (step.CleanupReport? ==> side.thread.Cancelling? && side.thread.stage.Removed?)
  {
    hide Torn;
  }

  /** What a step of one session says is about that session's actions. */
  lemma EventsAreOwn(s: State, step: Step)
    requires Inv(s) && Enabled(s, step) && Clean(s, step) && SessionStepOf(step).Some?
    ensures step.sid in s.sides && forall e | e in StepEvents(s, step) :: HasId(s.sides[step.sid].pipeline, e.Subject())
  {
    hide Inv, SideInv, Enabled, Unbroken, Coupled, StaysUnbroken, StartAction, ActionUpdated, ReturnEvents, Interrupt, CancelReport,
      DequeueOutcome;
    EnabledFacts(s, step);
    InvParts(s, step.sid);
    var side, done := s.sides[step.sid], DoneIds(s);
    match step {
      case Start(_, answer, outcome, now, detail) => StartKeeps(side, done, s.log, answer, outcome, now, detail);
      case Callback(_, state, now, detail) => CallbackKeeps(side, done, s.log, state, now, detail);
      case GiveBack(_, now, detail) => var events := GiveBackEvents(s, step);
      case CleanupInterrupt(_, now) => InterruptKeeps(side, done, s.log, now);
      case CleanupReport(_) => ReportKeeps(side, done, s.log);
      case _ =>
    }
  }

  lemma GiveBackEvents(s: State, step: Step) returns (events: seq<Event>)
    requires Inv(s) && Enabled(s, step) && step.GiveBack?
    ensures events == ReturnEvents(s.updates, s.link.response[step.sid], true, step.now, step.detail)
    ensures forall e | e in events :: HasId(s.sides[step.sid].pipeline, e.Subject())
  {
    hide Inv, SideInv, Enabled, Next, DoneIds, ReturnEvents;
    NextGiveBack(s, step);
    InvParts(s, step.sid);
    var side, listed := s.sides[step.sid], s.link.response[step.sid];
    ListedAreLeft(s, step.sid);
    GiveBackTracks(side, DoneIds(s), s.log, s.updates, listed, step.now, step.detail);
    events := ReturnEvents(s.updates, listed, true, step.now, step.detail);
  }

  /** The session that takes the step; nothing for the scheduler's and the service's own steps. */
  function SessionStepOf(step: Step): Option<SessionId> {
    match step
    case Collect => None
    case Serve(_) => None
    case LoseRequest => None
    case LoseReply(_) => None
    case CommitSent => None
    case _ => Some(step.sid)
  }

  /** A step that is not the session's own completes none of its actions and leaves its queue alone. */
  lemma OthersKeepSound(s: State, step: Step, sid: SessionId)
    requires Inv(s) && Enabled(s, step) && Clean(s, step) && sid in s.sides && SessionStepOf(step) != Some(sid)
    requires sid in Next(s, step).sides && Coupled(DoneIds(Next(s, step)), Next(s, step).log)
    requires !s.sides[sid].thread.Orderly() && Sound(s.sides[sid], DoneIds(s))
    ensures Sound(Next(s, step).sides[sid], DoneIds(Next(s, step)))
  {
    hide Inv, SideInv, Enabled, Next, Clean, Coupled, DoneIds, Unbroken, SessionStepOf, PhaseOf;
    var side, r := s.sides[sid], Next(s, step);
    InvParts(s, sid);
    OthersQueueStays(s, step, sid);
    QueuedIsOwn(side, DoneIds(s), s.log);
    forall id | HasId(Specs(side.sess.queue.actions), id) ensures id in DoneIds(r) <==> id in DoneIds(s) {
      OthersPhase(s, step, sid, id);
      DoneByPhase(DoneIds(s), s.log, DoneIds(r), r.log, id);
    }
  }

  lemma QueuedIsOwn(side: Side, done: set<ActionId>, log: seq<Event>)
    requires SideInv(side, done, log) && !side.thread.Orderly()
    ensures forall id | HasId(Specs(side.sess.queue.actions), id) :: HasId(side.pipeline, id)
  {
    hide CancelOk, CurrentOk, TargetOk, PhasesOk;
  }

  lemma DoneByPhase(done: set<ActionId>, log: seq<Event>, done': set<ActionId>, log': seq<Event>, id: ActionId)
    requires Coupled(done, log) && Coupled(done', log') && PhaseOf(log', id) == PhaseOf(log, id)
    ensures id in done' <==> id in done
  {
  }

  lemma OthersPhase(s: State, step: Step, sid: SessionId, id: ActionId)
    requires Inv(s) && Enabled(s, step) && Clean(s, step) && sid in s.sides && SessionStepOf(step) != Some(sid)
    requires HasId(s.sides[sid].pipeline, id)
    ensures PhaseOf(Next(s, step).log, id) == PhaseOf(s.log, id)
  {
    hide Inv, Enabled, Next, Clean, StepEvents, PhaseOf;
    NextLog(s, step);
    if SessionStepOf(step).Some? {
      EventsAreOwn(s, step);
      OtherEvents(s, sid, step.sid, StepEvents(s, step), id);
    } else {
      OwnNothing(s, step);
      assert s.log + [] == s.log;
    }
  }

  lemma OwnNothing(s: State, step: Step)
    requires Enabled(s, step) && SessionStepOf(step).None?
    ensures StepEvents(s, step) == []
  {
    hide Enabled;
  }

  lemma OtherEvents(s: State, sid: SessionId, other: SessionId, events: seq<Event>, id: ActionId)
    requires Inv(s) && sid in s.sides && other in s.sides && sid != other && HasId(s.sides[sid].pipeline, id)
    requires forall e | e in events :: HasId(s.sides[other].pipeline, e.Subject())
    ensures PhaseOf(s.log + events, id) == PhaseOf(s.log, id)
  {
    forall e | e in events ensures e.Subject() != id {
      var i :| 0 <= i < |s.sides[sid].pipeline| && s.sides[sid].pipeline[i].id == id;
      var j :| 0 <= j < |s.sides[other].pipeline| && s.sides[other].pipeline[j].id == e.Subject();
      assert SharesNoId(s.sides[sid].pipeline, s.sides[other].pipeline);
    }
    TrackAppend(s.log, events, id);
    TrackUntouched(TrackOf(s.log, id), events, id);
  }

  /** The session's own steps past its orderly life, but for assignments. */
  lemma OwnStepsKeepSound(s: State, step: Step, sid: SessionId)
    requires Inv(s) && Enabled(s, step) && SessionStepOf(step) == Some(sid) && !step.Assign? && !step.TornAssign?
    requires sid in s.sides && sid in Next(s, step).sides && Coupled(DoneIds(Next(s, step)), Next(s, step).log)
    requires !s.sides[sid].thread.Looping? && !Next(s, step).sides[sid].thread.Ended?
    requires Sound(s.sides[sid], DoneIds(s))
    ensures Sound(Next(s, step).sides[sid], DoneIds(Next(s, step)))
  {
    hide Inv, SideInv, Enabled, Next, StepEvents, Coupled, Unbroken, Sound, DoneIds, RemovePopped;
    var side, r := s.sides[sid], Next(s, step);
    EnabledFacts(s, step);
    NextLog(s, step);
    InvParts(s, sid);
    if step.CleanupReport? {
      ReportedIsSound(s, step, sid);
    } else {
      OwnStepsAreQuiet(s, step, sid);
      assert s.log + [] == s.log;
      SameLogSameDone(s, r);
      if step.CleanupRemove? {
        RemovedIsSound(side, DoneIds(s), s.log);
        SameDoneSameSound(RemovePopped(side), DoneIds(s), DoneIds(r));
      } else {
        SameQueueSameSound(side, r.sides[sid], DoneIds(s));
      }
      SameDoneSameSound(r.sides[sid], DoneIds(s), DoneIds(r));
    }
  }

  lemma SameQueueSameSound(side: Side, side': Side, done: set<ActionId>)
    requires Sound(side, done) && Specs(side'.sess.queue.actions) == Specs(side.sess.queue.actions)
    requires side'.thread.Cancelling? && side'.thread.stage.Removed? ==> side'.thread == side.thread
    ensures Sound(side', done)
  {
  }

  /** Past its run loop a session reports nothing but what it cancels, and only the cancelation and
      assignments touch its queue. */
  lemma OwnStepsAreQuiet(s: State, step: Step, sid: SessionId)
    requires Enabled(s, step) && SessionStepOf(step) == Some(sid) && sid in s.sides
    requires !step.Assign? && !step.TornAssign? && !step.CleanupReport?
    requires SideInv(s.sides[sid], DoneIds(s), s.log) && !s.sides[sid].thread.Looping?
    requires sid in Next(s, step).sides && !Next(s, step).sides[sid].thread.Ended?
    ensures StepEvents(s, step) == []
    ensures var side, side' := s.sides[sid], Next(s, step).sides[sid];
            if step.CleanupRemove? then side.thread.Cancelling? && side.thread.stage.Popped? && side' == RemovePopped(side)
            else
              && Specs(side'.sess.queue.actions) == Specs(side.sess.queue.actions)
              && (side'.thread.Cancelling? && side'.thread.stage.Removed? ==> side'.thread == side.thread)
  {
    hide Torn, Replace, Absorb, StartAction, ReturnEvents, RemovePopped, QueueOk, CancelOk, QueueShape, PhasesOk, CancelIds, TargetOk;
  }

  lemma SameLogSameDone(s: State, r: State)
    requires Coupled(DoneIds(s), s.log) && Coupled(DoneIds(r), r.log) && s.log == r.log
    ensures forall id :: id in DoneIds(r) <==> id in DoneIds(s)
  {
    forall id ensures id in DoneIds(r) <==> id in DoneIds(s) {
      assert PhaseOf(r.log, id) == PhaseOf(s.log, id);
    }
  }

  lemma RemovedIsSound(side: Side, done: set<ActionId>, log: seq<Event>)
    requires Sound(side, done) && SideInv(side, done, log) && side.thread.Cancelling? && side.thread.stage.Popped?
    requires !RemovePopped(side).thread.Ended?
    ensures Sound(RemovePopped(side), done)
  {
    hide QueueOk, CurrentOk, TargetOk, PhasesOk, CancelOk;
    var side', entry := RemovePopped(side), side.thread.stage.entry;
    RemovedShape(side);
    forall id | HasId(Specs(side'.sess.queue.actions), id) ensures id !in done && id != entry.spec.id {
      var i :| 0 <= i < |Specs(side'.sess.queue.actions)| && Specs(side'.sess.queue.actions)[i].id == id;
      var e := side'.sess.queue.actions[i];
      assert e in side'.sess.queue.actions && e in side.sess.queue.actions && e != entry;
      EntriesApart(side.sess.queue.actions, e, entry);
    }
  }

  lemma EntriesApart(entries: seq<Entry>, one: Entry, two: Entry)
    requires DistinctIds(Specs(entries)) && one in entries && two in entries && one != two
    ensures one.spec.id != two.spec.id && HasId(Specs(entries), one.spec.id)
  {
    var i :| 0 <= i < |entries| && entries[i] == one;
    var j :| 0 <= j < |entries| && entries[j] == two;
    assert Specs(entries)[i].id == one.spec.id && Specs(entries)[j].id == two.spec.id;
  }

  lemma ReportedIsSound(s: State, step: Step, sid: SessionId)
    requires Enabled(s, step) && step == CleanupReport(sid) && Sound(s.sides[sid], DoneIds(s))
    requires Coupled(DoneIds(s), s.log) && Coupled(DoneIds(Next(s, step)), Next(s, step).log)
    ensures Sound(Next(s, step).sides[sid], DoneIds(Next(s, step)))
  {
    var side, r := s.sides[sid], Next(s, step);
    NextLog(s, step);
    var e := CancelReport(side);
    forall id | id != e.Subject() ensures id in DoneIds(r) <==> id in DoneIds(s) {
      TrackAppend(s.log, [e], id);
      TrackOne(TrackOf(s.log, id), e, id);
      assert PhaseOf(r.log, id) == PhaseOf(s.log, id);
    }
    assert Taken(side, e.Subject());
  }

  /** An action can be completed, or about to be, and yet queued, in exactly one way: the session is
      assigned its actions between the moment its cleanup took that action out of the queue and the
      report. */
  lemma QueueGoesWrongExactlyByLateAssignment(s: State, step: Step, sid: SessionId)
    requires Inv(s) && Enabled(s, step) && Clean(s, step) && sid in s.sides && Sound(s.sides[sid], DoneIds(s))
    requires sid in Next(s, step).sides ==> !Next(s, step).sides[sid].thread.Ended?
    ensures var side, r := s.sides[sid], Next(s, step);
            && sid in r.sides
            && (Sound(r.sides[sid], DoneIds(r))
                <==> !((step.Assign? || step.TornAssign?) && step.sid == sid
                       && side.thread.Cancelling? && side.thread.stage.Removed?))
  {
    hide Inv, SideInv, Enabled, Next, Clean, Sound;
    StepKeeps(s, step);
    var side, r := s.sides[sid], Next(s, step);
    KeysStay(s, step);
    InvParts(s, sid);
    InvParts(r, sid);
    if r.sides[sid].thread.Orderly() {
      OrderlyStays(s, step, sid);
      SideIsSound(r.sides[sid], DoneIds(r), r.log);
    } else if SessionStepOf(step) != Some(sid) {
      OthersOrderly(s, step, sid);
      OthersKeepSound(s, step, sid);
    } else if step.Assign? || step.TornAssign? {
      AssignmentIsSound(s, step);
    } else {
      OwnNotLooping(s, step);
      OwnStepsKeepSound(s, step, sid);
    }
  }

  lemma SideIsSound(side: Side, done: set<ActionId>, log: seq<Event>)
    requires SideInv(side, done, log) && side.thread.Orderly()
    ensures Sound(side, done)
  {
    OrderlyIsSound(side, done);
  }

  lemma KeysStay(s: State, step: Step)
    requires Enabled(s, step)
    ensures Next(s, step).sides.Keys == s.sides.Keys
  {
    hide Torn, Replace, Absorb, StartAction, ActionUpdated, ReturnEvents, PopNext, RemovePopped;
  }

  lemma OrderlyStays(s: State, step: Step, sid: SessionId)
    requires Enabled(s, step) && sid in s.sides && sid in Next(s, step).sides && Next(s, step).sides[sid].thread.Orderly()
    ensures s.sides[sid].thread.Orderly()
  {
    hide Torn, Replace, Absorb, StartAction, ActionUpdated, ReturnEvents;
  }

  lemma OthersOrderly(s: State, step: Step, sid: SessionId)
    requires Enabled(s, step) && sid in s.sides && sid in Next(s, step).sides && SessionStepOf(step) != Some(sid)
    ensures Next(s, step).sides[sid].thread == s.sides[sid].thread
  {
    hide Torn, Replace, Absorb, StartAction, ActionUpdated, ReturnEvents, PopNext, RemovePopped;
  }

  lemma OwnNotLooping(s: State, step: Step)
    requires Enabled(s, step) && SessionStepOf(step).Some? && step.sid in s.sides
    requires step.sid in Next(s, step).sides && !Next(s, step).sides[step.sid].thread.Orderly()
    ensures !s.sides[step.sid].thread.Looping?
  {
    hide Torn, Replace, Absorb, StartAction, ActionUpdated, ReturnEvents;
  }

  lemma AssignmentIsSound(s: State, step: Step)
    requires Inv(s) && Enabled(s, step) && (step.Assign? || step.TornAssign?) && step.sid in Next(s, step).sides
    requires Coupled(DoneIds(Next(s, step)), Next(s, step).log)
    requires !Next(s, step).sides[step.sid].thread.Orderly()
    ensures Sound(Next(s, step).sides[step.sid], DoneIds(Next(s, step)))
            <==> !(s.sides[step.sid].thread.Cancelling? && s.sides[step.sid].thread.stage.Removed?)
  {
    var side, r, done := s.sides[step.sid], Next(s, step), DoneIds(s);
    NextOfAssignment(s, step);
    InvParts(s, step.sid);
    hide Inv, SideInv, Enabled, Next, Unfinished, Torn, Coupled, Sound, DoneIds, Unbroken;
    TodoIsWhatIsLeft(s, step.sid);
    SameLogSameDone(s, r);
    var side' := r.sides[step.sid];
    AssignedIds(side, done, s.log, step, side');
    AssignedIsSound(side, done, s.log, side');
    SameDoneSameSound(side', done, DoneIds(r));
  }

  lemma NextOfAssignment(s: State, step: Step)
    requires Enabled(s, step) && (step.Assign? || step.TornAssign?)
    ensures s.link.Settled? && step.sid in s.sides && step.sid in s.link.response && step.sid in Next(s, step).sides
    ensures Next(s, step).log == s.log
    ensures var side, side' := s.sides[step.sid], Next(s, step).sides[step.sid];
            var todo := Unfinished(s.link.response[step.sid], s.updates);
            && side'.thread == side.thread && side'.pipeline == side.pipeline
            && (step.Assign? ==> side'.sess.queue == Replace(side.sess.queue, Outstanding(todo, CurrentIds(side.sess))))
            && (step.TornAssign? ==>
                  && side'.sess.queue == step.queue && side.thread.Cancelling?
                  && Torn(side.sess.queue, side.thread.stage, Outstanding(todo, CurrentIds(side.sess)), step.queue))
  {
    hide Torn, Replace, Absorb, Unfinished;
    assert s.log + [] == s.log;
  }

  /** The queue lists what is left, whether the pass was broken into or not. */
  lemma AssignedIds(side: Side, done: set<ActionId>, log: seq<Event>, step: Step, side': Side)
    requires SideInv(side, done, log) && !side.thread.Orderly() && (step.Assign? || step.TornAssign?)
    requires var specs := Outstanding(Outstanding(side.pipeline, done), CurrentIds(side.sess));
             && (step.Assign? ==> side'.sess.queue == Replace(side.sess.queue, specs))
             && (step.TornAssign? ==> side'.sess.queue == step.queue && side.thread.Cancelling?
                                      && Torn(side.sess.queue, side.thread.stage, specs, step.queue))
    ensures Ids(Specs(side'.sess.queue.actions)) == Ids(Outstanding(side.pipeline, done + CurrentIds(side.sess)))
  {
    hide CurrentOk, TargetOk, PhasesOk, CancelOk, Outstanding;
    LeftToQueue(side, done);
    var specs := Outstanding(side.pipeline, done + CurrentIds(side.sess));
    if step.Assign? {
      ReplaceShape(side, specs);
    } else {
      SameIdsShape(side, specs, step.queue);
    }
  }

  lemma SameDoneSameSound(side: Side, done: set<ActionId>, done': set<ActionId>)
    requires forall id :: id in done' <==> id in done
    ensures Sound(side, done') <==> Sound(side, done)
  {
    assert done' == done;
  }

  // ----- the removal that raises

  /** While an entry is popped and not yet removed, it is lost from the list in exactly one way: the
      session is assigned its actions. An assignment as a whole makes a new entry for the action; one
      that looked the entry up before it was popped may still have it. */
  lemma PoppedEntryIsLostExactlyByAssignment(s: State, step: Step, sid: SessionId)
    requires Inv(s) && Enabled(s, step) && Clean(s, step) && sid in s.sides
    requires s.sides[sid].thread.Cancelling? && s.sides[sid].thread.stage.Popped?
    requires s.sides[sid].thread.stage.entry in s.sides[sid].sess.queue.actions
    requires step != CleanupRemove(sid)
    ensures var entry, r := s.sides[sid].thread.stage.entry, Next(s, step);
            && sid in r.sides && r.sides[sid].thread == s.sides[sid].thread
            && (entry in r.sides[sid].sess.queue.actions
                <==> step != Assign(sid)
                     && (step.TornAssign? && step.sid == sid ==> entry in step.queue.actions))
  {
    hide Inv, SideInv, Enabled, Next, DoneIds, Clean, Coupled, Unbroken, Unfinished, Replace, Torn;
    var side, r := s.sides[sid], Next(s, step);
    KeysStay(s, step);
    InvParts(s, sid);
    if SessionStepOf(step) != Some(sid) {
      OthersQueueStays(s, step, sid);
    } else if step.Assign? {
      NextOfAssignment(s, step);
      TodoIsWhatIsLeft(s, sid);
      PoppedEntryIsReplaced(side, DoneIds(s), s.log);
    } else {
      OwnQueueStays(s, step, sid);
    }
  }

  /** An assignment as a whole gives the action a new entry, or none. */
  lemma PoppedEntryIsReplaced(side: Side, done: set<ActionId>, log: seq<Event>)
    requires SideInv(side, done, log) && side.thread.Cancelling? && side.thread.stage.Popped?
    ensures side.thread.stage.entry
            !in Replace(side.sess.queue, Outstanding(Outstanding(side.pipeline, done), CurrentIds(side.sess))).actions
  {
    hide CurrentOk, TargetOk, PhasesOk;
    LeftToQueue(side, done);
    ReplaceShape(side, Outstanding(side.pipeline, done + CurrentIds(side.sess)));
    hide Replace, Outstanding, CurrentIds;
  }

  lemma OthersQueueStays(s: State, step: Step, sid: SessionId)
    requires Enabled(s, step) && sid in s.sides && sid in Next(s, step).sides && SessionStepOf(step) != Some(sid)
    ensures Next(s, step).sides[sid].thread == s.sides[sid].thread
    ensures Next(s, step).sides[sid].sess == s.sides[sid].sess
  {
    hide Torn, Replace, Absorb, StartAction, ActionUpdated, ReturnEvents, PopNext, RemovePopped;
  }

  lemma OwnQueueStays(s: State, step: Step, sid: SessionId)
    requires Enabled(s, step) && sid in s.sides && SessionStepOf(step) == Some(sid) && !step.Assign?
    requires SideInv(s.sides[sid], DoneIds(s), s.log)
    requires s.sides[sid].thread.Cancelling? && s.sides[sid].thread.stage.Popped? && step != CleanupRemove(sid)
    ensures sid in Next(s, step).sides && Next(s, step).sides[sid].thread == s.sides[sid].thread
    ensures Next(s, step).sides[sid].sess.queue == if step.TornAssign? then step.queue else s.sides[sid].sess.queue
  {
    hide Torn, Replace, Absorb, StartAction, ReturnEvents, PopNext, RemovePopped, QueueOk, CancelOk, QueueShape, PhasesOk;
  }

  // ----- the failing run

  const Task := ActionSpec(1, TaskRun, 0, Some(7))

  const TaskEntry := Entry(0, Task)

  const More: map<SessionId, seq<ActionSpec>> := map[0 := [Task]]

  // The session on its way: new, given its task, with the task queued, told to stop, cleaning up.
  const NewSide := Side([], 0, NewSession(false), Looping, None)
  const GivenSide := NewSide.(pipeline := [Task])
  const QueuedSide := Side([Task], 1, NewSession(false).(queue := Queue([TaskEntry], map[1 := TaskEntry], 1, {})), Looping, None)
  const ToldSide := QueuedSide.(sess := QueuedSide.sess.(stop := true, stopDetail := 5))
  const StoppingSide := ToldSide.(thread := Stopping)
  const ListedSide := ToldSide.(thread := Cancelling([1], Between))
  const PoppedSide := ToldSide.(sess := ToldSide.sess.(queue := Queue([TaskEntry], map[], 1, {})),
                                thread := Cancelling([], Popped(TaskEntry)))

  /** The cleanup has taken the task out of the queue. */
  const TakenSide := ToldSide.(sess := ToldSide.sess.(queue := Queue([], map[], 1, {0})),
                               thread := Cancelling([], Removed(TaskEntry)))

  /** The scheduler works through an answer that lists the task. */
  const Answered: Link := Settled(More)

  function On(link: Link, side: Side): State {
    State(map[], map[], [], link, 0, map[0 := side])
  }

  const StepsToTaken := [Collect, Serve(More), CommitSent, Assign(0), Stop(0, FAILED, 5),
                         CleanupInterrupt(0, 0), CleanupList(0), CleanupPop(0), CleanupRemove(0)]

  lemma TaskIsServed()
    ensures Enabled(On(Idle, NewSide), Collect) && Next(On(Idle, NewSide), Collect) == On(InFlight({}, map[]), NewSide)
    ensures var s := On(InFlight({}, map[]), NewSide);
            Enabled(s, Serve(More)) && Next(s, Serve(More)) == On(Replied({}, More), GivenSide)
  {
    assert Transaction(map[]) == {} && TerminalIds(map[]) == {};
    assert [] + [Task] == [Task] && [Task][1..] == [];
    assert Outstanding([Task], {}) == [Task];
    assert Extend(map[0 := NewSide], More) == map[0 := GivenSide];
    assert Respond(map[0 := GivenSide], map[]) == More;
    var none: map<ActionId, Status> := map[];
    assert none + none == none;
  }

  lemma TaskIsAssigned()
    ensures var s := On(Replied({}, More), GivenSide);
            Enabled(s, CommitSent) && Next(s, CommitSent) == On(Answered, GivenSide)
    ensures var s := On(Answered, GivenSide);
            Enabled(s, Assign(0)) && Next(s, Assign(0)) == On(Answered, QueuedSide)
  {
    assert Commit(map[], {}) == map[] && TerminalIds(map[]) == {};
    assert [Task][1..] == [];
    assert Outstanding([Task], {}) == [Task];
    assert Fill(map[], 0, [Task]) == Filled([TaskEntry], map[1 := TaskEntry], 1, true);
    var log: seq<Event> := [];
    assert log + [] == log;
  }

  lemma TaskIsListed()
    ensures Enabled(On(Answered, QueuedSide), Stop(0, FAILED, 5))
         && Next(On(Answered, QueuedSide), Stop(0, FAILED, 5)) == On(Answered, ToldSide)
    ensures Enabled(On(Answered, ToldSide), CleanupInterrupt(0, 0))
         && Next(On(Answered, ToldSide), CleanupInterrupt(0, 0)) == On(Answered, StoppingSide)
    ensures Enabled(On(Answered, StoppingSide), CleanupList(0))
         && Next(On(Answered, StoppingSide), CleanupList(0)) == On(Answered, ListedSide)
  {
    var log: seq<Event> := [];
    assert log + [] == log;
    assert [TaskEntry][1..] == [];
    assert CancelIds([TaskEntry], true) == [1];
  }

  lemma TaskIsTaken()
    ensures Enabled(On(Answered, ListedSide), CleanupPop(0))
         && Next(On(Answered, ListedSide), CleanupPop(0)) == On(Answered, PoppedSide)
    ensures Enabled(On(Answered, PoppedSide), CleanupRemove(0))
         && Next(On(Answered, PoppedSide), CleanupRemove(0)) == On(Answered, TakenSide)
  {
    var log: seq<Event> := [];
    assert log + [] == log;
    assert [1][1..] == [];
    assert QueuedSide.sess.queue.byId - {1} == map[];
    assert RemoveFirst([TaskEntry], TaskEntry) == [];
    var none: set<nat> := {};
    assert none + {0} == {0};
  }

  lemma OneMore(s: State, step: Step, r: State, rest: seq<Step>)
    requires Enabled(s, step) && !step.Start? && Next(s, step) == r && Legal(r, rest)
    ensures Legal(s, [step] + rest) && Exec(s, [step] + rest) == Exec(r, rest)
  {
    assert ([step] + rest)[1..] == rest;
  }

  lemma QueuedIsTaken()
    ensures Legal(On(Answered, QueuedSide), StepsToTaken[4..])
    ensures Exec(On(Answered, QueuedSide), StepsToTaken[4..]) == On(Answered, TakenSide)
  {
    hide Enabled, Next;
    TaskIsListed();
    TaskIsTaken();
    OneMore(On(Answered, PoppedSide), CleanupRemove(0), On(Answered, TakenSide), []);
    OneMore(On(Answered, ListedSide), CleanupPop(0), On(Answered, PoppedSide), [CleanupRemove(0)]);
    OneMore(On(Answered, StoppingSide), CleanupList(0), On(Answered, ListedSide), StepsToTaken[7..]);
    OneMore(On(Answered, ToldSide), CleanupInterrupt(0, 0), On(Answered, StoppingSide), StepsToTaken[6..]);
    OneMore(On(Answered, QueuedSide), Stop(0, FAILED, 5), On(Answered, ToldSide), StepsToTaken[5..]);
  }

  /** A run from the initial state leads there. */
  lemma TakenIsReached()
    ensures Init(On(Idle, NewSide)) && Legal(On(Idle, NewSide), StepsToTaken)
    ensures Exec(On(Idle, NewSide), StepsToTaken) == On(Answered, TakenSide)
  {
    hide Enabled, Next;
    TaskIsServed();
    TaskIsAssigned();
    QueuedIsTaken();
    OneMore(On(Answered, GivenSide), Assign(0), On(Answered, QueuedSide), StepsToTaken[4..]);
    OneMore(On(Replied({}, More), GivenSide), CommitSent, On(Answered, GivenSide), StepsToTaken[3..]);
    OneMore(On(InFlight({}, map[]), NewSide), Serve(More), On(Replied({}, More), GivenSide), StepsToTaken[2..]);
    OneMore(On(Idle, NewSide), Collect, On(InFlight({}, map[]), NewSide), StepsToTaken[1..]);
  }

  /** The task has a new entry. */
  const AgainSide := TakenSide.(sess := TakenSide.sess.(queue := Queue([Entry(1, Task)], map[1 := Entry(1, Task)], 2, {0})))

  lemma TaskIsAssignedAgain()
    ensures Enabled(On(Answered, TakenSide), Assign(0))
    ensures Next(On(Answered, TakenSide), Assign(0)) == On(Answered, AgainSide)
  {
    assert [Task][1..] == [];
    assert TerminalIds(map[]) == {};
    assert Outstanding([Task], {}) == [Task];
    assert Fill(map[], 1, [Task]) == Filled([Entry(1, Task)], map[1 := Entry(1, Task)], 2, true);
    var log: seq<Event> := [];
    assert log + [] == log;
  }

  /** The run that goes wrong: the task is assigned again before it is reported; it is then completed
      and queued in a session whose thread has not ended. */
  lemma CompletedAndQueued()
    ensures var s := On(Answered, TakenSide);
            && Enabled(s, Assign(0))
            && var again := Next(s, Assign(0));
               && Enabled(again, CleanupReport(0))
               && var r := Next(again, CleanupReport(0));
                  && 1 in DoneIds(r) && HasId(Specs(r.sides[0].sess.queue.actions), 1) && !r.sides[0].thread.Ended?
  {
    TaskIsAssignedAgain();
    hide Replace, Fill;
    var again := On(Answered, AgainSide);
    var e := CancelReport(AgainSide);
    assert [e][1..] == [];
    assert Absorb(map[], [e]) == map[1 := e.status];
    var r := Next(again, CleanupReport(0));
    assert Overlay(r)[1] == e.status;
    assert Specs(r.sides[0].sess.queue.actions)[0].id == 1;
  }
}
