/** The results about whole runs of the session-action protocol. */
module ProtocolTheorems {
  import opened Actions
  import opened Lifecycle
  import opened QueueModel
  import opened SessionModel
  import opened SchedulerModel
  import opened Protocol
  import opened ProtocolShared
  import opened ProtocolSides
  import opened ProtocolStart
  import opened ProtocolCallback
  import opened ProtocolAssign
  import opened ProtocolCleanup
  import opened ProtocolSteps

  lemma InitHolds(s: State)
    requires Init(s)
    ensures Inv(s)
  {
    assert Overlay(s) == map[];
    forall sid | sid in s.sides ensures SideInv(s.sides[sid], DoneIds(s), s.log) {
      var assetSync :| s.sides[sid] == Side([], 0, NewSession(assetSync), Looping, None);
      assert Specs(s.sides[sid].sess.queue.actions) == [];
    }
  }

  lemma InvParts(s: State, sid: SessionId)
    requires Inv(s) && sid in s.sides
    ensures SideInv(s.sides[sid], DoneIds(s), s.log) && Coupled(DoneIds(s), s.log) && Unbroken(s.log)
  {
    DoneIsDone(s);
  }

  lemma StartStep(s: State, step: Step)
    requires Inv(s) && Enabled(s, step) && step.Start? && Clean(s, step)
    ensures Inv(Next(s, step))
  {
    hide Inv, SideInv, Enabled, Next, Post, Coupled, Unbroken, StaysUnbroken, StartAction, DequeueOutcome, DoneIds, CompletedIds;
    NextStart(s, step);
    InvParts(s, step.sid);
    var side := s.sides[step.sid];
    var e := StartAction(side.sess, step.answer, step.outcome, step.now, step.detail);
    StartKeeps(side, DoneIds(s), s.log, step.answer, step.outcome, step.now, step.detail);
    SessionStep(s, step.sid, AfterStart(side, e, step.detail), e.events, s.clock);
  }

  lemma CallbackStep(s: State, step: Step)
    requires Inv(s) && Enabled(s, step) && step.Callback?
    ensures Inv(Next(s, step))
    ensures !ActionUpdated(s.sides[step.sid].sess, step.state, step.now, step.detail).crashed
  {
    hide Inv, SideInv, Enabled, Next, Post, Coupled, Unbroken, StaysUnbroken, ActionUpdated, DoneIds, CompletedIds;
    NextCallback(s, step);
    InvParts(s, step.sid);
    var side := s.sides[step.sid];
    var e := ActionUpdated(side.sess, step.state, step.now, step.detail);
    CallbackKeeps(side, DoneIds(s), s.log, step.state, step.now, step.detail);
    var clock := if step.state.RUNNING? then step.now else s.clock;
    SessionStep(s, step.sid, AfterCallback(side, step.state, e), e.events, clock);
  }

  /** A step of one session that only reports completions, or nothing. */
  lemma QuietStep(s: State, sid: SessionId, side: Side, events: seq<Event>)
    requires Inv(s) && sid in s.sides && side.pipeline == s.sides[sid].pipeline
    requires StaysUnbroken(s.log, events)
    requires forall e | e in events :: e.Completes() && HasId(side.pipeline, e.Subject())
    requires SideInv(side, DoneIds(s) + CompletedIds(events), s.log + events)
    ensures Inv(Post(s.(clock := s.clock), sid, side, events))
  {
    hide Inv, SideInv, StaysUnbroken, DoneIds, CompletedIds, Post;
    SessionStep(s, sid, side, events, s.clock);
  }

  /** A step that reports nothing. */
  lemma SilentStep(s: State, step: Step)
    requires Inv(s) && Enabled(s, step) && Silent(step)
    requires SideInv(Moved(s, step), DoneIds(s), s.log)
    ensures Inv(Next(s, step))
  {
    hide Inv, SideInv, Enabled, Next, Post, Moved, DoneIds, Coupled, Unbroken;
    NextSilent(s, step);
    InvParts(s, step.sid);
    NoEvents(s.log, DoneIds(s));
    QuietStep(s, step.sid, Moved(s, step), []);
  }

  lemma AssignStep(s: State, step: Step)
    requires Inv(s) && Enabled(s, step) && (step.Assign? || step.TornAssign?)
    ensures Inv(Next(s, step))
  {
    hide Inv, SideInv, Enabled, Next, Moved, DoneIds, Coupled, Unbroken, Unfinished, Torn, ReplaceAssigned;
    AssignMoves(s, step);
    InvParts(s, step.sid);
    TodoIsWhatIsLeft(s, step.sid);
    var side := s.sides[step.sid];
    if step.Assign? {
      AssignKeeps(side, DoneIds(s), s.log);
    } else {
      TornAssignKeeps(side, DoneIds(s), s.log, step.queue);
    }
    SilentStep(s, step);
  }

  lemma GiveBackStep(s: State, step: Step)
    requires Inv(s) && Enabled(s, step) && step.GiveBack?
    ensures Inv(Next(s, step))
  {
    hide Inv, SideInv, Enabled, Next, Post, DoneIds, Coupled, Unbroken, StaysUnbroken, ReturnEvents, CompletedIds;
    NextGiveBack(s, step);
    InvParts(s, step.sid);
    var side, listed := s.sides[step.sid], s.link.response[step.sid];
    ListedAreLeft(s, step.sid);
    GiveBackKeeps(side, DoneIds(s), s.log, s.updates, listed, step.now, step.detail);
    GiveBackTracks(side, DoneIds(s), s.log, s.updates, listed, step.now, step.detail);
    QuietStep(s, step.sid, side, ReturnEvents(s.updates, listed, true, step.now, step.detail));
  }

  /** What the service listed, as far as nothing is pending about it, is not completed. */
  lemma ListedAreLeft(s: State, sid: SessionId)
    requires Inv(s) && s.link.Settled? && sid in s.sides && sid in s.link.response
    ensures var listed := s.link.response[sid];
            && listed == Outstanding(s.sides[sid].pipeline, TerminalIds(s.view))
            && DistinctIds(listed)
            && forall a | a in listed ::
                 && (a.id !in s.updates ==> a.id !in DoneIds(s))
                 && HasId(s.sides[sid].pipeline, a.id) && a in s.sides[sid].pipeline
  {
    var side := s.sides[sid];
    InvParts(s, sid);
    OutstandingMembers(side.pipeline, TerminalIds(s.view));
    hide SideInv, Coupled, Unbroken;
    forall a | a in s.link.response[sid] ensures HasId(side.pipeline, a.id) {
      var k :| 0 <= k < |side.pipeline| && side.pipeline[k] == a;
    }
  }

  lemma CleanupStep(s: State, step: Step)
    requires Inv(s) && Enabled(s, step)
    requires step.CleanupInterrupt? || step.CleanupExitEnv? || step.EndThread? || step.Stop?
    ensures Inv(Next(s, step))
  {
    hide Inv, SideInv, Enabled, Next, Post, DoneIds, Coupled, Unbroken, StaysUnbroken, Moved, Interrupt, CompletedIds;
    if step.CleanupInterrupt? {
      NextInterrupt(s, step);
      InvParts(s, step.sid);
      var side, e := s.sides[step.sid], Interrupt(s.sides[step.sid].sess, step.now);
      InterruptKeeps(side, DoneIds(s), s.log, step.now);
      QuietStep(s, step.sid, side.(sess := e.sess, thread := Stopping), e.events);
    } else {
      EndMoves(s, step);
      InvParts(s, step.sid);
      EndKeeps(s.sides[step.sid], DoneIds(s), s.log, step);
      SilentStep(s, step);
    }
  }

  lemma EndKeeps(side: Side, done: set<ActionId>, log: seq<Event>, step: Step)
    requires SideInv(side, done, log)
    ensures step.Stop? && step.result in {INTERRUPTED, FAILED} ==>
              SideInv(side.(sess := Stopped(side.sess, step.result, step.detail)), done, log)
    ensures step.CleanupExitEnv? && side.thread.Exiting? ==> SideInv(side.(work := Some(CleanupExit(step.env))), done, log)
    ensures step.EndThread? && side.thread.Exiting? ==> SideInv(side.(thread := Ended), done, log)
  {
    hide SideInv, Stopped;
    match step {
      case Stop(_, result, detail) =>
        if result in {INTERRUPTED, FAILED} {
          StopKeeps(side, done, log, result, detail);
        }
      case CleanupExitEnv(_, env) =>
        if side.thread.Exiting? {
          ThreadEndKeeps(side, done, log, Some(CleanupExit(env)), Exiting);
        }
      case EndThread(_) =>
        if side.thread.Exiting? {
          ThreadEndKeeps(side, done, log, side.work, Ended);
        }
      case _ =>
    }
  }

  /** The steps of the cancelation, which hold no lock but for the report. */
  lemma CancelationStep(s: State, step: Step)
    requires Inv(s) && Enabled(s, step)
    requires step.CleanupList? || step.CleanupPop? || step.CleanupRemove? || step.CleanupCancelled?
    ensures Inv(Next(s, step))
  {
    hide Inv, SideInv, Enabled, Next, Moved, DoneIds, Coupled, Unbroken, PopNext, RemovePopped, CancelIds;
    CancelationMoves(s, step);
    InvParts(s, step.sid);
    var side, done := s.sides[step.sid], DoneIds(s);
    match step {
      case CleanupList(_) => ListKeeps(side, done, s.log);
      case CleanupPop(_) => PopKeeps(side, done, s.log);
      case CleanupRemove(_) => RemoveKeeps(side, done, s.log);
      case _ => CancelledKeeps(side, done, s.log);
    }
    SilentStep(s, step);
  }

  lemma ReportStep(s: State, step: Step)
    requires Inv(s) && Enabled(s, step) && step.CleanupReport?
    ensures Inv(Next(s, step))
  {
    hide Inv, SideInv, Enabled, Next, Post, DoneIds, Coupled, Unbroken, StaysUnbroken, CancelReport, CompletedIds;
    NextReport(s, step);
    InvParts(s, step.sid);
    var side := s.sides[step.sid];
    ReportKeeps(side, DoneIds(s), s.log);
    QuietStep(s, step.sid, side.(thread := Cancelling(side.thread.ids, Between)), [CancelReport(side)]);
  }

  lemma StepKeeps(s: State, step: Step)
    requires Inv(s) && Enabled(s, step) && Clean(s, step)
    ensures Inv(Next(s, step))
  {
    hide Inv, Enabled, Next, Clean;
    match step {
      case Collect => CollectKeeps(s);
      case Serve(more) => ServeKeeps(s, more);
      case LoseRequest => LoseRequestKeeps(s);
      case LoseReply(more) => LoseReplyKeeps(s, more);
      case CommitSent => CommitKeeps(s);
      case Assign(_) => AssignStep(s, step);
      case TornAssign(_, _) => AssignStep(s, step);
      case CleanupList(_) => CancelationStep(s, step);
      case CleanupPop(_) => CancelationStep(s, step);
      case CleanupRemove(_) => CancelationStep(s, step);
      case CleanupReport(_) => ReportStep(s, step);
      case CleanupCancelled(_) => CancelationStep(s, step);
      case GiveBack(_, _, _) => GiveBackStep(s, step);
      case Start(_, _, _, _, _) => StartStep(s, step);
      case Callback(_, _, _, _) => CallbackStep(s, step);
      case _ => CleanupStep(s, step);
    }
  }

  /** The invariant holds throughout every run in which no job entity lookup names its action. */
  lemma {:induction false} RunKeeps(s: State, steps: seq<Step>)
    requires Inv(s) && Legal(s, steps)
    ensures Inv(Exec(s, steps))
    decreases steps
  {
    if steps != [] {
      StepKeeps(s, steps[0]);
      RunKeeps(Next(s, steps[0]), steps[1..]);
    }
  }

  // ----- results

  /** Each action is reported as completed at most once, and nothing is reported about it after. */
  lemma NothingAfterCompletion(s: State, steps: seq<Step>, i: nat, j: nat)
    requires Init(s) && Legal(s, steps)
    requires i < j < |Exec(s, steps).log| && Exec(s, steps).log[i].Completes()
    ensures Exec(s, steps).log[j].Subject() != Exec(s, steps).log[i].Subject()
  {
    InitHolds(s);
    RunKeeps(s, steps);
    var log := Exec(s, steps).log;
    assert !PhaseOf(log, log[i].Subject()).Broken?;
    SilentAfterCompletion(log, log[i].Subject(), i, j);
  }

  /** Which callbacks report a success. */
  lemma SuccessfulCallback(s: Sess, state: ActionState, now: Time, detail: int, f: Event)
    requires f in ActionUpdated(s, state, now, detail).events
    requires f.Reported? && f.attachments && f.status.completed == Some(SUCCEEDED)
    ensures state.SUCCESS? && !s.interrupted && s.current.Some?
    ensures if s.target.Some? then f.status.id == s.target.value.spec.id
            else f.status.id == s.current.value.spec.id && !s.current.value.spec.kind.TaskRun?
  {
    hide CancelAll, CancelIds;
  }

  /** The last status reported about an action. */
  function LastReport(log: seq<Event>, id: ActionId): Option<Status> {
    if log == [] then None
    else
      var e := log[|log| - 1];
      if e.Reported? && e.status.id == id then Some(e.status) else LastReport(log[..|log| - 1], id)
  }

  lemma {:induction false} LatestIsLast(log: seq<Event>, id: ActionId)
    ensures TrackOf(log, id).latest == LastReport(log, id)
  {
    if log != [] {
      var front, e := log[..|log| - 1], log[|log| - 1];
      assert log == front + [e];
      TrackAppend(front, [e], id);
      TrackOne(TrackOf(front, id), e, id);
      LatestIsLast(front, id);
    }
  }

  /** No update is lost: at every moment what the service was told, overlaid with what is pending,
      is the last status reported about every action. */
  lemma NoUpdateLost(s: State, steps: seq<Step>, id: ActionId)
    requires Init(s) && Legal(s, steps)
    ensures var r := Exec(s, steps); Lookup(r.view + r.updates, id) == LastReport(r.log, id)
  {
    InitHolds(s);
    RunKeeps(s, steps);
    var r := Exec(s, steps);
    LatestIsLast(r.log, id);
    assert Lookup(Overlay(r), id) == TrackOf(r.log, id).latest;
  }

  /** Until its cleanup begins to cancel, a session's queue holds, in the service's order, what was
      delivered to it, is not completed and is not running: nothing is lost and nothing is left over. */
  lemma QueueIsWhatIsLeft(s: State, steps: seq<Step>, sid: SessionId)
    requires Init(s) && Legal(s, steps) && sid in Exec(s, steps).sides && Exec(s, steps).sides[sid].thread.Orderly()
    ensures var r := Exec(s, steps);
            var side := r.sides[sid];
            && side.known <= |side.pipeline|
            && Ids(Specs(side.sess.queue.actions))
               == Ids(Outstanding(side.pipeline[..side.known], TerminalIds(r.view + r.updates) + CurrentIds(side.sess)))
  {
    InitHolds(s);
    RunKeeps(s, steps);
    var r := Exec(s, steps);
    InvParts(r, sid);
  }

  // ----- where the life cycle does not hold

  /** A failed lookup of a queued task: the task stays queued when it is reported as failed, so
      cancelling the queue reports it a second time. */
  lemma FailedLookupCompletesTwice(now: Time, detail: int)
    ensures var task := ActionSpec(1, TaskRun, 0, Some(7));
            var s := NewSession(false).(queue := Replace(EmptyQueue, [task]));
            && Coherent(s.queue)
            && StartAction(s, RuntimeErrorRaised, Begins, now, detail).events
               == [Reported(FailedAt(1, now, detail), false), Reported(NeverAttempted(1, detail), false)]
  {
    var task := ActionSpec(1, TaskRun, 0, Some(7));
    var q := Replace(EmptyQueue, [task]);
    assert [task][1..] == [];
    assert Fill(map[], 0, [task]) == Filled([Entry(0, task)], map[1 := Entry(0, task)], 1, true);
    assert q.actions == [Entry(0, task)];
    assert q.actions[1..] == [];
    assert CancelIds(q.actions, true) == [1];
  }

  /** The phase of the action whose lookup failed: completed, or completed twice. */
  lemma FailedLookupPhase(side: Side, done: set<ActionId>, log: seq<Event>, answer: Answer,
          outcome: StartOutcome, now: Time, detail: int)
    requires Resting(side, done, log) && DequeueOutcome(side.sess.queue, answer).ActionError?
    ensures var spec := side.sess.queue.actions[0].spec;
            var phase := PhaseOf(log + StartAction(side.sess, answer, outcome, now, detail).events, spec.id);
            if spec.kind.EnvExit? then phase.Done? || phase.Broken? else phase.Broken?
  {
    RestingParts(side, done, log);
    CancelGoneIs(side.sess.queue);
    CancelEventFacts(side.sess, detail);
    FailedLookupEvents(side.sess, answer, outcome, now, detail);
    var spec := side.sess.queue.actions[0].spec;
    var failed := Reported(FailedAt(spec.id, now, detail), side.sess.Attachments());
    CompletedThenCancelled(log, failed, CancelQueued(side.sess, detail).events, CancelGone(side.sess.queue));
  }

  lemma FailedLookupEvents(s: Sess, answer: Answer, outcome: StartOutcome, now: Time, detail: int)
    requires DequeueOutcome(s.queue, answer).ActionError?
    ensures s.queue.actions != []
    ensures StartAction(s, answer, outcome, now, detail).events
            == [Reported(FailedAt(s.queue.actions[0].spec.id, now, detail), s.Attachments())] + CancelQueued(s, detail).events
  {
  }

  lemma CompletedThenCancelled(log: seq<Event>, failed: Event, rest: seq<Event>, gone: set<ActionId>)
    requires failed.Completes() && CancelsExactly(rest, gone)
    ensures var phase := PhaseOf(log + ([failed] + rest), failed.Subject());
            if failed.Subject() in gone then phase.Broken? else phase.Done? || phase.Broken?
  {
    var id := failed.Subject();
    TrackAppend(log, [failed] + rest, id);
    TrackFromAppend(TrackOf(log, id), [failed], rest, id);
    TrackOne(TrackOf(log, id), failed, id);
  }

  /** Nothing that is completed is queued. */
  lemma QueuedIsNotDone(side: Side, done: set<ActionId>, log: seq<Event>, i: nat)
    requires Resting(side, done, log) && i < |side.sess.queue.actions|
    ensures side.sess.queue.actions[i].spec.id !in done
  {
    RestingQueue(side, done, log);
    OutstandingFacts(side, done);
    assert Specs(side.sess.queue.actions)[i].id == Left(side, done)[i].id;
  }

  lemma FailedExitStays(r: State, sid: SessionId, id: ActionId)
    requires sid in r.sides && r.sides[sid].thread.Looping? && r.sides[sid].sess.current.None?
    requires exists i :: 0 <= i < |r.sides[sid].sess.queue.actions| && r.sides[sid].sess.queue.actions[i].spec.id == id
    requires PhaseOf(r.log, id).Done? || PhaseOf(r.log, id).Broken?
    ensures !Inv(r)
  {
    if Inv(r) {
      InvParts(r, sid);
      var i :| 0 <= i < |r.sides[sid].sess.queue.actions| && r.sides[sid].sess.queue.actions[i].spec.id == id;
      QueuedIsNotDone(r.sides[sid], DoneIds(r), r.log, i);
    }
  }

  lemma ExitStaysQueued(q: Queue)
    requires Coherent(q) && q.actions != [] && q.actions[0].spec.kind.EnvExit?
    ensures exists i :: 0 <= i < |CancelAll(q, true).actions| && CancelAll(q, true).actions[i].spec.id == q.actions[0].spec.id
  {
    CancelGoneIs(q);
    DropMembers(q.actions, CancelGone(q));
    var r := CancelAll(q, true);
    assert q.actions[0] in r.actions;
    var i :| 0 <= i < |r.actions| && r.actions[i] == q.actions[0];
  }

  /** A failed lookup breaks the invariant: an ENV_EXIT stays queued although it is completed, and
      any other action is completed twice. */
  lemma FailedLookupBreaks(s: State, step: Step)
    requires Inv(s) && Enabled(s, step) && !Clean(s, step)
    ensures !Inv(Next(s, step))
  {
    hide Inv, SideInv, Enabled, Next, DoneIds, Coupled, Unbroken, StartAction, DequeueOutcome;
    NextStart(s, step);
    InvParts(s, step.sid);
    var side := s.sides[step.sid];
    FailedLookupIs(side.sess, step.answer, step.outcome, step.now, step.detail);
    var spec := side.sess.queue.actions[0].spec;
    FailedLookupPhase(side, DoneIds(s), s.log, step.answer, step.outcome, step.now, step.detail);
    if spec.kind.EnvExit? {
      RestingParts(side, DoneIds(s), s.log);
      ExitStaysQueued(side.sess.queue);
      FailedExitStays(Next(s, step), step.sid, spec.id);
    } else {
      BrokenIsNoInv(Next(s, step), spec.id);
    }
  }

  lemma FailedLookupIs(s: Sess, answer: Answer, outcome: StartOutcome, now: Time, detail: int)
    requires DequeueOutcome(s.queue, answer).ActionError?
    ensures s.queue.actions != []
    ensures var e := StartAction(s, answer, outcome, now, detail);
            !e.crashed && e.sess == s.(queue := CancelAll(s.queue, true), current := None)
  {
  }

  lemma BrokenIsNoInv(s: State, id: ActionId)
    requires PhaseOf(s.log, id).Broken?
    ensures !Inv(s)
  {
  }

  /** A step keeps the invariant exactly when it is not the start of an action whose job entity
      lookup fails with an error that names the action. */
  lemma StepKeepsExactlyWhenClean(s: State, step: Step)
    requires Inv(s) && Enabled(s, step)
    ensures Inv(Next(s, step)) <==> Clean(s, step)
  {
    if Clean(s, step) {
      StepKeeps(s, step);
    } else {
      FailedLookupBreaks(s, step);
    }
  }

  /** Two progress updates that carry the same time: the second one, reported while the first is
      being sent, is dropped by the commit. */
  lemma SameTimeUpdateIsLost(id: ActionId, time: Time)
    ensures var first := Status(id, None, Some(time), Some(time), None, 10);
            var second := Status(id, None, Some(time), Some(time), None, 20);
            var tx := Transaction(map[id := first]);
            var view := map[id := first];
            && Commit(map[id := second], tx) == map[]
            && Lookup(view + Commit(map[id := second], tx), id) == Some(first)
  {
    var first := Status(id, None, Some(time), Some(time), None, 10);
    var second := Status(id, None, Some(time), Some(time), None, 20);
    assert UpdateIdOf(second) == UpdateIdOf(map[id := first][id]);
  }

  /** A commit loses nothing exactly when every pending update that looks like a sent one is the
      one that was sent. */
  lemma CommitLosesNothingIff(updates: map<ActionId, Status>, sent: map<ActionId, Status>, view: map<ActionId, Status>)
    requires forall id | id in updates :: updates[id].id == id
    requires forall id | id in sent :: sent[id].id == id
    ensures (view + sent) + Commit(updates, Transaction(sent)) == (view + sent) + updates
            <==> forall id | id in updates && id in sent :: UpdateIdOf(updates[id]) == UpdateIdOf(sent[id]) ==> updates[id] == sent[id]
  {
    var tx := Transaction(sent);
    var left, right := (view + sent) + Commit(updates, tx), (view + sent) + updates;
    forall id | id in updates ensures UpdateIdOf(updates[id]) in tx <==> id in sent && UpdateIdOf(updates[id]) == UpdateIdOf(sent[id]) {
      if UpdateIdOf(updates[id]) in tx {
        var other :| other in sent && UpdateIdOf(sent[other]) == UpdateIdOf(updates[id]);
        assert other == id;
      }
    }
    if forall id | id in updates && id in sent :: UpdateIdOf(updates[id]) == UpdateIdOf(sent[id]) ==> updates[id] == sent[id] {
      assert left == right;
    } else {
      var id :| id in updates && id in sent && UpdateIdOf(updates[id]) == UpdateIdOf(sent[id]) && updates[id] != sent[id];
      assert left[id] == sent[id] && right[id] == updates[id];
    }
  }
}
