/** The discipline of the environment stack over whole runs.

    The service decides by what it was told, which may lag behind: it appends an ENV_EXIT only when
    it knows of every earlier ENV_ENTER whether it was attempted, and only for the innermost
    environment that is then still to be exited. From this and a runtime that does not refuse
    environment actions, every ENV_EXIT a session starts is for its innermost active environment. */
module EnvironmentStack {
  import opened Actions
  import opened Lifecycle
  import opened QueueModel
  import opened SessionModel
  import opened SchedulerModel
  import opened Protocol
  import opened ProtocolShared
  import opened ProtocolSides
  import opened ProtocolStart
  import opened ProtocolCallback
  import opened ProtocolAssign
  import opened ProtocolCleanup
  import opened ProtocolTheorems

  /** The environments of `specs` that are entered and not exited, in order of entry. */
  function EnvStack(specs: seq<ActionSpec>, entered: set<ActionId>, exited: set<ActionId>): seq<EnvId> {
    if specs == [] then []
    else
      var outer, a := EnvStack(specs[..|specs| - 1], entered, exited), specs[|specs| - 1];
      if a.kind.EnvEnter? && a.id in entered then outer + [a.env]
      else if a.kind.EnvExit? && a.id in exited && outer != [] then outer[..|outer| - 1]
      else outer
  }

  lemma EnvStackStep(specs: seq<ActionSpec>, entered: set<ActionId>, exited: set<ActionId>)
    requires specs != []
    ensures var outer, a := EnvStack(specs[..|specs| - 1], entered, exited), specs[|specs| - 1];
            EnvStack(specs, entered, exited)
            == if a.kind.EnvEnter? && a.id in entered then outer + [a.env]
               else if a.kind.EnvExit? && a.id in exited && outer != [] then outer[..|outer| - 1]
               else outer
  {
  }

  lemma {:induction false} EnvStackAgree(specs: seq<ActionSpec>, entered: set<ActionId>, exited: set<ActionId>,
          entered': set<ActionId>, exited': set<ActionId>)
    requires forall a | a in specs :: a.kind.EnvEnter? ==> (a.id in entered <==> a.id in entered')
    requires forall a | a in specs :: a.kind.EnvExit? ==> (a.id in exited <==> a.id in exited')
    ensures EnvStack(specs, entered, exited) == EnvStack(specs, entered', exited')
    decreases specs
  {
    if specs != [] {
      assert specs[|specs| - 1] in specs;
      EnvStackAgree(specs[..|specs| - 1], entered, exited, entered', exited');
    }
  }

  /** What is neither entered nor exited does not matter. */
  lemma {:induction false} EnvStackPrefix(specs: seq<ActionSpec>, j: nat, entered: set<ActionId>, exited: set<ActionId>)
    requires j <= |specs|
    requires forall i | j <= i < |specs| :: specs[i].id !in entered && specs[i].id !in exited
    ensures EnvStack(specs, entered, exited) == EnvStack(specs[..j], entered, exited)
    decreases specs
  {
    if j < |specs| {
      assert specs[..|specs| - 1][..j] == specs[..j];
      EnvStackPrefix(specs[..|specs| - 1], j, entered, exited);
    } else {
      assert specs[..j] == specs;
    }
  }

  lemma EnvStackAppend(specs: seq<ActionSpec>, more: seq<ActionSpec>, entered: set<ActionId>, exited: set<ActionId>)
    requires forall a | a in more :: a.id !in entered && a.id !in exited
    ensures EnvStack(specs + more, entered, exited) == EnvStack(specs, entered, exited)
  {
    var all := specs + more;
    forall i | |specs| <= i < |all| ensures all[i].id !in entered && all[i].id !in exited {
      assert all[i] in more;
    }
    EnvStackPrefix(all, |specs|, entered, exited);
    assert all[..|specs|] == specs;
  }

  // ----- the contract

  function IdsOf(specs: seq<ActionSpec>): set<ActionId> {
    set a | a in specs :: a.id
  }

  /** The actions the service knows to have been attempted. */
  function Attempted(view: map<ActionId, Status>): set<ActionId> {
    set id | id in view && view[id].completed != Some(NEVER_ATTEMPTED)
  }

  /** The ENV_EXIT at `j` is for the innermost environment left, and that is settled. */
  ghost predicate ExitsInnermost(specs: seq<ActionSpec>, j: nat, entered: set<ActionId>, settled: set<ActionId>)
    requires j < |specs|
  {
    && (forall i | 0 <= i < j && specs[i].kind.EnvEnter? :: specs[i].id in settled)
    && Innermost(EnvStack(specs[..j], entered, IdsOf(specs)), specs[j].env)
  }

  ghost predicate IssuesExits(pipeline: seq<ActionSpec>, more: seq<ActionSpec>, view: map<ActionId, Status>) {
    forall j | |pipeline| <= j < |pipeline| + |more| && (pipeline + more)[j].kind.EnvExit? ::
      ExitsInnermost(pipeline + more, j, Attempted(view), view.Keys)
  }

  ghost predicate ServiceIssuesExits(s: State, more: map<SessionId, seq<ActionSpec>>)
    requires s.link.InFlight? && more.Keys == s.sides.Keys
  {
    forall sid | sid in s.sides && !s.sides[sid].thread.Ended? ::
      IssuesExits(s.sides[sid].pipeline, more[sid], s.view + s.link.sent)
  }

  predicate IsEnvAction(a: ActionSpec) {
    a.kind.EnvEnter? || a.kind.EnvExit?
  }

  ghost predicate EnvAllowed(s: State, step: Step)
    requires Enabled(s, step)
  {
    match step
    case Serve(more) => ServiceIssuesExits(s, more)
    case LoseReply(more) => ServiceIssuesExits(s, more)
    case Start(sid, answer, outcome, _, _) =>
      var d := DequeueOutcome(s.sides[sid].sess.queue, answer);
      d.NextAction? && IsEnvAction(d.spec) ==> outcome.Begins?
    case _ => true
  }

  ghost predicate EnvLegal(s: State, steps: seq<Step>)
    decreases steps
  {
    steps == []
    || (Enabled(s, steps[0]) && Clean(s, steps[0]) && EnvAllowed(s, steps[0]) && EnvLegal(Next(s, steps[0]), steps[1..]))
  }

  lemma {:induction false} EnvLegalIsLegal(s: State, steps: seq<Step>)
    requires EnvLegal(s, steps)
    ensures Legal(s, steps)
    decreases steps
  {
    if steps != [] {
      EnvLegalIsLegal(Next(s, steps[0]), steps[1..]);
    }
  }

  // ----- the invariant

  /** Whether an ENV_ENTER was started can be read off any status about it. */
  ghost predicate TellsStarted(m: map<ActionId, Status>, specs: seq<ActionSpec>, started: set<ActionId>) {
    forall a | a in specs && a.kind.EnvEnter? && a.id in m ::
      m[a.id].completed == Some(NEVER_ATTEMPTED) <==> a.id !in started
  }

  ghost predicate ExitsOk(specs: seq<ActionSpec>, started: set<ActionId>, done: set<ActionId>) {
    forall j | 0 <= j < |specs| && specs[j].kind.EnvExit? :: ExitsInnermost(specs, j, started, started + done)
  }

  ghost predicate StartedInOrder(specs: seq<ActionSpec>, started: set<ActionId>, done: set<ActionId>) {
    forall i, k | 0 <= i < k < |specs| && specs[k].id in started :: specs[i].id in done
  }

  ghost predicate EnvSide(side: Side, done: set<ActionId>, started: set<ActionId>, view: map<ActionId, Status>,
          updates: map<ActionId, Status>, sent: map<ActionId, Status>) {
    && side.sess.envs == EnvStack(side.pipeline, started, started)
    && StartedInOrder(side.pipeline, started, done)
    && (!side.thread.Ended? ==>
          && ExitsOk(side.pipeline, started, done)
          && (forall a | a in side.pipeline && a.kind.EnvExit? && a.id in done :: a.id in started)
          && TellsStarted(view, side.pipeline, started)
          && TellsStarted(updates, side.pipeline, started)
          && TellsStarted(sent, side.pipeline, started))
  }

  function SentOf(link: Link): map<ActionId, Status> {
    if link.InFlight? then link.sent else map[]
  }

  ghost predicate EnvInv(s: State) {
    forall sid | sid in s.sides ::
      EnvSide(s.sides[sid], DoneIds(s), StartedIds(s.log), s.view, s.updates, SentOf(s.link))
  }

  // ----- started, by the phases

  lemma {:induction false} StartedByPhase(log: seq<Event>, id: ActionId)
    requires !PhaseOf(log, id).Broken?
    ensures PhaseOf(log, id).Queued? ==> id !in StartedIds(log)
    ensures PhaseOf(log, id).Running? || PhaseOf(log, id).UploadWaiting? || PhaseOf(log, id).Uploading? ==> id in StartedIds(log)
    decreases log
  {
    if log != [] {
      var front, e := log[..|log| - 1], log[|log| - 1];
      assert log == front + [e];
      TrackAppend(front, [e], id);
      TrackOne(TrackOf(front, id), e, id);
      StartedIdsAppend(front, [e]);
      assert id in StartedIds([e]) <==> e.Started? && e.id == id by {
        assert e in [e];
      }
      StartedByPhase(front, id);
    }
  }

  // ----- one session

  /** What a step may report about environment actions, given what was started by then. */
  ghost predicate EnvEventsOk(specs: seq<ActionSpec>, started: set<ActionId>, events: seq<Event>) {
    forall e, a | e in events && e.Reported? && a in specs && a.id == e.Subject() ::
      && (a.kind.EnvEnter? ==> (e.status.completed == Some(NEVER_ATTEMPTED) <==> a.id !in started))
      && (a.kind.EnvExit? && e.Completes() ==> a.id in started)
  }

  lemma TellsStartedAbsorb(m: map<ActionId, Status>, specs: seq<ActionSpec>, started: set<ActionId>, events: seq<Event>)
    requires TellsStarted(m, specs, started) && EnvEventsOk(specs, started, events)
    ensures TellsStarted(Absorb(m, events), specs, started)
  {
    forall a | a in specs && a.kind.EnvEnter? && a.id in Absorb(m, events)
      ensures Absorb(m, events)[a.id].completed == Some(NEVER_ATTEMPTED) <==> a.id !in started
    {
      AbsorbSource(m, events, a.id);
    }
  }

  /** Later starts do not disturb what an ENV_EXIT relies on. */
  lemma ExitsOkGrows(specs: seq<ActionSpec>, started: set<ActionId>, done: set<ActionId>,
          started': set<ActionId>, done': set<ActionId>)
    requires ExitsOk(specs, started, done) && started <= started' && done <= done'
    requires forall a | a in specs && a.id in started' && a.id !in started :: a.id !in done
    ensures ExitsOk(specs, started', done')
  {
    forall j | 0 <= j < |specs| && specs[j].kind.EnvExit? ensures ExitsInnermost(specs, j, started', started' + done') {
      assert ExitsInnermost(specs, j, started, started + done);
      forall a | a in specs[..j] && a.kind.EnvEnter? ensures a.id in started <==> a.id in started' {
        var i :| 0 <= i < j && specs[i] == a;
        assert specs[i].id in started + done;
      }
      EnvStackAgree(specs[..j], started, IdsOf(specs), started', IdsOf(specs));
    }
  }

  /** A step that starts nothing. */
  lemma EnvSideQuiet(side: Side, side': Side, done: set<ActionId>, started: set<ActionId>,
          view: map<ActionId, Status>, updates: map<ActionId, Status>, sent: map<ActionId, Status>,
          events: seq<Event>)
    requires EnvSide(side, done, started, view, updates, sent)
    requires side'.pipeline == side.pipeline && side'.sess.envs == side.sess.envs
    requires side.thread.Ended? ==> side'.thread.Ended?
    requires side'.thread.Ended? || EnvEventsOk(side.pipeline, started, events)
    ensures EnvSide(side', done + CompletedIds(events), started, view, Absorb(updates, events), sent)
  {
    if !side'.thread.Ended? {
      TellsStartedAbsorb(updates, side.pipeline, started, events);
      ExitsOkGrows(side.pipeline, started, done, started, done + CompletedIds(events));
      forall a | a in side.pipeline && a.kind.EnvExit? && a.id in done + CompletedIds(events) ensures a.id in started {
        if a.id in CompletedIds(events) {
          var e :| e in events && e.Completes() && e.Subject() == a.id;
        }
      }
    }
  }

  /** The reports of a cancelled queue. */
  lemma CancelEventsOk(specs: seq<ActionSpec>, started: set<ActionId>, s: Sess, detail: int)
    requires Coherent(s.queue)
    requires forall a | a in specs && a.id in CancelGone(s.queue) && IsEnvAction(a) :: a.kind.EnvEnter? && a.id !in started
    ensures EnvEventsOk(specs, started, CancelQueued(s, detail).events)
  {
    var events := CancelQueued(s, detail).events;
    CancelEventFacts(s, detail);
    forall e | e in events ensures e.Reported? && e.status.completed == Some(NEVER_ATTEMPTED) {
      var k :| 0 <= k < |events| && events[k] == e;
    }
  }

  /** A finished task is no environment action. */
  lemma TargetIsTask(side: Side, done: set<ActionId>, log: seq<Event>, a: ActionSpec)
    requires SideInv(side, done, log) && a in side.pipeline && IsEnvAction(a) && side.sess.target.Some?
    ensures side.sess.target.value.spec.id != a.id
  {
    SameIdSameAction(side.pipeline, side.sess.target.value.spec, a);
  }

  /** The environment actions a cancelled queue takes with it are ENV_ENTERs that were never
      started. */
  lemma CancelledEnvActions(side: Side, done: set<ActionId>, log: seq<Event>, q: Queue, a: ActionSpec)
    requires SideInv(side, done, log) && Unbroken(log) && side.thread.Orderly()
    requires Coherent(q) && forall e | e in q.actions :: e in side.sess.queue.actions
    requires a in side.pipeline && a.id in CancelGone(q) && IsEnvAction(a)
    requires PhaseOf(log, a.id).Queued? || PhaseOf(log, a.id).UploadWaiting?
    ensures a.kind.EnvEnter? && a.id !in StartedIds(log)
  {
    CancelGoneIs(q);
    var i :| 0 <= i < |Specs(q.actions)| && Specs(q.actions)[i].id == a.id;
    var e := q.actions[i];
    assert e in side.sess.queue.actions && side.sess.queue.byId[a.id] == e;
    KnownEntryPresents(side, done, a);
    if side.sess.target.Some? {
      TargetIsTask(side, done, log, a);
    }
    assert !PhaseOf(log, a.id).Broken?;
    StartedByPhase(log, a.id);
    var k :| 0 <= k < |side.pipeline| && side.pipeline[k] == a;
    assert e.spec == a;
  }

  lemma OneReportOk(specs: seq<ActionSpec>, started: set<ActionId>, e: Event)
    requires e.Reported? ==> e.Subject() in started && e.status.completed != Some(NEVER_ATTEMPTED)
    ensures EnvEventsOk(specs, started, [e])
  {
    forall f | f in [e] ensures f == e {}
  }

  lemma EnvEventsAppend(specs: seq<ActionSpec>, started: set<ActionId>, a: seq<Event>, b: seq<Event>)
    requires EnvEventsOk(specs, started, a) && EnvEventsOk(specs, started, b)
    ensures EnvEventsOk(specs, started, a + b)
  {
    forall e | e in a + b ensures e in a || e in b {}
  }

  // ----- the steps of a session

  ghost predicate Ready(side: Side, done: set<ActionId>, log: seq<Event>) {
    SideInv(side, done, log) && Coupled(done, log) && Unbroken(log)
  }

  lemma BusyCancel(side: Side, done: set<ActionId>, log: seq<Event>, s: Sess, detail: int)
    requires Ready(side, done, log) && Busy(side, done, log) && s.queue == side.sess.queue
    ensures EnvEventsOk(side.pipeline, StartedIds(log), CancelQueued(s, detail).events)
  {
    BusyQueue(side, done, log);
    CancelGoneIs(s.queue);
    forall a | a in side.pipeline && a.id in CancelGone(s.queue) && IsEnvAction(a)
      ensures a.kind.EnvEnter? && a.id !in StartedIds(log)
    {
      CancelledEnvActions(side, done, log, s.queue, a);
    }
    CancelEventsOk(side.pipeline, StartedIds(log), s, detail);
  }

  lemma CurrentIsStarted(side: Side, done: set<ActionId>, log: seq<Event>)
    requires Ready(side, done, log) && Busy(side, done, log)
    ensures side.sess.current.value.spec.id in StartedIds(log)
  {
    var id := side.sess.current.value.spec.id;
    assert !PhaseOf(log, id).Broken?;
    StartedByPhase(log, id);
  }

  lemma HandleUpdateEnv(side: Side, done: set<ActionId>, log: seq<Event>, s: Sess, state: ActionState,
          action: CurrentAction, now: Time, detail: int)
    requires Ready(side, done, log) && Busy(side, done, log) && s.queue == side.sess.queue
    requires action.spec.id == side.sess.current.value.spec.id && s.target.None?
    ensures EnvEventsOk(side.pipeline, StartedIds(log), HandleUpdate(s, state, action, now, detail).events)
    ensures HandleUpdate(s, state, action, now, detail).sess.envs == s.envs
  {
    CurrentIsStarted(side, done, log);
    var last := Reported(StatusOf(action, state, now, detail), s.Attachments());
    OneReportOk(side.pipeline, StartedIds(log), last);
    if Unsuccessful(state) {
      BusyCancel(side, done, log, s, detail);
      EnvEventsAppend(side.pipeline, StartedIds(log), CancelQueued(s, detail).events, [last]);
    } else {
      var none: seq<Event> := [];
      assert none + [last] == [last];
    }
  }

  lemma CallbackEnv(side: Side, done: set<ActionId>, log: seq<Event>, state: ActionState, now: Time, detail: int)
    requires Ready(side, done, log)
    ensures var e := ActionUpdated(side.sess, state, now, detail);
            && EnvEventsOk(side.pipeline, StartedIds(log), e.events)
            && e.sess.envs == side.sess.envs
            && StartedIds(e.events) == {}
  {
    var s := side.sess;
    var e := ActionUpdated(s, state, now, detail);
    if s.interrupted || s.current.None? {
      assert e.events == [];
    } else if s.target.Some? {
      if !state.RUNNING? {
        HandleUpdateEnv(side, done, log, s.(target := None), state, s.target.value, now, detail);
        HandleUpdateStartsNothing(s.(target := None), state, s.target.value, now, detail);
      }
    } else if OwesUpload(s, state) {
      OneReportOk(side.pipeline, StartedIds(log), UploadQueued(s.current.value.spec.id));
    } else {
      HandleUpdateEnv(side, done, log, s, state, s.current.value, now, detail);
      HandleUpdateStartsNothing(s, state, s.current.value, now, detail);
    }
  }

  lemma HandleUpdateStartsNothing(s: Sess, state: ActionState, action: CurrentAction, now: Time, detail: int)
    ensures StartedIds(HandleUpdate(s, state, action, now, detail).events) == {}
  {
    var events := HandleUpdate(s, state, action, now, detail).events;
    forall e | e in events ensures e.Reported? {
      var k :| 0 <= k < |events| && events[k] == e;
    }
  }

  lemma CancelStartsNothing(s: Sess, detail: int)
    ensures StartedIds(CancelQueued(s, detail).events) == {}
  {
    var events := CancelQueued(s, detail).events;
    forall e | e in events ensures e.Reported? {
      var k :| 0 <= k < |events| && events[k] == e;
    }
  }

  lemma InterruptEnv(side: Side, done: set<ActionId>, log: seq<Event>, now: Time)
    requires Ready(side, done, log) && side.thread.Looping?
    ensures var e := Interrupt(side.sess, now);
            && EnvEventsOk(side.pipeline, StartedIds(log), e.events)
            && e.sess.envs == side.sess.envs && StartedIds(e.events) == {}
  {
    var e := Interrupt(side.sess, now);
    if side.sess.current.Some? {
      CurrentIsStarted(side, done, log);
      assert e.events == [e.events[0]];
      OneReportOk(side.pipeline, StartedIds(log), e.events[0]);
    }
  }

  /** What the cancelation reports is no ENV_EXIT, and no ENV_ENTER that was started. */
  lemma CancelReportEnv(side: Side, done: set<ActionId>, log: seq<Event>)
    requires Ready(side, done, log) && side.thread.Cancelling? && side.thread.stage.Removed?
    ensures EnvEventsOk(side.pipeline, StartedIds(log), [CancelReport(side)])
    ensures StartedIds([CancelReport(side)]) == {}
  {
    var e := CancelReport(side);
    var id := e.Subject();
    assert id == side.thread.Unreported()[0] && id in side.thread.Unreported();
    assert Open(id, side.pipeline, done, log);
    assert !PhaseOf(log, id).Broken?;
    StartedByPhase(log, id);
    forall a | a in side.pipeline && a.id == id ensures a.kind.EnvEnter? ==> a.id !in StartedIds(log) {
      if a.kind.EnvEnter? {
        WaitingIsTask(side, done, log, a);
      }
    }
    forall f | f in [e] ensures f == e {}
  }

  /** An ENV_ENTER never awaits an upload. */
  lemma WaitingIsTask(side: Side, done: set<ActionId>, log: seq<Event>, a: ActionSpec)
    requires SideInv(side, done, log) && a in side.pipeline && IsEnvAction(a)
    ensures !PhaseOf(log, a.id).UploadWaiting?
  {
    var i :| 0 <= i < |side.pipeline| && side.pipeline[i] == a;
    if side.sess.target.Some? {
      TargetIsTask(side, done, log, a);
    }
    if side.sess.current.Some? && !side.sess.interrupted && side.sess.current.value.spec.id == a.id {
      assert PhaseOf(log, a.id).Uploading? || PhaseOf(log, a.id).Running?;
    }
  }

  // ----- starting an action

  /** The head of a resting queue stands where everything before it is completed. */
  lemma HeadPosition(side: Side, done: set<ActionId>, log: seq<Event>) returns (j: nat)
    requires Ready(side, done, log) && Resting(side, done, log) && side.sess.queue.actions != []
    ensures j < |side.pipeline| && side.pipeline[j].id == side.sess.queue.actions[0].spec.id
    ensures side.pipeline[j].id !in done && forall i | 0 <= i < j :: side.pipeline[i].id in done
    ensures side.sess.target.None? ==> side.pipeline[j] == side.sess.queue.actions[0].spec
    ensures side.sess.target.Some? ==> side.sess.queue.actions[0].spec.kind.SyncOutput? && !IsEnvAction(side.pipeline[j])
  {
    var spec := side.sess.queue.actions[0].spec;
    HeadFacts(side, done, log);
    var k :| 0 <= k < side.known && k < |side.pipeline| && side.pipeline[k].id == spec.id
      && forall i | 0 <= i < k :: side.pipeline[i].id in done;
    j := k;
    assert side.pipeline[j] in side.pipeline;
    if side.sess.target.Some? {
      if IsEnvAction(side.pipeline[j]) {
        TargetIsTask(side, done, log, side.pipeline[j]);
      }
    } else {
      SameIdSameAction(side.pipeline, side.pipeline[j], spec);
    }
  }

  /** Nothing at or behind the head was started, so the stack is that of what stands before it. */
  lemma StackBeforeHead(specs: seq<ActionSpec>, j: nat, started: set<ActionId>, done: set<ActionId>)
    requires StartedInOrder(specs, started, done) && DistinctIds(specs) && j < |specs|
    requires specs[j].id !in done && specs[j].id !in started
    ensures EnvStack(specs, started, started) == EnvStack(specs[..j], started, started)
    ensures forall k | j <= k < |specs| :: specs[k].id !in started
  {
    forall k | j <= k < |specs| ensures specs[k].id !in started {
    }
    EnvStackPrefix(specs, j, started, started);
  }

  /** The main result for one session: when it comes to start an ENV_EXIT, that is for the innermost
      active environment. */
  lemma ExitIsInnermost(side: Side, done: set<ActionId>, log: seq<Event>, view: map<ActionId, Status>,
          updates: map<ActionId, Status>, sent: map<ActionId, Status>)
    requires Ready(side, done, log) && Resting(side, done, log) && side.sess.queue.actions != []
    requires EnvSide(side, done, StartedIds(log), view, updates, sent)
    requires side.sess.queue.actions[0].spec.kind.EnvExit?
    ensures Innermost(side.sess.envs, side.sess.queue.actions[0].spec.env)
  {
    var specs, started := side.pipeline, StartedIds(log);
    var j := HeadPosition(side, done, log);
    HeadFacts(side, done, log);
    assert !PhaseOf(log, specs[j].id).Broken?;
    StartedByPhase(log, specs[j].id);
    StackBeforeHead(specs, j, started, done);
    assert ExitsInnermost(specs, j, started, started + done);
    forall a | a in specs[..j] && a.kind.EnvExit? ensures a.id in started <==> a.id in IdsOf(specs) {
      var i :| 0 <= i < j && specs[i] == a;
      assert a in specs;
    }
    EnvStackAgree(specs[..j], started, started, started, IdsOf(specs));
  }

  /** The stack after the head was started. */
  lemma StackAfterHead(specs: seq<ActionSpec>, j: nat, started: set<ActionId>, done: set<ActionId>)
    requires StartedInOrder(specs, started, done) && DistinctIds(specs) && j < |specs|
    requires specs[j].id !in done && specs[j].id !in started
    ensures var before, after := EnvStack(specs, started, started), EnvStack(specs, started + {specs[j].id}, started + {specs[j].id});
            after == if specs[j].kind.EnvEnter? then before + [specs[j].env]
                     else if specs[j].kind.EnvExit? && before != [] then before[..|before| - 1]
                     else before
  {
    hide EnvStack;
    var started', front := started + {specs[j].id}, specs[..j + 1];
    StackBeforeHead(specs, j, started, done);
    HeadIsNotBefore(specs, j, started);
    EnvStackPrefix(specs, j + 1, started', started');
    assert front[..|front| - 1] == specs[..j] && front[|front| - 1] == specs[j];
    EnvStackStep(front, started', started');
    EnvStackAgree(specs[..j], started, started, started', started');
  }

  lemma HeadIsNotBefore(specs: seq<ActionSpec>, j: nat, started: set<ActionId>)
    requires DistinctIds(specs) && j < |specs| && forall k | j <= k < |specs| :: specs[k].id !in started
    ensures forall a | a in specs[..j] :: a.id in started <==> a.id in started + {specs[j].id}
    ensures forall k | j + 1 <= k < |specs| :: specs[k].id !in started + {specs[j].id}
  {
    forall a | a in specs[..j] ensures a.id != specs[j].id {
      var i :| 0 <= i < j && specs[i] == a;
      assert specs[i].id != specs[j].id;
    }
    forall k | j + 1 <= k < |specs| ensures specs[k].id != specs[j].id {
      assert specs[j].id != specs[k].id;
    }
  }

  lemma {:induction false} QueuedIsFresh(log: seq<Event>, id: ActionId)
    requires PhaseOf(log, id).Queued?
    ensures TrackOf(log, id) == Fresh
    decreases log
  {
    if log != [] {
      var front, e := log[..|log| - 1], log[|log| - 1];
      assert log == front + [e];
      TrackAppend(front, [e], id);
      TrackOne(TrackOf(front, id), e, id);
      QueuedIsFresh(front, id);
    }
  }

  /** The head, an action of the pipeline, is started. */
  lemma EnvSideStart(side: Side, side': Side, done: set<ActionId>, started: set<ActionId>,
          view: map<ActionId, Status>, updates: map<ActionId, Status>, sent: map<ActionId, Status>, j: nat,
          events: seq<Event>)
    requires EnvSide(side, done, started, view, updates, sent) && DistinctIds(side.pipeline)
    requires side'.pipeline == side.pipeline && side'.thread == side.thread && !side.thread.Ended?
    requires j < |side.pipeline| && side.pipeline[j].id !in done && side.pipeline[j].id !in started
    requires forall i | 0 <= i < j :: side.pipeline[i].id in done
    requires side.pipeline[j].id !in view && side.pipeline[j].id !in updates && side.pipeline[j].id !in sent
    requires EnvEventsOk(side.pipeline, started + {side.pipeline[j].id}, events)
    requires var a, before := side.pipeline[j], side.sess.envs;
             side'.sess.envs == if a.kind.EnvEnter? then before + [a.env]
                                else if a.kind.EnvExit? && before != [] then before[..|before| - 1]
                                else before
    ensures EnvSide(side', done + CompletedIds(events), started + {side.pipeline[j].id}, view, Absorb(updates, events), sent)
  {
    var specs, started', done' := side.pipeline, started + {side.pipeline[j].id}, done + CompletedIds(events);
    StackAfterHead(specs, j, started, done);
    ExitsOkGrows(specs, started, done, started', done');
    TellsStartedAbsorb(updates, specs, started', events);
    forall a | a in specs && a.kind.EnvExit? && a.id in done' ensures a.id in started' {
      if a.id in CompletedIds(events) {
        var e :| e in events && e.Completes() && e.Subject() == a.id;
      }
    }
    assert forall k | 0 <= k < |specs| :: specs[k].id == specs[j].id ==> k == j;
    forall i, k | 0 <= i < k < |specs| && specs[k].id in started' ensures specs[i].id in done' {}
  }

  /** What a failed start reports: the action itself and the cancelled queue behind it. */
  lemma FailStartEnv(side: Side, done: set<ActionId>, log: seq<Event>, answer: Answer, launched: Sess,
          now: Time, detail: int, started: set<ActionId>)
    requires Ready(side, done, log) && Resting(side, done, log)
    requires DequeueOutcome(side.sess.queue, answer).NextAction?
    requires launched.queue == Dequeue(side.sess.queue, answer) && launched.target == side.sess.target
    requires var id := side.sess.queue.actions[0].spec.id; started == StartedIds(log) + {id}
    ensures var e := FailStart(launched, side.sess.queue.actions[0].spec, now, detail);
            && EnvEventsOk(side.pipeline, started, e.events)
            && StartedIds(e.events) == StartedIds([StartEvent(side.sess.queue.actions[0].spec)])
            && e.sess.envs == launched.envs
  {
    var spec := side.sess.queue.actions[0].spec;
    BehindTheHeadCancelled(side, done, log, answer, launched.(target := None), detail);
    HeadFacts(side, done, log);
    FailStartEvents(side.pipeline, started, launched, spec, now, detail);
  }

  lemma BehindTheHeadCancelled(side: Side, done: set<ActionId>, log: seq<Event>, answer: Answer, s: Sess, detail: int)
    requires Ready(side, done, log) && Resting(side, done, log)
    requires DequeueOutcome(side.sess.queue, answer).NextAction? && s.queue == Dequeue(side.sess.queue, answer)
    ensures EnvEventsOk(side.pipeline, StartedIds(log) + {side.sess.queue.actions[0].spec.id}, CancelQueued(s, detail).events)
  {
    hide Ready, Resting, Coherent, DequeueOutcome, Dequeue, CancelQueued;
    DequeuedCoherent(side, done, log, answer);
    var started := StartedIds(log) + {side.sess.queue.actions[0].spec.id};
    forall a | a in side.pipeline && a.id in CancelGone(s.queue) && IsEnvAction(a)
      ensures a.kind.EnvEnter? && a.id !in started
    {
      CancelledBehind(side, done, log, answer, s.queue, a);
    }
    CancelEventsOk(side.pipeline, started, s, detail);
  }

  lemma DequeuedCoherent(side: Side, done: set<ActionId>, log: seq<Event>, answer: Answer)
    requires Ready(side, done, log) && Resting(side, done, log)
    requires DequeueOutcome(side.sess.queue, answer).NextAction?
    ensures Coherent(side.sess.queue) && side.sess.queue.actions != []
    ensures Coherent(Dequeue(side.sess.queue, answer))
  {
    RestingParts(side, done, log);
    DequeueIsTail(side.sess.queue, answer);
  }

  /** An environment action that goes with a failed start is an ENV_ENTER that was not started. */
  lemma CancelledBehind(side: Side, done: set<ActionId>, log: seq<Event>, answer: Answer, q: Queue, a: ActionSpec)
    requires Ready(side, done, log) && Resting(side, done, log)
    requires DequeueOutcome(side.sess.queue, answer).NextAction? && q == Dequeue(side.sess.queue, answer)
    requires a in side.pipeline && a.id in CancelGone(q) && IsEnvAction(a)
    ensures a.kind.EnvEnter? && a.id !in StartedIds(log) + {side.sess.queue.actions[0].spec.id}
  {
    DequeuedCoherent(side, done, log, answer);
    RestingParts(side, done, log);
    CancelGoneIs(q);
    BehindTheHead(side, done, log, answer, a.id);
    CancelledEnvActions(side, done, log, q, a);
  }

  lemma FailStartEvents(specs: seq<ActionSpec>, started: set<ActionId>, launched: Sess, spec: ActionSpec,
          now: Time, detail: int)
    requires spec.id in started && FailedId(launched, spec) == spec.id
    requires EnvEventsOk(specs, started, CancelQueued(launched.(target := None), detail).events)
    ensures var e := FailStart(launched, spec, now, detail);
            && EnvEventsOk(specs, started, e.events)
            && StartedIds(e.events) == StartedIds([StartEvent(spec)])
            && e.sess.envs == launched.envs
  {
    var e := FailStart(launched, spec, now, detail);
    var begin, failed := StartEvent(spec), Reported(FailedAt(spec.id, now, detail), launched.Attachments());
    var rest := CancelQueued(launched.(target := None), detail).events;
    OneReportOk(specs, started, begin);
    OneReportOk(specs, started, failed);
    EnvEventsAppend(specs, started, [begin], [failed]);
    assert [begin] + [failed] == [begin, failed];
    EnvEventsAppend(specs, started, [begin, failed], rest);
    assert e.events == [begin, failed] + rest;
    CancelStartsNothing(launched.(target := None), detail);
    StartedIdsAppend([begin, failed], rest);
    StartedIdsAppend([begin], [failed]);
    assert StartedIds([failed]) == {};
  }

  /** The events of any start that an environment action does not refuse. */
  lemma StartEnvEvents(side: Side, done: set<ActionId>, log: seq<Event>, answer: Answer, outcome: StartOutcome,
          now: Time, detail: int)
    requires Ready(side, done, log) && Resting(side, done, log)
    requires DequeueOutcome(side.sess.queue, answer).NextAction?
    ensures var e, spec := StartAction(side.sess, answer, outcome, now, detail), side.sess.queue.actions[0].spec;
            && EnvEventsOk(side.pipeline, StartedIds(log) + {spec.id}, e.events)
            && StartedIds(e.events) == (if spec.kind.SyncOutput? then {} else {spec.id})
            && e.sess.envs == Launch(Begun(side.sess, answer, spec, now), spec, outcome).envs
  {
    var spec := side.sess.queue.actions[0].spec;
    var begun := Begun(side.sess, answer, spec, now);
    var begin := StartEvent(spec);
    StartCases(side.sess, answer, outcome, now, detail);
    LaunchKeeps(begun, spec, outcome);
    OneReportOk(side.pipeline, StartedIds(log) + {spec.id}, begin);
    assert StartedIds([begin]) == (if spec.kind.SyncOutput? then {} else {spec.id}) by {
      assert begin in [begin];
    }
    if !LaunchSucceeds(begun, spec, outcome) {
      FailStartEnv(side, done, log, answer, Launch(begun, spec, outcome), now, detail, StartedIds(log) + {spec.id});
    }
  }
}
