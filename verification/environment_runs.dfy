/** The environment stack over whole runs: every ENV_EXIT passes the innermost check. */
module EnvironmentRuns {
  import opened Actions
  import opened Lifecycle
  import opened QueueModel
  import opened SessionModel
  import opened SchedulerModel
  import opened Protocol
  import opened ProtocolShared
  import opened ProtocolSides
  import opened ProtocolStart
  import opened ProtocolCallback
  import opened ProtocolAssign
  import opened ProtocolCleanup
  import opened ProtocolSteps
  import opened ProtocolTheorems
  import opened EnvironmentStack

  // ----- a step of one session, seen from all sessions

  lemma TellsStartedFrame(m: map<ActionId, Status>, m': map<ActionId, Status>, specs: seq<ActionSpec>,
          started: set<ActionId>, started': set<ActionId>)
    requires TellsStarted(m, specs, started)
    requires forall a | a in specs :: Lookup(m', a.id) == Lookup(m, a.id) && (a.id in started' <==> a.id in started)
    ensures TellsStarted(m', specs, started')
  {
    forall a | a in specs && a.kind.EnvEnter? && a.id in m'
      ensures m'[a.id].completed == Some(NEVER_ATTEMPTED) <==> a.id !in started'
    {
      assert Lookup(m', a.id) == Lookup(m, a.id);
    }
  }

  lemma ExitsOkFrame(specs: seq<ActionSpec>, started: set<ActionId>, done: set<ActionId>,
          started': set<ActionId>, done': set<ActionId>)
    requires ExitsOk(specs, started, done)
    requires forall a | a in specs :: (a.id in started' <==> a.id in started) && (a.id in done' <==> a.id in done)
    ensures ExitsOk(specs, started', done')
  {
    forall j | 0 <= j < |specs| && specs[j].kind.EnvExit? ensures ExitsInnermost(specs, j, started', started' + done') {
      assert ExitsInnermost(specs, j, started, started + done);
      forall i | 0 <= i < j && specs[i].kind.EnvEnter? ensures specs[i].id in started' + done' {
        assert specs[i] in specs;
      }
      forall a | a in specs[..j] ensures a in specs {}
      EnvStackAgree(specs[..j], started, IdsOf(specs), started', IdsOf(specs));
    }
  }

  lemma EnvSideFrame(side: Side, done: set<ActionId>, started: set<ActionId>, view: map<ActionId, Status>,
          updates: map<ActionId, Status>, sent: map<ActionId, Status>, done': set<ActionId>,
          started': set<ActionId>, updates': map<ActionId, Status>)
    requires EnvSide(side, done, started, view, updates, sent)
    requires forall a | a in side.pipeline ::
               && (a.id in done' <==> a.id in done) && (a.id in started' <==> a.id in started)
               && Lookup(updates', a.id) == Lookup(updates, a.id)
    ensures EnvSide(side, done', started', view, updates', sent)
  {
    var specs := side.pipeline;
    EnvStackAgree(specs, started, started, started', started');
    forall i | 0 <= i < |specs|
      ensures (specs[i].id in done' <==> specs[i].id in done) && (specs[i].id in started' <==> specs[i].id in started)
    {
      assert specs[i] in specs;
    }
    if !side.thread.Ended? {
      ExitsOkFrame(specs, started, done, started', done');
      TellsStartedFrame(view, view, specs, started, started');
      TellsStartedFrame(updates, updates', specs, started, started');
      TellsStartedFrame(sent, sent, specs, started, started');
    }
  }

  lemma EnvOtherSide(other: Side, pipeline: seq<ActionSpec>, events: seq<Event>, done: set<ActionId>,
          started: set<ActionId>, view: map<ActionId, Status>, updates: map<ActionId, Status>,
          sent: map<ActionId, Status>)
    requires EnvSide(other, done, started, view, updates, sent) && SharesNoId(other.pipeline, pipeline)
    requires forall e | e in events :: HasId(pipeline, e.Subject())
    ensures EnvSide(other, done + CompletedIds(events), started + StartedIds(events), view, Absorb(updates, events), sent)
  {
    forall a | a in other.pipeline
      ensures a.id !in CompletedIds(events) && a.id !in StartedIds(events)
      ensures Lookup(Absorb(updates, events), a.id) == Lookup(updates, a.id)
    {
      forall e | e in events ensures e.Subject() != a.id {
        var i :| 0 <= i < |other.pipeline| && other.pipeline[i] == a;
        var j :| 0 <= j < |pipeline| && pipeline[j].id == e.Subject();
        assert other.pipeline[i].id != pipeline[j].id;
      }
      AbsorbUntouched(updates, events, a.id);
    }
    EnvSideFrame(other, done, started, view, updates, sent,
                 done + CompletedIds(events), started + StartedIds(events), Absorb(updates, events));
  }

  lemma UnbrokenBetween(log: seq<Event>, events: seq<Event>)
    requires Unbroken(log + events)
    ensures StaysUnbroken(log, events)
  {
    forall id ensures !TrackFrom(TrackOf(log, id), events, id).phase.Broken? {
      assert !PhaseOf(log + events, id).Broken?;
      TrackAppend(log, events, id);
    }
  }

  lemma PostGrows(s: State, sid: SessionId, side: Side, events: seq<Event>, clock: Time)
    requires Inv(s) && Inv(Post(s.(clock := clock), sid, side, events))
    ensures var s' := Post(s.(clock := clock), sid, side, events);
            && DoneIds(s') == DoneIds(s) + CompletedIds(events)
            && StartedIds(s'.log) == StartedIds(s.log) + StartedIds(events)
  {
    var s' := Post(s.(clock := clock), sid, side, events);
    assert Unbroken(s'.log);
    UnbrokenBetween(s.log, events);
    DoneIdsGrow(s, s', events);
    StartedIdsAppend(s.log, events);
  }

  lemma EnvPost(s: State, sid: SessionId, side: Side, events: seq<Event>, clock: Time)
    requires Inv(s) && EnvInv(s) && sid in s.sides && side.pipeline == s.sides[sid].pipeline
    requires Inv(Post(s.(clock := clock), sid, side, events))
    requires forall e | e in events :: HasId(side.pipeline, e.Subject())
    requires EnvSide(side, DoneIds(s) + CompletedIds(events), StartedIds(s.log) + StartedIds(events),
                     s.view, Absorb(s.updates, events), SentOf(s.link))
    ensures EnvInv(Post(s.(clock := clock), sid, side, events))
  {
    hide EnvSide, ReportsOk, LinkOk, SideInv;
    var s' := Post(s.(clock := clock), sid, side, events);
    var done, started := DoneIds(s), StartedIds(s.log);
    PostGrows(s, sid, side, events, clock);
    forall one | one in s.sides && one != sid
      ensures EnvSide(s'.sides[one], done + CompletedIds(events), started + StartedIds(events),
                      s.view, Absorb(s.updates, events), SentOf(s.link))
    {
      EnvOtherSide(s.sides[one], side.pipeline, events, done, started, s.view, s.updates, SentOf(s.link));
    }
  }

  // ----- the steps of the sessions

  lemma PartsReady(s: State, sid: SessionId)
    requires Inv(s) && EnvInv(s) && sid in s.sides
    ensures Ready(s.sides[sid], DoneIds(s), s.log)
    ensures EnvSide(s.sides[sid], DoneIds(s), StartedIds(s.log), s.view, s.updates, SentOf(s.link))
  {
    InvParts(s, sid);
  }

  /** A step that starts nothing and leaves the environments alone. */
  lemma EnvQuietStep(s: State, sid: SessionId, side: Side, events: seq<Event>, clock: Time)
    requires Inv(s) && EnvInv(s) && sid in s.sides && side.pipeline == s.sides[sid].pipeline
    requires side.sess.envs == s.sides[sid].sess.envs && StartedIds(events) == {}
    requires s.sides[sid].thread.Ended? ==> side.thread.Ended?
    requires Inv(Post(s.(clock := clock), sid, side, events))
    requires forall e | e in events :: HasId(side.pipeline, e.Subject())
    requires side.thread.Ended? || EnvEventsOk(side.pipeline, StartedIds(s.log), events)
    ensures EnvInv(Post(s.(clock := clock), sid, side, events))
  {
    hide Inv, EnvSide, DoneIds, Post, Absorb, StartedIds;
    var started := StartedIds(s.log);
    assert EnvSide(s.sides[sid], DoneIds(s), started, s.view, s.updates, SentOf(s.link));
    hide EnvInv;
    EnvSideQuiet(s.sides[sid], side, DoneIds(s), started, s.view, s.updates, SentOf(s.link), events);
    assert started + StartedIds(events) == started;
    EnvPost(s, sid, side, events, clock);
  }

  lemma EnvCallbackStep(s: State, step: Step)
    requires Inv(s) && EnvInv(s) && Enabled(s, step) && step.Callback? && Inv(Next(s, step))
    ensures EnvInv(Next(s, step))
  {
    hide Inv, EnvInv, SideInv, ActionUpdated, EnvSide, Enabled, Next, Post, DoneIds, StartedIds;
    NextCallback(s, step);
    PartsReady(s, step.sid);
    var side := s.sides[step.sid];
    var e := ActionUpdated(side.sess, step.state, step.now, step.detail);
    CallbackEnv(side, DoneIds(s), s.log, step.state, step.now, step.detail);
    CallbackKeeps(side, DoneIds(s), s.log, step.state, step.now, step.detail);
    EnvQuietStep(s, step.sid, AfterCallback(side, step.state, e), e.events,
                 if step.state.RUNNING? then step.now else s.clock);
  }

  lemma EnvCleanupStep(s: State, step: Step)
    requires Inv(s) && EnvInv(s) && Enabled(s, step) && Inv(Next(s, step))
    requires step.CleanupInterrupt? || step.CleanupReport?
    ensures EnvInv(Next(s, step))
  {
    hide Inv, EnvInv, SideInv, EnvSide, Enabled, Next, Post, DoneIds, StartedIds, Interrupt, CancelReport, Unbroken, Coupled;
    if step.CleanupInterrupt? {
      NextInterrupt(s, step);
      PartsReady(s, step.sid);
      var side, e := s.sides[step.sid], Interrupt(s.sides[step.sid].sess, step.now);
      InterruptKeeps(side, DoneIds(s), s.log, step.now);
      InterruptEnv(side, DoneIds(s), s.log, step.now);
      EnvQuietStep(s, step.sid, side.(sess := e.sess, thread := Stopping), e.events, s.clock);
    } else {
      NextReport(s, step);
      PartsReady(s, step.sid);
      var side := s.sides[step.sid];
      ReportKeeps(side, DoneIds(s), s.log);
      CancelReportEnv(side, DoneIds(s), s.log);
      EnvQuietStep(s, step.sid, side.(thread := Cancelling(side.thread.ids, Between)), [CancelReport(side)], s.clock);
    }
  }

  lemma EnvSilentStep(s: State, step: Step)
    requires Inv(s) && EnvInv(s) && Enabled(s, step) && Inv(Next(s, step))
    requires Silent(step)
    ensures EnvInv(Next(s, step))
  {
    hide Inv, EnvInv, Enabled, Next, EnvSide, Post, Moved;
    NextSilent(s, step);
    assert StartedIds([]) == {};
    EnvQuietStep(s, step.sid, Moved(s, step), [], s.clock);
  }

  lemma EnvGiveBackStep(s: State, step: Step)
    requires Inv(s) && EnvInv(s) && Enabled(s, step) && step.GiveBack? && Inv(Next(s, step))
    ensures EnvInv(Next(s, step))
  {
    hide Inv, SideInv, EnvInv, Enabled, Next, Post, DoneIds, ReturnEvents;
    NextGiveBack(s, step);
    InvParts(s, step.sid);
    var side, listed := s.sides[step.sid], s.link.response[step.sid];
    ListedAreLeft(s, step.sid);
    GiveBackTracks(side, DoneIds(s), s.log, s.updates, listed, step.now, step.detail);
    EnvQuietStep(s, step.sid, side, ReturnEvents(s.updates, listed, true, step.now, step.detail), s.clock);
  }

  /** Nothing was told about an action that is still queued. */
  lemma QueuedIsUntold(s: State, id: ActionId)
    requires Inv(s) && PhaseOf(s.log, id).Queued?
    ensures id !in s.view && id !in s.updates && id !in SentOf(s.link) && id !in StartedIds(s.log)
  {
    QueuedIsFresh(s.log, id);
    assert Lookup(Overlay(s), id) == TrackOf(s.log, id).latest;
    assert !PhaseOf(s.log, id).Broken?;
    StartedByPhase(s.log, id);
  }

  lemma LaunchEnvs(s: Sess, spec: ActionSpec, outcome: StartOutcome)
    requires IsEnvAction(spec) ==> outcome.Begins?
    requires spec.kind.EnvExit? ==> Innermost(s.envs, spec.env)
    ensures Launch(s, spec, outcome).envs
            == if spec.kind.EnvEnter? then s.envs + [spec.env]
               else if spec.kind.EnvExit? then s.envs[..|s.envs| - 1]
               else s.envs
  {
  }

  /** What the service and the scheduler hold about the session's actions. */
  datatype Told = Told(view: map<ActionId, Status>, updates: map<ActionId, Status>, sent: map<ActionId, Status>)

  predicate HeadGoesNext(q: Queue, answer: Answer, outcome: StartOutcome) {
    && q.actions != [] && DequeueOutcome(q, answer).NextAction?
    && (IsEnvAction(q.actions[0].spec) ==> outcome.Begins?)
  }

  ghost predicate Launching(side: Side, done: set<ActionId>, log: seq<Event>, told: Told) {
    && Ready(side, done, log) && Resting(side, done, log)
    && EnvSide(side, done, StartedIds(log), told.view, told.updates, told.sent)
  }

  lemma AfterStartShape(side: Side, e: Effect, detail: int)
    ensures var r := AfterStart(side, e, detail);
            r.pipeline == side.pipeline && r.thread == side.thread && r.sess.envs == e.sess.envs
  {
  }

  /** The environments after the head was launched. */
  lemma StartedEnvs(side: Side, done: set<ActionId>, log: seq<Event>, told: Told, answer: Answer,
          outcome: StartOutcome, now: Time, detail: int)
    requires HeadGoesNext(side.sess.queue, answer, outcome) && Launching(side, done, log, told)
    ensures var spec, envs := side.sess.queue.actions[0].spec, side.sess.envs;
            && StartAction(side.sess, answer, outcome, now, detail).sess.envs
               == (if spec.kind.EnvEnter? then envs + [spec.env]
                   else if spec.kind.EnvExit? && envs != [] then envs[..|envs| - 1]
                   else envs)
  {
    hide Ready, EnvSide, Resting, EnvEventsOk, StartAction, Launch, Launching;
    var spec := side.sess.queue.actions[0].spec;
    LaunchingParts(side, done, log, told);
    StartEnvEvents(side, done, log, answer, outcome, now, detail);
    if spec.kind.EnvExit? {
      ExitIsInnermost(side, done, log, told.view, told.updates, told.sent);
    }
    LaunchEnvs(Begun(side.sess, answer, spec, now), spec, outcome);
  }

  lemma LaunchingParts(side: Side, done: set<ActionId>, log: seq<Event>, told: Told)
    requires Launching(side, done, log, told)
    ensures Ready(side, done, log) && Resting(side, done, log) && side.thread.Looping? && DistinctIds(side.pipeline)
    ensures EnvSide(side, done, StartedIds(log), told.view, told.updates, told.sent)
  {
  }

  /** The upload of a finished task starts. */
  lemma EnvStartUpload(side: Side, done: set<ActionId>, log: seq<Event>, told: Told, answer: Answer,
          outcome: StartOutcome, now: Time, detail: int)
    requires HeadGoesNext(side.sess.queue, answer, outcome) && Launching(side, done, log, told)
    requires side.sess.target.Some?
    ensures var e := StartAction(side.sess, answer, outcome, now, detail);
            EnvSide(AfterStart(side, e, detail), done + CompletedIds(e.events), StartedIds(log) + StartedIds(e.events),
                    told.view, Absorb(told.updates, e.events), told.sent)
  {
    hide SideInv, EnvSide, StartAction, Coherent, InFront, QueueOk, CurrentOk, TargetOk, PhasesOk, Coupled;
    var spec, e, started := side.sess.queue.actions[0].spec, StartAction(side.sess, answer, outcome, now, detail), StartedIds(log);
    LaunchingParts(side, done, log, told);
    HeadFacts(side, done, log);
    UploadIsStarted(side, done, log);
    StartedEnvs(side, done, log, told, answer, outcome, now, detail);
    StartEnvEvents(side, done, log, answer, outcome, now, detail);
    AfterStartShape(side, e, detail);
    assert spec.kind.SyncOutput?;
    hide *;
    assert started + {spec.id} == started;
    assert started + StartedIds(e.events) == started;
    EnvSideQuiet(side, AfterStart(side, e, detail), done, started, told.view, told.updates, told.sent, e.events);
  }

  /** An action of the pipeline starts, about which nothing was told yet. */
  lemma EnvStartPlain(side: Side, done: set<ActionId>, log: seq<Event>, told: Told, answer: Answer,
          outcome: StartOutcome, now: Time, detail: int)
    requires HeadGoesNext(side.sess.queue, answer, outcome) && Launching(side, done, log, told)
    requires side.sess.target.None?
    requires var id := side.sess.queue.actions[0].spec.id;
             id !in told.view && id !in told.updates && id !in told.sent && id !in StartedIds(log)
    ensures var e := StartAction(side.sess, answer, outcome, now, detail);
            EnvSide(AfterStart(side, e, detail), done + CompletedIds(e.events), StartedIds(log) + StartedIds(e.events),
                    told.view, Absorb(told.updates, e.events), told.sent)
  {
    var spec, e, started := side.sess.queue.actions[0].spec, StartAction(side.sess, answer, outcome, now, detail), StartedIds(log);
    LaunchingParts(side, done, log, told);
    HeadFacts(side, done, log);
    var j := HeadPosition(side, done, log);
    StartedEnvs(side, done, log, told, answer, outcome, now, detail);
    StartEnvEvents(side, done, log, answer, outcome, now, detail);
    AfterStartShape(side, e, detail);
    assert !spec.kind.SyncOutput?;
    hide *;
    EnvSideStart(side, AfterStart(side, e, detail), done, started, told.view, told.updates, told.sent, j, e.events);
  }

  lemma UploadIsStarted(side: Side, done: set<ActionId>, log: seq<Event>)
    requires Ready(side, done, log) && Resting(side, done, log)
    requires side.sess.queue.actions != [] && side.sess.target.Some?
    ensures side.sess.queue.actions[0].spec.id in StartedIds(log)
  {
    HeadFacts(side, done, log);
    var id := side.sess.queue.actions[0].spec.id;
    assert !PhaseOf(log, id).Broken?;
    StartedByPhase(log, id);
  }

  lemma EnvStartSide(s: State, step: Step)
    requires step.Start? && Enabled(s, step) && Inv(s) && EnvInv(s) && EnvAllowed(s, step)
    requires DequeueOutcome(s.sides[step.sid].sess.queue, step.answer).NextAction?
    ensures var side := s.sides[step.sid];
            var e := StartAction(side.sess, step.answer, step.outcome, step.now, step.detail);
            EnvSide(AfterStart(side, e, step.detail), DoneIds(s) + CompletedIds(e.events), StartedIds(s.log) + StartedIds(e.events),
                    s.view, Absorb(s.updates, e.events), SentOf(s.link))
  {
    hide SideInv, EnvSide, StartAction, Coherent, InFront, QueueOk, CurrentOk, TargetOk, PhasesOk, Coupled;
    var side, done := s.sides[step.sid], DoneIds(s);
    var told := Told(s.view, s.updates, SentOf(s.link));
    PartsReady(s, step.sid);
    HeadFacts(side, done, s.log);
    assert Launching(side, done, s.log, told);
    assert HeadGoesNext(side.sess.queue, step.answer, step.outcome);
    if side.sess.target.Some? {
      hide *;
      EnvStartUpload(side, done, s.log, told, step.answer, step.outcome, step.now, step.detail);
    } else {
      QueuedIsUntold(s, side.sess.queue.actions[0].spec.id);
      hide *;
      EnvStartPlain(side, done, s.log, told, step.answer, step.outcome, step.now, step.detail);
    }
  }

  lemma EnvStartStep(s: State, step: Step)
    requires step.Start? && Enabled(s, step) && Inv(s) && EnvInv(s) && Clean(s, step) && EnvAllowed(s, step)
    requires Inv(Next(s, step))
    ensures EnvInv(Next(s, step))
  {
    hide Inv, EnvInv, SideInv, EnvSide, Enabled, Next, Post, StartAction, StaysUnbroken, Coupled, Unbroken, DequeueOutcome, DoneIds,
      StartedIds, EnvAllowed;
    NextStart(s, step);
    PartsReady(s, step.sid);
    var side, done := s.sides[step.sid], DoneIds(s);
    var e := StartAction(side.sess, step.answer, step.outcome, step.now, step.detail);
    StartKeeps(side, done, s.log, step.answer, step.outcome, step.now, step.detail);
    if DequeueOutcome(side.sess.queue, step.answer).NextAction? {
      EnvStartSide(s, step);
      EnvPost(s, step.sid, AfterStart(side, e, step.detail), e.events, s.clock);
    } else {
      StartIdles(side, done, s.log, step.answer, step.outcome, step.now, step.detail);
      NothingStarted();
      IdleLeavesEnvs(side, step.answer, step.outcome, step.now, step.detail);
      EnvQuietStep(s, step.sid, AfterStart(side, e, step.detail), e.events, s.clock);
    }
  }

  lemma IdleLeavesEnvs(side: Side, answer: Answer, outcome: StartOutcome, now: Time, detail: int)
    requires DequeueOutcome(side.sess.queue, answer).Nothing? || DequeueOutcome(side.sess.queue, answer).Crash?
    ensures var side' := AfterStart(side, StartAction(side.sess, answer, outcome, now, detail), detail);
            side'.sess.envs == side.sess.envs && side'.thread == side.thread
  {
  }

  lemma NothingStarted()
    ensures StartedIds([]) == {}
  {
  }

  // ----- the service appends

  /** What the service goes by agrees with what happened, for the ENV_ENTERs it knows of. */
  lemma AppendedExits(side: Side, more: seq<ActionSpec>, done: set<ActionId>, started: set<ActionId>,
          told: map<ActionId, Status>, j: nat)
    requires |side.pipeline| <= j < |side.pipeline| + |more| && (side.pipeline + more)[j].kind.EnvExit?
    requires IssuesExits(side.pipeline, more, told)
    requires TellsStarted(told, side.pipeline, started)
    requires forall a | a in more :: a.id !in told
    requires forall id | id in told && told[id].completed == Some(NEVER_ATTEMPTED) :: id in done
    ensures ExitsInnermost(side.pipeline + more, j, started, started + done)
  {
    var specs := side.pipeline + more;
    assert ExitsInnermost(specs, j, Attempted(told), told.Keys);
    forall i | 0 <= i < j && specs[i].kind.EnvEnter?
      ensures specs[i] in side.pipeline
      ensures specs[i].id in started + done
      ensures specs[i].id in started <==> specs[i].id in Attempted(told)
    {
      assert specs[i].id in told;
      InEither(side.pipeline, more, i);
    }
    forall a | a in specs[..j] && a.kind.EnvEnter? ensures a.id in started <==> a.id in Attempted(told) {
      var i :| 0 <= i < j && specs[i] == a;
    }
    EnvStackAgree(specs[..j], Attempted(told), IdsOf(specs), started, IdsOf(specs));
  }

  lemma InEither(a: seq<ActionSpec>, b: seq<ActionSpec>, i: nat)
    requires i < |a + b|
    ensures if i < |a| then (a + b)[i] == a[i] && a[i] in a else (a + b)[i] in b
  {
  }

  lemma OldExits(pipeline: seq<ActionSpec>, more: seq<ActionSpec>, started: set<ActionId>, done: set<ActionId>, j: nat)
    requires ExitsOk(pipeline, started, done) && j < |pipeline| && pipeline[j].kind.EnvExit?
    ensures ExitsInnermost(pipeline + more, j, started, started + done)
  {
    var specs := pipeline + more;
    assert ExitsInnermost(pipeline, j, started, started + done);
    assert specs[..j] == pipeline[..j];
    forall a | a in specs[..j] ensures a.id in IdsOf(specs) <==> a.id in IdsOf(pipeline) {
      assert a in pipeline && a in specs;
    }
    EnvStackAgree(specs[..j], started, IdsOf(pipeline), started, IdsOf(specs));
  }

  lemma TellsStartedMerge(one: map<ActionId, Status>, two: map<ActionId, Status>, specs: seq<ActionSpec>,
          started: set<ActionId>)
    requires TellsStarted(one, specs, started) && TellsStarted(two, specs, started)
    ensures TellsStarted(one + two, specs, started)
  {
  }

  lemma TellsStartedExtend(m: map<ActionId, Status>, specs: seq<ActionSpec>, more: seq<ActionSpec>,
          started: set<ActionId>)
    requires TellsStarted(m, specs, started) && forall a | a in more :: a.id !in m
    ensures TellsStarted(m, specs + more, started)
  {
  }

  ghost predicate NothingKnown(more: seq<ActionSpec>, done: set<ActionId>, started: set<ActionId>,
          view: map<ActionId, Status>, updates: map<ActionId, Status>, sent: map<ActionId, Status>) {
    forall a | a in more ::
      a.id !in done && a.id !in started && a.id !in view && a.id !in updates && a.id !in sent
  }

  lemma EnvExtendSide(side: Side, more: seq<ActionSpec>, done: set<ActionId>, started: set<ActionId>,
          view: map<ActionId, Status>, updates: map<ActionId, Status>, sent: map<ActionId, Status>)
    requires EnvSide(side, done, started, view, updates, sent)
    requires NothingKnown(more, done, started, view, updates, sent)
    requires side.thread.Ended? || IssuesExits(side.pipeline, more, view + sent)
    requires forall id | id in view + sent && (view + sent)[id].completed == Some(NEVER_ATTEMPTED) :: id in done
    ensures EnvSide(side.(pipeline := side.pipeline + more), done, started, view + sent, updates, map[])
  {
    var specs := side.pipeline + more;
    EnvStackAppend(side.pipeline, more, started, started);
    forall i, k | 0 <= i < k < |specs| && specs[k].id in started ensures specs[i].id in done {
      InEither(side.pipeline, more, k);
    }
    if !side.thread.Ended? {
      TellsStartedMerge(view, sent, side.pipeline, started);
      TellsStartedExtend(view + sent, side.pipeline, more, started);
      TellsStartedExtend(updates, side.pipeline, more, started);
      forall j | 0 <= j < |specs| && specs[j].kind.EnvExit? ensures ExitsInnermost(specs, j, started, started + done) {
        if j < |side.pipeline| {
          OldExits(side.pipeline, more, started, done, j);
        } else {
          AppendedExits(side, more, done, started, view + sent, j);
        }
      }
    }
  }

  lemma FreshIsUnknown(s: State, id: ActionId)
    requires Inv(s) && TrackOf(s.log, id) == Fresh
    ensures id !in DoneIds(s) && id !in StartedIds(s.log) && id !in s.view && id !in s.updates && id !in SentOf(s.link)
  {
    QueuedIsUntold(s, id);
    assert id !in Overlay(s);
  }

  lemma EnvExtend(s: State, more: map<SessionId, seq<ActionSpec>>)
    requires Inv(s) && EnvInv(s) && s.link.InFlight? && ServiceAppends(s.sides, more) && ServiceIssuesExits(s, more)
    ensures forall sid | sid in s.sides ::
              EnvSide(Extend(s.sides, more)[sid], DoneIds(s), StartedIds(s.log), s.view + s.link.sent, s.updates, map[])
  {
    var told, done, started := s.view + s.link.sent, DoneIds(s), StartedIds(s.log);
    SendingKeepsOverlay(s);
    forall sid | sid in s.sides
      ensures EnvSide(Extend(s.sides, more)[sid], done, started, told, s.updates, map[])
    {
      forall a | a in more[sid]
        ensures a.id !in done && a.id !in started && a.id !in s.view && a.id !in s.updates && a.id !in s.link.sent
      {
        var j :| 0 <= j < |more[sid]| && more[sid][j] == a;
        AppendedIsFresh(s, more, sid, j);
        FreshIsUnknown(s, a.id);
      }
      EnvExtendSide(s.sides[sid], more[sid], done, started, s.view, s.updates, s.link.sent);
    }
  }

  lemma EnvServiceStep(s: State, step: Step)
    requires Inv(s) && EnvInv(s) && Enabled(s, step) && EnvAllowed(s, step) && (step.Serve? || step.LoseReply?)
    ensures EnvInv(Next(s, step))
  {
    hide Inv, EnvSide, Extend, Enabled, Next, DoneIds, ServiceAppends, ServiceIssuesExits;
    ServiceMoves(s, step);
    EnvExtend(s, step.more);
  }

  lemma ServiceMoves(s: State, step: Step)
    requires Inv(s) && Enabled(s, step) && (step.Serve? || step.LoseReply?)
    ensures s.link.InFlight? && ServiceAppends(s.sides, step.more)
    ensures var r := Next(s, step);
            && r.sides == Extend(s.sides, step.more) && r.sides.Keys == s.sides.Keys
            && r.log == s.log && r.updates == s.updates
            && r.view == s.view + s.link.sent && SentOf(r.link) == map[] && DoneIds(r) == DoneIds(s)
  {
    hide SideInv, TransactionOk, ServiceAppends, Torn, Respond;
    SendingKeepsOverlay(s);
    assert Overlay(Next(s, step)) == Overlay(s);
  }

  lemma EnvSchedulerStep(s: State, step: Step)
    requires Inv(s) && EnvInv(s) && Enabled(s, step) && (step.Collect? || step.LoseRequest? || step.CommitSent?)
    ensures EnvInv(Next(s, step))
  {
    hide Inv, Enabled, Next, EnvSide, DoneIds;
    SchedulerMoves(s, step);
    var r := Next(s, step);
    forall sid | sid in r.sides
      ensures EnvSide(r.sides[sid], DoneIds(r), StartedIds(r.log), r.view, r.updates, SentOf(r.link))
    {
      EnvSideLink(s.sides[sid], DoneIds(s), StartedIds(s.log), s.view, s.updates, SentOf(s.link), r.updates, SentOf(r.link));
    }
  }

  lemma SchedulerMoves(s: State, step: Step)
    requires Inv(s) && Enabled(s, step) && (step.Collect? || step.LoseRequest? || step.CommitSent?)
    ensures var r := Next(s, step);
            && r.sides == s.sides && r.log == s.log && r.view == s.view && DoneIds(r) == DoneIds(s)
            && r.updates.Keys <= s.updates.Keys && (forall id | id in r.updates :: r.updates[id] == s.updates[id])
            && (SentOf(r.link) == map[] || SentOf(r.link) == s.updates)
  {
    hide SideInv, TransactionOk, Transaction, ServiceAppends, Torn;
    assert Overlay(Next(s, step)) == Overlay(s);
  }

  /** Sending updates and forgetting some of them adds nothing that could tell otherwise. */
  lemma EnvSideLink(side: Side, done: set<ActionId>, started: set<ActionId>, view: map<ActionId, Status>,
          updates: map<ActionId, Status>, sent: map<ActionId, Status>, updates': map<ActionId, Status>,
          sent': map<ActionId, Status>)
    requires EnvSide(side, done, started, view, updates, sent)
    requires updates'.Keys <= updates.Keys && forall id | id in updates' :: updates'[id] == updates[id]
    requires sent' == map[] || sent' == updates
    ensures EnvSide(side, done, started, view, updates', sent')
  {
    hide ExitsOk, StartedInOrder;
  }

  // ----- runs

  lemma EnvStepKeeps(s: State, step: Step)
    requires Enabled(s, step) && Inv(s) && EnvInv(s) && Clean(s, step) && EnvAllowed(s, step)
    ensures Inv(Next(s, step)) && EnvInv(Next(s, step))
  {
    hide Inv, EnvInv, Enabled, Clean, EnvAllowed;
    StepKeeps(s, step);
    match step {
      case Collect => EnvSchedulerStep(s, step);
      case LoseRequest => EnvSchedulerStep(s, step);
      case CommitSent => EnvSchedulerStep(s, step);
      case Serve(_) => EnvServiceStep(s, step);
      case LoseReply(_) => EnvServiceStep(s, step);
      case Start(_, _, _, _, _) => EnvStartStep(s, step);
      case Callback(_, _, _, _) => EnvCallbackStep(s, step);
      case GiveBack(_, _, _) => EnvGiveBackStep(s, step);
      case CleanupInterrupt(_, _) => EnvCleanupStep(s, step);
      case CleanupReport(_) => EnvCleanupStep(s, step);
      case _ => EnvSilentStep(s, step);
    }
  }

  lemma EnvInitHolds(s: State)
    requires Init(s)
    ensures EnvInv(s)
  {
    forall sid | sid in s.sides
      ensures EnvSide(s.sides[sid], DoneIds(s), StartedIds(s.log), s.view, s.updates, SentOf(s.link))
    {
      var assetSync :| s.sides[sid] == Side([], 0, NewSession(assetSync), Looping, None);
    }
  }

  lemma {:induction false} EnvRunKeeps(s: State, steps: seq<Step>)
    requires Inv(s) && EnvInv(s) && EnvLegal(s, steps) && Legal(s, steps)
    ensures Inv(Exec(s, steps)) && EnvInv(Exec(s, steps))
    decreases steps
  {
    if steps != [] {
      EnvStepKeeps(s, steps[0]);
      EnvRunKeeps(Next(s, steps[0]), steps[1..]);
    }
  }

  lemma EnvReachable(s: State, steps: seq<Step>)
    requires Init(s) && EnvLegal(s, steps)
    ensures Legal(s, steps) && Inv(Exec(s, steps)) && EnvInv(Exec(s, steps))
  {
    EnvLegalIsLegal(s, steps);
    InitHolds(s);
    EnvInitHolds(s);
    EnvRunKeeps(s, steps);
  }

  /** The active environments are those whose ENV_ENTER was started and whose ENV_EXIT was not, in
      the order of the pipeline. */
  lemma ActiveEnvironmentsAreTheEntered(s: State, steps: seq<Step>, sid: SessionId)
    requires Init(s) && EnvLegal(s, steps)
    ensures Legal(s, steps)
    ensures sid in Exec(s, steps).sides ==>
              var r := Exec(s, steps);
              r.sides[sid].sess.envs == EnvStack(r.sides[sid].pipeline, StartedIds(r.log), StartedIds(r.log))
  {
    EnvReachable(s, steps);
  }

  /** Every ENV_EXIT that a session comes to start passes the innermost check. */
  lemma EveryExitPasses(s: State, steps: seq<Step>, sid: SessionId)
    requires Init(s) && EnvLegal(s, steps) && Legal(s, steps) && sid in Exec(s, steps).sides
    requires var side := Exec(s, steps).sides[sid];
             && side.thread.Looping? && side.sess.current.None?
             && side.sess.queue.actions != [] && side.sess.queue.actions[0].spec.kind.EnvExit?
    ensures var sess := Exec(s, steps).sides[sid].sess;
            Innermost(sess.envs, sess.queue.actions[0].spec.env)
  {
    EnvReachable(s, steps);
    var r := Exec(s, steps);
    PartsReady(r, sid);
    hide Inv, EnvInv, LinkOk, ReportsOk;
    ExitIsInnermost(r.sides[sid], DoneIds(r), r.log, r.view, r.updates, SentOf(r.link));
  }

  // ----- exactly when the stack is kept

  /** Starting an environment action that the runtime refuses leaves the environments as they were,
      although the action counts as attempted from then on. */
  lemma RefusedStack(side: Side, done: set<ActionId>, log: seq<Event>, told: Told, answer: Answer,
          outcome: StartOutcome, now: Time, detail: int)
    requires Launching(side, done, log, told) && DequeueOutcome(side.sess.queue, answer).NextAction?
    requires side.sess.queue.actions != [] && IsEnvAction(side.sess.queue.actions[0].spec) && outcome.Raises?
    ensures var e := StartAction(side.sess, answer, outcome, now, detail);
            var started := StartedIds(log) + StartedIds(e.events);
            e.sess.envs != EnvStack(side.pipeline, started, started)
  {
    var spec, started := side.sess.queue.actions[0].spec, StartedIds(log);
    LaunchingParts(side, done, log, told);
    var j := HeadPosition(side, done, log);
    HeadFacts(side, done, log);
    assert !PhaseOf(log, side.pipeline[j].id).Broken?;
    StartedByPhase(log, side.pipeline[j].id);
    StackAfterHead(side.pipeline, j, started, done);
    StartEnvEvents(side, done, log, answer, outcome, now, detail);
    if spec.kind.EnvExit? {
      ExitIsInnermost(side, done, log, told.view, told.updates, told.sent);
    }
    RefusedLaunch(Begun(side.sess, answer, spec, now), spec, outcome);
  }

  lemma RefusedLaunch(s: Sess, spec: ActionSpec, outcome: StartOutcome)
    requires IsEnvAction(spec) && outcome.Raises?
    ensures Launch(s, spec, outcome).envs == s.envs
  {
  }

  /** Starting an action keeps the active environments those that were entered and not exited if and
      only if the runtime does not refuse an environment action. */
  lemma StartKeepsEnvironmentsExactlyWhenAccepted(s: State, step: Step)
    requires Inv(s) && EnvInv(s) && step.Start? && Enabled(s, step) && Clean(s, step)
    ensures EnvInv(Next(s, step)) <==> EnvAllowed(s, step)
    ensures var r := Next(s, step);
            EnvAllowed(s, step)
            <==> r.sides[step.sid].sess.envs
                 == EnvStack(r.sides[step.sid].pipeline, StartedIds(r.log), StartedIds(r.log))
  {
    hide Inv, EnvInv, Enabled, Clean, EnvAllowed, Next, EnvStack, StartedIds;
    if EnvAllowed(s, step) {
      EnvStepKeeps(s, step);
      StartHasSide(s, step);
      StackOf(Next(s, step), step.sid);
    } else {
      RefusedStart(s, step);
      if EnvInv(Next(s, step)) {
        StackOf(Next(s, step), step.sid);
      }
    }
  }

  lemma StartHasSide(s: State, step: Step)
    requires step.Start? && Enabled(s, step)
    ensures step.sid in Next(s, step).sides
  {
  }

  lemma RefusedStart(s: State, step: Step)
    requires Inv(s) && EnvInv(s) && step.Start? && Enabled(s, step) && Clean(s, step) && !EnvAllowed(s, step)
    ensures step.sid in Next(s, step).sides
    ensures var r := Next(s, step);
            r.sides[step.sid].sess.envs != EnvStack(r.sides[step.sid].pipeline, StartedIds(r.log), StartedIds(r.log))
  {
    hide Inv, EnvInv, SideInv, EnvSide, StartAction, EnvStack, StartedIds, Absorb, Coherent;
    var side := s.sides[step.sid];
    var e := StartAction(side.sess, step.answer, step.outcome, step.now, step.detail);
    PartsReady(s, step.sid);
    StartedIdsAppend(s.log, e.events);
    RefusedStack(side, DoneIds(s), s.log, Told(s.view, s.updates, SentOf(s.link)),
                 step.answer, step.outcome, step.now, step.detail);
    StartShape(s, step);
  }

  lemma StackOf(s: State, sid: SessionId)
    requires EnvInv(s) && sid in s.sides
    ensures s.sides[sid].sess.envs == EnvStack(s.sides[sid].pipeline, StartedIds(s.log), StartedIds(s.log))
  {
  }

  lemma StartShape(s: State, step: Step)
    requires step.Start? && Enabled(s, step)
    ensures var e := StartAction(s.sides[step.sid].sess, step.answer, step.outcome, step.now, step.detail);
            && Next(s, step).log == s.log + e.events
            && Next(s, step).sides[step.sid].sess.envs == e.sess.envs
            && Next(s, step).sides[step.sid].pipeline == s.sides[step.sid].pipeline
  {
    hide StartAction, Absorb;
  }

  /** Why the runtime must not refuse environment actions: an ENV_ENTER whose start raises is reported
      as FAILED, its environment never becomes active, and the ENV_EXIT for it, which stays queued,
      fails the innermost check even when the runtime accepts it. */
  lemma RefusedEnterFailsItsExit(env: EnvId, now: Time, detail: int)
    ensures var enter, exit := ActionSpec(1, EnvEnter, env, None), ActionSpec(2, EnvExit, env, None);
            var s := NewSession(false).(queue := Replace(EmptyQueue, [enter, exit]));
            var refused := StartAction(s, Found, Raises(false), now, detail);
            && Coherent(s.queue)
            && refused.events == [Started(1, false), Reported(FailedAt(1, now, detail), false)]
            && Specs(refused.sess.queue.actions) == [exit]
            && StartAction(refused.sess, Found, Begins, now, detail).events
               == [Started(2, false), Reported(FailedAt(2, now, detail), false)]
  {
    var enter, exit := ActionSpec(1, EnvEnter, env, None), ActionSpec(2, EnvExit, env, None);
    var one, two := Entry(0, enter), Entry(1, exit);
    EnterAndExitQueued(enter, exit);
    ExitIsNotCancelled(two);
    assert [one, two][1..] == [two] && [two][1..] == [];
    assert CancelIds([], true) == [];
    hide Replace, CancelAll, CancelIds;
  }

  lemma EnterAndExitQueued(enter: ActionSpec, exit: ActionSpec)
    requires enter.id == 1 && exit.id == 2 && enter.kind.EnvEnter? && exit.kind.EnvExit?
    ensures var one, two := Entry(0, enter), Entry(1, exit);
            Replace(EmptyQueue, [enter, exit]) == Queue([one, two], map[1 := one, 2 := two], 2, {})
  {
    assert [enter, exit][1..] == [exit] && [exit][1..] == [];
    var one, two := Entry(0, enter), Entry(1, exit);
    assert Fill(map[1 := one], 1, [exit]) == Filled([two], map[1 := one, 2 := two], 2, true);
    assert Fill(map[], 0, [enter, exit]) == Filled([one, two], map[1 := one, 2 := two], 2, true);
  }

  lemma ExitIsNotCancelled(exit: Entry)
    requires exit.spec.kind.EnvExit?
    ensures CancelIds([exit], true) == []
    ensures forall q: Queue | q.actions == [exit] :: CancelAll(q, true) == q
    ensures Specs([exit]) == [exit.spec]
  {
    assert [exit][1..] == [] && CancelIds([], true) == [];
    assert IdSet([]) == {};
    assert Drop([exit], {}) == [exit];
  }
}
