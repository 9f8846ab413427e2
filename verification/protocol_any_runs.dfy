/** The results about every run of the protocol, whatever the job entity lookups answer. */
module AnyRuns {
  import opened Actions
  import opened Lifecycle
  import opened QueueModel
  import opened SessionModel
  import opened SchedulerModel
  import opened Protocol
  import opened ProtocolShared
  import opened ProtocolSides
  import opened ProtocolCallback
  import opened ProtocolAssign
  import opened ProtocolSteps
  import opened ProtocolTheorems
  import opened AnySides
  import opened AnySteps
  import opened AnyCallbacks
  import opened AnyMoves
  import opened AnyLog

  /** The statuses of a map were reported. */
  predicate MapOk(m: map<ActionId, Status>, ended: set<ActionId>) {
    forall id | id in m :: m[id].id == id && (m[id].Terminal() ==> id in ended)
  }

  /** What an uncommitted request completed is known to the service. */
  predicate ServedOk(tx: set<UpdateId>, view: map<ActionId, Status>) {
    forall u | u in tx && u.key.ByStatus? :: u.id in view && view[u.id].Terminal()
  }

  ghost predicate AnyLink(s: State) {
    match s.link
    case Idle => true
    case InFlight(tx, sent) => tx == Transaction(sent) && sent.Keys <= s.updates.Keys && MapOk(sent, CompletedIds(s.log))
    case Replied(tx, response) => ServedOk(tx, s.view) && response == Respond(s.sides, s.view)
    case Settled(response) => response == Respond(s.sides, s.view)
  }

  ghost predicate Apart(sides: map<SessionId, Side>) {
    forall one, two | one in sides && two in sides && one != two :: SharesNoId(sides[one].pipeline, sides[two].pipeline)
  }

  ghost predicate AllSides(s: State) {
    forall sid | sid in s.sides :: AnySide(s.sides[sid], MarksOf(s.log), s.updates, s.view)
  }

  ghost predicate AnyInv(s: State) {
    && AllSides(s) && Apart(s.sides) && LogOk(s.sides, s.log) && AnyLink(s)
    && MapOk(s.updates, CompletedIds(s.log)) && MapOk(s.view, CompletedIds(s.log))
  }

  lemma AnyInit(s: State)
    requires Init(s)
    ensures AnyInv(s)
  {
    forall sid | sid in s.sides ensures AnySide(s.sides[sid], MarksOf(s.log), s.updates, s.view) && s.sides[sid].pipeline == [] {
      var assetSync :| s.sides[sid] == Side([], 0, NewSession(assetSync), Looping, None);
      assert Specs(s.sides[sid].sess.queue.actions) == [];
    }
  }

  // ----- what one session does does not touch the others

  ghost predicate SameFor(side: Side, m: Marks, m': Marks) {
    && m.started <= m'.started && m.ended <= m'.ended && m.uploaded <= m'.uploaded
    && forall a | a in side.pipeline ::
         (a.id in m.started <==> a.id in m'.started) && (a.id in m.ended <==> a.id in m'.ended)
  }

  lemma QueueFrame(side: Side, m: Marks, m': Marks)
    requires PipelineOk(side) && LoopQueue(side, m) && SameFor(side, m, m')
    ensures LoopQueue(side, m')
  {
    var gone, gone' := m.ended + CurrentIds(side.sess), m'.ended + CurrentIds(side.sess);
    forall a | a in side.pipeline[..side.known] ensures a.id in gone <==> a.id in gone' {
      assert a in side.pipeline;
    }
    OutstandingAgree(side.pipeline[..side.known], gone, gone');
    assert Listed(side, m'.ended) == Listed(side, m.ended);
    assert m.ended + m'.ended == m'.ended;
    MoreEnded(side.sess.queue, m.ended, m'.ended);
    hide KeysOk, Listed;
    if StaleHead(side, m) {
      InFrontGrows(side, side, side.sess.queue.actions[0].spec.id, m.ended, m'.ended);
    }
  }

  lemma LoopsFrame(side: Side, m: Marks, m': Marks)
    requires PipelineOk(side) && Loops(side, m) && SameFor(side, m, m')
    ensures Loops(side, m')
  {
    QueueFrame(side, m, m');
    hide LoopQueue;
    forall id | InFront(side, id, m.ended) ensures InFront(side, id, m'.ended) {
      InFrontGrows(side, side, id, m.ended, m'.ended);
    }
  }

  lemma OthersEvents(other: Side, pipeline: seq<ActionSpec>, m: Marks, events: seq<Event>)
    requires SharesNoId(other.pipeline, pipeline) && forall e | e in events :: HasId(pipeline, e.Subject())
    ensures SameFor(other, m, Add(m, events))
    ensures forall a | a in other.pipeline :: forall e | e in events :: e.Subject() != a.id
  {
    forall a | a in other.pipeline ensures forall e | e in events :: e.Subject() != a.id {
      NotShared(other.pipeline, pipeline, a);
    }
  }

  lemma OtherAny(other: Side, pipeline: seq<ActionSpec>, m: Marks, events: seq<Event>, updates: map<ActionId, Status>,
          view: map<ActionId, Status>)
    requires AnySide(other, m, updates, view) && SharesNoId(other.pipeline, pipeline)
    requires forall e | e in events :: HasId(pipeline, e.Subject())
    ensures AnySide(other, Add(m, events), Absorb(updates, events), view)
  {
    hide Loops, Past, SharesNoId, Absorb, HasId;
    OthersEvents(other, pipeline, m, events);
    if other.thread.Looping? {
      LoopsFrame(other, m, Add(m, events));
      forall a | a in other.pipeline && a.id in Add(m, events).ended && a.id !in CurrentIds(other.sess) + TargetIds(other.sess)
        ensures Closed(a.id, Absorb(updates, events), view)
      {
        ClosedAfter(updates, view, events, a.id);
      }
    }
  }

  lemma MapGrows(updates: map<ActionId, Status>, log: seq<Event>, events: seq<Event>)
    requires MapOk(updates, CompletedIds(log))
    ensures MapOk(Absorb(updates, events), CompletedIds(log + events))
    ensures updates.Keys <= Absorb(updates, events).Keys
  {
    AbsorbKeys(updates, events);
    CompletedIdsAppend(log, events);
    forall id | id in Absorb(updates, events)
      ensures Absorb(updates, events)[id].Terminal() ==> id in CompletedIds(log + events)
    {
      AbsorbSource(updates, events, id);
    }
  }

  lemma MapStays(m: map<ActionId, Status>, log: seq<Event>, events: seq<Event>)
    requires MapOk(m, CompletedIds(log))
    ensures MapOk(m, CompletedIds(log + events))
  {
    CompletedIdsAppend(log, events);
  }

  /** A step of one session. */
  lemma PostAny(s: State, sid: SessionId, side: Side, events: seq<Event>, clock: Time)
    requires AnyInv(s) && sid in s.sides
    requires StepOk(s.sides[sid], MarksOf(s.log), s.updates, s.view, side, events)
    ensures AnyInv(Post(s.(clock := clock), sid, side, events))
  {
    hide AnySide, LogOk, EventsOk, Absorb, MapOk, ServedOk, SharesNoId, CompletedIds;
    var r := Post(s.(clock := clock), sid, side, events);
    MapGrows(s.updates, s.log, events);
    MapStays(s.view, s.log, events);
    if s.link.InFlight? {
      MapStays(s.link.sent, s.log, events);
    }
    OwnEvents(s.sides[sid].pipeline, MarksOf(s.log), events);
    PostSides(s, sid, side, events, clock);
    LogGrowsOk(s.sides, sid, r.sides, s.log, events);
    assert Respond(r.sides, r.view) == Respond(s.sides, s.view);
  }

  lemma OwnEvents(pipeline: seq<ActionSpec>, m: Marks, events: seq<Event>)
    requires EventsOk(pipeline, m, events)
    ensures forall e | e in events :: HasId(pipeline, e.Subject())
  {
  }

  lemma PostSides(s: State, sid: SessionId, side: Side, events: seq<Event>, clock: Time)
    requires AllSides(s) && Apart(s.sides) && sid in s.sides
    requires StepOk(s.sides[sid], MarksOf(s.log), s.updates, s.view, side, events)
    ensures AllSides(Post(s.(clock := clock), sid, side, events)) && Apart(Post(s.(clock := clock), sid, side, events).sides)
  {
    hide AnySide, EventsOk, Absorb, SharesNoId, MarksOf, Add;
    OwnEvents(s.sides[sid].pipeline, MarksOf(s.log), events);
    MarksAppend(s.log, events);
    forall one | one in s.sides && one != sid
      ensures AnySide(s.sides[one], Add(MarksOf(s.log), events), Absorb(s.updates, events), s.view)
    {
      OtherAny(s.sides[one], s.sides[sid].pipeline, MarksOf(s.log), events, s.updates, s.view);
    }
  }

  // ----- the scheduler and its service

  lemma ExtendLoops(side: Side, more: seq<ActionSpec>, m: Marks)
    requires PipelineOk(side) && Loops(side, m) && forall a | a in more :: a.id !in m.started
    ensures Loops(side.(pipeline := side.pipeline + more), m)
  {
    var side' := side.(pipeline := side.pipeline + more);
    assert side'.pipeline[..side.known] == side.pipeline[..side.known];
    assert Listed(side', m.ended) == Listed(side, m.ended);
    hide KeysOk, Listed;
    forall id | InFront(side, id, m.ended) ensures InFront(side', id, m.ended) {
      ExtendInFront(side, more, m.ended, id);
    }
    forall a | a in side'.pipeline ensures a in side.pipeline || a in more {}
  }

  lemma ExtendPast(side: Side, more: seq<ActionSpec>)
    requires Past(side)
    ensures Past(side.(pipeline := side.pipeline + more))
  {
    forall id ensures HasId(side.pipeline, id) ==> HasId(side.pipeline + more, id) {
      HasIdAppend(side.pipeline, more, id);
    }
  }

  lemma ExtendAny(side: Side, more: seq<ActionSpec>, m: Marks, updates: map<ActionId, Status>, view: map<ActionId, Status>,
          sent: map<ActionId, Status>)
    requires AnySide(side, m, updates, view) && sent.Keys <= updates.Keys
    requires DistinctIds(side.pipeline + more) && forall a | a in more :: a.kind.Assignable()
    requires forall a | a in more :: a.id !in m.started && a.id !in m.ended
    ensures AnySide(side.(pipeline := side.pipeline + more), m, updates, view + sent)
  {
    hide Loops, Past;
    var side' := side.(pipeline := side.pipeline + more);
    if side.thread.Looping? {
      ExtendLoops(side, more, m);
      forall a | a in side'.pipeline && a.id in m.ended && a.id !in CurrentIds(side'.sess) + TargetIds(side'.sess)
        ensures Closed(a.id, updates, view + sent)
      {
        assert a in side.pipeline;
      }
    } else {
      ExtendPast(side, more);
    }
  }

  lemma ExtendSides(s: State, more: map<SessionId, seq<ActionSpec>>)
    requires AnyInv(s) && s.link.InFlight? && ServiceAppends(s.sides, more)
    ensures var sides := Extend(s.sides, more);
            && (forall sid | sid in sides :: AnySide(sides[sid], MarksOf(s.log), s.updates, s.view + s.link.sent))
            && Apart(sides) && LogOk(sides, s.log)
  {
    hide AnySide, LogOk, SharesNoId;
    LogExtends(s.sides, more, s.log);
    forall sid | sid in s.sides
      ensures AnySide(Extend(s.sides, more)[sid], MarksOf(s.log), s.updates, s.view + s.link.sent)
    {
      NotLogged(s.log, more[sid]);
      ExtendAny(s.sides[sid], more[sid], MarksOf(s.log), s.updates, s.view, s.link.sent);
    }
  }

  lemma NotLogged(log: seq<Event>, more: seq<ActionSpec>)
    requires forall a | a in more :: forall e | e in log :: e.Subject() != a.id
    ensures forall a | a in more :: a.id !in MarksOf(log).started && a.id !in MarksOf(log).ended
  {
  }

  lemma SentIsServed(sent: map<ActionId, Status>, view: map<ActionId, Status>, ended: set<ActionId>)
    requires MapOk(sent, ended) && MapOk(view, ended)
    ensures ServedOk(Transaction(sent), view + sent) && MapOk(view + sent, ended)
  {
    forall u | u in Transaction(sent) && u.key.ByStatus? ensures u.id in view + sent && (view + sent)[u.id].Terminal() {
      var id :| id in sent && UpdateIdOf(sent[id]) == u;
    }
  }

  lemma RequestAny(s: State, step: Step)
    requires AnyInv(s) && Enabled(s, step) && (step.Serve? || step.LoseReply?)
    ensures AnyInv(Next(s, step))
  {
    hide AnySide, LogOk, MapOk, ServiceAppends, Extend, Respond, Torn, ServedOk;
    ExtendSides(s, step.more);
    SentIsServed(s.link.sent, s.view, CompletedIds(s.log));
  }

  lemma CommitSide(side: Side, m: Marks, updates: map<ActionId, Status>, view: map<ActionId, Status>, tx: set<UpdateId>)
    requires AnySide(side, m, updates, view) && ServedOk(tx, view) && forall id | id in updates :: updates[id].id == id
    ensures AnySide(side, m, Commit(updates, tx), view)
  {
    hide Loops, Past;
    forall id | Closed(id, updates, view) ensures Closed(id, Commit(updates, tx), view) {
      if id in updates && UpdateIdOf(updates[id]) in tx {
        assert UpdateIdOf(updates[id]).key.ByStatus? && UpdateIdOf(updates[id]).id == id;
      }
    }
  }

  lemma CommitAny(s: State)
    requires AnyInv(s) && Enabled(s, CommitSent)
    ensures AnyInv(Next(s, CommitSent))
  {
    hide AnySide, LogOk, Respond, Torn, ServiceAppends, ServedOk;
    forall sid | sid in s.sides ensures AnySide(s.sides[sid], MarksOf(s.log), Commit(s.updates, s.link.tx), s.view) {
      CommitSide(s.sides[sid], MarksOf(s.log), s.updates, s.view, s.link.tx);
    }
  }

  lemma CollectAny(s: State, step: Step)
    requires AnyInv(s) && Enabled(s, step) && (step.Collect? || step.LoseRequest?)
    ensures AnyInv(Next(s, step))
  {
    hide AnySide, LogOk, Respond, Torn, ServiceAppends, ServedOk, MapOk;
  }

  // ----- the steps of the sessions

  lemma AnyParts(s: State, sid: SessionId)
    requires AnyInv(s) && sid in s.sides
    ensures AnySide(s.sides[sid], MarksOf(s.log), s.updates, s.view)
    ensures TerminalIds(s.view) <= MarksOf(s.log).ended && TerminalIds(s.updates) <= MarksOf(s.log).ended
    ensures s.link.Settled? ==> s.link.response == Respond(s.sides, s.view)
  {
    hide AnySide, LogOk, Respond;
  }

  lemma AnyIdle(side: Side, m: Marks, updates: map<ActionId, Status>, view: map<ActionId, Status>)
    requires AnySide(side, m, updates, view) && side.thread.Looping? && side.sess.current.None?
    ensures AtRest(side, m) && AllClosed(side, m, updates, view)
  {
  }

  lemma SessionAny(s: State, step: Step)
    requires AnyInv(s) && Enabled(s, step)
    requires step.Start? || step.Callback? || step.CleanupInterrupt? || step.CleanupReport?
    ensures AnyInv(Next(s, step))
  {
    hide AnyInv, Enabled, Next, Post, AnySide, StepOk, AtRest, AllClosed, StartAction, ActionUpdated, Interrupt, CancelReport, MarksOf;
    match step {
      case Start(sid, answer, outcome, now, detail) =>
        NextStart(s, step);
        AnyParts(s, sid);
        AnyIdle(s.sides[sid], MarksOf(s.log), s.updates, s.view);
        StartAny(s.sides[sid], MarksOf(s.log), s.updates, s.view, answer, outcome, now, detail);
        var e := StartAction(s.sides[sid].sess, answer, outcome, now, detail);
        PostAny(s, sid, AfterStart(s.sides[sid], e, detail), e.events, s.clock);
      case Callback(sid, state, now, detail) =>
        NextCallback(s, step);
        AnyParts(s, sid);
        CallbackAny(s.sides[sid], MarksOf(s.log), s.updates, s.view, state, now, detail);
        var e := ActionUpdated(s.sides[sid].sess, state, now, detail);
        PostAny(s, sid, AfterCallback(s.sides[sid], state, e), e.events, if state.RUNNING? then now else s.clock);
      case CleanupInterrupt(sid, now) =>
        NextInterrupt(s, step);
        AnyParts(s, sid);
        InterruptAny(s.sides[sid], MarksOf(s.log), s.updates, s.view, now);
        var e := Interrupt(s.sides[sid].sess, now);
        PostAny(s, sid, s.sides[sid].(sess := e.sess, thread := Stopping), e.events, s.clock);
      case CleanupReport(sid) =>
        NextReport(s, step);
        AnyParts(s, sid);
        ReportAny(s.sides[sid], MarksOf(s.log), s.updates, s.view);
        var side := s.sides[sid];
        PostAny(s, sid, side.(thread := Cancelling(side.thread.ids, Between)), [CancelReport(side)], s.clock);
    }
  }

  lemma ListedIs(s: State, sid: SessionId)
    requires AnyInv(s) && s.link.Settled? && sid in s.sides && sid in s.link.response
    ensures s.link.response[sid] == Outstanding(s.sides[sid].pipeline, TerminalIds(s.view))
    ensures DistinctIds(s.link.response[sid]) && forall a | a in s.link.response[sid] :: HasId(s.sides[sid].pipeline, a.id)
    ensures Outstanding(Unfinished(s.link.response[sid], s.updates), CurrentIds(s.sides[sid].sess))
         == Assigns(s.sides[sid], s.updates, s.view)
  {
    AnyParts(s, sid);
    hide AnyInv;
    var pipeline := s.sides[sid].pipeline;
    OutstandingMembers(pipeline, TerminalIds(s.view));
    forall a | a in s.link.response[sid] ensures HasId(pipeline, a.id) {
      var i :| 0 <= i < |pipeline| && pipeline[i] == a;
    }
  }

  lemma GivesBackAny(s: State, step: Step)
    requires AnyInv(s) && Enabled(s, step) && step.GiveBack?
    ensures AnyInv(Next(s, step))
  {
    hide AnyInv, Enabled, Next, Post, AnySide, StepOk, ReturnEvents, MarksOf, Outstanding;
    NextGiveBack(s, step);
    AnyParts(s, step.sid);
    ListedIs(s, step.sid);
    var side, listed := s.sides[step.sid], s.link.response[step.sid];
    GiveBackAny(side, MarksOf(s.log), s.updates, s.view, listed, step.now, step.detail);
    PostAny(s, step.sid, side, ReturnEvents(s.updates, listed, true, step.now, step.detail), s.clock);
  }

  lemma MovesAny(s: State, step: Step)
    requires AnyInv(s) && Enabled(s, step) && Silent(step) && !step.Assign? && !step.TornAssign?
    requires step.sid in s.sides
    ensures StepOk(s.sides[step.sid], MarksOf(s.log), s.updates, s.view, Moved(s, step), [])
  {
    hide AnyInv, Enabled, Next, AnySide, StepOk, MarksOf, Moved, CancelIds, PopNext, RemovePopped, Stopped;
    AnyParts(s, step.sid);
    var side, m := s.sides[step.sid], MarksOf(s.log);
    if step.Stop? || step.CleanupExitEnv? || step.EndThread? {
      EndMoves(s, step);
      EndsAny(side, m, s.updates, s.view, Moved(s, step));
    } else {
      CancelationMoves(s, step);
      if step.CleanupList? {
        ListAny(side, m, s.updates, s.view);
      } else if step.CleanupPop? {
        PopAny(side, m, s.updates, s.view);
      } else if step.CleanupRemove? {
        RemoveAny(side, m, s.updates, s.view);
      } else {
        EndsAny(side, m, s.updates, s.view, Moved(s, step));
      }
    }
  }

  lemma EndsAny(side: Side, m: Marks, updates: map<ActionId, Status>, view: map<ActionId, Status>, side': Side)
    requires AnySide(side, m, updates, view)
    requires || (Cancels(side, Between) && side' == side.(thread := Exiting))
             || (side.thread.Exiting? && exists work :: side' == side.(work := work))
             || (side.thread.Exiting? && side' == side.(thread := Ended))
             || (exists result, detail :: result in {INTERRUPTED, FAILED} && side' == side.(sess := Stopped(side.sess, result, detail)))
    ensures StepOk(side, m, updates, view, side', [])
  {
    PipelineIsOk(side, m, updates, view);
    hide AnySide, StepOk;
    QuietAny(side, m, updates, view, side');
  }

  lemma PipelineIsOk(side: Side, m: Marks, updates: map<ActionId, Status>, view: map<ActionId, Status>)
    requires AnySide(side, m, updates, view)
    ensures PipelineOk(side)
  {
  }

  lemma SilentAny(s: State, step: Step)
    requires AnyInv(s) && Enabled(s, step) && Silent(step)
    ensures AnyInv(Next(s, step))
  {
    hide AnyInv, Enabled, Next, Post, AnySide, StepOk, MarksOf, Moved, Unfinished, Outstanding, Torn, Replace;
    NextSilent(s, step);
    if step.Assign? || step.TornAssign? {
      AssignMoves(s, step);
      AnyParts(s, step.sid);
      ListedIs(s, step.sid);
      AssignAny(s.sides[step.sid], MarksOf(s.log), s.updates, s.view, Moved(s, step).sess.queue);
    } else {
      MovesAny(s, step);
    }
    PostAny(s, step.sid, Moved(s, step), [], s.clock);
  }

  lemma StepAny(s: State, step: Step)
    requires AnyInv(s) && Enabled(s, step)
    ensures AnyInv(Next(s, step))
  {
    hide AnyInv, Enabled, Next;
    match step {
      case Collect => CollectAny(s, step);
      case LoseRequest => CollectAny(s, step);
      case Serve(_) => RequestAny(s, step);
      case LoseReply(_) => RequestAny(s, step);
      case CommitSent => CommitAny(s);
      case Start(_, _, _, _, _) => SessionAny(s, step);
      case Callback(_, _, _, _) => SessionAny(s, step);
      case CleanupInterrupt(_, _) => SessionAny(s, step);
      case CleanupReport(_) => SessionAny(s, step);
      case GiveBack(_, _, _) => GivesBackAny(s, step);
      case _ => SilentAny(s, step);
    }
  }

  /** The invariant holds throughout every run. */
  lemma {:induction false} RunAny(s: State, steps: seq<Step>)
    requires AnyInv(s) && Possible(s, steps)
    ensures AnyInv(Reached(s, steps))
    decreases steps
  {
    hide AnyInv, Enabled, Next;
    if steps != [] {
      StepAny(s, steps[0]);
      RunAny(Next(s, steps[0]), steps[1..]);
    }
  }

  lemma AnyReachable(s: State, steps: seq<Step>)
    requires Init(s) && Possible(s, steps)
    ensures AnyInv(Reached(s, steps))
  {
    hide AnyInv;
    AnyInit(s);
    RunAny(s, steps);
  }

  /** The runs of the other results are among these. */
  lemma {:induction false} LegalIsPossible(s: State, steps: seq<Step>)
    requires Legal(s, steps)
    ensures Possible(s, steps) && Reached(s, steps) == Exec(s, steps)
    decreases steps
  {
    hide Enabled, Next, Clean;
    if steps != [] {
      LegalIsPossible(Next(s, steps[0]), steps[1..]);
    }
  }

  // ----- results

  /** No action is started twice, in any interleaving, whatever the lookups answer. */
  lemma NothingStartsTwice(s: State, steps: seq<Step>, i: nat, j: nat)
    requires Init(s) && Possible(s, steps)
    requires i < j < |Reached(s, steps).log|
    requires Reached(s, steps).log[i].Started? && Reached(s, steps).log[j].Started?
    ensures Reached(s, steps).log[i].id != Reached(s, steps).log[j].id
  {
    hide Init, Possible;
    AnyReachable(s, steps);
  }

  /** A task of a session that synchronises attachments is reported SUCCEEDED only after its own
      upload was started. */
  lemma NoSuccessWithoutUpload(s: State, steps: seq<Step>, i: nat, j: nat) returns (k: nat)
    requires Init(s) && Possible(s, steps)
    requires i < j < |Reached(s, steps).log|
    requires Reached(s, steps).log[i].Started? && Reached(s, steps).log[i].task
    requires var e := Reached(s, steps).log[j];
             e.Reported? && e.attachments && e.status.completed == Some(SUCCEEDED)
             && e.status.id == Reached(s, steps).log[i].id
    ensures i < k < j && Reached(s, steps).log[k] == UploadStarted(Reached(s, steps).log[i].id)
  {
    hide Init, Possible;
    AnyReachable(s, steps);
    k :| i < k < j && Reached(s, steps).log[k] == UploadStarted(Reached(s, steps).log[i].id);
  }

  /** While a finished task awaits its upload and the session is not being cleaned up, either
      nothing runs and the upload heads the queue, or the upload of that very task runs. */
  lemma TargetOwnsTheUpload(s: State, steps: seq<Step>, sid: SessionId)
    requires Init(s) && Possible(s, steps) && sid in Reached(s, steps).sides
    requires var side := Reached(s, steps).sides[sid]; side.thread.Looping? && side.sess.target.Some?
    ensures var side := Reached(s, steps).sides[sid];
            var upload := UploadSpec(side.sess.target.value);
            if side.sess.current.None? then
              side.work.None? && side.sess.queue.actions != [] && side.sess.queue.actions[0].spec == upload
            else side.sess.current.value.spec == upload && side.work == Some(OfAction(upload))
  {
    hide Init, Possible;
    AnyReachable(s, steps);
    var r := Reached(s, steps);
    AnyParts(r, sid);
    UploadIsNext(r.sides[sid], MarksOf(r.log), r.updates, r.view);
  }

  lemma UploadIsNext(side: Side, m: Marks, updates: map<ActionId, Status>, view: map<ActionId, Status>)
    requires AnySide(side, m, updates, view) && side.thread.Looping? && side.sess.target.Some?
    ensures var upload := UploadSpec(side.sess.target.value);
            if side.sess.current.None? then
              side.work.None? && side.sess.queue.actions != [] && side.sess.queue.actions[0].spec == upload
            else side.sess.current.value.spec == upload && side.work == Some(OfAction(upload))
  {
    if side.sess.current.None? {
      assert m.ended + CurrentIds(side.sess) == m.ended;
      InFrontIsFirst(side, side.sess.target.value.spec.id, m.ended);
      assert |Specs(side.sess.queue.actions)| == |side.sess.queue.actions| && side.sess.queue.actions != [];
      HeadIs(side, m);
    }
  }

  /** The assertion in the callback never fails. */
  lemma CallbackNeverCrashes(s: State, steps: seq<Step>, step: Step)
    requires Init(s) && Possible(s, steps) && step.Callback? && Enabled(Reached(s, steps), step)
    ensures !ActionUpdated(Reached(s, steps).sides[step.sid].sess, step.state, step.now, step.detail).crashed
  {
    hide Init, Possible, Enabled;
    AnyReachable(s, steps);
    var r := Reached(s, steps);
    NextCallback(r, step);
    AnyParts(r, step.sid);
    CallbackAny(r.sides[step.sid], MarksOf(r.log), r.updates, r.view, step.state, step.now, step.detail);
  }

  /** Where attachments are synchronised, the report that an action SUCCEEDED comes from a callback
      with which the runtime ended that action successfully; for a task, it ended its upload. */
  lemma SuccessComesFromTheUpload(s: State, steps: seq<Step>, step: Step, f: Event)
    requires Init(s) && Possible(s, steps) && step.Callback? && Enabled(Reached(s, steps), step)
    requires f in ActionUpdated(Reached(s, steps).sides[step.sid].sess, step.state, step.now, step.detail).events
    requires f.Reported? && f.attachments && f.status.completed == Some(SUCCEEDED)
    ensures var side := Reached(s, steps).sides[step.sid];
            && step.state.SUCCESS?
            && side.work.value.OfAction? && side.work.value.spec.id == f.status.id
            && forall a | a in side.pipeline && a.id == f.status.id && a.kind.TaskRun? :: side.work.value.spec.kind.SyncOutput?
  {
    hide Init, Possible, Enabled, ActionUpdated;
    AnyReachable(s, steps);
    var r := Reached(s, steps);
    NextCallback(r, step);
    AnyParts(r, step.sid);
    SuccessReportAny(r.sides[step.sid], MarksOf(r.log), r.updates, r.view, step.state, step.now, step.detail, f);
  }

  lemma SuccessReportAny(side: Side, m: Marks, updates: map<ActionId, Status>, view: map<ActionId, Status>,
          state: ActionState, now: Time, detail: int, f: Event)
    requires AnySide(side, m, updates, view) && side.work.Some?
    requires f in ActionUpdated(side.sess, state, now, detail).events
    requires f.Reported? && f.attachments && f.status.completed == Some(SUCCEEDED)
    ensures state.SUCCESS? && side.work.value.OfAction? && side.work.value.spec.id == f.status.id
    ensures forall a | a in side.pipeline && a.id == f.status.id && a.kind.TaskRun? :: side.work.value.spec.kind.SyncOutput?
  {
    SuccessfulCallback(side.sess, state, now, detail, f);
    var c := side.sess.current.value.spec;
    hide LoopQueue, StartedOk, AllClosed, InFront, ActionUpdated;
    if !c.kind.SyncOutput? {
      forall a | a in side.pipeline && a.id == c.id ensures a == c {
        SameIdSameAction(side.pipeline, a, c);
      }
    }
  }

  /** Before its cleanup a session's queue holds, in the service's order, what was delivered to it, is
      not completed and is not running; and at most one thing more, in front of that: an ENV_EXIT that
      was completed by a failed lookup. */
  lemma QueueIsWhatIsLeftOrAnExit(s: State, steps: seq<Step>, sid: SessionId)
    requires Init(s) && Possible(s, steps) && sid in Reached(s, steps).sides && Reached(s, steps).sides[sid].thread.Looping?
    ensures var r := Reached(s, steps);
            var side := r.sides[sid];
            side.known <= |side.pipeline|
            && var left := Outstanding(side.pipeline[..side.known], CompletedIds(r.log) + CurrentIds(side.sess));
               || Ids(Specs(side.sess.queue.actions)) == Ids(left)
               || (&& side.sess.queue.actions != [] && side.sess.queue.actions[0].spec.kind.EnvExit?
                   && side.sess.queue.actions[0].spec.id in CompletedIds(r.log)
                   && Ids(Specs(side.sess.queue.actions))[1..] == Ids(left))
  {
    hide Init, Possible;
    AnyReachable(s, steps);
    var r := Reached(s, steps);
    AnyParts(r, sid);
    LeftOrExit(r.sides[sid], MarksOf(r.log), r.updates, r.view);
  }

  lemma LeftOrExit(side: Side, m: Marks, updates: map<ActionId, Status>, view: map<ActionId, Status>)
    requires AnySide(side, m, updates, view) && side.thread.Looping?
    ensures side.known <= |side.pipeline|
    ensures var left := Outstanding(side.pipeline[..side.known], m.ended + CurrentIds(side.sess));
            || Ids(Specs(side.sess.queue.actions)) == Ids(left)
            || (&& side.sess.queue.actions != [] && side.sess.queue.actions[0].spec.kind.EnvExit?
                && side.sess.queue.actions[0].spec.id in m.ended
                && Ids(Specs(side.sess.queue.actions))[1..] == Ids(left))
  {
    hide KeysOk, LoopCurrent, LoopTarget, StartedOk, AllClosed;
    assert Ids(Listed(side, m.ended)) == Ids(Outstanding(side.pipeline[..side.known], m.ended + CurrentIds(side.sess)));
    if StaleHead(side, m) {
      assert Ids(Specs(side.sess.queue.actions)[1..]) == Ids(Specs(side.sess.queue.actions))[1..];
    }
  }
}
