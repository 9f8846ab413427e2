/** When a session synchronises job attachments: from the start of a download for the whole job on, and
    never before. What tasks owe from then on is stated over the history of a run alone. */
module AttachmentRuns {
  import opened Actions
  import opened Lifecycle
  import opened QueueModel
  import opened SessionModel
  import opened SchedulerModel
  import opened Protocol
  import opened ProtocolSides
  import opened ProtocolCallback
  import opened ProtocolSteps
  import opened ProtocolRaces
  import opened AnySides
  import opened AnySteps
  import opened AnyLog
  import opened AnyRuns
  import opened AnyRaised
  import opened SessionPromises

  predicate JobDownload(spec: ActionSpec) {
    spec.kind.SyncInput? && spec.step.None?
  }

  /** The start of a download for the whole job. */
  predicate StartsDownload(s: Sess, step: Step) {
    step.Start? && step.answer.Found? && s.queue.actions != [] && JobDownload(s.queue.actions[0].spec)
  }

  // ----- what one step does

  lemma StartAttaches(s: Sess, answer: Answer, outcome: StartOutcome, now: Time, detail: int)
    ensures var r, n := StartAction(s, answer, outcome, now, detail).sess, DequeueOutcome(s.queue, answer);
            && r.assetSync == s.assetSync
            && (r.jobAttachments <==>
                  s.jobAttachments || (n.NextAction? && JobDownload(n.spec) && (outcome.Begins? || outcome.stored)))
  {
    hide CancelQueued, Dequeue, DequeueOutcome, Launch, LaunchSucceeds, StartEvent;
    var n := DequeueOutcome(s.queue, answer);
    CancelAttaches(s, detail);
    if n.NextAction? {
      var begun := Begun(s, answer, n.spec, now);
      LaunchAttaches(begun, n.spec, outcome);
      CancelAttaches(Launch(begun, n.spec, outcome).(target := None), detail);
    }
  }

  lemma LaunchAttaches(s: Sess, spec: ActionSpec, outcome: StartOutcome)
    ensures var r := Launch(s, spec, outcome);
            && r.assetSync == s.assetSync
            && (r.jobAttachments <==> s.jobAttachments || (JobDownload(spec) && (outcome.Begins? || outcome.stored)))
  {
  }

  lemma CancelAttaches(s: Sess, detail: int)
    ensures var c := CancelQueued(s, detail); c.sess.assetSync == s.assetSync && c.sess.jobAttachments == s.jobAttachments
    ensures forall e | e in CancelQueued(s, detail).events ::
              e.Reported? && e.status.completed == Some(NEVER_ATTEMPTED) && e.attachments == s.Attachments()
  {
    hide CancelAll, CancelIds;
  }

  lemma HandleAttaches(s: Sess, state: ActionState, action: CurrentAction, now: Time, detail: int)
    ensures var r := HandleUpdate(s, state, action, now, detail);
            && r.sess.assetSync == s.assetSync && r.sess.jobAttachments == s.jobAttachments
            && forall e | e in r.events :: e.Reported? && e.attachments == s.Attachments()
  {
    hide CancelQueued, StatusOf;
    CancelAttaches(s, detail);
  }

  /** A callback changes nothing about attachments; it queues an upload only where they are synchronised,
      and its reports say whether they are. */
  lemma CallbackAttaches(s: Sess, state: ActionState, now: Time, detail: int)
    ensures var r := ActionUpdated(s, state, now, detail);
            && r.sess.assetSync == s.assetSync && r.sess.jobAttachments == s.jobAttachments
            && (forall e | e in r.events && e.UploadQueued? :: s.Attachments())
            && forall e | e in r.events && e.Reported? :: e.attachments == s.Attachments()
  {
    hide HandleUpdate, InsertFront;
    if s.target.Some? {
      HandleAttaches(s.(target := None), state, s.target.value, now, detail);
    } else if s.current.Some? {
      HandleAttaches(s, state, s.current.value, now, detail);
    }
  }

  /** What a step can change of a session that matters here. */
  predicate Grown(one: Side, two: Side) {
    && one.pipeline <= two.pipeline && one.sess.assetSync == two.sess.assetSync
    && (one.sess.jobAttachments ==> two.sess.jobAttachments)
  }

  lemma OneGrows(s: State, step: Step, sid: SessionId)
    requires Enabled(s, step) && sid in s.sides
    ensures s.log <= Next(s, step).log
    ensures sid in Next(s, step).sides && Grown(s.sides[sid], Next(s, step).sides[sid])
    ensures !s.sides[sid].sess.jobAttachments && Next(s, step).sides[sid].sess.jobAttachments ==>
              && step.Start? && step.sid == sid && s.sides[sid].thread.Looping? && s.sides[sid].sess.current.None?
              && StartsDownload(s.sides[sid].sess, step) && (step.outcome.Begins? || step.outcome.stored)
  {
    hide Enabled, Next, StartAction, ActionUpdated, ReturnEvents, Absorb;
    NextLog(s, step);
    match step {
      case Start(_, answer, outcome, now, detail) =>
        NextStart(s, step);
        StartAttaches(s.sides[step.sid].sess, answer, outcome, now, detail);
        DownloadIsNext(s.sides[step.sid].sess, step);
      case Callback(_, state, now, detail) =>
        NextCallback(s, step);
        CallbackAttaches(s.sides[step.sid].sess, state, now, detail);
      case GiveBack(_, _, _) => NextGiveBack(s, step);
      case CleanupInterrupt(_, now) =>
        NextInterrupt(s, step);
        InterruptAttaches(s.sides[step.sid].sess, now);
      case CleanupReport(_) => NextReport(s, step);
      case _ => OtherGrows(s, step, sid);
    }
  }

  lemma DownloadIsNext(s: Sess, step: Step)
    requires step.Start?
    ensures var n := DequeueOutcome(s.queue, step.answer); n.NextAction? && JobDownload(n.spec) ==> StartsDownload(s, step)
  {
  }

  lemma OtherGrows(s: State, step: Step, sid: SessionId)
    requires Enabled(s, step) && sid in s.sides && !step.Start? && !step.Callback?
    ensures sid in Next(s, step).sides
    ensures var one, two := s.sides[sid], Next(s, step).sides[sid];
            && one.pipeline <= two.pipeline && one.sess.assetSync == two.sess.assetSync
            && one.sess.jobAttachments == two.sess.jobAttachments
  {
    hide Torn, Replace, Absorb, ReturnEvents, CancelIds, RemoveFirst, Unfinished, CancelReport, Respond, Commit, Transaction;
  }

  lemma InterruptAttaches(s: Sess, now: Time)
    ensures var r := Interrupt(s, now).sess; r.assetSync == s.assetSync && r.jobAttachments == s.jobAttachments
  {
  }

  lemma {:induction false} RunGrows(s: State, steps: seq<Step>, sid: SessionId)
    requires Possible(s, steps) && sid in s.sides
    ensures s.log <= Reached(s, steps).log
    ensures sid in Reached(s, steps).sides && Grown(s.sides[sid], Reached(s, steps).sides[sid])
    decreases steps
  {
    hide Enabled, Next;
    if steps != [] {
      OneGrows(s, steps[0], sid);
      RunGrows(Next(s, steps[0]), steps[1..], sid);
    }
  }

  // ----- only a download for the whole job switches attachments on

  /** A session with job attachments has started a download for the whole job. */
  ghost predicate DownloadLogged(s: State, sid: SessionId)
    requires sid in s.sides
  {
    s.sides[sid].sess.jobAttachments ==>
      exists a :: a in s.sides[sid].pipeline && JobDownload(a) && Started(a.id, false) in s.log
  }

  lemma LongerStillLogged(s: State, r: State, sid: SessionId, a: ActionSpec)
    requires sid in s.sides && sid in r.sides && s.log <= r.log && s.sides[sid].pipeline <= r.sides[sid].pipeline
    requires a in s.sides[sid].pipeline && JobDownload(a) && Started(a.id, false) in s.log
    ensures DownloadLogged(r, sid)
  {
    assert a in r.sides[sid].pipeline && Started(a.id, false) in r.log;
  }

  lemma StepLogsDownload(s: State, step: Step, sid: SessionId)
    requires AnyInv(s) && Enabled(s, step) && sid in s.sides && DownloadLogged(s, sid)
    ensures sid in Next(s, step).sides && DownloadLogged(Next(s, step), sid)
  {
    OneGrows(s, step, sid);
    var r := Next(s, step);
    hide AnyInv, Enabled, Next, Grown, StartAction, AnySide;
    if s.sides[sid].sess.jobAttachments {
      var a :| a in s.sides[sid].pipeline && JobDownload(a) && Started(a.id, false) in s.log;
      GrownPipeline(s.sides[sid], r.sides[sid]);
      LongerStillLogged(s, r, sid, a);
    } else if r.sides[sid].sess.jobAttachments {
      NextLog(s, step);
      AnyParts(s, sid);
      DownloadIsQueued(s.sides[sid], MarksOf(s.log), s.updates, s.view);
      var a := s.sides[sid].sess.queue.actions[0].spec;
      DownloadEvent(s.sides[sid].sess, step);
      assert Started(a.id, false) in StepEvents(s, step);
      GrownPipeline(s.sides[sid], r.sides[sid]);
      assert a in r.sides[sid].pipeline && Started(a.id, false) in r.log;
    }
  }

  lemma GrownPipeline(one: Side, two: Side)
    requires Grown(one, two)
    ensures one.pipeline <= two.pipeline
  {
  }

  lemma DownloadIsQueued(side: Side, m: Marks, updates: map<ActionId, Status>, view: map<ActionId, Status>)
    requires AnySide(side, m, updates, view) && side.thread.Looping? && side.sess.current.None?
    requires side.sess.queue.actions != [] && JobDownload(side.sess.queue.actions[0].spec)
    ensures side.sess.queue.actions[0].spec in side.pipeline
  {
    AnyIdle(side, m, updates, view);
    HeadStarts(side, m);
  }

  lemma DownloadEvent(s: Sess, step: Step)
    requires StartsDownload(s, step)
    ensures var e := StartAction(s, step.answer, step.outcome, step.now, step.detail);
            e.events != [] && e.events[0] == Started(s.queue.actions[0].spec.id, false)
  {
    hide CancelAll, CancelIds, Launch, LaunchSucceeds;
  }

  lemma {:induction false} RunLogsDownload(s: State, steps: seq<Step>, sid: SessionId)
    requires AnyInv(s) && Possible(s, steps) && sid in s.sides && DownloadLogged(s, sid)
    ensures sid in Reached(s, steps).sides && DownloadLogged(Reached(s, steps), sid)
    decreases steps
  {
    hide AnyInv, Enabled, Next, DownloadLogged;
    if steps != [] {
      StepAny(s, steps[0]);
      StepLogsDownload(s, steps[0], sid);
      RunLogsDownload(Next(s, steps[0]), steps[1..], sid);
    }
  }

  /** In every run an upload is queued only in a session with an asset sync that has started a download
      for the whole job; a download for a step never does. */
  lemma UploadsNeedADownload(s: State, steps: seq<Step>, step: Step, id: ActionId)
    requires Init(s) && Possible(s, steps) && Enabled(Reached(s, steps), step)
    requires UploadQueued(id) in StepEvents(Reached(s, steps), step)
    ensures var r := Reached(s, steps);
            && step.Callback? && step.sid in s.sides && step.sid in r.sides && s.sides[step.sid].sess.assetSync
            && exists a :: a in r.sides[step.sid].pipeline && JobDownload(a) && Started(a.id, false) in r.log
  {
    hide AnyInv, Init, Possible, Enabled;
    var r := Reached(s, steps);
    AnyInit(s);
    OnlyCallbacksQueueUploads(r, step, id);
    SidesFromTheStart(s, steps, step.sid);
    RunGrows(s, steps, step.sid);
    NothingAttachedAtFirst(s, step.sid);
    RunLogsDownload(s, steps, step.sid);
  }

  lemma NothingAttachedAtFirst(s: State, sid: SessionId)
    requires Init(s) && sid in s.sides
    ensures DownloadLogged(s, sid)
  {
  }

  lemma {:induction false} SidesFromTheStart(s: State, steps: seq<Step>, sid: SessionId)
    requires Possible(s, steps) && sid in Reached(s, steps).sides
    ensures sid in s.sides
    decreases steps
  {
    hide Enabled, Next;
    if steps != [] {
      SidesFromTheStart(Next(s, steps[0]), steps[1..], sid);
      NoNewSides(s, steps[0]);
    }
  }

  lemma NoNewSides(s: State, step: Step)
    requires Enabled(s, step)
    ensures Next(s, step).sides.Keys == s.sides.Keys
  {
    hide Torn, Replace, Absorb, ActionUpdated, ReturnEvents, StartAction, Interrupt, CancelIds, RemoveFirst, Unfinished, PopNext, RemovePopped,
      AfterStart, CancelReport;
  }

  lemma OnlyCallbacksQueueUploads(s: State, step: Step, id: ActionId)
    requires Enabled(s, step) && UploadQueued(id) in StepEvents(s, step)
    ensures step.Callback? && step.sid in s.sides && s.sides[step.sid].sess.Attachments()
  {
    hide Torn;
    match step {
      case Start(sid, answer, outcome, now, detail) => StartQueuesNoUpload(s.sides[sid].sess, answer, outcome, now, detail);
      case Callback(sid, state, now, detail) => CallbackAttaches(s.sides[sid].sess, state, now, detail);
      case GiveBack(sid, now, detail) => ReturnsAreReports(s.updates, s.link.response[sid], true, now, detail);
      case _ =>
    }
  }

  lemma StartQueuesNoUpload(s: Sess, answer: Answer, outcome: StartOutcome, now: Time, detail: int)
    ensures forall e | e in StartAction(s, answer, outcome, now, detail).events :: !e.UploadQueued?
    ensures forall e | e in StartAction(s, answer, outcome, now, detail).events && e.Reported? ::
              e.status.completed in {Some(FAILED), Some(NEVER_ATTEMPTED)}
  {
    hide CancelAll, CancelIds, Launch, LaunchSucceeds, DequeueOutcome;
  }

  lemma {:induction false} ReturnsAreReports(updates: map<ActionId, Status>, listed: seq<ActionSpec>, first: bool, now: Time, detail: int)
    ensures forall e | e in ReturnEvents(updates, listed, first, now, detail) ::
              e.Reported? && e.status.completed in {Some(FAILED), Some(NEVER_ATTEMPTED)}
    decreases listed
  {
    if listed != [] {
      var st := ReturnStatus(listed[0], first, now, detail);
      ReturnsAreReports(updates, listed[1..], false, now, detail);
      ReturnsAreReports(updates[st.id := st], listed[1..], false, now, detail);
    }
  }

  // ----- from the download on

  /** A session reports its successes with what it synchronises at that moment. */
  lemma SuccessIsFlagged(s: State, step: Step, e: Event)
    requires AnyInv(s) && Enabled(s, step) && SessionStepOf(step).Some? && step.sid in s.sides
    requires e in StepEvents(s, step) && e.Reported? && e.status.completed == Some(SUCCEEDED)
    ensures e.attachments == s.sides[step.sid].sess.Attachments()
  {
    hide AnyInv, AnySide, Torn;
    var side := s.sides[step.sid];
    match step {
      case Start(_, answer, outcome, now, detail) => StartQueuesNoUpload(side.sess, answer, outcome, now, detail);
      case Callback(_, state, now, detail) => CallbackAttaches(side.sess, state, now, detail);
      case GiveBack(_, now, detail) => ReturnsAreReports(s.updates, s.link.response[step.sid], true, now, detail);
      case CleanupInterrupt(_, now) =>
        AnyParts(s, step.sid);
        StopIsNoSuccess(side, MarksOf(s.log), s.updates, s.view, now);
      case _ =>
    }
  }

  lemma StopIsNoSuccess(side: Side, m: Marks, updates: map<ActionId, Status>, view: map<ActionId, Status>, now: Time)
    requires AnySide(side, m, updates, view)
    ensures forall e | e in Interrupt(side.sess, now).events && e.Reported? :: e.status.completed != Some(SUCCEEDED)
  {
    PipelineIsOk(side, m, updates, view);
    hide AnySide;
  }

  lemma {:induction false} FlaggedFromThenOn(s: State, steps: seq<Step>, sid: SessionId, j: nat)
    requires AnyInv(s) && Possible(s, steps) && sid in s.sides && s.sides[sid].sess.Attachments()
    requires |s.log| <= j < |Reached(s, steps).log| && sid in Reached(s, steps).sides
    requires var e := Reached(s, steps).log[j];
             e.Reported? && e.status.completed == Some(SUCCEEDED) && HasId(Reached(s, steps).sides[sid].pipeline, e.status.id)
    ensures Reached(s, steps).log[j].attachments
    decreases steps
  {
    hide AnyInv, Enabled, Next, StepEvents, SessionStepOf, HasId;
    var next, last := Next(s, steps[0]), Reached(s, steps);
    StepAny(s, steps[0]);
    OneGrows(s, steps[0], sid);
    NextLog(s, steps[0]);
    RunGrows(next, steps[1..], sid);
    if j >= |next.log| {
      FlaggedFromThenOn(next, steps[1..], sid, j);
    } else {
      var e := last.log[j];
      assert e == next.log[j] == StepEvents(s, steps[0])[j - |s.log|];
      OwnerIsSame(s, steps, sid, e);
      SuccessIsFlagged(s, steps[0], e);
    }
  }

  /** What a step says about an id is said by the session that has the id in the end. */
  lemma OwnerIsSame(s: State, steps: seq<Step>, sid: SessionId, e: Event)
    requires AnyInv(s) && Possible(s, steps) && steps != [] && sid in s.sides && sid in Reached(s, steps).sides
    requires e in StepEvents(s, steps[0]) && HasId(Reached(s, steps).sides[sid].pipeline, e.Subject())
    ensures SessionStepOf(steps[0]) == Some(sid) && steps[0].sid == sid
  {
    hide AnyInv, Enabled, Next, StepEvents, HasId, Grown;
    if SessionStepOf(steps[0]).None? {
      OwnNothing(s, steps[0]);
    } else {
      EventsAreOwnAny(s, steps[0]);
      var one := steps[0].sid;
      RunAny(s, steps);
      RunGrows(s, steps, one);
      GrownPipeline(s.sides[one], Reached(s, steps).sides[one]);
      LongerHasId(s.sides[one].pipeline, Reached(s, steps).sides[one].pipeline, e.Subject());
      if one != sid {
        PipelinesApart(Reached(s, steps), one, sid, e.Subject());
      }
    }
  }

  /** Once a download for the whole job has begun in a session with an asset sync, every task of that
      session that is started afterwards and reported as SUCCEEDED had its upload started in
      between. */
  lemma TasksUploadAfterADownload(s: State, before: seq<Step>, start: Step, after: seq<Step>, i: nat, j: nat)
    returns (k: nat)
    requires Init(s) && Possible(s, before) && start.Start? && Enabled(Reached(s, before), start)
    requires start.sid in s.sides && s.sides[start.sid].sess.assetSync
    requires StartsDownload(Reached(s, before).sides[start.sid].sess, start) && start.outcome.Begins?
    requires Possible(Next(Reached(s, before), start), after)
    requires var r := Reached(Next(Reached(s, before), start), after);
             && |Reached(s, before).log| < i < j < |r.log| && start.sid in r.sides
             && r.log[i].Started? && r.log[i].task && HasId(r.sides[start.sid].pipeline, r.log[i].id)
             && r.log[j].Reported? && r.log[j].status.id == r.log[i].id && r.log[j].status.completed == Some(SUCCEEDED)
    ensures var r := Reached(Next(Reached(s, before), start), after);
            i < k < j && r.log[k] == UploadStarted(r.log[i].id)
  {
    hide AnyInv, Init, Possible, Enabled, Next, HasId;
    var begun := Next(Reached(s, before), start);
    var r := Reached(begun, after);
    AnyReachable(s, before);
    StepAny(Reached(s, before), start);
    RunGrows(s, before, start.sid);
    DownloadAttaches(Reached(s, before), start);
    RunAny(begun, after);
    FlaggedFromThenOn(begun, after, start.sid, j);
    UploadIsLogged(r);
    k :| i < k < j && r.log[k] == UploadStarted(r.log[i].id);
  }

  lemma DownloadAttaches(s: State, start: Step)
    requires start.Start? && Enabled(s, start) && start.sid in s.sides && s.sides[start.sid].sess.assetSync
    requires StartsDownload(s.sides[start.sid].sess, start) && start.outcome.Begins?
    ensures var r := Next(s, start);
            start.sid in r.sides && r.sides[start.sid].sess.Attachments() && |r.log| == |s.log| + 1
  {
    hide Enabled, Next, StartAction, Absorb;
    NextStart(s, start);
    StartAttaches(s.sides[start.sid].sess, start.answer, start.outcome, start.now, start.detail);
    DownloadBegins(s.sides[start.sid].sess, start);
  }

  lemma DownloadBegins(s: Sess, step: Step)
    requires StartsDownload(s, step) && step.outcome.Begins? && s.assetSync
    ensures |StartAction(s, step.answer, step.outcome, step.now, step.detail).events| == 1
  {
    hide CancelAll, CancelIds;
  }

  lemma UploadIsLogged(s: State)
    requires AnyInv(s)
    ensures AnyLog.SuccessAfterUpload(s.log)
  {
  }
}
