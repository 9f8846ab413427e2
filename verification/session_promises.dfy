/** What a session promises about an action that ends or does not start, in the words of the reports it
    makes and of the queue it leaves. */
module SessionPromises {
  import opened Actions
  import opened Lifecycle
  import opened QueueModel
  import opened SessionModel

  /** The entries that are ENV_EXITs, or those that are not, in the same order. */
  function Only(entries: seq<Entry>, exits: bool): seq<Entry> {
    if entries == [] then []
    else (if entries[0].spec.kind.EnvExit? == exits then [entries[0]] else []) + Only(entries[1..], exits)
  }

  /** One report for each entry, in order: NEVER_ATTEMPTED, without times. */
  function Unattempted(entries: seq<Entry>, detail: int, attachments: bool): (r: seq<Event>)
    ensures |r| == |entries|
  {
    seq(|entries|, i requires 0 <= i < |entries| =>
      Reported(Status(entries[i].spec.id, Some(NEVER_ATTEMPTED), None, None, None, detail), attachments))
  }

  /** A report that an action ended. */
  function Ended(action: CurrentAction, how: CompletedStatus, now: Time, detail: int, attachments: bool): Event {
    Reported(Status(action.spec.id, Some(how), None, Some(action.startTime), Some(now), detail), attachments)
  }

  lemma {:induction false} CancelsAllButExits(entries: seq<Entry>)
    ensures ExitsOf(entries) == Only(entries, true)
    ensures |CancelIds(entries, true)| == |Only(entries, false)|
    ensures forall i | 0 <= i < |Only(entries, false)| :: CancelIds(entries, true)[i] == Only(entries, false)[i].spec.id
  {
    if entries != [] {
      CancelsAllButExits(entries[1..]);
    }
  }

  /** The queue's ENV_EXITs stay; everything else is reported, and its cancel event is set. */
  lemma CancelQueuedMeans(s: Sess, detail: int)
    requires Coherent(s.queue)
    ensures var e := CancelQueued(s, detail);
            && e.sess == s.(queue := e.sess.queue) && e.sess.queue.actions == Only(s.queue.actions, true)
            && (forall a | a in Only(s.queue.actions, false) :: a.event in e.sess.queue.cancelled)
            && e.events == Unattempted(Only(s.queue.actions, false), detail, s.Attachments())
            && e.events == CancelReports(CancelIds(s.queue.actions, true), detail, s.Attachments())
  {
    CancelAllLeaves(s.queue, true);
    CancelsAllButExits(s.queue.actions);
    OnlyMembers(s.queue.actions, false);
    hide CancelAll, Coherent;
  }

  lemma {:induction false} OnlyMembers(entries: seq<Entry>, exits: bool)
    ensures forall a :: a in Only(entries, exits) <==> a in entries && a.spec.kind.EnvExit? == exits
  {
    if entries != [] {
      OnlyMembers(entries[1..], exits);
      assert entries == [entries[0]] + entries[1..];
    }
  }

  /** The end of an action cancels the rest of the queue exactly when the action failed, was cancelled
      or ran out of time: its ENV_EXITs stay in their order, every other queued action is reported
      NEVER_ATTEMPTED in order, and then the action itself is reported. A progress report or a success
      leaves the queue as it is, but for the upload that a task owes, which comes to its front. The end
      of an upload is reported as the end of its task. */
  lemma CallbackCancelsExactlyOnFailure(s: Sess, state: ActionState, now: Time, detail: int)
    requires Coherent(s.queue) && s.current.Some? && !s.interrupted
    ensures var e := ActionUpdated(s, state, now, detail);
            var action := if s.target.Some? then s.target.value else s.current.value;
            var rest := Unattempted(Only(s.queue.actions, false), detail, s.assetSync && s.jobAttachments);
            && !e.crashed
            && (state.FAILED_STATE? || state.CANCELED_STATE? || state.TIMEOUT? ==>
                  && e.sess == s.(queue := e.sess.queue, current := None, target := None)
                  && e.sess.queue.actions == Only(s.queue.actions, true)
                  && (forall a | a in Only(s.queue.actions, false) :: a.event in e.sess.queue.cancelled)
                  && e.events == rest + [Ended(action, if state.CANCELED_STATE? then CANCELED else FAILED, now, detail,
                                               s.assetSync && s.jobAttachments)])
            && (state.RUNNING? ==>
                  && e.sess == s
                  && e.events == if s.target.Some? then []
                                 else [Reported(Status(action.spec.id, None, Some(now), Some(action.startTime), None, detail),
                                                s.assetSync && s.jobAttachments)])
            && (state.SUCCESS? ==>
                  if s.target.None? && action.spec.kind.TaskRun? && s.assetSync && s.jobAttachments then
                    && e.sess == s.(queue := e.sess.queue, target := Some(action), current := None)
                    && e.sess.queue.actions
                       == [Entry(s.queue.nextEvent, ActionSpec(action.spec.id, SyncOutput, 0, action.spec.step))] + s.queue.actions
                    && e.events == [UploadQueued(action.spec.id)]
                  else
                    && e.sess == s.(current := None, target := None)
                    && e.events == [Ended(action, SUCCEEDED, now, detail, s.assetSync && s.jobAttachments)])
  {
    CancelQueuedMeans(s, detail);
    CancelQueuedMeans(s.(target := None), detail);
    hide CancelQueued, Only, Unattempted, CancelReports, Coherent;
  }

  /** An interrupted action ends without a report, and so does one that there is not. */
  lemma NothingIsSaidTwice(s: Sess, state: ActionState, now: Time, detail: int)
    requires s.interrupted || s.current.None?
    ensures var e := ActionUpdated(s, state, now, detail);
            && e.events == [] && e.sess.queue == s.queue && e.sess.target == s.target
            && (s.interrupted && !state.RUNNING? ==> e.sess.current.None? && !e.sess.interrupted)
            && (s.interrupted && state.RUNNING? ==> e.sess.current == s.current && e.sess.interrupted)
  {
  }

  /** What `start` of a definition needs to succeed, beyond the runtime's consent. */
  predicate Startable(s: Sess, spec: ActionSpec) {
    && (spec.kind.EnvExit? ==> s.envs != [] && s.envs[|s.envs| - 1] == spec.env)
    && (spec.kind.SyncInput? && spec.step.Some? ==> s.jobAttachments)
    && (spec.kind.SyncInput? ==> s.assetSync)
  }

  /** Whether the session synchronises attachments once the action's start has begun or failed: only a
      download for the whole job, with its details stored, brings that about. */
  predicate Attached(s: Sess, spec: ActionSpec, outcome: StartOutcome) {
    && s.assetSync
    && (s.jobAttachments || (spec.kind.SyncInput? && spec.step.None? && (outcome.Begins? || outcome.stored)))
  }

  /** The head of the queue, when its lookup succeeds. */
  predicate Fetched(s: Sess, answer: Answer) {
    && s.queue.actions != []
    && var kind := s.queue.actions[0].spec.kind;
       if answer.Found? then kind in {EnvEnter, EnvExit, TaskRun, SyncInput, SyncOutput} else kind.SyncOutput?
  }

  function Beginning(spec: ActionSpec): Event {
    if spec.kind.SyncOutput? then UploadStarted(spec.id) else Started(spec.id, spec.kind.TaskRun?)
  }

  /** The head of the queue is started, and nothing else happens, exactly when its lookup succeeds, the
      session is ready for it, and the runtime accepts it. */
  lemma StartsExactlyWhenReady(s: Sess, answer: Answer, outcome: StartOutcome, now: Time, detail: int)
    requires Coherent(s.queue)
    ensures var e := StartAction(s, answer, outcome, now, detail);
            var head := if s.queue.actions == [] then None else Some(s.queue.actions[0].spec);
            && (e.sess.current.Some? && !e.crashed
                <==> Fetched(s, answer) && outcome.Begins? && Startable(s, head.value))
            && (e.sess.current.Some? && !e.crashed ==>
                  && e.events == [Beginning(head.value)] && e.sess.current == Some(CurrentAction(head.value, now))
                  && e.sess.queue.actions == s.queue.actions[1..] && e.sess.target == s.target
                  && (e.sess.Attachments() <==> Attached(s, head.value, outcome)))
            && (s.queue.actions == [] ==> e.sess == s.(current := None) && e.events == [])
  {
    hide CancelQueued, Coherent;
    FailsWithoutCurrent(s, answer, outcome, now, detail);
  }

  lemma FailsWithoutCurrent(s: Sess, answer: Answer, outcome: StartOutcome, now: Time, detail: int)
    ensures var next := DequeueOutcome(s.queue, answer);
            && (next.ActionError? ==> StartAction(s, answer, outcome, now, detail).sess.current.None?)
            && (next.NextAction? && !LaunchSucceeds(Begun(s, answer, next.spec, now), next.spec, outcome) ==>
                  StartAction(s, answer, outcome, now, detail).sess.current.None?)
  {
    hide CancelAll, CancelIds;
  }

  /** An action that was looked up and does not start is reported as FAILED, under its task's id when it
      is an upload, and the rest of the queue is cancelled. */
  lemma StartFailureCancelsQueue(s: Sess, answer: Answer, outcome: StartOutcome, now: Time, detail: int)
    requires Coherent(s.queue) && Fetched(s, answer)
    requires !(outcome.Begins? && Startable(s, s.queue.actions[0].spec))
    ensures var e := StartAction(s, answer, outcome, now, detail);
            var spec, tail := s.queue.actions[0].spec, s.queue.actions[1..];
            var failed := if s.target.Some? then s.target.value.spec.id else spec.id;
            && !e.crashed && e.sess.current.None? && e.sess.target.None? && e.sess.queue.actions == Only(tail, true)
            && e.events == [Beginning(spec), Reported(Status(failed, Some(FAILED), None, Some(now), Some(now), detail),
                                                      Attached(s, spec, outcome))]
                           + Unattempted(Only(tail, false), detail, Attached(s, spec, outcome))
  {
    hide CancelQueued, Only, Unattempted, CancelReports, Coherent, StartAction, Launch, LaunchSucceeds, Dequeue, DequeueOutcome;
    var spec := s.queue.actions[0].spec;
    FetchedIsNext(s, answer);
    DequeueIsTail(s.queue, answer);
    var begun := Begun(s, answer, spec, now);
    var launched := Launch(begun, spec, outcome);
    FailsAs(s, answer, outcome, now, detail);
    CancelQueuedMeans(launched.(target := None), detail);
  }

  lemma FetchedIsNext(s: Sess, answer: Answer)
    requires Fetched(s, answer)
    ensures DequeueOutcome(s.queue, answer) == NextAction(s.queue.actions[0].spec)
  {
  }

  lemma FailsAs(s: Sess, answer: Answer, outcome: StartOutcome, now: Time, detail: int)
    requires Fetched(s, answer) && !(outcome.Begins? && Startable(s, s.queue.actions[0].spec))
    ensures var spec := s.queue.actions[0].spec;
            var launched := Launch(Begun(s, answer, spec, now), spec, outcome);
            && StartAction(s, answer, outcome, now, detail) == FailStart(launched, spec, now, detail)
            && (launched.Attachments() <==> Attached(s, spec, outcome))
            && launched.target == s.target && launched.queue == Dequeue(s.queue, answer)
            && launched.queue.actions == s.queue.actions[1..]
  {
    hide FailStart;
  }

  /** A lookup that fails with an error that names the action: it is reported as FAILED, and then it is
      cancelled with the rest of the queue; the runtime is never asked. */
  lemma LookupFailureCancelsQueue(s: Sess, answer: Answer, outcome: StartOutcome, now: Time, detail: int)
    requires Coherent(s.queue) && s.queue.actions != []
    requires s.queue.actions[0].spec.kind in {EnvEnter, EnvExit, EnvOther, TaskRun, SyncInput} && !answer.Found?
    ensures var e := StartAction(s, answer, outcome, now, detail);
            var spec, attached := s.queue.actions[0].spec, s.assetSync && s.jobAttachments;
            if answer.RuntimeErrorRaised? && spec.kind.SyncInput? then e == Effect(s, [], true)
            else
              && !e.crashed && e.sess == s.(queue := e.sess.queue, current := None)
              && e.sess.queue.actions == Only(s.queue.actions, true)
              && e.events == [Reported(Status(spec.id, Some(FAILED), None, Some(now), Some(now), detail), attached)]
                             + Unattempted(Only(s.queue.actions, false), detail, attached)
  {
    hide CancelQueued, Only, Unattempted, CancelReports, Coherent;
    CancelQueuedMeans(s, detail);
  }

  /** An action of a type that the session does not know ends the step with an exception, and stays
      queued. */
  lemma UnknownTypesCrash(s: Sess, answer: Answer, outcome: StartOutcome, now: Time, detail: int)
    requires s.queue.actions != []
    requires var kind := s.queue.actions[0].spec.kind; kind.OtherType? || (kind.EnvOther? && answer.Found?)
    ensures StartAction(s, answer, outcome, now, detail) == Effect(s, [], true)
  {
  }
}
