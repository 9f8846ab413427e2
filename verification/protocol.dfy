/** The session-action protocol as a state machine: one scheduler, its service, and any number of
    sessions, each with its own thread and its own Open Job Description runtime.

    A step is one critical section of the action-update lock, or one action of the environment. A
    run is any sequence of enabled steps, so every interleaving is covered. */
module Protocol {
  import opened Actions
  import opened Lifecycle
  import opened QueueModel
  import opened SessionModel
  import opened SchedulerModel

  type SessionId = nat

  /** Where the cleanup stands with the entry it is cancelling: it has none, it has popped one from
      the dictionary, or it has removed it from the list as well and not yet reported it. */
  datatype Stage = Between | Popped(entry: Entry) | Removed(entry: Entry)

  /** Where the session's thread is: in its run loop; in the cleanup before, while and after it
      cancels the queue, `ids` being what is still to be cancelled; or gone. The cancelation holds no
      lock but for each report. */
  datatype Thread = Looping | Stopping | Cancelling(ids: seq<ActionId>, stage: Stage) | Exiting | Ended
  {
    /** Only locked sections have touched the queue so far. */
    predicate Orderly() {
      Looping? || Stopping?
    }

    /** The ids that the cancelation will still report. */
    function Unreported(): seq<ActionId> {
      if !Cancelling? then []
      else (match stage case Between => [] case Popped(e) => [e.spec.id] case Removed(e) => [e.spec.id]) + ids
    }
  }

  /** What the runtime of a session is running. */
  datatype Work = OfAction(spec: ActionSpec) | CleanupExit(env: EnvId)

  /** One session. `pipeline` is everything the service ever assigned to it, `known` how much of
      that the last assignment delivered to the worker. */
  datatype Side = Side(pipeline: seq<ActionSpec>, known: nat, sess: Sess, thread: Thread, work: Option<Work>)

  /** The scheduler's request cycle. */
  datatype Link =
    | Idle
    | InFlight(tx: set<UpdateId>, sent: map<ActionId, Status>)
    | Replied(tx: set<UpdateId>, response: map<SessionId, seq<ActionSpec>>)
    | Settled(response: map<SessionId, seq<ActionSpec>>)

  /** `updates` is the scheduler's map, `view` what the service was told, `log` everything that
      happened, and `clock` the latest time a progress update carried. */
  datatype State = State(
    updates: map<ActionId, Status>,
    view: map<ActionId, Status>,
    log: seq<Event>,
    link: Link,
    clock: Time,
    sides: map<SessionId, Side>)

  datatype Step =
    | Collect
    | Serve(more: map<SessionId, seq<ActionSpec>>)
    | LoseRequest
    | LoseReply(more: map<SessionId, seq<ActionSpec>>)
    | CommitSent
    | Assign(sid: SessionId)
      /** An assignment whose pass over the actions the cancelation broke into. */
    | TornAssign(sid: SessionId, queue: Queue)
    | GiveBack(sid: SessionId, now: Time, detail: int)
    | Start(sid: SessionId, answer: Answer, outcome: StartOutcome, now: Time, detail: int)
    | Callback(sid: SessionId, state: ActionState, now: Time, detail: int)
    | Stop(sid: SessionId, result: CompletedStatus, detail: int)
    | CleanupInterrupt(sid: SessionId, now: Time)
    | CleanupList(sid: SessionId)
    | CleanupPop(sid: SessionId)
    | CleanupRemove(sid: SessionId)
    | CleanupReport(sid: SessionId)
    | CleanupCancelled(sid: SessionId)
    | CleanupExitEnv(sid: SessionId, env: EnvId)
    | EndThread(sid: SessionId)

  // ----- the service's contract

  predicate SharesNoId(a: seq<ActionSpec>, b: seq<ActionSpec>) {
    forall i, j | 0 <= i < |a| && 0 <= j < |b| :: a[i].id != b[j].id
  }

  /** The service appends assignable actions with ids it never used. */
  ghost predicate ServiceAppends(sides: map<SessionId, Side>, more: map<SessionId, seq<ActionSpec>>) {
    && more.Keys == sides.Keys
    && (forall sid | sid in sides ::
          && DistinctIds(sides[sid].pipeline + more[sid])
          && forall a | a in more[sid] :: a.kind.Assignable())
    && forall one, two | one in sides && two in sides && one != two ::
         SharesNoId(sides[one].pipeline + more[one], sides[two].pipeline + more[two])
  }

  function Extend(sides: map<SessionId, Side>, more: map<SessionId, seq<ActionSpec>>): map<SessionId, Side>
    requires more.Keys == sides.Keys
  {
    map sid | sid in sides :: sides[sid].(pipeline := sides[sid].pipeline + more[sid])
  }

  /** The service answers with the actions it does not know to be completed, in pipeline order. */
  function Respond(sides: map<SessionId, Side>, view: map<ActionId, Status>): map<SessionId, seq<ActionSpec>> {
    map sid | sid in sides :: Outstanding(sides[sid].pipeline, TerminalIds(view))
  }

  // ----- steps

  predicate Cancels(side: Side, stage: Stage) {
    side.thread.Cancelling? && side.thread.stage == stage
  }

  /** What a pass of `replace` over `specs` can leave when the cancelation popped or removed an entry
      meanwhile: the dictionary only gained new entries for actions it did not have, and each place
      of the list has the entry of its action, or the popped one if it was looked up before. */
  ghost predicate Torn(q: Queue, stage: Stage, specs: seq<ActionSpec>, r: Queue) {
    && |r.actions| == |specs| && r.cancelled == q.cancelled && q.nextEvent <= r.nextEvent
    && (forall k | k in q.byId :: k in r.byId && r.byId[k] == q.byId[k])
    && (forall k | k in r.byId && k !in q.byId ::
          r.byId[k].spec.id == k && q.nextEvent <= r.byId[k].event < r.nextEvent)
    && forall i | 0 <= i < |specs| ::
         var e := r.actions[i];
         && e.spec.id == specs[i].id
         && ((e.spec.id in r.byId && r.byId[e.spec.id] == e) || (!stage.Between? && stage.entry == e))
  }

  ghost predicate Enabled(s: State, step: Step) {
    match step
    case Collect => s.link.Idle? || s.link.Settled?
    case Serve(more) => s.link.InFlight? && ServiceAppends(s.sides, more)
    case LoseRequest => s.link.InFlight?
    case LoseReply(more) => s.link.InFlight? && ServiceAppends(s.sides, more)
    case CommitSent => s.link.Replied?
    case Assign(sid) => s.link.Settled? && sid in s.sides && sid in s.link.response
    case TornAssign(sid, queue) =>
      && s.link.Settled? && sid in s.sides && sid in s.link.response && s.sides[sid].thread.Cancelling?
      && Torn(s.sides[sid].sess.queue, s.sides[sid].thread.stage,
              Outstanding(Unfinished(s.link.response[sid], s.updates), CurrentIds(s.sides[sid].sess)), queue)
    case GiveBack(sid, _, _) =>
      s.link.Settled? && sid in s.sides && sid in s.link.response && s.sides[sid].thread.Ended?
    case Start(sid, _, _, _, _) =>
      sid in s.sides && s.sides[sid].thread.Looping? && s.sides[sid].sess.current.None?
    case Callback(sid, state, now, _) =>
      sid in s.sides && s.sides[sid].work.Some? && (state.RUNNING? ==> now > s.clock)
    case Stop(sid, result, _) => sid in s.sides && result in {INTERRUPTED, FAILED}
    case CleanupInterrupt(sid, _) => sid in s.sides && s.sides[sid].thread.Looping? && s.sides[sid].sess.stop
    case CleanupList(sid) => sid in s.sides && s.sides[sid].thread.Stopping?
    case CleanupPop(sid) => sid in s.sides && Cancels(s.sides[sid], Between) && s.sides[sid].thread.ids != []
    case CleanupRemove(sid) => sid in s.sides && s.sides[sid].thread.Cancelling? && s.sides[sid].thread.stage.Popped?
    case CleanupReport(sid) => sid in s.sides && s.sides[sid].thread.Cancelling? && s.sides[sid].thread.stage.Removed?
    case CleanupCancelled(sid) => sid in s.sides && Cancels(s.sides[sid], Between) && s.sides[sid].thread.ids == []
    case CleanupExitEnv(sid, _) => sid in s.sides && s.sides[sid].thread.Exiting? && s.sides[sid].work.None?
    case EndThread(sid) => sid in s.sides && s.sides[sid].thread.Exiting?
  }

  /** No job entity lookup failed in a way that names the action. */
  ghost predicate Clean(s: State, step: Step) {
    step.Start? && step.sid in s.sides ==>
      !DequeueOutcome(s.sides[step.sid].sess.queue, step.answer).ActionError?
  }

  /** A session took a step: its events reach the map and the log under the lock. */
  function Post(s: State, sid: SessionId, side: Side, events: seq<Event>): State {
    s.(updates := Absorb(s.updates, events), log := s.log + events, sides := s.sides[sid := side])
  }

  /** An exception that leaves the start sets the stop event, with a message of its own. */
  function AfterStart(side: Side, e: Effect, detail: int): Side {
    side.(sess := if e.crashed then e.sess.(stop := true, stopDetail := detail) else e.sess,
          work := if e.sess.current.Some? then Some(OfAction(e.sess.current.value.spec)) else None)
  }

  /** An id without an entry is skipped. */
  function PopNext(side: Side): Side
    requires Cancels(side, Between) && side.thread.ids != []
  {
    var q, id, rest := side.sess.queue, side.thread.ids[0], side.thread.ids[1..];
    if id in q.byId then
      side.(sess := side.sess.(queue := q.(byId := q.byId - {id})), thread := Cancelling(rest, Popped(q.byId[id])))
    else side.(thread := Cancelling(rest, Between))
  }

  /** The popped entry leaves the list; when it is not there the cleanup ends with an exception. */
  function RemovePopped(side: Side): Side
    requires side.thread.Cancelling? && side.thread.stage.Popped?
  {
    var q, entry := side.sess.queue, side.thread.stage.entry;
    if entry in q.actions then
      side.(sess := side.sess.(queue := q.(actions := RemoveFirst(q.actions, entry), cancelled := q.cancelled + {entry.event})),
            thread := Cancelling(side.thread.ids, Removed(entry)))
    else side.(thread := Ended)
  }

  function CancelReport(side: Side): Event
    requires side.thread.Cancelling? && side.thread.stage.Removed?
  {
    Reported(NeverAttempted(side.thread.stage.entry.spec.id, side.sess.stopDetail), side.sess.Attachments())
  }

  function Next(s: State, step: Step): State
    requires Enabled(s, step)
  {
    match step
    case Collect => s.(link := InFlight(Transaction(s.updates), s.updates))
    case Serve(more) =>
      var sides := Extend(s.sides, more);
      var view := s.view + s.link.sent;
      s.(view := view, sides := sides, link := Replied(s.link.tx, Respond(sides, view)))
    case LoseRequest => s.(link := Idle)
    case LoseReply(more) =>
      s.(view := s.view + s.link.sent, sides := Extend(s.sides, more), link := Idle)
    case CommitSent =>
      s.(updates := Commit(s.updates, s.link.tx), link := Settled(s.link.response))
    case Assign(sid) =>
      var side := s.sides[sid];
      var todo := Unfinished(s.link.response[sid], s.updates);
      Post(s, sid, side.(sess := ReplaceAssigned(side.sess, todo), known := |side.pipeline|), [])
    case TornAssign(sid, queue) =>
      var side := s.sides[sid];
      Post(s, sid, side.(sess := side.sess.(queue := queue), known := |side.pipeline|), [])
    case GiveBack(sid, now, detail) =>
      Post(s, sid, s.sides[sid], ReturnEvents(s.updates, s.link.response[sid], true, now, detail))
    case Start(sid, answer, outcome, now, detail) =>
      var e := StartAction(s.sides[sid].sess, answer, outcome, now, detail);
      Post(s, sid, AfterStart(s.sides[sid], e, detail), e.events)
    case Callback(sid, state, now, detail) =>
      var side := s.sides[sid];
      var e := ActionUpdated(side.sess, state, now, detail);
      Post(s.(clock := if state.RUNNING? then now else s.clock), sid,
           side.(sess := e.sess, work := if state.RUNNING? then side.work else None), e.events)
    case Stop(sid, result, detail) =>
      Post(s, sid, s.sides[sid].(sess := Stopped(s.sides[sid].sess, result, detail)), [])
    case CleanupInterrupt(sid, now) =>
      var e := Interrupt(s.sides[sid].sess, now);
      Post(s, sid, s.sides[sid].(sess := e.sess, thread := Stopping), e.events)
    case CleanupList(sid) =>
      var ids := CancelIds(s.sides[sid].sess.queue.actions, true);
      Post(s, sid, s.sides[sid].(thread := Cancelling(ids, Between)), [])
    case CleanupPop(sid) => Post(s, sid, PopNext(s.sides[sid]), [])
    case CleanupRemove(sid) => Post(s, sid, RemovePopped(s.sides[sid]), [])
    case CleanupReport(sid) =>
      var side := s.sides[sid];
      Post(s, sid, side.(thread := Cancelling(side.thread.ids, Between)), [CancelReport(side)])
    case CleanupCancelled(sid) => Post(s, sid, s.sides[sid].(thread := Exiting), [])
    case CleanupExitEnv(sid, env) =>
      Post(s, sid, s.sides[sid].(work := Some(CleanupExit(env))), [])
    case EndThread(sid) =>
      Post(s, sid, s.sides[sid].(thread := Ended), [])
  }

  ghost predicate Init(s: State) {
    && s.updates == map[] && s.view == map[] && s.log == [] && s.link.Idle?
    && forall sid | sid in s.sides ::
         exists assetSync :: s.sides[sid] == Side([], 0, NewSession(assetSync), Looping, None)
  }

  /** A run in which no lookup fails in a way that names its action. */
  ghost predicate Legal(s: State, steps: seq<Step>)
    decreases steps
  {
    steps == [] || (Enabled(s, steps[0]) && Clean(s, steps[0]) && Legal(Next(s, steps[0]), steps[1..]))
  }

  ghost function Exec(s: State, steps: seq<Step>): State
    requires Legal(s, steps)
    decreases steps
  {
    if steps == [] then s else Exec(Next(s, steps[0]), steps[1..])
  }

  /** Any run, whatever the lookups answer. */
  ghost predicate Possible(s: State, steps: seq<Step>)
    decreases steps
  {
    steps == [] || (Enabled(s, steps[0]) && Possible(Next(s, steps[0]), steps[1..]))
  }

  ghost function Reached(s: State, steps: seq<Step>): State
    requires Possible(s, steps)
    decreases steps
  {
    if steps == [] then s else Reached(Next(s, steps[0]), steps[1..])
  }

  // ----- the invariant

  /** The latest known status of every action: the service's, overlaid with what is pending. */
  function Overlay(s: State): map<ActionId, Status> {
    s.view + s.updates
  }

  function DoneIds(s: State): set<ActionId> {
    TerminalIds(Overlay(s))
  }

  predicate ProgressTimeIs(st: Status, clock: Time) {
    st.Terminal() || (st.updateTime.Some? && st.updateTime.value <= clock)
  }

  /** What holds of the updates an unanswered or uncommitted request carries. */
  ghost predicate TransactionOk(tx: set<UpdateId>, done: set<ActionId>, clock: Time) {
    forall u | u in tx ::
      match u.key
      case ByStatus(_) => u.id in done
      case ByTime(t) => t.Some? && t.value <= clock
  }

  ghost predicate LinkOk(s: State) {
    match s.link
    case Idle => true
    case InFlight(tx, sent) =>
      && TransactionOk(tx, DoneIds(s), s.clock)
      && sent.Keys <= s.updates.Keys
      && (forall id | id in sent ::
            && sent[id].id == id
            && (sent[id].Terminal() ==> id in DoneIds(s)))
      && (forall id | id in s.updates && UpdateIdOf(s.updates[id]) in tx :: id in sent && sent[id] == s.updates[id])
    case Replied(tx, response) =>
      && TransactionOk(tx, DoneIds(s), s.clock)
      && (forall id | id in s.updates && UpdateIdOf(s.updates[id]) in tx :: id in s.view && s.view[id] == s.updates[id])
      && response == Respond(s.sides, s.view)
    case Settled(response) => response == Respond(s.sides, s.view)
  }

  /** Nothing reported is lost, and no action ever breaks its life cycle. */
  ghost predicate ReportsOk(s: State) {
    && (forall id | id in s.updates :: s.updates[id].id == id && ProgressTimeIs(s.updates[id], s.clock))
    && (forall id :: Lookup(Overlay(s), id) == TrackOf(s.log, id).latest)
    && (forall id :: !PhaseOf(s.log, id).Broken?)
    && (forall id | id in s.view && s.view[id].Terminal() :: id in DoneIds(s))
  }

  /** Where `id` stands in the pipeline: delivered, with everything before it completed. */
  ghost predicate InFront(side: Side, id: ActionId, done: set<ActionId>) {
    exists k :: 0 <= k < side.known && k < |side.pipeline| && side.pipeline[k].id == id
                && forall i | 0 <= i < k :: side.pipeline[i].id in done
  }

  /** The queue shows a task that awaits its upload as the upload. */
  function Presented(target: Option<CurrentAction>, specs: seq<ActionSpec>): (r: seq<ActionSpec>)
    ensures |r| == |specs|
    ensures forall i | 0 <= i < |r| ::
      r[i] == if target.Some? && target.value.spec.id == specs[i].id then UploadSpec(target.value) else specs[i]
  {
    seq(|specs|, i requires 0 <= i < |specs| =>
      if target.Some? && target.value.spec.id == specs[i].id then UploadSpec(target.value) else specs[i])
  }

  predicate Exact(q: Queue) {
    Coherent(q) && forall k | k in q.byId :: HasId(Specs(q.actions), k)
  }

  /** The queue is what is delivered, not completed and not running, in pipeline order. */
  ghost predicate QueueOk(side: Side, done: set<ActionId>) {
    && Exact(side.sess.queue)
    && side.known <= |side.pipeline|
    && Specs(side.sess.queue.actions)
       == Presented(side.sess.target, Outstanding(side.pipeline[..side.known], done + CurrentIds(side.sess)))
  }

  ghost predicate CurrentOk(side: Side, done: set<ActionId>, log: seq<Event>) {
    var s := side.sess;
    if s.current.None? then !s.interrupted && (side.thread.Looping? ==> side.work.None?)
    else
      var c := s.current.value.spec;
      && InFront(side, c.id, done)
      && (s.interrupted ==> c.id in done && !side.thread.Looping?)
      && (!s.interrupted ==>
            && side.thread.Looping?
            && side.work == Some(OfAction(c))
            && c.id !in done
            && if c.kind.SyncOutput? then
                 s.target.Some? && c == UploadSpec(s.target.value) && PhaseOf(log, c.id).Uploading?
               else s.target.None? && c in side.pipeline && PhaseOf(log, c.id) == Running(c.kind.TaskRun?))
  }

  ghost predicate TargetOk(side: Side, done: set<ActionId>, log: seq<Event>) {
    var s := side.sess;
    s.target.Some? ==>
      var x := s.target.value.spec.id;
      && s.target.value.spec in side.pipeline && s.target.value.spec.kind.TaskRun?
      && InFront(side, x, done)
      && if x in done then !side.thread.Looping?
         else
           && (s.current.None? ==> PhaseOf(log, x).UploadWaiting?)
           && (s.current.Some? ==> s.current.value.spec.id == x)
  }

  ghost predicate PhasesOk(side: Side, log: seq<Event>) {
    forall i | 0 <= i < |side.pipeline| ::
      var id := side.pipeline[i].id;
      || PhaseOf(log, id).Queued? || PhaseOf(log, id).Done?
      || (side.sess.current.Some? && !side.sess.interrupted && id == side.sess.current.value.spec.id)
      || (side.sess.current.None? && side.sess.target.Some? && id == side.sess.target.value.spec.id)
  }

  /** The action was not completed and does not run, and it is no ENV_EXIT. */
  ghost predicate Open(id: ActionId, pipeline: seq<ActionSpec>, done: set<ActionId>, log: seq<Event>) {
    && HasId(pipeline, id) && id !in done
    && (PhaseOf(log, id).Queued? || PhaseOf(log, id).UploadWaiting?)
    && forall a | a in pipeline && a.id == id :: !a.kind.EnvExit?
  }

  /** What the cancelation relies on: every id that it will still report is open, and it will report
      none twice. The queue does not matter to it. */
  ghost predicate CancelOk(side: Side, done: set<ActionId>, log: seq<Event>) {
    var ids := side.thread.Unreported();
    && (forall i, j | 0 <= i < j < |ids| :: ids[i] != ids[j])
    && (forall id | id in ids :: Open(id, side.pipeline, done, log))
    && (side.thread.Cancelling? && side.thread.stage.Popped? ==>
          && side.thread.stage.entry.event < side.sess.queue.nextEvent
          && forall k | k in side.sess.queue.byId :: side.sess.queue.byId[k] != side.thread.stage.entry)
  }

  /** What is left of the queue's order once the cancelation may have broken into it. */
  ghost predicate QueueShape(side: Side) {
    var q := side.sess.queue;
    && (forall k | k in q.byId :: q.byId[k].spec.id == k && q.byId[k].event < q.nextEvent)
    && DistinctIds(Specs(q.actions))
    && forall id | HasId(Specs(q.actions), id) :: HasId(side.pipeline, id)
  }

  ghost predicate SideInv(side: Side, done: set<ActionId>, log: seq<Event>) {
    && DistinctIds(side.pipeline)
    && (forall a | a in side.pipeline :: a.kind.Assignable())
    && side.sess.stopResult in {INTERRUPTED, FAILED}
    && (!side.thread.Looping? ==> side.sess.stop)
    && (side.thread.Orderly() ==> QueueOk(side, done))
    && (!side.thread.Orderly() ==> QueueShape(side))
    && CancelOk(side, done, log)
    && CurrentOk(side, done, log)
    && TargetOk(side, done, log)
    && PhasesOk(side, log)
  }

  ghost predicate Inv(s: State) {
    && ReportsOk(s)
    && LinkOk(s)
    && (forall sid | sid in s.sides :: SideInv(s.sides[sid], DoneIds(s), s.log))
    && (forall one, two | one in s.sides && two in s.sides && one != two ::
          SharesNoId(s.sides[one].pipeline, s.sides[two].pipeline))
    && (forall id | (forall sid | sid in s.sides :: !HasId(s.sides[sid].pipeline, id)) :: TrackOf(s.log, id) == Fresh)
  }
}
