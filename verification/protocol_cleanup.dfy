/** The cancelation of a session's queue in its cleanup, entry by entry, while the scheduler may go on
    assigning actions to the session. */
module ProtocolCleanup {
  import opened Actions
  import opened Lifecycle
  import opened QueueModel
  import opened SessionModel
  import opened Protocol
  import opened QueueCancelation
  import opened ProtocolShared
  import opened ProtocolSides
  import opened ProtocolStart
  import opened ProtocolCallback
  import opened ProtocolAssign

  /** What is queued when the cleanup lists the queue was never started, but for a finished task whose
      upload did not begin: that one is reported NEVER_ATTEMPTED as well. */
  lemma QueuedAtCleanup(side: Side, done: set<ActionId>, log: seq<Event>, id: ActionId)
    requires SideInv(side, done, log) && Coupled(done, log) && side.thread.Stopping?
    requires HasId(Specs(side.sess.queue.actions), id)
    ensures HasId(side.pipeline, id) && id !in done
    ensures PhaseOf(log, id).Queued? || PhaseOf(log, id).UploadWaiting?
  {
    var s := side.sess;
    assert done + CurrentIds(s) == done;
    var i :| 0 <= i < |Specs(s.queue.actions)| && Specs(s.queue.actions)[i].id == id;
    assert Left(side, done)[i].id == id;
    LeftPhases(side, done, log, i);
  }

  /** An action that is queued as something other than an ENV_EXIT is none. */
  lemma ListedIsNoExit(side: Side, done: set<ActionId>, log: seq<Event>, id: ActionId, a: ActionSpec)
    requires SideInv(side, done, log) && side.thread.Orderly()
    requires id in CancelIds(side.sess.queue.actions, true) && a in side.pipeline && a.id == id
    ensures !a.kind.EnvExit?
  {
    var q := side.sess.queue;
    CancelIdsMembers(q.actions, true);
    var e :| e in q.actions && e.spec.id == id && !e.spec.kind.EnvExit?;
    var i :| 0 <= i < |q.actions| && q.actions[i] == e;
    assert q.actions[i].spec.id in q.byId && q.byId[q.actions[i].spec.id] == e;
    KnownEntryPresents(side, done, a);
    if side.sess.target.Some? && side.sess.target.value.spec.id == id {
      SameIdSameAction(side.pipeline, side.sess.target.value.spec, a);
    }
  }

  /** A session past its orderly life moves on: some ids are completed, the rest is as it was. */
  lemma CleanupMoves(side: Side, side': Side, done: set<ActionId>, gone: set<ActionId>, log: seq<Event>, log': seq<Event>)
    requires SideInv(side, done, log) && !side.thread.Looping? && !side'.thread.Orderly()
    requires side' == side.(sess := side.sess.(queue := side'.sess.queue), thread := side'.thread, work := side'.work)
    requires forall id :: PhaseOf(log', id) == if id in gone then Done else PhaseOf(log, id)
    requires QueueShape(side') && CancelOk(side', done + gone, log')
    ensures SideInv(side', done + gone, log')
  {
    hide QueueOk, QueueShape, CancelOk;
    forall id | InFront(side, id, done) ensures InFront(side', id, done + gone) {
      InFrontGrows(side, side', id, done, done + gone);
    }
  }

  lemma ListKeeps(side: Side, done: set<ActionId>, log: seq<Event>)
    requires SideInv(side, done, log) && Coupled(done, log) && side.thread.Stopping?
    ensures SideInv(side.(thread := Cancelling(CancelIds(side.sess.queue.actions, true), Between)), done, log)
  {
    hide SideInv, Coupled, CancelIds, QueueShape, CancelOk;
    var side' := side.(thread := Cancelling(CancelIds(side.sess.queue.actions, true), Between));
    ListedShape(side, done, log);
    ListedIsOpen(side, done, log);
    assert done + {} == done;
    CleanupMoves(side, side', done, {}, log, log);
  }

  lemma ListedShape(side: Side, done: set<ActionId>, log: seq<Event>)
    requires SideInv(side, done, log) && Coupled(done, log) && side.thread.Stopping?
    ensures QueueShape(side.(thread := Cancelling(CancelIds(side.sess.queue.actions, true), Between)))
  {
    hide Coupled, CancelIds, CurrentOk, TargetOk, PhasesOk, CancelOk;
    forall id | HasId(Specs(side.sess.queue.actions), id) ensures HasId(side.pipeline, id) {
      QueuedAtCleanup(side, done, log, id);
    }
  }

  lemma ListedIsOpen(side: Side, done: set<ActionId>, log: seq<Event>)
    requires SideInv(side, done, log) && Coupled(done, log) && side.thread.Stopping?
    ensures CancelOk(side.(thread := Cancelling(CancelIds(side.sess.queue.actions, true), Between)), done, log)
  {
    var q := side.sess.queue;
    var ids := CancelIds(q.actions, true);
    assert Coherent(q);
    CancelIdsMembers(q.actions, true);
    hide SideInv, Coupled, CancelIds, Coherent;
    assert side.(thread := Cancelling(ids, Between)).thread.Unreported() == ids;
    forall id | id in ids ensures Open(id, side.pipeline, done, log) {
      var e :| e in q.actions && e.spec.id == id;
      var i :| 0 <= i < |q.actions| && q.actions[i] == e;
      assert Specs(q.actions)[i].id == id;
      QueuedAtCleanup(side, done, log, id);
      forall a | a in side.pipeline && a.id == id ensures !a.kind.EnvExit? {
        ListedIsNoExit(side, done, log, id, a);
      }
    }
  }

  lemma PopKeeps(side: Side, done: set<ActionId>, log: seq<Event>)
    requires SideInv(side, done, log) && Cancels(side, Between) && side.thread.ids != []
    ensures SideInv(PopNext(side), done, log)
  {
    hide CurrentOk, TargetOk, PhasesOk, QueueOk, CancelOk, QueueShape, InFront;
    PoppedShape(side);
    PoppedCancels(side, done, log);
    assert done + {} == done;
    CleanupMoves(side, PopNext(side), done, {}, log, log);
  }

  lemma PoppedShape(side: Side)
    requires QueueShape(side) && Cancels(side, Between) && side.thread.ids != []
    ensures QueueShape(PopNext(side))
  {
  }

  lemma PoppedCancels(side: Side, done: set<ActionId>, log: seq<Event>)
    requires CancelOk(side, done, log) && QueueShape(side) && Cancels(side, Between) && side.thread.ids != []
    ensures CancelOk(PopNext(side), done, log)
  {
    hide Open;
    var side', ids := PopNext(side), side.thread.ids;
    assert side.thread.Unreported() == ids && [ids[0]] + ids[1..] == ids;
    assert side'.thread.Unreported() == if ids[0] in side.sess.queue.byId then ids else ids[1..];
    forall i, j | 0 <= i < j < |ids[1..]| ensures ids[1..][i] != ids[1..][j] {
      assert ids[i + 1] != ids[j + 1];
    }
  }

  lemma RemoveKeeps(side: Side, done: set<ActionId>, log: seq<Event>)
    requires SideInv(side, done, log) && side.thread.Cancelling? && side.thread.stage.Popped?
    ensures SideInv(RemovePopped(side), done, log)
  {
    hide CurrentOk, TargetOk, PhasesOk, QueueOk, CancelOk, QueueShape, InFront, RemoveFirst;
    RemovedShape(side);
    RemovedCancels(side, done, log);
    assert done + {} == done;
    CleanupMoves(side, RemovePopped(side), done, {}, log, log);
  }

  lemma RemovedCancels(side: Side, done: set<ActionId>, log: seq<Event>)
    requires CancelOk(side, done, log) && side.thread.Cancelling? && side.thread.stage.Popped?
    ensures CancelOk(RemovePopped(side), done, log)
  {
    hide Open, RemoveFirst;
    var side', entry := RemovePopped(side), side.thread.stage.entry;
    assert side'.thread.Unreported() == if entry in side.sess.queue.actions then side.thread.Unreported() else [];
  }

  lemma RemovedShape(side: Side)
    requires QueueShape(side) && side.thread.Cancelling? && side.thread.stage.Popped?
    ensures QueueShape(RemovePopped(side))
    ensures side.thread.stage.entry in side.sess.queue.actions ==>
              forall e :: e in RemovePopped(side).sess.queue.actions <==>
                          e in side.sess.queue.actions && e != side.thread.stage.entry
  {
    var side', q, entry := RemovePopped(side), side.sess.queue, side.thread.stage.entry;
    RemoveFirstMembers(q.actions, entry);
    forall id | HasId(Specs(side'.sess.queue.actions), id) ensures HasId(side.pipeline, id) {
      var i :| 0 <= i < |Specs(side'.sess.queue.actions)| && Specs(side'.sess.queue.actions)[i].id == id;
      var e := side'.sess.queue.actions[i];
      assert e in side'.sess.queue.actions && e in q.actions;
      var k :| 0 <= k < |q.actions| && q.actions[k] == e;
      assert Specs(q.actions)[k].id == id;
    }
  }

  lemma ReportKeeps(side: Side, done: set<ActionId>, log: seq<Event>)
    requires SideInv(side, done, log) && Unbroken(log) && side.thread.Cancelling? && side.thread.stage.Removed?
    ensures var e := CancelReport(side);
            && SideInv(side.(thread := Cancelling(side.thread.ids, Between)), done + CompletedIds([e]), log + [e])
            && StaysUnbroken(log, [e])
            && e.Completes() && HasId(side.pipeline, e.Subject())
  {
    var side', e := side.(thread := Cancelling(side.thread.ids, Between)), CancelReport(side);
    RemovedIsOpen(side, done, log);
    OneStep(log, e);
    CompletedOfOne(e);
    RestIsOpen(side, done, log, log + [e]);
    hide QueueShape, CancelOk, SideInv, Unbroken, StaysUnbroken, CancelReport;
    CleanupMoves(side, side', done, {e.Subject()}, log, log + [e]);
  }

  lemma RemovedIsOpen(side: Side, done: set<ActionId>, log: seq<Event>)
    requires SideInv(side, done, log) && side.thread.Cancelling? && side.thread.stage.Removed?
    ensures var e := CancelReport(side);
            && e.Completes() && HasId(side.pipeline, e.Subject()) && e.status.completed == Some(NEVER_ATTEMPTED)
            && (PhaseOf(log, e.Subject()).Queued? || PhaseOf(log, e.Subject()).UploadWaiting?)
            && QueueShape(side.(thread := Cancelling(side.thread.ids, Between)))
  {
    assert side.thread.Unreported()[0] == CancelReport(side).Subject();
    assert side.thread.Unreported()[0] in side.thread.Unreported();
    hide QueueOk, CurrentOk, TargetOk, PhasesOk;
  }

  /** What is still to be cancelled is as before. */
  lemma RestIsOpen(side: Side, done: set<ActionId>, log: seq<Event>, log': seq<Event>)
    requires CancelOk(side, done, log) && side.thread.Cancelling? && side.thread.stage.Removed?
    requires var id := side.thread.stage.entry.spec.id;
             forall x :: PhaseOf(log', x) == if x == id then Done else PhaseOf(log, x)
    ensures CancelOk(side.(thread := Cancelling(side.thread.ids, Between)), done + {side.thread.stage.entry.spec.id}, log')
  {
    hide Open, PhaseOf;
    var id, ids := side.thread.stage.entry.spec.id, side.thread.ids;
    var all := [id] + ids;
    assert side.thread.Unreported() == all;
    assert side.(thread := Cancelling(ids, Between)).thread.Unreported() == ids;
    HeadIsGone(all, id, ids);
    forall x | x in ids ensures Open(x, side.pipeline, done + {id}, log') {
      assert x in all && Open(x, side.pipeline, done, log);
      OpenStays(x, side.pipeline, done, log, id, log');
    }
  }

  lemma OpenStays(x: ActionId, pipeline: seq<ActionSpec>, done: set<ActionId>, log: seq<Event>, id: ActionId,
          log': seq<Event>)
    requires Open(x, pipeline, done, log) && x != id && PhaseOf(log', x) == PhaseOf(log, x)
    ensures Open(x, pipeline, done + {id}, log')
  {
    hide PhaseOf;
  }

  lemma HeadIsGone(all: seq<ActionId>, id: ActionId, ids: seq<ActionId>)
    requires all == [id] + ids && forall i, j | 0 <= i < j < |all| :: all[i] != all[j]
    ensures id !in ids && forall i, j | 0 <= i < j < |ids| :: ids[i] != ids[j]
  {
    forall i | 0 <= i < |ids| ensures ids[i] != id {
      assert all[0] != all[i + 1];
    }
    forall i, j | 0 <= i < j < |ids| ensures ids[i] != ids[j] {
      assert all[i + 1] != all[j + 1];
    }
  }

  lemma CompletedOfOne(e: Event)
    requires e.Completes()
    ensures CompletedIds([e]) == {e.Subject()}
  {
    assert e in [e];
  }

  lemma CancelledKeeps(side: Side, done: set<ActionId>, log: seq<Event>)
    requires SideInv(side, done, log) && Cancels(side, Between) && side.thread.ids == []
    ensures SideInv(side.(thread := Exiting), done, log)
  {
    assert done + {} == done;
    CleanupMoves(side, side.(thread := Exiting), done, {}, log, log);
  }

  lemma ThreadEndKeeps(side: Side, done: set<ActionId>, log: seq<Event>, work: Option<Work>, thread: Thread)
    requires SideInv(side, done, log) && side.thread.Exiting? && (thread.Exiting? || thread.Ended?)
    ensures SideInv(side.(work := work, thread := thread), done, log)
  {
    assert done + {} == done;
    CleanupMoves(side, side.(work := work, thread := thread), done, {}, log, log);
  }

  /** The steps of the cleanup do to the queue what the cancelation of one entry does to it, with an
      assignment in between or none: they skip an id without an entry, end the thread when the
      removal raises, and otherwise take the entry out and set its cancel event. */
  lemma StepsCancelAsTheQueueDoes(side: Side, between: Option<seq<ActionSpec>>)
    requires Cancels(side, Between) && side.thread.ids != []
    ensures var popped := PopNext(side);
            match CancelOne(side.sess.queue, side.thread.ids[0], Gaps(None, between, None))
            case Skipped(q) => popped == side.(thread := Cancelling(side.thread.ids[1..], Between)) && q == side.sess.queue
            case Raised(q) =>
              && popped.thread.Cancelling? && popped.thread.stage.Popped?
              && RemovePopped(popped.(sess := popped.sess.(queue := Pass(popped.sess.queue, between))))
                 == side.(sess := side.sess.(queue := q), thread := Ended)
            case TakenOut(q) =>
              && popped.thread.Cancelling? && popped.thread.stage.Popped?
              && RemovePopped(popped.(sess := popped.sess.(queue := Pass(popped.sess.queue, between))))
                 == side.(sess := side.sess.(queue := q),
                          thread := Cancelling(side.thread.ids[1..], Removed(side.sess.queue.byId[side.thread.ids[0]])))
  {
    hide RemoveFirst, Replace;
  }
}
