/** The sessions' half of the protocol proof: each step of a session keeps the session's invariant
    and moves every action along its life cycle. */
module ProtocolSides {
  import opened Actions
  import opened Lifecycle
  import opened QueueModel
  import opened SessionModel
  import opened SchedulerModel
  import opened Protocol
  import opened ProtocolShared

  // ----- the queue as presented

  lemma PresentedOutstanding(target: Option<CurrentAction>, specs: seq<ActionSpec>, gone: set<ActionId>)
    ensures Outstanding(Presented(target, specs), gone) == Presented(target, Outstanding(specs, gone))
  {
    if specs != [] {
      assert Presented(target, specs)[1..] == Presented(target, specs[1..]);
      PresentedOutstanding(target, specs[1..], gone);
      assert Presented(target, [specs[0]] + Outstanding(specs[1..], gone))
          == [Presented(target, specs)[0]] + Presented(target, Outstanding(specs[1..], gone));
    }
  }

  lemma PresentedSame(target: Option<CurrentAction>, specs: seq<ActionSpec>)
    requires target.Some? ==> forall a | a in specs :: a.id != target.value.spec.id
    ensures Presented(target, specs) == specs
  {
  }

  lemma InFrontGrows(side: Side, side': Side, id: ActionId, done: set<ActionId>, done': set<ActionId>)
    requires InFront(side, id, done) && side'.pipeline == side.pipeline && side'.known >= side.known
    requires done <= done'
    ensures InFront(side', id, done') && HasId(side.pipeline, id)
  {
    var k :| 0 <= k < side.known && k < |side.pipeline| && side.pipeline[k].id == id
      && forall i | 0 <= i < k :: side.pipeline[i].id in done;
    assert forall i | 0 <= i < k :: side.pipeline[i].id in done';
  }

  /** Everything outstanding before `known` is in the pipeline, each id once. */
  lemma OutstandingFacts(side: Side, gone: set<ActionId>)
    requires DistinctIds(side.pipeline) && side.known <= |side.pipeline|
    ensures var o := Outstanding(side.pipeline[..side.known], gone);
            && DistinctIds(o)
            && forall i | 0 <= i < |o| :: o[i] in side.pipeline && HasId(side.pipeline, o[i].id) && o[i].id !in gone
  {
    var prefix := side.pipeline[..side.known];
    OutstandingMembers(prefix, gone);
    var o := Outstanding(prefix, gone);
    forall i | 0 <= i < |o| ensures o[i] in side.pipeline && HasId(side.pipeline, o[i].id) && o[i].id !in gone {
      assert o[i] in o;
      var k :| 0 <= k < |prefix| && prefix[k] == o[i];
      assert side.pipeline[k] == o[i];
    }
  }

  /** An action in front that is not gone is the first one outstanding. */
  lemma InFrontIsFirst(side: Side, id: ActionId, done: set<ActionId>)
    requires InFront(side, id, done) && side.known <= |side.pipeline| && id !in done
    ensures var o := Outstanding(side.pipeline[..side.known], done);
            o != [] && o[0].id == id
  {
    var k :| 0 <= k < side.known && k < |side.pipeline| && side.pipeline[k].id == id
      && forall i | 0 <= i < k :: side.pipeline[i].id in done;
    OutstandingFirst(side.pipeline[..side.known], done, k);
  }

  lemma FirstIsInFront(side: Side, done: set<ActionId>)
    requires side.known <= |side.pipeline|
    requires Outstanding(side.pipeline[..side.known], done) != []
    ensures InFront(side, Outstanding(side.pipeline[..side.known], done)[0].id, done)
  {
    var k := OutstandingHead(side.pipeline[..side.known], done);
    assert side.pipeline[k] == side.pipeline[..side.known][k];
    assert forall i | 0 <= i < k :: side.pipeline[i] == side.pipeline[..side.known][i];
  }

  // ----- cancelling the queue

  function CancelGone(q: Queue): set<ActionId> {
    IdSet(CancelIds(q.actions, true))
  }

  /** Exactly the actions other than ENV_EXITs go. */
  lemma CancelGoneIs(q: Queue)
    requires Coherent(q)
    ensures forall i | 0 <= i < |q.actions| ::
              q.actions[i].spec.id in CancelGone(q) <==> !q.actions[i].spec.kind.EnvExit?
    ensures forall id | id in CancelGone(q) :: HasId(Specs(q.actions), id)
  {
    CancelIdsMembers(q.actions, true);
    forall i | 0 <= i < |q.actions|
      ensures q.actions[i].spec.id in CancelGone(q) <==> !q.actions[i].spec.kind.EnvExit?
    {
      assert q.actions[i] in q.actions;
      if q.actions[i].spec.id in CancelGone(q) {
        var f :| f in q.actions && f.spec.id == q.actions[i].spec.id && !f.spec.kind.EnvExit?;
        assert f == q.actions[i];
      }
    }
    forall id | id in CancelGone(q) ensures HasId(Specs(q.actions), id) {
      var f :| f in q.actions && f.spec.id == id;
      var i :| 0 <= i < |q.actions| && q.actions[i] == f;
      assert Specs(q.actions)[i].id == id;
    }
  }

  lemma CancelQueueFacts(s: Sess, detail: int)
    requires Exact(s.queue)
    ensures Exact(CancelQueued(s, detail).sess.queue)
    ensures Specs(CancelQueued(s, detail).sess.queue.actions) == Outstanding(Specs(s.queue.actions), CancelGone(s.queue))
  {
    var q, gone := s.queue, CancelGone(s.queue);
    var r := CancelAll(q, true);
    CancelAllLeaves(q, true);
    DropSpecs(q.actions, gone);
    forall k | k in r.byId ensures HasId(Specs(r.actions), k) {
      OutstandingHasId(Specs(q.actions), gone, k);
    }
  }

  /** The events complete each id of `gone` once, as never attempted, and mention no other. */
  ghost predicate CancelsExactly(events: seq<Event>, gone: set<ActionId>) {
    && CompletedIds(events) == gone
    && (forall f | f in events :: f.Completes() && f.Subject() in gone)
    && forall t, id :: TrackFrom(t, events, id).phase ==
         if id !in gone then t.phase
         else if t.phase.Queued? || t.phase.UploadWaiting? then Done
         else Broken
  }

  lemma CancelEventFacts(s: Sess, detail: int)
    requires Coherent(s.queue)
    ensures CancelsExactly(CancelQueued(s, detail).events, CancelGone(s.queue))
  {
    var ids := CancelIds(s.queue.actions, true);
    var events := CancelQueued(s, detail).events;
    CancelIdsMembers(s.queue.actions, true);
    forall k | 0 <= k < |ids| ensures events[k].Completes() && events[k].Subject() == ids[k] && events[k] in events {}
    forall id | id in CancelGone(s.queue) ensures id in CompletedIds(events) {
      var k :| 0 <= k < |ids| && ids[k] == id;
      assert events[k] in events;
    }
    forall t, id ensures TrackFrom(t, events, id).phase ==
      if id !in CancelGone(s.queue) then t.phase
      else if t.phase.Queued? || t.phase.UploadWaiting? then Done
      else Broken
    {
      CancelReportsTrack(t, ids, detail, s.Attachments(), id);
    }
  }

  // ----- the head of the queue

  ghost predicate Resting(side: Side, done: set<ActionId>, log: seq<Event>) {
    SideInv(side, done, log) && Coupled(done, log) && side.thread.Looping? && side.sess.current.None?
  }

  lemma RestingParts(side: Side, done: set<ActionId>, log: seq<Event>)
    requires Resting(side, done, log)
    ensures side.known <= |side.pipeline| && DistinctIds(side.pipeline) && Exact(side.sess.queue)
    ensures !side.sess.interrupted && side.sess.current.None?
  {
  }

  function Left(side: Side, done: set<ActionId>): seq<ActionSpec>
    requires side.known <= |side.pipeline|
  {
    Outstanding(side.pipeline[..side.known], done)
  }

  /** A session that runs nothing: the queue is what is left, with the finished task, if there is
      one that awaits its upload, first and shown as the upload. */
  lemma RestingQueue(side: Side, done: set<ActionId>, log: seq<Event>)
    requires Resting(side, done, log)
    ensures var s, o := side.sess, Left(side, done);
            && Specs(s.queue.actions) == Presented(s.target, o)
            && DistinctIds(o)
            && (s.target.Some? ==> o != [] && o[0].id == s.target.value.spec.id)
            && (o != [] ==> InFront(side, o[0].id, done))
  {
    var s, o := side.sess, Left(side, done);
    assert done + CurrentIds(s) == done;
    OutstandingFacts(side, done);
    if s.target.Some? {
      InFrontIsFirst(side, s.target.value.spec.id, done);
    }
    if o != [] {
      FirstIsInFront(side, done);
    }
  }

  /** What is left was never started, but for the task that awaits its upload. */
  lemma LeftPhases(side: Side, done: set<ActionId>, log: seq<Event>, i: nat)
    requires PhasesOk(side, log) && Coupled(done, log) && DistinctIds(side.pipeline)
    requires side.sess.current.None? || side.sess.interrupted || side.sess.current.value.spec.id in done
    requires side.known <= |side.pipeline| && i < |Left(side, done)|
    ensures var a := Left(side, done)[i];
            && a in side.pipeline && HasId(side.pipeline, a.id) && a.id !in done
            && (PhaseOf(log, a.id).Queued?
                || (side.sess.current.None? && side.sess.target.Some? && side.sess.target.value.spec.id == a.id))
  {
    OutstandingFacts(side, done);
    var a := Left(side, done)[i];
    var k :| 0 <= k < |side.pipeline| && side.pipeline[k] == a;
    assert !PhaseOf(log, a.id).Done?;
  }

  lemma HeadFacts(side: Side, done: set<ActionId>, log: seq<Event>)
    requires Resting(side, done, log) && side.sess.queue.actions != []
    ensures var s, o := side.sess, Left(side, done);
            var spec := s.queue.actions[0].spec;
            && |o| == |s.queue.actions|
            && InFront(side, spec.id, done) && spec.id !in done && spec.id == o[0].id && HasId(side.pipeline, spec.id)
            && (if s.target.Some? then spec == UploadSpec(s.target.value) && PhaseOf(log, spec.id).UploadWaiting?
                else spec == o[0] && spec in side.pipeline && spec.kind.Assignable() && PhaseOf(log, spec.id).Queued?)
            && Specs(s.queue.actions)[1..] == o[1..]
  {
    var s, o := side.sess, Left(side, done);
    RestingQueue(side, done, log);
    assert |Specs(s.queue.actions)| == |o|;
    LeftPhases(side, done, log, 0);
    assert Specs(s.queue.actions)[0] == Presented(s.target, o)[0];
    assert Presented(s.target, o)[1..] == o[1..];
  }
}
