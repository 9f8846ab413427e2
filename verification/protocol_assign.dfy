/** Assignments and the end of a session's thread keep the invariant of the session. */
module ProtocolAssign {
  import opened Actions
  import opened Lifecycle
  import opened QueueModel
  import opened SessionModel
  import opened SchedulerModel
  import opened Protocol
  import opened ProtocolShared
  import opened ProtocolSides
  import opened ProtocolStart
  import opened ProtocolCallback

  // ----- assignment

  /** What reaches the session's queue: everything not completed, neither by what the service knew
      nor by what is still pending, without the running action. */
  lemma TodoIsWhatIsLeft(s: State, sid: SessionId)
    requires Inv(s) && s.link.Settled? && sid in s.sides
    ensures Unfinished(s.link.response[sid], s.updates) == Outstanding(s.sides[sid].pipeline, DoneIds(s))
  {
    var pipeline := s.sides[sid].pipeline;
    var known, pending := TerminalIds(s.view), TerminalIds(s.updates);
    OutstandingCompose(pipeline, known, pending);
    forall id ensures id in known + pending <==> id in DoneIds(s) {
      if id in s.updates {
        assert Overlay(s)[id] == s.updates[id];
      }
    }
    OutstandingAgree(pipeline, known + pending, DoneIds(s));
  }

  lemma ToQueue(side: Side, done: set<ActionId>)
    requires DistinctIds(side.pipeline) && forall a | a in side.pipeline :: a.kind.Assignable()
    requires Coherent(side.sess.queue)
    ensures var specs := Outstanding(side.pipeline, done + CurrentIds(side.sess));
            && Outstanding(Outstanding(side.pipeline, done), CurrentIds(side.sess)) == specs
            && DistinctIds(specs)
            && ReplaceSucceeds(side.sess.queue, specs)
  {
    var q, cur := side.sess.queue, CurrentIds(side.sess);
    var specs := Outstanding(side.pipeline, done + cur);
    OutstandingCompose(side.pipeline, done, cur);
    OutstandingMembers(side.pipeline, done + cur);
    FillFailsOnUnknownType(q.byId, q.nextEvent, specs);
  }

  /** An entry the queue already has shows its action as before. */
  lemma KnownEntryPresents(side: Side, done: set<ActionId>, a: ActionSpec)
    requires QueueOk(side, done) && DistinctIds(side.pipeline)
    requires a in side.pipeline && a.id in side.sess.queue.byId
    ensures side.sess.queue.byId[a.id].spec == Presented(side.sess.target, [a])[0]
  {
    var q, left := side.sess.queue, Outstanding(side.pipeline[..side.known], done + CurrentIds(side.sess));
    OutstandingFacts(side, done + CurrentIds(side.sess));
    var m :| 0 <= m < |Specs(q.actions)| && Specs(q.actions)[m].id == a.id;
    assert q.byId[a.id] == q.actions[m];
    assert left[m].id == a.id && left[m] in side.pipeline;
    SameIdSameAction(side.pipeline, left[m], a);
  }

  /** A finished task that awaits its upload already has its entry: the upload. */
  lemma WaitingTaskIsKnown(side: Side, done: set<ActionId>, log: seq<Event>, a: ActionSpec)
    requires SideInv(side, done, log) && side.thread.Orderly() && a.id !in done + CurrentIds(side.sess)
    requires side.sess.target.Some? && side.sess.target.value.spec.id == a.id
    ensures a.id in side.sess.queue.byId
  {
    var q := side.sess.queue;
    assert done + CurrentIds(side.sess) == done;
    InFrontIsFirst(side, a.id, done);
    assert Specs(q.actions)[0].id == a.id;
    assert q.actions[0].spec.id in q.byId;
  }

  lemma ReplacedPresents(side: Side, done: set<ActionId>, log: seq<Event>, i: nat)
    requires SideInv(side, done, log) && side.thread.Orderly()
    requires i < |Outstanding(side.pipeline, done + CurrentIds(side.sess))|
    ensures var specs := Outstanding(side.pipeline, done + CurrentIds(side.sess));
            var byId := side.sess.queue.byId;
            Presented(side.sess.target, specs)[i]
            == if specs[i].id in byId then byId[specs[i].id].spec else specs[i]
  {
    var specs := Outstanding(side.pipeline, done + CurrentIds(side.sess));
    OutstandingMembers(side.pipeline, done + CurrentIds(side.sess));
    assert specs[i] in specs;
    if specs[i].id in side.sess.queue.byId {
      KnownEntryPresents(side, done, specs[i]);
    } else if side.sess.target.Some? && side.sess.target.value.spec.id == specs[i].id {
      WaitingTaskIsKnown(side, done, log, specs[i]);
    }
  }

  lemma SameIdSameAction(specs: seq<ActionSpec>, a: ActionSpec, b: ActionSpec)
    requires DistinctIds(specs) && a in specs && b in specs
    ensures a.id == b.id ==> a == b
  {
    var i :| 0 <= i < |specs| && specs[i] == a;
    var j :| 0 <= j < |specs| && specs[j] == b;
  }

  lemma AssignQueue(side: Side, done: set<ActionId>, log: seq<Event>)
    requires SideInv(side, done, log) && side.thread.Orderly()
    ensures var specs := Outstanding(side.pipeline, done + CurrentIds(side.sess));
            var q := Replace(side.sess.queue, specs);
            && Exact(q)
            && Specs(q.actions) == Presented(side.sess.target, specs)
  {
    var q := side.sess.queue;
    var gone := done + CurrentIds(side.sess);
    var specs := Outstanding(side.pipeline, gone);
    var r := Replace(q, specs);
    ToQueue(side, done);
    ReplaceFollows(q, specs);
    assert |Ids(Specs(r.actions))| == |Ids(specs)|;
    forall i | 0 <= i < |specs| ensures Specs(r.actions)[i] == Presented(side.sess.target, specs)[i] {
      ReplacedPresents(side, done, log, i);
    }
    FillKeeps(q.byId, q.nextEvent, specs);
    forall k | k in r.byId ensures HasId(Specs(r.actions), k) {
      if k in q.byId {
        QueuedStaysQueued(side, done, log, k);
      }
      var i :| 0 <= i < |specs| && specs[i].id == k;
      assert Ids(Specs(r.actions))[i] == k;
      assert Specs(r.actions)[i].id == k;
    }
  }

  lemma QueuedStaysQueued(side: Side, done: set<ActionId>, log: seq<Event>, id: ActionId)
    requires SideInv(side, done, log) && side.thread.Orderly() && id in side.sess.queue.byId
    ensures HasId(Outstanding(side.pipeline, done + CurrentIds(side.sess)), id)
  {
    var gone := done + CurrentIds(side.sess);
    var left := Outstanding(side.pipeline[..side.known], gone);
    var i :| 0 <= i < |Specs(side.sess.queue.actions)| && Specs(side.sess.queue.actions)[i].id == id;
    OutstandingFacts(side, gone);
    assert left[i].id == id;
    OutstandingHasId(side.pipeline, gone, id);
  }

  /** What an assignment leaves of a queue that the cancelation works on. */
  lemma ReplaceShape(side: Side, specs: seq<ActionSpec>)
    requires QueueShape(side) && DistinctIds(specs)
    requires forall a | a in specs :: a.kind.Assignable() && HasId(side.pipeline, a.id)
    ensures ReplaceSucceeds(side.sess.queue, specs)
    ensures var q, r := side.sess.queue, Replace(side.sess.queue, specs);
            && QueueShape(side.(sess := side.sess.(queue := r)))
            && Ids(Specs(r.actions)) == Ids(specs)
            && q.nextEvent <= r.nextEvent
            && (forall k | k in q.byId :: k in r.byId && r.byId[k] == q.byId[k])
            && (forall k | k in r.byId && k !in q.byId :: r.byId[k].event >= q.nextEvent)
            && forall e | e in r.actions :: e.spec.id in r.byId && r.byId[e.spec.id] == e
  {
    var q, r := side.sess.queue, Replace(side.sess.queue, specs);
    FillFailsOnUnknownType(q.byId, q.nextEvent, specs);
    FillKeeps(q.byId, q.nextEvent, specs);
    forall i | 0 <= i < |specs|
      ensures r.actions[i] == if specs[i].id in q.byId then q.byId[specs[i].id] else Entry(q.nextEvent + i, specs[i])
      ensures specs[i].id in r.byId && r.byId[specs[i].id] == r.actions[i] && r.actions[i].spec.id == specs[i].id
    {
      FillAt(q.byId, q.nextEvent, specs, i);
    }
    forall k | k in r.byId && k !in q.byId
      ensures r.byId[k].spec.id == k && q.nextEvent <= r.byId[k].event < r.nextEvent
    {
      var i :| 0 <= i < |specs| && specs[i].id == k;
      assert r.byId[specs[i].id] == r.actions[i];
    }
    SameIdsShape(side, specs, r);
  }

  lemma SameIdsShape(side: Side, specs: seq<ActionSpec>, r: Queue)
    requires DistinctIds(specs) && forall a | a in specs :: HasId(side.pipeline, a.id)
    requires |r.actions| == |specs| && forall i | 0 <= i < |specs| :: r.actions[i].spec.id == specs[i].id
    ensures DistinctIds(Specs(r.actions)) && Ids(Specs(r.actions)) == Ids(specs)
    ensures forall id | HasId(Specs(r.actions), id) :: HasId(side.pipeline, id)
  {
    forall id | HasId(Specs(r.actions), id) ensures HasId(side.pipeline, id) {
      var i :| 0 <= i < |Specs(r.actions)| && Specs(r.actions)[i].id == id;
      assert specs[i] in specs;
    }
  }

  lemma LeftToQueue(side: Side, done: set<ActionId>)
    requires DistinctIds(side.pipeline) && forall a | a in side.pipeline :: a.kind.Assignable()
    ensures var specs := Outstanding(side.pipeline, done + CurrentIds(side.sess));
            && Outstanding(Outstanding(side.pipeline, done), CurrentIds(side.sess)) == specs
            && DistinctIds(specs)
            && forall a | a in specs :: a.kind.Assignable() && HasId(side.pipeline, a.id)
  {
    var specs := Outstanding(side.pipeline, done + CurrentIds(side.sess));
    OutstandingCompose(side.pipeline, done, CurrentIds(side.sess));
    OutstandingMembers(side.pipeline, done + CurrentIds(side.sess));
    forall a | a in specs ensures HasId(side.pipeline, a.id) {
      var i :| 0 <= i < |side.pipeline| && side.pipeline[i] == a;
    }
  }

  /** The queue of a session that is past its orderly life may change in any way that keeps its
      shape. */
  lemma ShapeKeeps(side: Side, done: set<ActionId>, log: seq<Event>, queue: Queue)
    requires SideInv(side, done, log) && !side.thread.Orderly()
    requires QueueShape(side.(sess := side.sess.(queue := queue)))
    requires side.sess.queue.nextEvent <= queue.nextEvent
    requires forall k | k in queue.byId ::
               (k in side.sess.queue.byId && queue.byId[k] == side.sess.queue.byId[k])
               || queue.byId[k].event >= side.sess.queue.nextEvent
    ensures SideInv(side.(sess := side.sess.(queue := queue), known := |side.pipeline|), done, log)
    ensures side.known <= |side.pipeline| ==> SideInv(side.(sess := side.sess.(queue := queue)), done, log)
  {
    var side' := side.(sess := side.sess.(queue := queue), known := |side.pipeline|);
    var side'' := side.(sess := side.sess.(queue := queue));
    forall id | InFront(side, id, done) ensures InFront(side', id, done) && InFront(side'', id, done) {
      InFrontKnown(side, side', id, done);
    }
  }

  lemma AssignKeeps(side: Side, done: set<ActionId>, log: seq<Event>)
    requires SideInv(side, done, log)
    ensures var todo := Outstanding(side.pipeline, done);
            SideInv(side.(sess := ReplaceAssigned(side.sess, todo), known := |side.pipeline|), done, log)
  {
    if side.thread.Orderly() {
      AssignOrderly(side, done, log);
    } else {
      LeftToQueue(side, done);
      ReplaceShape(side, Outstanding(side.pipeline, done + CurrentIds(side.sess)));
      hide SideInv, QueueShape;
      ShapeKeeps(side, done, log, Replace(side.sess.queue, Outstanding(side.pipeline, done + CurrentIds(side.sess))));
    }
  }

  lemma AssignOrderly(side: Side, done: set<ActionId>, log: seq<Event>)
    requires SideInv(side, done, log) && side.thread.Orderly()
    ensures var todo := Outstanding(side.pipeline, done);
            SideInv(side.(sess := ReplaceAssigned(side.sess, todo), known := |side.pipeline|), done, log)
  {
    var side' := side.(sess := ReplaceAssigned(side.sess, Outstanding(side.pipeline, done)), known := |side.pipeline|);
    assert CurrentIds(side'.sess) == CurrentIds(side.sess);
    ToQueue(side, done);
    AssignQueue(side, done, log);
    assert side'.pipeline[..side'.known] == side.pipeline;
    assert QueueOk(side', done);
    forall id | InFront(side, id, done) ensures InFront(side', id, done) {
      InFrontKnown(side, side', id, done);
    }
  }

  /** An assignment that the cancelation broke into keeps the session's invariant just as well. */
  lemma TornAssignKeeps(side: Side, done: set<ActionId>, log: seq<Event>, queue: Queue)
    requires SideInv(side, done, log) && side.thread.Cancelling?
    requires Torn(side.sess.queue, side.thread.stage,
                  Outstanding(Outstanding(side.pipeline, done), CurrentIds(side.sess)), queue)
    ensures SideInv(side.(sess := side.sess.(queue := queue), known := |side.pipeline|), done, log)
  {
    LeftToQueue(side, done);
    SameIdsShape(side, Outstanding(side.pipeline, done + CurrentIds(side.sess)), queue);
    TornShape(side, done, log, queue);
    hide SideInv, QueueShape;
    ShapeKeeps(side, done, log, queue);
  }

  lemma TornShape(side: Side, done: set<ActionId>, log: seq<Event>, queue: Queue)
    requires SideInv(side, done, log) && side.thread.Cancelling?
    requires Torn(side.sess.queue, side.thread.stage,
                  Outstanding(Outstanding(side.pipeline, done), CurrentIds(side.sess)), queue)
    requires DistinctIds(Specs(queue.actions))
    requires forall id | HasId(Specs(queue.actions), id) :: HasId(side.pipeline, id)
    ensures QueueShape(side.(sess := side.sess.(queue := queue)))
    ensures forall k | k in queue.byId ::
               (k in side.sess.queue.byId && queue.byId[k] == side.sess.queue.byId[k])
               || queue.byId[k].event >= side.sess.queue.nextEvent
  {
    assert QueueShape(side);
  }

  lemma InFrontKnown(side: Side, side': Side, id: ActionId, done: set<ActionId>)
    requires InFront(side, id, done) && side'.pipeline == side.pipeline && side'.known == |side.pipeline|
    ensures InFront(side', id, done)
  {
    var k :| 0 <= k < side.known && k < |side.pipeline| && side.pipeline[k].id == id
      && forall i | 0 <= i < k :: side.pipeline[i].id in done;
  }

  // ----- a stopped session gives its actions back

  lemma EndedPhases(side: Side, done: set<ActionId>, log: seq<Event>, i: nat)
    requires SideInv(side, done, log) && Coupled(done, log) && side.thread.Ended? && i < |side.pipeline|
    ensures var phase := PhaseOf(log, side.pipeline[i].id);
            if side.pipeline[i].id in done then phase.Done? else phase.Queued? || phase.UploadWaiting?
  {
  }

  ghost predicate GivenBack(side: Side, done: set<ActionId>, updates: map<ActionId, Status>, listed: seq<ActionSpec>) {
    DistinctIds(listed) && forall a | a in listed :: a in side.pipeline && (a.id !in updates ==> a.id !in done)
  }

  /** The given back actions were never started, or finished tasks whose upload never was. */
  lemma GivenBackWereQueued(side: Side, done: set<ActionId>, log: seq<Event>, updates: map<ActionId, Status>,
          listed: seq<ActionSpec>, id: ActionId)
    requires SideInv(side, done, log) && Coupled(done, log) && side.thread.Ended?
    requires GivenBack(side, done, updates, listed) && HasId(listed, id)
    ensures HasId(side.pipeline, id)
    ensures id !in updates ==> PhaseOf(log, id).Queued? || PhaseOf(log, id).UploadWaiting?
  {
    var k :| 0 <= k < |listed| && listed[k].id == id;
    assert listed[k] in listed;
    var i :| 0 <= i < |side.pipeline| && side.pipeline[i] == listed[k];
    EndedPhases(side, done, log, i);
  }

  lemma GiveBackTrack(side: Side, done: set<ActionId>, log: seq<Event>, updates: map<ActionId, Status>,
          listed: seq<ActionSpec>, now: Time, detail: int, id: ActionId)
    requires SideInv(side, done, log) && Coupled(done, log) && Unbroken(log) && side.thread.Ended?
    requires GivenBack(side, done, updates, listed)
    ensures var phase := TrackFrom(TrackOf(log, id), ReturnEvents(updates, listed, true, now, detail), id).phase;
            !phase.Broken? && (phase == PhaseOf(log, id) || phase.Done?)
  {
    assert !PhaseOf(log, id).Broken?;
    ReturnEventsTrack(TrackOf(log, id), updates, listed, true, now, detail, id);
    if HasId(listed, id) && id !in updates {
      GivenBackWereQueued(side, done, log, updates, listed, id);
    }
  }

  lemma GiveBackTracks(side: Side, done: set<ActionId>, log: seq<Event>, updates: map<ActionId, Status>,
          listed: seq<ActionSpec>, now: Time, detail: int)
    requires SideInv(side, done, log) && Coupled(done, log) && Unbroken(log) && side.thread.Ended?
    requires GivenBack(side, done, updates, listed)
    ensures var events := ReturnEvents(updates, listed, true, now, detail);
            && StaysUnbroken(log, events)
            && (forall f | f in events :: f.Completes() && HasId(side.pipeline, f.Subject()))
            && (forall id :: PhaseOf(log + events, id) == PhaseOf(log, id) || PhaseOf(log + events, id).Done?)
            && (forall id :: id !in CompletedIds(events) ==> PhaseOf(log + events, id) == PhaseOf(log, id))
  {
    var events := ReturnEvents(updates, listed, true, now, detail);
    ReturnEventsMembers(updates, listed, true, now, detail);
    LogGrows(log, events);
    forall id
      ensures !TrackFrom(TrackOf(log, id), events, id).phase.Broken?
      ensures PhaseOf(log + events, id) == PhaseOf(log, id) || PhaseOf(log + events, id).Done?
    {
      GiveBackTrack(side, done, log, updates, listed, now, detail, id);
    }
    forall id | id !in CompletedIds(events) ensures PhaseOf(log + events, id) == PhaseOf(log, id) {
      TrackUntouched(TrackOf(log, id), events, id);
    }
    forall f | f in events ensures HasId(side.pipeline, f.Subject()) {
      GivenBackWereQueued(side, done, log, updates, listed, f.Subject());
    }
  }

  lemma GiveBackKeeps(side: Side, done: set<ActionId>, log: seq<Event>, updates: map<ActionId, Status>,
          listed: seq<ActionSpec>, now: Time, detail: int)
    requires SideInv(side, done, log) && Coupled(done, log) && Unbroken(log) && side.thread.Ended?
    requires GivenBack(side, done, updates, listed)
    ensures var events := ReturnEvents(updates, listed, true, now, detail);
            SideInv(side, done + CompletedIds(events), log + events)
  {
    var events := ReturnEvents(updates, listed, true, now, detail);
    GiveBackTracks(side, done, log, updates, listed, now, detail);
    forall id | InFront(side, id, done) ensures InFront(side, id, done + CompletedIds(events)) {
      InFrontGrows(side, side, id, done, done + CompletedIds(events));
    }
  }

  // ----- stopping and cleaning up

  lemma StopKeeps(side: Side, done: set<ActionId>, log: seq<Event>, result: CompletedStatus, detail: int)
    requires SideInv(side, done, log) && result in {INTERRUPTED, FAILED}
    ensures SideInv(side.(sess := Stopped(side.sess, result, detail)), done, log)
  {
    var side' := side.(sess := Stopped(side.sess, result, detail));
    assert CurrentIds(side'.sess) == CurrentIds(side.sess);
    forall id | InFront(side, id, done) ensures InFront(side', id, done) {
      InFrontGrows(side, side', id, done, done);
    }
  }

  /** The interruption is the last thing reported about the running action. */
  lemma InterruptKeeps(side: Side, done: set<ActionId>, log: seq<Event>, now: Time)
    requires SideInv(side, done, log) && Coupled(done, log) && Unbroken(log)
    requires side.thread.Looping? && side.sess.stop
    ensures var e := Interrupt(side.sess, now);
            && SideInv(side.(sess := e.sess, thread := Stopping), done + CompletedIds(e.events), log + e.events)
            && StaysUnbroken(log, e.events)
            && (forall f | f in e.events :: f.Completes() && HasId(side.pipeline, f.Subject()))
  {
    var s := side.sess;
    var e := Interrupt(s, now);
    var side' := side.(sess := e.sess, thread := Stopping);
    if s.current.None? {
      NoEvents(log, done);
      assert e.events == [];
      forall id | InFront(side, id, done) ensures InFront(side', id, done) {
        InFrontGrows(side, side', id, done, done);
      }
    } else {
      var id := s.current.value.spec.id;
      assert e.events == [e.events[0]];
      BusyQueue(side, done, log);
      OneStep(log, e.events[0]);
      assert CompletedIds(e.events) == {id} by {
        assert e.events[0] in e.events;
      }
      assert done + CompletedIds(e.events) + CurrentIds(e.sess) == done + CurrentIds(s);
      InFrontGrows(side, side', id, done, done + CompletedIds(e.events));
      forall x | InFront(side, x, done) ensures InFront(side', x, done + CompletedIds(e.events)) {
        InFrontGrows(side, side', x, done, done + CompletedIds(e.events));
      }
    }
  }
}
