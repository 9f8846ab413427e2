/** Starting the next action keeps the invariant of a session. */
module ProtocolStart {
  import opened Actions
  import opened Lifecycle
  import opened QueueModel
  import opened SessionModel
  import opened Protocol
  import opened ProtocolShared
  import opened ProtocolSides

  ghost predicate Unbroken(log: seq<Event>) {
    forall id :: !PhaseOf(log, id).Broken?
  }

  /** The log after `events`, id by id. */
  lemma LogGrows(log: seq<Event>, events: seq<Event>)
    ensures forall id :: TrackOf(log + events, id) == TrackFrom(TrackOf(log, id), events, id)
  {
    forall id ensures TrackOf(log + events, id) == TrackFrom(TrackOf(log, id), events, id) {
      TrackAppend(log, events, id);
    }
  }

  lemma TrackOne(t: Track, e: Event, id: ActionId)
    ensures TrackFrom(t, [e], id) == Follow(t, e, id)
  {
    assert [e][1..] == [];
  }

  lemma TrackTwoThen(t: Track, a: Event, b: Event, rest: seq<Event>, id: ActionId)
    ensures TrackFrom(t, [a, b] + rest, id) == TrackFrom(Follow(Follow(t, a, id), b, id), rest, id)
  {
    assert ([a, b] + rest)[1..] == [b] + rest;
    assert ([b] + rest)[1..] == rest;
  }

  /** A single event that its action can take. */
  lemma OneStep(log: seq<Event>, e: Event)
    requires Unbroken(log) && !Advance(PhaseOf(log, e.Subject()), e).Broken?
    ensures StaysUnbroken(log, [e])
    ensures forall id :: PhaseOf(log + [e], id) == if id == e.Subject() then Advance(PhaseOf(log, id), e) else PhaseOf(log, id)
  {
    LogGrows(log, [e]);
    forall id
      ensures !TrackFrom(TrackOf(log, id), [e], id).phase.Broken?
      ensures TrackFrom(TrackOf(log, id), [e], id).phase
              == if id == e.Subject() then Advance(PhaseOf(log, id), e) else PhaseOf(log, id)
    {
      assert !PhaseOf(log, id).Broken?;
      TrackOne(TrackOf(log, id), e, id);
    }
  }

  lemma LaunchKeeps(s: Sess, spec: ActionSpec, outcome: StartOutcome)
    ensures var r := Launch(s, spec, outcome);
            && r.queue == s.queue && r.current == s.current && r.target == s.target
            && r.interrupted == s.interrupted && r.stop == s.stop && r.stopResult == s.stopResult
  {
  }

  /** The session begins its next action. */
  lemma StartBegins(side: Side, done: set<ActionId>, log: seq<Event>, answer: Answer, launched: Sess, now: Time, detail: int)
    requires Resting(side, done, log) && Unbroken(log)
    requires DequeueOutcome(side.sess.queue, answer).NextAction?
    requires launched.queue == Dequeue(side.sess.queue, answer)
    requires launched.current == Some(CurrentAction(side.sess.queue.actions[0].spec, now))
    requires launched.target == side.sess.target && launched.interrupted == side.sess.interrupted
    requires launched.stopResult == side.sess.stopResult
    ensures var e := Effect(launched, [StartEvent(side.sess.queue.actions[0].spec)], false);
            && SideInv(AfterStart(side, e, detail), done + CompletedIds(e.events), log + e.events)
            && StaysUnbroken(log, e.events)
            && forall f | f in e.events :: HasId(side.pipeline, f.Subject())
  {
    hide QueueOk, CurrentOk, TargetOk, PhasesOk, Coupled, Resting, SideInv, InFront, Unbroken, Coherent, Dequeue, Launch;
    RestingParts(side, done, log);
    var spec := side.sess.queue.actions[0].spec;
    var e := Effect(launched, [StartEvent(spec)], false);
    var side' := AfterStart(side, e, detail);
    HeadFacts(side, done, log);
    OneStep(log, StartEvent(spec));
    BegunCurrent(side, done, log, side', log + e.events);
    BegunTarget(side, done, log, side', log + e.events);
    BegunQueueOk(side, done, log, answer, side');
    assert CompletedIds(e.events) == {} && done + CompletedIds(e.events) == done;
    BegunSide(side, done, log, side', log + e.events);
  }

  lemma BegunSide(side: Side, done: set<ActionId>, log: seq<Event>, side': Side, log': seq<Event>)
    requires Resting(side, done, log)
    requires side'.pipeline == side.pipeline && side'.thread == side.thread && side'.sess.stopResult == side.sess.stopResult
    requires QueueOk(side', done) && CurrentOk(side', done, log') && TargetOk(side', done, log') && PhasesOk(side', log')
    ensures SideInv(side', done, log')
  {
    hide QueueOk, CurrentOk, TargetOk, PhasesOk, Coupled;
  }

  lemma BegunQueueOk(side: Side, done: set<ActionId>, log: seq<Event>, answer: Answer, side': Side)
    requires Resting(side, done, log) && DequeueOutcome(side.sess.queue, answer).NextAction?
    requires side'.pipeline == side.pipeline && side'.known == side.known && side'.sess.target == side.sess.target
    requires side'.sess.queue == Dequeue(side.sess.queue, answer)
    requires side'.sess.current.Some? && side'.sess.current.value.spec == side.sess.queue.actions[0].spec
    ensures QueueOk(side', done)
  {
    RestingParts(side, done, log);
    BegunQueue(side, done, log, answer);
    assert done + CurrentIds(side'.sess) == done + {side.sess.queue.actions[0].spec.id};
    hide Resting, InFront, Coherent, Dequeue, DequeueOutcome, Exact;
  }

  lemma BegunCurrent(side: Side, done: set<ActionId>, log: seq<Event>, side': Side, log': seq<Event>)
    requires Resting(side, done, log) && side.sess.queue.actions != []
    requires side'.pipeline == side.pipeline && side'.known == side.known && side'.thread == side.thread
    requires side'.sess.target == side.sess.target && !side'.sess.interrupted
    requires side'.sess.current.Some? && side'.sess.current.value.spec == side.sess.queue.actions[0].spec
    requires side'.work == Some(OfAction(side.sess.queue.actions[0].spec))
    requires var spec := side.sess.queue.actions[0].spec;
             PhaseOf(log', spec.id) == Advance(PhaseOf(log, spec.id), StartEvent(spec))
    ensures CurrentOk(side', done, log')
  {
    HeadFacts(side, done, log);
    InFrontGrows(side, side', side.sess.queue.actions[0].spec.id, done, done);
  }

  lemma BegunTarget(side: Side, done: set<ActionId>, log: seq<Event>, side': Side, log': seq<Event>)
    requires Resting(side, done, log) && side.sess.queue.actions != []
    requires side'.pipeline == side.pipeline && side'.known == side.known && side'.thread == side.thread
    requires side'.sess.target == side.sess.target && !side'.sess.interrupted
    requires side'.sess.current.Some? && side'.sess.current.value.spec == side.sess.queue.actions[0].spec
    requires forall id :: id != side.sess.queue.actions[0].spec.id ==> PhaseOf(log', id) == PhaseOf(log, id)
    ensures TargetOk(side', done, log')
    ensures PhasesOk(side', log')
    ensures InFront(side', side'.sess.current.value.spec.id, done)
  {
    HeadFacts(side, done, log);
    InFrontGrows(side, side', side.sess.queue.actions[0].spec.id, done, done);
    BegunPhases(side, log, side', log');
  }

  lemma BegunPhases(side: Side, log: seq<Event>, side': Side, log': seq<Event>)
    requires PhasesOk(side, log) && side.sess.current.None?
    requires side'.pipeline == side.pipeline && side'.sess.current.Some? && !side'.sess.interrupted
    requires side.sess.target.Some? ==> side.sess.target.value.spec.id == side'.sess.current.value.spec.id
    requires forall id :: id != side'.sess.current.value.spec.id ==> PhaseOf(log', id) == PhaseOf(log, id)
    ensures PhasesOk(side', log')
  {
  }

  lemma BegunQueue(side: Side, done: set<ActionId>, log: seq<Event>, answer: Answer)
    requires Resting(side, done, log)
    requires DequeueOutcome(side.sess.queue, answer).NextAction?
    ensures var q, spec := Dequeue(side.sess.queue, answer), side.sess.queue.actions[0].spec;
            && Exact(q)
            && Specs(q.actions) == Outstanding(side.pipeline[..side.known], done + {spec.id})
            && Specs(q.actions) == Presented(side.sess.target, Specs(q.actions))
  {
    RestingParts(side, done, log);
    hide Resting, InFront, Coupled, SideInv;
    var q, spec, o := Dequeue(side.sess.queue, answer), side.sess.queue.actions[0].spec, Left(side, done);
    HeadFacts(side, done, log);
    RestingQueue(side, done, log);
    OutstandingTail(side.pipeline[..side.known], done);
    BehindHead(side.sess.queue, answer);
    PresentedSame(side.sess.target, o[1..]);
    DequeueExact(side.sess.queue, answer);
  }

  lemma DequeueExact(q: Queue, answer: Answer)
    requires Exact(q) && DequeueOutcome(q, answer).NextAction?
    ensures Exact(Dequeue(q, answer))
  {
    var r := Dequeue(q, answer);
    DequeueIsTail(q, answer);
    BehindHead(q, answer);
    forall k | k in r.byId ensures HasId(Specs(r.actions), k) {
      var i :| 0 <= i < |Specs(q.actions)| && Specs(q.actions)[i].id == k;
      assert Specs(r.actions)[i - 1].id == k;
    }
  }

  lemma BehindPhases(side: Side, done: set<ActionId>, log: seq<Event>, i: nat)
    requires Resting(side, done, log) && side.known <= |side.pipeline| && 1 <= i < |Left(side, done)|
    ensures var a := Left(side, done)[i];
            PhaseOf(log, a.id).Queued? && HasId(side.pipeline, a.id) && a.id != Left(side, done)[0].id
  {
    RestingQueue(side, done, log);
    LeftPhases(side, done, log, i);
  }

  /** Behind the head of the queue everything is still to be started. */
  lemma BehindTheHead(side: Side, done: set<ActionId>, log: seq<Event>, answer: Answer, id: ActionId)
    requires Resting(side, done, log)
    requires DequeueOutcome(side.sess.queue, answer).NextAction?
    requires HasId(Specs(Dequeue(side.sess.queue, answer).actions), id)
    ensures PhaseOf(log, id).Queued? && HasId(side.pipeline, id) && id != side.sess.queue.actions[0].spec.id
  {
    HeadFacts(side, done, log);
    RestingQueue(side, done, log);
    BehindHead(side.sess.queue, answer);
    hide *;
    var i := TailHasId(Left(side, done), id);
    BehindPhases(side, done, log, i);
  }

  lemma BehindHead(q: Queue, answer: Answer)
    requires DequeueOutcome(q, answer).NextAction?
    ensures q.actions != [] && Specs(Dequeue(q, answer).actions) == Specs(q.actions)[1..]
  {
  }

  lemma TailHasId(specs: seq<ActionSpec>, id: ActionId) returns (i: nat)
    requires specs != [] && HasId(specs[1..], id)
    ensures 1 <= i < |specs| && specs[i].id == id
  {
    var k :| 0 <= k < |specs[1..]| && specs[1..][k].id == id;
    i := k + 1;
  }

  lemma CompletedOfTwo(a: Event, b: Event)
    requires !a.Completes() && b.Completes()
    ensures CompletedIds([a, b]) == {b.Subject()}
  {
    var both := [a, b];
    assert both[0] == a && both[1] == b;
    assert forall e :: e in both <==> e == a || e == b;
  }

  /** The tracks of a start that fails: the action is started and fails, what goes with it was never
      attempted. */
  lemma FailedStartTracks(log: seq<Event>, spec: ActionSpec, st: Status, attachments: bool, rest: seq<Event>,
          gone: set<ActionId>)
    requires Unbroken(log) && CancelsExactly(rest, gone)
    requires st.id == spec.id && st.completed == Some(FAILED) && spec.id !in gone
    requires if spec.kind.SyncOutput? then PhaseOf(log, spec.id).UploadWaiting? else PhaseOf(log, spec.id).Queued?
    requires forall id | id in gone :: PhaseOf(log, id).Queued?
    ensures var events := [StartEvent(spec), Reported(st, attachments)] + rest;
            && StaysUnbroken(log, events)
            && CompletedIds(events) == {spec.id} + gone
            && (forall f | f in events :: f.Subject() in {spec.id} + gone)
            && (forall id :: PhaseOf(log + events, id) == if id in {spec.id} + gone then Done else PhaseOf(log, id))
  {
    var a, b := StartEvent(spec), Reported(st, attachments);
    var events := [a, b] + rest;
    LogGrows(log, events);
    forall id
      ensures TrackFrom(TrackOf(log, id), events, id).phase == if id in {spec.id} + gone then Done else PhaseOf(log, id)
      ensures !TrackFrom(TrackOf(log, id), events, id).phase.Broken?
    {
      assert !PhaseOf(log, id).Broken?;
      TrackTwoThen(TrackOf(log, id), a, b, rest, id);
    }
    CompletedIdsAppend([a, b], rest);
    CompletedOfTwo(a, b);
  }

  lemma GoneIsBehind(side: Side, done: set<ActionId>, log: seq<Event>, answer: Answer)
    requires Resting(side, done, log) && DequeueOutcome(side.sess.queue, answer).NextAction?
    requires Coherent(Dequeue(side.sess.queue, answer))
    ensures side.sess.queue.actions != []
    ensures forall id | id in CancelGone(Dequeue(side.sess.queue, answer)) ::
              PhaseOf(log, id).Queued? && HasId(side.pipeline, id) && id != side.sess.queue.actions[0].spec.id
  {
    var q := Dequeue(side.sess.queue, answer);
    CancelGoneIs(q);
    hide Resting, Coherent, Dequeue;
    forall id | id in CancelGone(q)
      ensures PhaseOf(log, id).Queued? && HasId(side.pipeline, id) && id != side.sess.queue.actions[0].spec.id
    {
      BehindTheHead(side, done, log, answer, id);
    }
  }

  lemma FailStartIs(launched: Sess, spec: ActionSpec, now: Time, detail: int)
    ensures var e, c := FailStart(launched, spec, now, detail), CancelQueued(launched.(target := None), detail);
            && e.sess == c.sess.(current := None) && !e.crashed
            && c.sess == launched.(target := None, queue := c.sess.queue)
            && e.events == [StartEvent(spec), Reported(FailedAt(FailedId(launched, spec), now, detail), launched.Attachments())]
                           + c.events
  {
  }

  lemma StartFails(side: Side, done: set<ActionId>, log: seq<Event>, answer: Answer, launched: Sess, now: Time,
          detail: int)
    requires Resting(side, done, log) && Unbroken(log)
    requires DequeueOutcome(side.sess.queue, answer).NextAction?
    requires launched.queue == Dequeue(side.sess.queue, answer)
    requires launched.target == side.sess.target && launched.interrupted == side.sess.interrupted
    requires launched.stopResult == side.sess.stopResult
    ensures var e := FailStart(launched, side.sess.queue.actions[0].spec, now, detail);
            && SideInv(AfterStart(side, e, detail), done + CompletedIds(e.events), log + e.events)
            && StaysUnbroken(log, e.events)
            && forall f | f in e.events :: HasId(side.pipeline, f.Subject())
  {
    hide SideInv, Coupled, Resting, InFront, Left, CancelQueued, DequeueOutcome, Dequeue, Unbroken, StaysUnbroken, FailStart, CompletedIds,
      CancelGone, Exact;
    RestingParts(side, done, log);
    BehindHead(side.sess.queue, answer);
    FailStartIs(launched, side.sess.queue.actions[0].spec, now, detail);
    FailStartEvents(side, done, log, answer, launched, now, detail);
    FailStartQueue(side, done, log, answer, launched, detail);
    var spec, gone := side.sess.queue.actions[0].spec, CancelGone(launched.queue);
    var c, e := CancelQueued(launched.(target := None), detail), FailStart(launched, spec, now, detail);
    HeadFacts(side, done, log);
    FailedStartSide(side, done, log, c.sess.(current := None), spec, gone, log + e.events);
    assert AfterStart(side, e, detail) == side.(sess := c.sess.(current := None), work := None);
  }

  /** What a failed start reports. */
  lemma FailStartEvents(side: Side, done: set<ActionId>, log: seq<Event>, answer: Answer, launched: Sess, now: Time,
          detail: int)
    requires Resting(side, done, log) && Unbroken(log)
    requires DequeueOutcome(side.sess.queue, answer).NextAction?
    requires launched.queue == Dequeue(side.sess.queue, answer) && launched.target == side.sess.target
    ensures side.sess.queue.actions != []
    ensures var spec := side.sess.queue.actions[0].spec;
            var events, completed := FailStart(launched, spec, now, detail).events, {spec.id} + CancelGone(launched.queue);
            && StaysUnbroken(log, events) && CompletedIds(events) == completed
            && (forall f | f in events :: f.Subject() in completed)
            && (forall id :: PhaseOf(log + events, id) == if id in completed then Done else PhaseOf(log, id))
            && (forall id | id in completed :: HasId(side.pipeline, id))
  {
    hide SideInv, Coupled, Resting, CancelsExactly, InFront, Left, CancelQueued, DequeueOutcome, Dequeue, Unbroken, StaysUnbroken, FailStart,
      CompletedIds, CancelGone;
    RestingParts(side, done, log);
    BehindHead(side.sess.queue, answer);
    HeadFacts(side, done, log);
    BegunQueue(side, done, log, answer);
    var spec := side.sess.queue.actions[0].spec;
    FailStartIs(launched, spec, now, detail);
    CancelEventFacts(launched.(target := None), detail);
    GoneIsBehind(side, done, log, answer);
    FailedStartTracks(log, spec, FailedAt(spec.id, now, detail), launched.Attachments(),
                      CancelQueued(launched.(target := None), detail).events, CancelGone(launched.queue));
  }

  /** The queue that a failed start leaves. */
  lemma FailStartQueue(side: Side, done: set<ActionId>, log: seq<Event>, answer: Answer, launched: Sess, detail: int)
    requires Resting(side, done, log) && side.known <= |side.pipeline| && DequeueOutcome(side.sess.queue, answer).NextAction?
    requires launched.queue == Dequeue(side.sess.queue, answer)
    ensures side.sess.queue.actions != []
    ensures var q := CancelQueued(launched.(target := None), detail).sess.queue;
            && Exact(q)
            && Specs(q.actions) == Outstanding(Outstanding(side.pipeline[..side.known], done + {side.sess.queue.actions[0].spec.id}),
                                               CancelGone(launched.queue))
  {
    hide SideInv, Coupled, Resting, InFront, Left, CancelQueued, Dequeue, CancelGone;
    BehindHead(side.sess.queue, answer);
    BegunQueue(side, done, log, answer);
    CancelQueueFacts(launched.(target := None), detail);
  }

  lemma FailedStartSide(side: Side, done: set<ActionId>, log: seq<Event>, sess: Sess, spec: ActionSpec,
          gone: set<ActionId>, log': seq<Event>)
    requires Resting(side, done, log) && HasId(side.pipeline, spec.id)
    requires sess.current.None? && sess.target.None? && !sess.interrupted && sess.stopResult == side.sess.stopResult
    requires side.sess.target.Some? ==> side.sess.target.value.spec.id == spec.id
    requires Exact(sess.queue)
    requires Specs(sess.queue.actions) == Outstanding(Outstanding(side.pipeline[..side.known], done + {spec.id}), gone)
    requires forall id :: PhaseOf(log', id) == if id in {spec.id} + gone then Done else PhaseOf(log, id)
    ensures SideInv(side.(sess := sess, work := None), done + ({spec.id} + gone), log')
  {
    var side' := side.(sess := sess, work := None);
    OutstandingCompose(side.pipeline[..side.known], done + {spec.id}, gone);
    assert done + ({spec.id} + gone) + CurrentIds(sess) == done + {spec.id} + gone;
    PresentedSame(None, Specs(sess.queue.actions));
  }

  /** The three ways a start can go when no SessionActionError stops it. */
  lemma StartCases(s: Sess, answer: Answer, outcome: StartOutcome, now: Time, detail: int)
    requires Coherent(s.queue) && !DequeueOutcome(s.queue, answer).ActionError?
    ensures DequeueOutcome(s.queue, answer).NextAction? ==>
              && s.queue.actions != []
              && DequeueOutcome(s.queue, answer).spec == s.queue.actions[0].spec
              && var spec := s.queue.actions[0].spec;
                 var begun := Begun(s, answer, spec, now);
                 && begun == s.(queue := Dequeue(s.queue, answer), current := Some(CurrentAction(spec, now)))
                 && StartAction(s, answer, outcome, now, detail)
                    == if LaunchSucceeds(begun, spec, outcome) then
                         Effect(Launch(begun, spec, outcome), [StartEvent(spec)], false)
                       else FailStart(Launch(begun, spec, outcome), spec, now, detail)
    ensures !DequeueOutcome(s.queue, answer).NextAction? ==>
              DequeueOutcome(s.queue, answer).Nothing? || DequeueOutcome(s.queue, answer).Crash?
  {
  }

  /** Any start that is not stopped by a SessionActionError. */
  lemma StartKeeps(side: Side, done: set<ActionId>, log: seq<Event>, answer: Answer, outcome: StartOutcome,
          now: Time, detail: int)
    requires Resting(side, done, log) && Unbroken(log)
    requires !DequeueOutcome(side.sess.queue, answer).ActionError?
    ensures var e := StartAction(side.sess, answer, outcome, now, detail);
            && SideInv(AfterStart(side, e, detail), done + CompletedIds(e.events), log + e.events)
            && StaysUnbroken(log, e.events)
            && (forall f | f in e.events :: HasId(side.pipeline, f.Subject()))
            && forall f | f in e.events && f.Reported? :: f.status.Terminal()
  {
    StartCases(side.sess, answer, outcome, now, detail);
    hide *;
    var s := side.sess;
    var e := StartAction(s, answer, outcome, now, detail);
    if DequeueOutcome(s.queue, answer).NextAction? {
      var spec := s.queue.actions[0].spec;
      var begun := Begun(s, answer, spec, now);
      var launched := Launch(begun, spec, outcome);
      LaunchKeeps(begun, spec, outcome);
      if LaunchSucceeds(begun, spec, outcome) {
        StartBegins(side, done, log, answer, launched, now, detail);
      } else {
        StartFails(side, done, log, answer, launched, now, detail);
        FailStartTerminal(launched, spec, now, detail);
      }
    } else {
      StartIdles(side, done, log, answer, outcome, now, detail);
    }
  }

  lemma FailStartTerminal(s: Sess, spec: ActionSpec, now: Time, detail: int)
    ensures forall f | f in FailStart(s, spec, now, detail).events && f.Reported? :: f.status.Terminal()
  {
    var e := FailStart(s, spec, now, detail);
    forall f | f in e.events && f.Reported? ensures f.status.Terminal() {
      var k :| 0 <= k < |e.events| && e.events[k] == f;
    }
  }

  /** Nothing to start, or an exception that ends the run loop: nothing is reported. */
  lemma StartIdles(side: Side, done: set<ActionId>, log: seq<Event>, answer: Answer, outcome: StartOutcome,
          now: Time, detail: int)
    requires Resting(side, done, log) && Unbroken(log)
    requires DequeueOutcome(side.sess.queue, answer).Nothing? || DequeueOutcome(side.sess.queue, answer).Crash?
    ensures var e := StartAction(side.sess, answer, outcome, now, detail);
            && e.events == []
            && SideInv(AfterStart(side, e, detail), done + CompletedIds(e.events), log + e.events)
            && StaysUnbroken(log, e.events)
  {
    var e := StartAction(side.sess, answer, outcome, now, detail);
    assert log + e.events == log && done + CompletedIds(e.events) == done;
    forall id ensures !TrackFrom(TrackOf(log, id), e.events, id).phase.Broken? {
      assert !PhaseOf(log, id).Broken?;
    }
  }
}
