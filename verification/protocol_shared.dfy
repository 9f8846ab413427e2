/** The scheduler's half of the protocol proof: no report is lost, and a step of one session leaves
    the others alone. */
module ProtocolShared {
  import opened Actions
  import opened Lifecycle
  import opened QueueModel
  import opened SessionModel
  import opened SchedulerModel
  import opened Protocol

  function CompletedIds(events: seq<Event>): set<ActionId> {
    set e | e in events && e.Completes() :: e.Subject()
  }

  lemma CompletedIdsAppend(a: seq<Event>, b: seq<Event>)
    ensures CompletedIds(a + b) == CompletedIds(a) + CompletedIds(b)
  {
    assert forall e :: e in a + b <==> e in a || e in b;
  }

  /** What the map holds for an id after a batch of reports: the map's own value, or one of them. */
  lemma {:induction false} AbsorbSource(m: map<ActionId, Status>, events: seq<Event>, id: ActionId)
    requires id in Absorb(m, events)
    ensures (id in m && Absorb(m, events)[id] == m[id] && forall e | e in events :: !(e.Reported? && e.Subject() == id))
            || exists e :: e in events && e.Reported? && e.Subject() == id && Absorb(m, events)[id] == e.status
    decreases events
  {
    if events != [] {
      var e := events[0];
      assert events == [e] + events[1..];
      var m' := if e.Reported? then m[e.status.id := e.status] else m;
      AbsorbSource(m', events[1..], id);
      if exists f :: f in events[1..] && f.Reported? && f.Subject() == id && Absorb(m, events)[id] == f.status {
        var f :| f in events[1..] && f.Reported? && f.Subject() == id && Absorb(m, events)[id] == f.status;
        assert f in events;
      } else if e.Reported? && e.Subject() == id {
        assert e in events;
      }
    }
  }

  /** An unbroken id is done exactly when it was done before or one of the events completes it. */
  lemma {:induction false} DoneWhenCompleted(t: Track, events: seq<Event>, id: ActionId)
    requires !TrackFrom(t, events, id).phase.Broken?
    ensures TrackFrom(t, events, id).phase.Done? <==> t.phase.Done? || id in CompletedIds(events)
    ensures t.phase.Done? ==> forall e | e in events :: e.Subject() != id
    decreases events
  {
    if events != [] {
      var e := events[0];
      var t' := Follow(t, e, id);
      assert events == [e] + events[1..];
      if t'.phase.Broken? {
        BrokenStays(t', events[1..], id);
      }
      DoneWhenCompleted(t', events[1..], id);
      CompletedIdsAppend([e], events[1..]);
      assert id in CompletedIds([e]) <==> e.Completes() && e.Subject() == id by {
        assert e in [e];
      }
    }
  }

  ghost predicate Coupled(done: set<ActionId>, log: seq<Event>) {
    forall id :: id in done <==> PhaseOf(log, id).Done?
  }

  lemma DoneIsDone(s: State)
    requires ReportsOk(s)
    ensures Coupled(DoneIds(s), s.log)
  {
    forall id ensures id in DoneIds(s) <==> PhaseOf(s.log, id).Done? {
      assert !PhaseOf(s.log, id).Broken?;
      DoneIffTerminal(Fresh, s.log, id);
      assert Lookup(Overlay(s), id) == TrackOf(s.log, id).latest;
    }
  }

  /** Progress updates carry times later than any before. */
  predicate TimesAdvance(events: seq<Event>, before: Time, after: Time) {
    && before <= after
    && forall e | e in events && e.Reported? && !e.status.Terminal() ::
         e.status.updateTime.Some? && before < e.status.updateTime.value <= after
  }

  ghost predicate StaysUnbroken(log: seq<Event>, events: seq<Event>) {
    forall id :: !TrackFrom(TrackOf(log, id), events, id).phase.Broken?
  }

  lemma DoneIdsGrow(s: State, s': State, events: seq<Event>)
    requires ReportsOk(s) && StaysUnbroken(s.log, events)
    requires s'.view == s.view && s'.updates == Absorb(s.updates, events) && s'.log == s.log + events
    ensures forall id :: Lookup(Overlay(s'), id) == TrackOf(s'.log, id).latest
    ensures forall id :: !PhaseOf(s'.log, id).Broken?
    ensures DoneIds(s') == DoneIds(s) + CompletedIds(events)
  {
    DoneIsDone(s);
    AbsorbOverlay(s.view, s.updates, events);
    forall id
      ensures Lookup(Overlay(s'), id) == TrackOf(s'.log, id).latest
      ensures !PhaseOf(s'.log, id).Broken?
      ensures id in DoneIds(s') <==> id in DoneIds(s) || id in CompletedIds(events)
    {
      TrackAppend(s.log, events, id);
      assert !TrackFrom(TrackOf(s.log, id), events, id).phase.Broken?;
      AbsorbTracks(Overlay(s), TrackOf(s.log, id), events, id);
      DoneIffTerminal(Fresh, s'.log, id);
      DoneWhenCompleted(TrackOf(s.log, id), events, id);
    }
  }

  /** A completed id gets no further event. */
  lemma DoneIsSilent(s: State, events: seq<Event>, id: ActionId)
    requires ReportsOk(s) && StaysUnbroken(s.log, events) && id in DoneIds(s)
    ensures forall e | e in events :: e.Subject() != id
  {
    DoneIsDone(s);
    assert PhaseOf(s.log, id).Done?;
    assert !TrackFrom(TrackOf(s.log, id), events, id).phase.Broken?;
    DoneWhenCompleted(TrackOf(s.log, id), events, id);
  }

  /** What a session reports while a request is in flight is not in the request's transaction. */
  lemma NewUpdateIsNotInTransaction(s: State, tx: set<UpdateId>, events: seq<Event>, clock: Time, e: Event)
    requires ReportsOk(s) && StaysUnbroken(s.log, events) && TimesAdvance(events, s.clock, clock)
    requires TransactionOk(tx, DoneIds(s), s.clock)
    requires e in events && e.Reported?
    ensures UpdateIdOf(e.status) !in tx
  {
    var u := UpdateIdOf(e.status);
    if u in tx && e.status.Terminal() {
      assert u.id in DoneIds(s);
      DoneIsSilent(s, events, e.status.id);
    }
  }

  lemma DeliverKeepsReports(s: State, s': State, events: seq<Event>)
    requires ReportsOk(s) && LinkOk(s)
    requires StaysUnbroken(s.log, events) && TimesAdvance(events, s.clock, s'.clock)
    requires s'.view == s.view && s'.updates == Absorb(s.updates, events) && s'.log == s.log + events
    requires s'.link == s.link && Respond(s'.sides, s'.view) == Respond(s.sides, s.view)
    ensures ReportsOk(s') && LinkOk(s')
    ensures DoneIds(s') == DoneIds(s) + CompletedIds(events)
  {
    DoneIdsGrow(s, s', events);
    AbsorbKeys(s.updates, events);
    forall id | id in s'.updates
      ensures s'.updates[id].id == id && ProgressTimeIs(s'.updates[id], s'.clock)
    {
      AbsorbSource(s.updates, events, id);
    }
    if s.link.InFlight? || s.link.Replied? {
      var tx := s.link.tx;
      forall id | id in s'.updates && UpdateIdOf(s'.updates[id]) in tx
        ensures id in s.updates && s'.updates[id] == s.updates[id]
      {
        AbsorbSource(s.updates, events, id);
        if e :| e in events && e.Reported? && e.Subject() == id && s'.updates[id] == e.status {
          NewUpdateIsNotInTransaction(s, tx, events, s'.clock, e);
        }
      }
    }
  }

  // ----- one session steps, the others do not notice

  lemma CancelFrame(side: Side, done: set<ActionId>, log: seq<Event>, done': set<ActionId>, log': seq<Event>)
    requires CancelOk(side, done, log)
    requires forall a | a in side.pipeline :: a.id in done <==> a.id in done'
    requires forall a | a in side.pipeline :: PhaseOf(log, a.id) == PhaseOf(log', a.id)
    ensures CancelOk(side, done', log')
  {
    forall id | id in side.thread.Unreported()
      ensures id !in done' && PhaseOf(log, id) == PhaseOf(log', id)
    {
      var i :| 0 <= i < |side.pipeline| && side.pipeline[i].id == id;
      assert side.pipeline[i] in side.pipeline;
    }
  }

  lemma SideFrame(side: Side, done: set<ActionId>, log: seq<Event>, done': set<ActionId>, log': seq<Event>)
    requires SideInv(side, done, log)
    requires forall a | a in side.pipeline :: a.id in done <==> a.id in done'
    requires forall a | a in side.pipeline :: PhaseOf(log, a.id) == PhaseOf(log', a.id)
    ensures SideInv(side, done', log')
  {
    var P, s := side.pipeline, side.sess;
    forall i | 0 <= i < |P| ensures P[i].id in done <==> P[i].id in done'
      ensures PhaseOf(log, P[i].id) == PhaseOf(log', P[i].id)
    {
      assert P[i] in P;
    }
    CancelFrame(side, done, log, done', log');
    if side.thread.Orderly() {
      forall a | a in P[..side.known] ensures a.id in done + CurrentIds(s) <==> a.id in done' + CurrentIds(s) {
        assert a in P;
      }
      OutstandingAgree(P[..side.known], done + CurrentIds(s), done' + CurrentIds(s));
    }
    forall id | InFront(side, id, done)
      ensures InFront(side, id, done')
      ensures id in done <==> id in done'
      ensures PhaseOf(log, id) == PhaseOf(log', id)
    {
      var k :| 0 <= k < side.known && k < |P| && P[k].id == id && forall i | 0 <= i < k :: P[i].id in done;
      assert forall i | 0 <= i < k :: P[i].id in done';
    }
  }

  /** Events about one pipeline do not touch the actions of another. */
  lemma OtherSideKeeps(other: Side, pipeline: seq<ActionSpec>, events: seq<Event>, done: set<ActionId>, log: seq<Event>)
    requires SideInv(other, done, log) && SharesNoId(other.pipeline, pipeline)
    requires forall e | e in events :: HasId(pipeline, e.Subject())
    ensures SideInv(other, done + CompletedIds(events), log + events)
  {
    forall a | a in other.pipeline
      ensures a.id in done <==> a.id in done + CompletedIds(events)
      ensures PhaseOf(log, a.id) == PhaseOf(log + events, a.id)
    {
      forall e | e in events ensures e.Subject() != a.id {
        var i :| 0 <= i < |other.pipeline| && other.pipeline[i] == a;
        var j :| 0 <= j < |pipeline| && pipeline[j].id == e.Subject();
        assert other.pipeline[i].id != pipeline[j].id;
      }
      TrackAppend(log, events, a.id);
      TrackUntouched(TrackOf(log, a.id), events, a.id);
    }
    SideFrame(other, done, log, done + CompletedIds(events), log + events);
  }

  lemma StrangersStayFresh(sides: map<SessionId, Side>, sides': map<SessionId, Side>, sid: SessionId,
          log: seq<Event>, events: seq<Event>)
    requires forall id | (forall one | one in sides :: !HasId(sides[one].pipeline, id)) :: TrackOf(log, id) == Fresh
    requires sides'.Keys == sides.Keys && sid in sides
    requires forall one | one in sides :: sides'[one].pipeline == sides[one].pipeline
    requires forall e | e in events :: HasId(sides[sid].pipeline, e.Subject())
    ensures forall id | (forall one | one in sides' :: !HasId(sides'[one].pipeline, id)) :: TrackOf(log + events, id) == Fresh
  {
    forall id | (forall one | one in sides' :: !HasId(sides'[one].pipeline, id))
      ensures TrackOf(log + events, id) == Fresh
    {
      assert !HasId(sides'[sid].pipeline, id);
      forall one | one in sides ensures !HasId(sides[one].pipeline, id) {
        assert !HasId(sides'[one].pipeline, id);
      }
      TrackAppend(log, events, id);
      TrackUntouched(Fresh, events, id);
    }
  }

  /** A step of one session keeps the invariant of the whole when it keeps the session's own. */
  lemma SessionStep(s: State, sid: SessionId, side: Side, events: seq<Event>, clock: Time)
    requires Inv(s) && sid in s.sides && side.pipeline == s.sides[sid].pipeline
    requires StaysUnbroken(s.log, events) && TimesAdvance(events, s.clock, clock)
    requires forall e | e in events :: HasId(side.pipeline, e.Subject())
    requires SideInv(side, DoneIds(s) + CompletedIds(events), s.log + events)
    ensures Inv(Post(s.(clock := clock), sid, side, events))
  {
    hide SideInv, ReportsOk, LinkOk;
    var s' := Post(s.(clock := clock), sid, side, events);
    assert Respond(s'.sides, s'.view) == Respond(s.sides, s.view);
    DeliverKeepsReports(s, s', events);
    var done := DoneIds(s);
    forall one | one in s.sides && one != sid
      ensures SideInv(s'.sides[one], done + CompletedIds(events), s.log + events)
    {
      OtherSideKeeps(s.sides[one], side.pipeline, events, done, s.log);
    }
    StrangersStayFresh(s.sides, s'.sides, sid, s.log, events);
    SidesDisjoint(s.sides, s'.sides);
  }

  lemma SidesDisjoint(sides: map<SessionId, Side>, sides': map<SessionId, Side>)
    requires sides'.Keys == sides.Keys
    requires forall one | one in sides :: sides'[one].pipeline == sides[one].pipeline
    requires forall one, two | one in sides && two in sides && one != two ::
          SharesNoId(sides[one].pipeline, sides[two].pipeline)
    ensures forall one, two | one in sides' && two in sides' && one != two ::
          SharesNoId(sides'[one].pipeline, sides'[two].pipeline)
  {
  }

  // ----- the scheduler's own steps

  lemma CollectKeeps(s: State)
    requires Inv(s) && Enabled(s, Collect)
    ensures Inv(Next(s, Collect))
  {
    hide SideInv, SharesNoId, TrackOf, PhaseOf, ServiceAppends;
    var s' := Next(s, Collect);
    assert Overlay(s') == Overlay(s);
    forall u | u in s'.link.tx
      ensures match u.key case ByStatus(_) => u.id in DoneIds(s) case ByTime(t) => t.Some? && t.value <= s.clock
    {
      var id :| id in s.updates && UpdateIdOf(s.updates[id]) == u;
      assert Overlay(s)[id] == s.updates[id];
    }
    forall id | id in s.updates && s.updates[id].Terminal() ensures id in DoneIds(s) {
      assert Overlay(s)[id] == s.updates[id];
    }
  }

  /** Telling the service what is pending does not change the overlay. */
  lemma SendingKeepsOverlay(s: State)
    requires ReportsOk(s) && LinkOk(s) && s.link.InFlight?
    ensures (s.view + s.link.sent) + s.updates == Overlay(s)
    ensures forall id | id in s.view + s.link.sent && (s.view + s.link.sent)[id].Terminal() :: id in DoneIds(s)
  {
    assert s.link.sent.Keys <= s.updates.Keys;
  }

  /** Appended actions are fresh: nothing was ever said about them. */
  lemma AppendedIsFresh(s: State, more: map<SessionId, seq<ActionSpec>>, sid: SessionId, j: nat)
    requires Inv(s) && ServiceAppends(s.sides, more) && sid in s.sides && j < |more[sid]|
    ensures TrackOf(s.log, more[sid][j].id) == Fresh
  {
    hide SideInv, ReportsOk, LinkOk, TrackOf;
    var id := more[sid][j].id;
    forall one | one in s.sides ensures !HasId(s.sides[one].pipeline, id) {
      if one == sid {
        AppendedIdIsNew(s.sides[sid].pipeline, more[sid], j);
      } else {
        AppendedIdIsNotShared(s.sides[one].pipeline, more[one], s.sides[sid].pipeline, more[sid], j);
      }
    }
  }

  lemma AppendedIdIsNew(pipeline: seq<ActionSpec>, more: seq<ActionSpec>, j: nat)
    requires DistinctIds(pipeline + more) && j < |more|
    ensures !HasId(pipeline, more[j].id)
  {
    forall i | 0 <= i < |pipeline| ensures pipeline[i].id != more[j].id {
      assert (pipeline + more)[i].id != (pipeline + more)[|pipeline| + j].id;
    }
  }

  lemma AppendedIdIsNotShared(other: seq<ActionSpec>, otherMore: seq<ActionSpec>, pipeline: seq<ActionSpec>,
          more: seq<ActionSpec>, j: nat)
    requires SharesNoId(other + otherMore, pipeline + more) && j < |more|
    ensures !HasId(other, more[j].id)
  {
    forall i | 0 <= i < |other| ensures other[i].id != more[j].id {
      assert (other + otherMore)[i].id != (pipeline + more)[|pipeline| + j].id;
    }
  }

  lemma HasIdAppend(a: seq<ActionSpec>, b: seq<ActionSpec>, id: ActionId)
    ensures HasId(a, id) ==> HasId(a + b, id)
  {
    if HasId(a, id) {
      var i :| 0 <= i < |a| && a[i].id == id;
      assert (a + b)[i].id == id;
    }
  }

  lemma ExtendKeepsSides(s: State, more: map<SessionId, seq<ActionSpec>>)
    requires Inv(s) && ServiceAppends(s.sides, more)
    ensures var sides := Extend(s.sides, more);
            && (forall sid | sid in sides :: SideInv(sides[sid], DoneIds(s), s.log))
            && (forall one, two | one in sides && two in sides && one != two ::
                  SharesNoId(sides[one].pipeline, sides[two].pipeline))
            && (forall id | (forall sid | sid in sides :: !HasId(sides[sid].pipeline, id)) :: TrackOf(s.log, id) == Fresh)
  {
    var sides, done := Extend(s.sides, more), DoneIds(s);
    forall sid | sid in sides ensures SideInv(sides[sid], done, s.log) {
      forall j | 0 <= j < |more[sid]| ensures TrackOf(s.log, more[sid][j].id) == Fresh {
        AppendedIsFresh(s, more, sid, j);
      }
      ExtendKeepsSide(s.sides[sid], more[sid], done, s.log);
    }
    StrangersStillFresh(s.sides, more, s.log);
  }

  lemma StrangersStillFresh(sides: map<SessionId, Side>, more: map<SessionId, seq<ActionSpec>>, log: seq<Event>)
    requires more.Keys == sides.Keys
    requires forall id | (forall sid | sid in sides :: !HasId(sides[sid].pipeline, id)) :: TrackOf(log, id) == Fresh
    ensures var sides' := Extend(sides, more);
            forall id | (forall sid | sid in sides' :: !HasId(sides'[sid].pipeline, id)) :: TrackOf(log, id) == Fresh
  {
    var sides' := Extend(sides, more);
    forall id | (forall sid | sid in sides' :: !HasId(sides'[sid].pipeline, id)) ensures TrackOf(log, id) == Fresh {
      forall sid | sid in sides ensures !HasId(sides[sid].pipeline, id) {
        assert !HasId(sides'[sid].pipeline, id);
        HasIdAppend(sides[sid].pipeline, more[sid], id);
      }
    }
  }

  lemma ExtendKeepsCancel(side: Side, more: seq<ActionSpec>, done: set<ActionId>, log: seq<Event>)
    requires CancelOk(side, done, log) && DistinctIds(side.pipeline + more)
    ensures var side' := side.(pipeline := side.pipeline + more);
            CancelOk(side', done, log) && (QueueShape(side) ==> QueueShape(side'))
  {
    var side' := side.(pipeline := side.pipeline + more);
    forall id ensures HasId(side.pipeline, id) ==> HasId(side'.pipeline, id) {
      HasIdAppend(side.pipeline, more, id);
    }
    forall id, a | id in side.thread.Unreported() && a in side'.pipeline && a.id == id ensures !a.kind.EnvExit? {
      var i :| 0 <= i < |side.pipeline| && side.pipeline[i].id == id;
      var j :| 0 <= j < |side'.pipeline| && side'.pipeline[j] == a;
      assert side'.pipeline[i].id == id;
      assert j == i && a in side.pipeline;
    }
  }

  lemma ExtendInFront(side: Side, more: seq<ActionSpec>, done: set<ActionId>, id: ActionId)
    requires InFront(side, id, done)
    ensures InFront(side.(pipeline := side.pipeline + more), id, done)
  {
    var side' := side.(pipeline := side.pipeline + more);
    var k :| 0 <= k < side.known && k < |side.pipeline| && side.pipeline[k].id == id
      && forall i | 0 <= i < k :: side.pipeline[i].id in done;
    assert side'.pipeline[k].id == id;
    assert forall i | 0 <= i < k :: side'.pipeline[i].id in done;
  }

  lemma ExtendPhases(side: Side, more: seq<ActionSpec>, log: seq<Event>)
    requires PhasesOk(side, log) && forall j | 0 <= j < |more| :: TrackOf(log, more[j].id) == Fresh
    ensures PhasesOk(side.(pipeline := side.pipeline + more), log)
  {
    var pipeline := side.pipeline + more;
    forall i | 0 <= i < |pipeline|
      ensures var id := pipeline[i].id;
        || PhaseOf(log, id).Queued? || PhaseOf(log, id).Done?
        || (side.sess.current.Some? && !side.sess.interrupted && id == side.sess.current.value.spec.id)
        || (side.sess.current.None? && side.sess.target.Some? && id == side.sess.target.value.spec.id)
    {
      if i < |side.pipeline| {
        assert pipeline[i] == side.pipeline[i];
      } else {
        assert pipeline[i] == more[i - |side.pipeline|];
      }
    }
  }

  lemma ExtendKeepsSide(side: Side, more: seq<ActionSpec>, done: set<ActionId>, log: seq<Event>)
    requires SideInv(side, done, log)
    requires DistinctIds(side.pipeline + more) && forall a | a in more :: a.kind.Assignable()
    requires forall j | 0 <= j < |more| :: TrackOf(log, more[j].id) == Fresh
    ensures SideInv(side.(pipeline := side.pipeline + more), done, log)
  {
    var side' := side.(pipeline := side.pipeline + more);
    ExtendKeepsCancel(side, more, done, log);
    ExtendPhases(side, more, log);
    if side.thread.Orderly() {
      assert side'.pipeline[..side.known] == side.pipeline[..side.known];
    }
    forall id | InFront(side, id, done) ensures InFront(side', id, done) {
      ExtendInFront(side, more, done, id);
    }
    hide CancelOk, QueueShape, Open, PhasesOk, InFront;
  }

  lemma ServeKeeps(s: State, more: map<SessionId, seq<ActionSpec>>)
    requires Inv(s) && Enabled(s, Serve(more))
    ensures Inv(Next(s, Serve(more)))
  {
    hide SideInv, SharesNoId, TrackOf, PhaseOf, ServiceAppends;
    var s' := Next(s, Serve(more));
    SendingKeepsOverlay(s);
    ExtendKeepsSides(s, more);
    assert Overlay(s') == Overlay(s);
  }

  lemma LoseReplyKeeps(s: State, more: map<SessionId, seq<ActionSpec>>)
    requires Inv(s) && Enabled(s, LoseReply(more))
    ensures Inv(Next(s, LoseReply(more)))
  {
    hide SideInv, SharesNoId, TrackOf, PhaseOf, ServiceAppends;
    var s' := Next(s, LoseReply(more));
    SendingKeepsOverlay(s);
    ExtendKeepsSides(s, more);
    assert Overlay(s') == Overlay(s);
  }

  lemma LoseRequestKeeps(s: State)
    requires Inv(s) && Enabled(s, LoseRequest)
    ensures Inv(Next(s, LoseRequest))
  {
    hide SideInv, SharesNoId, TrackOf, PhaseOf, ServiceAppends;
    assert Overlay(Next(s, LoseRequest)) == Overlay(s);
  }

  /** The commit forgets only what the service now holds itself. */
  lemma CommitKeeps(s: State)
    requires Inv(s) && Enabled(s, CommitSent)
    ensures Inv(Next(s, CommitSent))
  {
    hide SideInv, SharesNoId, TrackOf, PhaseOf, ServiceAppends;
    var s' := Next(s, CommitSent);
    assert Overlay(s') == Overlay(s);
  }
}
