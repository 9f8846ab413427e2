/** The mutable queue of one session, proved against the values of session_queue.dfy. */
module SessionQueueObject {
  import opened Actions
  import opened Lifecycle
  import opened QueueModel
  import opened QueueCancelation
  import opened SchedulerObject

  class SessionActionQueue {
    const scheduler: Scheduler
    var actions: seq<Entry>
    var byId: map<ActionId, Entry>
    var nextEvent: nat
    var cancelled: set<nat>

    function State(): Queue
      reads this
    {
      Queue(actions, byId, nextEvent, cancelled)
    }

    ghost predicate Valid()
      reads this, scheduler
    {
      Coherent(State()) && scheduler.Valid()
    }

    constructor (scheduler: Scheduler)
      requires scheduler.Valid()
      ensures Valid() && this.scheduler == scheduler && State() == EmptyQueue
    {
      this.scheduler := scheduler;
      actions, byId, nextEvent, cancelled := [], map[], 0, {};
    }

    method IsEmpty() returns (empty: bool)
      ensures empty <==> Specs(State().actions) == []
    {
      empty := |actions| == 0;
    }

    /** Builds the new list in one pass. The dictionary is updated as the pass goes, so an action of
        unknown type leaves the new ids in it and the old list in place. */
    method Replace(specs: seq<ActionSpec>) returns (ok: bool)
      modifies this
      ensures State() == QueueModel.Replace(old(State()), specs)
      ensures ok <==> ReplaceSucceeds(old(State()), specs)
      ensures old(Valid()) && (!ok || DistinctIds(specs)) ==> Valid()
    {
      hide Fill, FillsUp, Coherent;
      ghost var q := State();
      ghost var whole := Fill(q.byId, q.nextEvent, specs);
      var entries: seq<Entry> := [];
      var i := 0;
      FillBegins(q, specs);
      while i < |specs|
        invariant 0 <= i <= |specs|
        invariant actions == q.actions && cancelled == q.cancelled && (Coherent(q) ==> Coherent(State()))
        invariant FillsUp(whole, entries, Fill(byId, nextEvent, specs[i..]))
      {
        var spec := specs[i];
        FillGoesOn(State(), specs, i, whole, entries);
        StillCoherent(State(), spec);
        var event := nextEvent;
        nextEvent := nextEvent + 1;
        if spec.id !in byId {
          if !Queueable(spec.kind) {
            return false;
          }
          byId := byId[spec.id := Entry(event, spec)];
        }
        entries := entries + [byId[spec.id]];
        i := i + 1;
      }
      FillEnds(State(), specs, whole, entries);
      actions := entries;
      ok := true;
      if Coherent(q) && DistinctIds(specs) {
        ReplaceFollows(q, specs);
      }
    }

    method InsertFront(spec: ActionSpec)
      requires Valid()
      modifies this
      ensures State() == QueueModel.InsertFront(old(State()), spec)
      ensures Valid() <==> !old(HasId(Specs(actions), spec.id))
    {
      ghost var q := State();
      var entry := Entry(nextEvent, spec);
      nextEvent := nextEvent + 1;
      actions := [entry] + actions;
      byId := byId[spec.id := entry];
      InsertFrontCoherent(q, spec);
    }

    /** Takes one queued action out, sets its cancel event and reports it. Only a FAILED outcome
        carries times. */
    method Cancel(id: ActionId, failed: bool, now: Time, detail: int, ghost attachments: bool)
      requires Valid() && HasId(Specs(actions), id)
      modifies this, scheduler
      ensures Valid()
      ensures State() == Cancelled(old(State()), {id})
      ensures scheduler.Absorbed(
                [Reported(if failed then FailedAt(id, now, detail) else NeverAttempted(id, detail), attachments)])
    {
      ghost var q := State();
      ghost var k := PlaceOf(q, id);
      hide Coherent, Cancelled, NeverAttempted, FailedAt;
      var entry := byId[id];
      byId := byId - {id};
      var i := 0;
      while actions[i] != entry
        invariant 0 <= i <= k && actions == q.actions
        decreases k - i
      {
        i := i + 1;
      }
      SameEntry(q, i, k);
      actions := actions[..i] + actions[i + 1..];
      cancelled := cancelled + {entry.event};
      RemoveOne(q, k);
      CancelledCoherent(q, {id});
      var times := if failed then Some(now) else None;
      scheduler.HandleUpdate(
        Status(id, Some(if failed then FAILED else NEVER_ATTEMPTED), None, times, times, detail), attachments);
    }

    method CancelAll(ignoreEnvExits: bool, now: Time, detail: int, ghost attachments: bool)
      requires Valid()
      modifies this, scheduler
      ensures Valid()
      ensures State() == QueueModel.CancelAll(old(State()), ignoreEnvExits)
      ensures scheduler.Absorbed(CancelReports(CancelIds(old(actions), ignoreEnvExits), detail, attachments))
    {
      hide Cancelled, Coherent, CancelReports, CancelIds, Absorb, IdSet, Specs, QueueModel.CancelAll, HasId;
      ghost var q := State();
      var ids := CancelIds(actions, ignoreEnvExits);
      EverythingCancelled(q, ignoreEnvExits);
      NothingCancelled(q);
      NothingReported(old(scheduler.updates), detail, attachments);
      assert ids[..0] == [];
      var i := 0;
      while i < |ids|
        invariant 0 <= i <= |ids| && Valid()
        invariant State() == Cancelled(q, IdSet(ids[..i]))
        invariant scheduler.Absorbed(CancelReports(ids[..i], detail, attachments))
      {
        StillQueued(q, ignoreEnvExits, i);
        NextCancelled(q, ids, i);
        NextReports(old(scheduler.updates), ids, i, detail, attachments);
        if ids[i] in byId {
          Cancel(ids[i], false, now, detail, attachments);
        }
        i := i + 1;
      }
      assert ids[..i] == ids;
    }

    /** Cancels the queue without a lock, as the cleanup does; `gaps` are the assignments that come in
        between. False when everything was cancelled, true when a removal raised. */
    method CancelAllUnlocked(gaps: seq<Gaps>, detail: int, ghost attachments: bool) returns (raised: bool)
      requires scheduler.Valid() && |gaps| == |CancelIds(actions, true)|
      modifies this, scheduler
      ensures scheduler.Valid()
      ensures var c := CancelEach(old(State()), CancelIds(old(actions), true), gaps);
              && State() == c.queue && raised == c.raised
              && scheduler.Absorbed(CancelReports(c.reported, detail, attachments))
    {
      hide CancelEach, CancelReports, CancelIds, Absorb, QueueCancelation.CancelOne;
      ghost var q := State();
      ghost var reported: seq<ActionId> := [];
      var ids := CancelIds(actions, true);
      NothingReported(scheduler.updates, detail, attachments);
      assert ids[0..] == ids && gaps[0..] == gaps;
      ReportingNothing(CancelEach(q, ids, gaps));
      var i := 0;
      while i < |ids|
        invariant 0 <= i <= |ids| && scheduler.Valid()
        invariant scheduler.Absorbed(CancelReports(reported, detail, attachments))
        invariant CancelEach(q, ids, gaps) == Reporting(reported, CancelEach(State(), ids[i..], gaps[i..]))
      {
        CancelEachStep(State(), ids[i..], gaps[i..], reported);
        assert ids[i..][1..] == ids[i + 1..] && gaps[i..][1..] == gaps[i + 1..];
        var turn := CancelOne(ids[i], gaps[i]);
        if turn.Raised? {
          return true;
        }
        if turn.TakenOut? {
          OneMoreReport(old(scheduler.updates), reported, ids[i], detail, attachments);
          scheduler.HandleUpdate(NeverAttempted(ids[i], detail), attachments);
          reported := reported + [ids[i]];
        }
        i := i + 1;
      }
      CancelEachOfNothing(State(), ids[i..], gaps[i..], reported);
      raised := false;
    }

    /** The turn of one id, up to its report. */
    method CancelOne(id: ActionId, gaps: Gaps) returns (turn: Turn)
      modifies this
      ensures turn == QueueCancelation.CancelOne(old(State()), id, gaps) && State() == turn.queue
    {
      hide QueueModel.Replace;
      AssignMeanwhile(gaps.before);
      if id !in byId {
        return Skipped(State());
      }
      var entry := byId[id];
      byId := byId - {id};
      AssignMeanwhile(gaps.between);
      if entry !in actions {
        return Raised(State());
      }
      RemoveEntry(entry);
      cancelled := cancelled + {entry.event};
      AssignMeanwhile(gaps.after);
      return TakenOut(State());
    }

    /** Another thread assigns actions, or does not. */
    method AssignMeanwhile(specs: Option<seq<ActionSpec>>)
      modifies this
      ensures State() == Pass(old(State()), specs)
    {
      if specs.Some? {
        var ok := Replace(specs.value);
      }
    }

    method RemoveEntry(entry: Entry)
      requires entry in actions
      modifies this`actions
      ensures actions == RemoveFirst(old(actions), entry)
    {
      hide RemoveFirst;
      var i := 0;
      assert actions[0..] == actions;
      while actions[i] != entry
        invariant 0 <= i < |actions| && entry in actions[i..] && actions == old(actions)
        invariant RemoveFirst(actions, entry) == actions[..i] + RemoveFirst(actions[i..], entry)
        decreases |actions| - i
      {
        assert actions[i..] == [actions[i]] + actions[i + 1..];
        RemoveFromRest(actions, i, entry);
        i := i + 1;
      }
      RemoveFromRest(actions, i, entry);
      actions := actions[..i] + actions[i + 1..];
    }

    method Dequeue(answer: Answer) returns (next: Dequeued)
      requires Valid()
      modifies this
      ensures Valid()
      ensures next == DequeueOutcome(old(State()), answer)
      ensures State() == QueueModel.Dequeue(old(State()), answer)
    {
      if |actions| == 0 {
        return Nothing;
      }
      var spec := actions[0].spec;
      if spec.kind.StartsWithEnv() {
        if !answer.Found? {
          return ActionError(spec.id);
        }
        if !spec.kind.EnvEnter? && !spec.kind.EnvExit? {
          return Crash;
        }
      } else if spec.kind.TaskRun? {
        if !answer.Found? {
          return ActionError(spec.id);
        }
      } else if spec.kind.SyncInput? {
        if answer.RuntimeErrorRaised? {
          return Crash;
        }
        if !answer.Found? {
          return ActionError(spec.id);
        }
      } else if !spec.kind.SyncOutput? {
        return Crash;
      }
      DequeueIsTail(State(), answer);
      actions := actions[1..];
      byId := byId - {spec.id};
      return NextAction(spec);
    }
  }

  /** `rest` is what is still to be built of `whole`, of whose list `entries` is there already. */
  ghost predicate FillsUp(whole: Filled, entries: seq<Entry>, rest: Filled) {
    && whole.byId == rest.byId && whole.nextEvent == rest.nextEvent && whole.ok == rest.ok
    && (rest.ok ==> whole.entries == entries + rest.entries)
  }

  lemma FillBegins(q: Queue, specs: seq<ActionSpec>)
    ensures FillsUp(Fill(q.byId, q.nextEvent, specs), [], Fill(q.byId, q.nextEvent, specs[0..]))
  {
    assert specs[0..] == specs;
  }

  /** One turn of the pass: the entry is found or made, or the pass fails. */
  lemma FillGoesOn(q: Queue, specs: seq<ActionSpec>, i: nat, whole: Filled, entries: seq<Entry>)
    requires i < |specs| && FillsUp(whole, entries, Fill(q.byId, q.nextEvent, specs[i..]))
    ensures var spec := specs[i];
            if spec.id in q.byId then
              FillsUp(whole, entries + [q.byId[spec.id]], Fill(q.byId, q.nextEvent + 1, specs[i + 1..]))
            else if Queueable(spec.kind) then
              var entry := Entry(q.nextEvent, spec);
              FillsUp(whole, entries + [entry], Fill(q.byId[spec.id := entry], q.nextEvent + 1, specs[i + 1..]))
            else !whole.ok && whole.byId == q.byId && whole.nextEvent == q.nextEvent + 1
  {
    assert specs[i..][0] == specs[i] && specs[i..][1..] == specs[i + 1..];
  }

  lemma FillEnds(q: Queue, specs: seq<ActionSpec>, whole: Filled, entries: seq<Entry>)
    requires FillsUp(whole, entries, Fill(q.byId, q.nextEvent, specs[|specs|..]))
    ensures whole == Filled(entries, q.byId, q.nextEvent, true)
  {
    assert specs[|specs|..] == [] && entries + [] == entries;
  }

  lemma StillCoherent(q: Queue, spec: ActionSpec)
    ensures Coherent(q) ==> Coherent(q.(nextEvent := q.nextEvent + 1))
    ensures Coherent(q) && spec.id !in q.byId ==>
              Coherent(q.(byId := q.byId[spec.id := Entry(q.nextEvent, spec)], nextEvent := q.nextEvent + 1))
  {
  }

  /** The removal passes over an entry, or takes it out. */
  lemma RemoveFromRest(entries: seq<Entry>, i: nat, entry: Entry)
    requires i < |entries|
    ensures entries[i] != entry ==>
              entries[..i] + RemoveFirst(entries[i..], entry) == entries[..i + 1] + RemoveFirst(entries[i + 1..], entry)
    ensures entries[i] == entry ==> RemoveFirst(entries[i..], entry) == entries[i + 1..]
  {
    assert entries[i..][1..] == entries[i + 1..];
    assert entries[..i] + [entries[i]] == entries[..i + 1];
  }

  // ----- cancelling a set of ids, one after the other

  function Cancelled(q: Queue, gone: set<ActionId>): Queue {
    Queue(Drop(q.actions, gone), q.byId - gone, q.nextEvent, q.cancelled + EventsOf(q, gone))
  }

  lemma EverythingCancelled(q: Queue, ignoreEnvExits: bool)
    ensures Cancelled(q, IdSet(CancelIds(q.actions, ignoreEnvExits))) == QueueModel.CancelAll(q, ignoreEnvExits)
  {
  }

  lemma NothingReported(updates: map<ActionId, Status>, detail: int, attachments: bool)
    ensures CancelReports([], detail, attachments) == [] && Absorb(updates, []) == updates
  {
  }

  lemma ReportingNothing(c: Cancelation)
    ensures Reporting([], c) == c
  {
  }

  lemma CancelEachOfNothing(q: Queue, ids: seq<ActionId>, gaps: seq<Gaps>, reported: seq<ActionId>)
    requires ids == [] && gaps == []
    ensures Reporting(reported, CancelEach(q, ids, gaps)) == Cancelation(q, reported, false)
  {
  }

  lemma CancelEachStep(q: Queue, ids: seq<ActionId>, gaps: seq<Gaps>, reported: seq<ActionId>)
    requires |gaps| == |ids| && ids != []
    ensures var c := Reporting(reported, CancelEach(q, ids, gaps));
            match QueueCancelation.CancelOne(q, ids[0], gaps[0])
            case Skipped(next) => c == Reporting(reported, CancelEach(next, ids[1..], gaps[1..]))
            case Raised(next) => c == Cancelation(next, reported, true)
            case TakenOut(next) => c == Reporting(reported + [ids[0]], CancelEach(next, ids[1..], gaps[1..]))
  {
  }

  lemma OneMoreReport(updates: map<ActionId, Status>, ids: seq<ActionId>, id: ActionId, detail: int, attachments: bool)
    ensures var before, after := CancelReports(ids, detail, attachments), CancelReports(ids + [id], detail, attachments);
            var report := [Reported(NeverAttempted(id, detail), attachments)];
            after == before + report && Absorb(updates, after) == Absorb(Absorb(updates, before), report)
  {
    assert (ids + [id])[..|ids|] == ids && (ids + [id])[..|ids| + 1] == ids + [id];
    NextReports(updates, ids + [id], |ids|, detail, attachments);
  }

  /** When nothing is assigned in between, cancelling without a lock is cancelling everything. */
  lemma QuietCancelation(q: Queue, gaps: seq<Gaps>)
    requires Coherent(q) && |gaps| == |CancelIds(q.actions, true)|
    requires forall g | g in gaps :: g.before.None? && g.between.None? && g.after.None?
    ensures var ids := CancelIds(q.actions, true);
            CancelEach(q, ids, gaps) == Cancelation(QueueModel.CancelAll(q, true), ids, false)
  {
    var ids := CancelIds(q.actions, true);
    ListedHolds(q);
    QuietEach(q, ids, gaps);
    EverythingCancelled(q, true);
  }

  lemma {:induction false} QuietEach(q: Queue, ids: seq<ActionId>, gaps: seq<Gaps>)
    requires Holds(q, ids) && |gaps| == |ids|
    requires forall g | g in gaps :: g.before.None? && g.between.None? && g.after.None?
    ensures CancelEach(q, ids, gaps) == Cancelation(Cancelled(q, IdSet(ids)), ids, false)
    decreases ids
  {
    hide Holds, QueueCancelation.CancelOne, CancelEach, Cancelled, IdSet;
    if ids == [] {
      CancelEachOfNothing(q, ids, gaps, []);
      NothingCancelled(q);
    } else {
      var id := ids[0];
      assert gaps[0] in gaps && forall g | g in gaps[1..] :: g in gaps;
      QuietOne(q, ids, gaps[0]);
      var next := Cancelled(q, {id});
      FirstTakenOut(q, ids, gaps, next);
      QuietEach(next, ids[1..], gaps[1..]);
      CancelledCompose(q, {id}, IdSet(ids[1..]));
      assert ids == [id] + ids[1..];
      IdSetFirst(id, ids[1..]);
    }
  }

  lemma FirstTakenOut(q: Queue, ids: seq<ActionId>, gaps: seq<Gaps>, next: Queue)
    requires |gaps| == |ids| && ids != [] && QueueCancelation.CancelOne(q, ids[0], gaps[0]) == TakenOut(next)
    ensures CancelEach(q, ids, gaps) == Reporting([ids[0]], CancelEach(next, ids[1..], gaps[1..]))
  {
  }

  lemma IdSetFirst(id: ActionId, rest: seq<ActionId>)
    ensures IdSet([id] + rest) == {id} + IdSet(rest)
  {
  }

  lemma QuietOne(q: Queue, ids: seq<ActionId>, gaps: Gaps)
    requires Holds(q, ids) && ids != [] && gaps.before.None? && gaps.between.None? && gaps.after.None?
    ensures Holds(q, [ids[0]])
    ensures QueueCancelation.CancelOne(q, ids[0], gaps) == TakenOut(Cancelled(q, {ids[0]}))
    ensures Holds(Cancelled(q, {ids[0]}), ids[1..])
  {
    var id := ids[0];
    assert id in ids;
    PopHolds(q, ids);
    RemoveHolds(Pop(q, id), ids[1..], q.byId[id]);
    OneTaken(q, id);
  }

  lemma OneTaken(q: Queue, id: ActionId)
    requires Holds(q, [id])
    ensures Remove(Pop(q, id), q.byId[id]) == Cancelled(q, {id})
  {
    assert id in [id];
    RemoveIsDrop(q.actions, q.byId[id]);
    assert EventsOf(q, {id}) == {q.byId[id].event};
  }

  lemma {:induction false} RemoveIsDrop(entries: seq<Entry>, entry: Entry)
    requires DistinctIds(Specs(entries)) && entry in entries
    ensures RemoveFirst(entries, entry) == Drop(entries, {entry.spec.id})
  {
    var tail := entries[1..];
    forall i | 0 <= i < |tail| ensures tail[i].spec.id != entries[0].spec.id {
      assert Specs(entries)[0].id != Specs(entries)[i + 1].id;
    }
    if entries[0] == entry {
      DropFree(tail, {entry.spec.id});
    } else {
      assert entries == [entries[0]] + tail && entry in tail;
      forall i, j | 0 <= i < j < |tail| ensures Specs(tail)[i].id != Specs(tail)[j].id {
        assert Specs(entries)[i + 1].id != Specs(entries)[j + 1].id;
      }
      RemoveIsDrop(tail, entry);
    }
  }

  lemma NothingCancelled(q: Queue)
    ensures Cancelled(q, IdSet([])) == q
  {
    assert IdSet([]) == {};
    DropNone(q.actions);
  }

  lemma DropNone(entries: seq<Entry>)
    ensures Drop(entries, {}) == entries
  {
    if entries != [] {
      DropNone(entries[1..]);
    }
  }

  lemma {:induction false} DropCompose(entries: seq<Entry>, first: set<ActionId>, second: set<ActionId>)
    ensures Drop(Drop(entries, first), second) == Drop(entries, first + second)
  {
    if entries != [] {
      DropCompose(entries[1..], first, second);
      if entries[0].spec.id !in first {
        assert ([entries[0]] + Drop(entries[1..], first))[1..] == Drop(entries[1..], first);
      }
    }
  }

  /** Cancelling in two rounds is cancelling in one. */
  lemma CancelledCompose(q: Queue, first: set<ActionId>, second: set<ActionId>)
    ensures Cancelled(Cancelled(q, first), second) == Cancelled(q, first + second)
  {
    DropCompose(q.actions, first, second);
    var r := Cancelled(q, first);
    assert EventsOf(q, first) + EventsOf(r, second) == EventsOf(q, first + second) by {
      forall e | e in EventsOf(q, first + second) ensures e in EventsOf(q, first) + EventsOf(r, second) {
        var id :| id in first + second && id in q.byId && q.byId[id].event == e;
        if id !in first {
          assert id in second && id in r.byId;
        }
      }
    }
  }

  lemma NextCancelled(q: Queue, ids: seq<ActionId>, i: nat)
    requires i < |ids|
    ensures Cancelled(Cancelled(q, IdSet(ids[..i])), {ids[i]}) == Cancelled(q, IdSet(ids[..i + 1]))
  {
    CancelledCompose(q, IdSet(ids[..i]), {ids[i]});
    assert IdSet(ids[..i + 1]) == IdSet(ids[..i]) + {ids[i]};
  }

  lemma NextReports(updates: map<ActionId, Status>, ids: seq<ActionId>, i: nat, detail: int, attachments: bool)
    requires i < |ids|
    ensures var before, after := CancelReports(ids[..i], detail, attachments), CancelReports(ids[..i + 1], detail, attachments);
            var report := [Reported(NeverAttempted(ids[i], detail), attachments)];
            after == before + report && Absorb(updates, after) == Absorb(Absorb(updates, before), report)
  {
    var before, report := CancelReports(ids[..i], detail, attachments), [Reported(NeverAttempted(ids[i], detail), attachments)];
    AbsorbAppend(updates, before, report);
    assert CancelReports(ids[..i + 1], detail, attachments) == before + report;
  }

  lemma CancelledCoherent(q: Queue, gone: set<ActionId>)
    requires Coherent(q)
    ensures Coherent(Cancelled(q, gone))
  {
    var r := Cancelled(q, gone);
    DropMembers(q.actions, gone);
    DropSpecs(q.actions, gone);
    OutstandingMembers(Specs(q.actions), gone);
    forall i | 0 <= i < |r.actions|
      ensures r.actions[i].spec.id in r.byId && r.byId[r.actions[i].spec.id] == r.actions[i]
    {
      assert r.actions[i] in r.actions;
    }
  }

  lemma PlaceOf(q: Queue, id: ActionId) returns (k: nat)
    requires Coherent(q) && HasId(Specs(q.actions), id)
    ensures k < |q.actions| && q.actions[k].spec.id == id && id in q.byId && q.byId[id] == q.actions[k]
  {
    k :| 0 <= k < |Specs(q.actions)| && Specs(q.actions)[k].id == id;
    assert q.actions[k].spec.id in q.byId;
  }

  lemma SameEntry(q: Queue, i: nat, k: nat)
    requires Coherent(q) && i <= k < |q.actions| && q.actions[i] == q.actions[k]
    ensures i == k
  {
    assert Specs(q.actions)[i].id == Specs(q.actions)[k].id;
  }

  /** Taking out the one entry with an id is dropping that id. */
  lemma RemoveOne(q: Queue, k: nat)
    requires Coherent(q) && k < |q.actions|
    ensures q.actions[..k] + q.actions[k + 1..] == Drop(q.actions, {q.actions[k].spec.id})
  {
    forall i | 0 <= i < |q.actions| && i != k ensures q.actions[i].spec.id != q.actions[k].spec.id {
      if i < k { EntriesDistinct(q, i, k); } else { EntriesDistinct(q, k, i); }
    }
    DropOnly(q.actions, k);
  }

  lemma {:induction false} DropOnly(entries: seq<Entry>, k: nat)
    requires k < |entries|
    requires forall i | 0 <= i < |entries| && i != k :: entries[i].spec.id != entries[k].spec.id
    ensures entries[..k] + entries[k + 1..] == Drop(entries, {entries[k].spec.id})
  {
    var gone := {entries[k].spec.id};
    if k == 0 {
      DropFree(entries[1..], gone);
    } else {
      DropOnly(entries[1..], k - 1);
      assert entries[1..][..k - 1] + entries[1..][k..] == Drop(entries[1..], gone);
      assert entries[..k] + entries[k + 1..] == [entries[0]] + (entries[1..][..k - 1] + entries[1..][k..]);
    }
  }

  lemma {:induction false} DropFree(entries: seq<Entry>, gone: set<ActionId>)
    requires forall i | 0 <= i < |entries| :: entries[i].spec.id !in gone
    ensures Drop(entries, gone) == entries
  {
    if entries != [] {
      DropFree(entries[1..], gone);
    }
  }

  /** When the first `i` of the ids are cancelled, the next one is still queued. */
  lemma StillQueued(q: Queue, ignoreEnvExits: bool, i: nat)
    requires Coherent(q) && i < |CancelIds(q.actions, ignoreEnvExits)|
    ensures var ids := CancelIds(q.actions, ignoreEnvExits);
            var r := Cancelled(q, IdSet(ids[..i]));
            ids[i] in r.byId && HasId(Specs(r.actions), ids[i])
  {
    var ids := CancelIds(q.actions, ignoreEnvExits);
    var gone := IdSet(ids[..i]);
    CancelIdsMembers(q.actions, ignoreEnvExits);
    assert ids[i] in ids;
    var e :| e in q.actions && e.spec.id == ids[i];
    assert ids[i] !in gone;
    DropMembers(q.actions, gone);
    var r := Cancelled(q, gone);
    var k :| 0 <= k < |r.actions| && r.actions[k] == e;
    assert Specs(r.actions)[k].id == ids[i];
    var m :| 0 <= m < |q.actions| && q.actions[m] == e;
    assert q.actions[m].spec.id in q.byId;
  }
}
