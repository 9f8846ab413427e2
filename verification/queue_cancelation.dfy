/** Cancelling a queue entry by entry without a lock, while assignments may come in between: what one
    session's cleanup does to its queue, as a function of the assignments and where they fall. */
module QueueCancelation {
  import opened Actions
  import opened QueueModel

  /** The assignments that come in between for one id: before its entry is popped, between that and
      the removal from the list, and between that and the report. */
  datatype Gaps = Gaps(before: Option<seq<ActionSpec>>, between: Option<seq<ActionSpec>>, after: Option<seq<ActionSpec>>)

  function Pass(q: Queue, specs: Option<seq<ActionSpec>>): Queue {
    if specs.Some? then Replace(q, specs.value) else q
  }

  /** The queue that is left, the ids that were reported, and whether a removal raised. */
  datatype Cancelation = Cancelation(queue: Queue, reported: seq<ActionId>, raised: bool)

  function Pop(q: Queue, id: ActionId): Queue {
    q.(byId := q.byId - {id})
  }

  function Remove(q: Queue, entry: Entry): Queue {
    q.(actions := RemoveFirst(q.actions, entry), cancelled := q.cancelled + {entry.event})
  }

  /** One id: without an entry it is skipped; the removal may raise; or the entry is taken out. */
  datatype Turn = Skipped(queue: Queue) | Raised(queue: Queue) | TakenOut(queue: Queue)

  function CancelOne(q: Queue, id: ActionId, gaps: Gaps): Turn {
    var before := Pass(q, gaps.before);
    if id !in before.byId then Skipped(before)
    else
      var entry := before.byId[id];
      var popped := Pass(Pop(before, id), gaps.between);
      if entry !in popped.actions then Raised(popped) else TakenOut(Pass(Remove(popped, entry), gaps.after))
  }

  function CancelEach(q: Queue, ids: seq<ActionId>, gaps: seq<Gaps>): Cancelation
    requires |gaps| == |ids|
    decreases ids
  {
    if ids == [] then Cancelation(q, [], false)
    else
      match CancelOne(q, ids[0], gaps[0])
      case Skipped(next) => CancelEach(next, ids[1..], gaps[1..])
      case Raised(next) => Cancelation(next, [], true)
      case TakenOut(next) => Reporting([ids[0]], CancelEach(next, ids[1..], gaps[1..]))
  }

  function Reporting(first: seq<ActionId>, c: Cancelation): Cancelation {
    c.(reported := first + c.reported)
  }

  // ----- when a removal raises

  /** What the scheduler assigns: each action once, of a known kind, and all that is not completed. */
  predicate ListsAll(specs: seq<ActionSpec>, ids: seq<ActionId>) {
    && DistinctIds(specs)
    && (forall a | a in specs :: Queueable(a.kind))
    && forall id | id in ids :: HasId(specs, id)
  }

  /** The assignments that come in between for the first of `ids` list what is left: before the pop all
      of them, from then on all the others. */
  predicate GapLists(g: Gaps, ids: seq<ActionId>)
    requires ids != []
  {
    && (g.before.Some? ==> ListsAll(g.before.value, ids))
    && (g.between.Some? ==> ListsAll(g.between.value, ids[1..]))
    && (g.after.Some? ==> ListsAll(g.after.value, ids[1..]))
  }

  /** Every assignment lists what is still to be cancelled when it is made; what was reported before is
      completed, and no longer listed. */
  predicate AllListed(gaps: seq<Gaps>, ids: seq<ActionId>)
    requires |gaps| == |ids|
    decreases ids
  {
    ids == [] || (GapLists(gaps[0], ids) && AllListed(gaps[1..], ids[1..]))
  }

  /** So it is with the scheduler's assignments: the actions of the session that are not completed and
      not running list everything that is neither. */
  lemma OutstandingListsAll(pipeline: seq<ActionSpec>, gone: set<ActionId>, ids: seq<ActionId>)
    requires DistinctIds(pipeline) && forall a | a in pipeline :: a.kind.Assignable()
    requires forall id | id in ids :: HasId(pipeline, id) && id !in gone
    ensures ListsAll(Outstanding(pipeline, gone), ids)
  {
    OutstandingMembers(pipeline, gone);
    forall id | id in ids ensures HasId(Outstanding(pipeline, gone), id) {
      OutstandingHasId(pipeline, gone, id);
    }
  }

  /** The entries of the ids are in the list and in the dictionary. */
  ghost predicate Holds(q: Queue, ids: seq<ActionId>) {
    && (forall k | k in q.byId :: q.byId[k].spec.id == k && q.byId[k].event < q.nextEvent)
    && DistinctIds(Specs(q.actions))
    && (forall id | id in ids :: id in q.byId && q.byId[id] in q.actions)
    && forall i, j | 0 <= i < j < |ids| :: ids[i] != ids[j]
  }

  lemma PassHolds(q: Queue, ids: seq<ActionId>, specs: Option<seq<ActionSpec>>)
    requires Holds(q, ids) && (specs.Some? ==> ListsAll(specs.value, ids))
    ensures Holds(Pass(q, specs), ids)
    ensures specs.Some? ==> forall e | e in Pass(q, specs).actions ::
              (e.spec.id in q.byId && q.byId[e.spec.id] == e) || e.event >= q.nextEvent
  {
    if specs.Some? {
      ReplacedHolds(q, ids, specs.value);
    }
  }

  lemma ReplacedHolds(q: Queue, ids: seq<ActionId>, specs: seq<ActionSpec>)
    requires Holds(q, ids) && ListsAll(specs, ids)
    ensures Holds(Replace(q, specs), ids)
    ensures forall e | e in Replace(q, specs).actions ::
              (e.spec.id in q.byId && q.byId[e.spec.id] == e) || e.event >= q.nextEvent
  {
    var r := Replace(q, specs);
    FillFailsOnUnknownType(q.byId, q.nextEvent, specs);
    FillKeeps(q.byId, q.nextEvent, specs);
    forall i | 0 <= i < |specs|
      ensures r.actions[i] == if specs[i].id in q.byId then q.byId[specs[i].id] else Entry(q.nextEvent + i, specs[i])
      ensures specs[i].id in r.byId && r.byId[specs[i].id] == r.actions[i] && r.actions[i].spec.id == specs[i].id
    {
      FillAt(q.byId, q.nextEvent, specs, i);
    }
    forall k | k in r.byId ensures r.byId[k].spec.id == k && r.byId[k].event < r.nextEvent {
      if k !in q.byId {
        var i :| 0 <= i < |specs| && specs[i].id == k;
        assert r.byId[specs[i].id] == r.actions[i];
      }
    }
    forall i, j | 0 <= i < j < |r.actions| ensures Specs(r.actions)[i].id != Specs(r.actions)[j].id {
      assert specs[i].id != specs[j].id;
    }
    forall id | id in ids ensures id in r.byId && r.byId[id] in r.actions {
      var i :| 0 <= i < |specs| && specs[i].id == id;
      assert r.byId[specs[i].id] == r.actions[i];
    }
  }

  lemma PopHolds(q: Queue, ids: seq<ActionId>)
    requires Holds(q, ids) && ids != []
    ensures Holds(Pop(q, ids[0]), ids[1..])
    ensures q.byId[ids[0]] in q.actions && q.byId[ids[0]].event < q.nextEvent && ids[0] !in Pop(q, ids[0]).byId
  {
    assert ids[0] in ids;
    forall i | 0 <= i < |ids[1..]| ensures ids[1..][i] != ids[0] {
      assert ids[i + 1] != ids[0];
    }
  }

  lemma RemoveHolds(q: Queue, ids: seq<ActionId>, entry: Entry)
    requires Holds(q, ids) && entry.spec.id !in q.byId
    ensures Holds(Remove(q, entry), ids)
  {
    RemoveFirstMembers(q.actions, entry);
  }

  /** A removal raised exactly when an assignment fell between a pop and its removal; all ids before
      that one were reported, and otherwise all were. */
  predicate RaisedInBetween(c: Cancelation, ids: seq<ActionId>, gaps: seq<Gaps>)
    requires |gaps| == |ids|
  {
    && (c.raised <==> exists i :: 0 <= i < |ids| && gaps[i].between.Some?)
    && c.reported <= ids
    && (c.raised ==> |c.reported| < |ids| && gaps[|c.reported|].between.Some?)
    && (!c.raised ==> c.reported == ids)
    && forall i | 0 <= i < |c.reported| :: gaps[i].between.None?
  }

  lemma OneReported(c: Cancelation, ids: seq<ActionId>, gaps: seq<Gaps>)
    requires ids != [] && |gaps| == |ids| && gaps[0].between.None? && RaisedInBetween(c, ids[1..], gaps[1..])
    ensures RaisedInBetween(Reporting([ids[0]], c), ids, gaps)
  {
    assert ids == [ids[0]] + ids[1..] && gaps == [gaps[0]] + gaps[1..];
    if i :| 0 <= i < |ids| && gaps[i].between.Some? {
      assert gaps[1..][i - 1].between.Some?;
    }
  }

  /** The first id: its removal raises when there is an assignment in between, and otherwise it is
      reported and the queue still holds the others. */
  lemma FirstOf(q: Queue, ids: seq<ActionId>, gaps: seq<Gaps>) returns (next: Queue)
    requires Holds(q, ids) && |gaps| == |ids| && AllListed(gaps, ids) && ids != []
    ensures gaps[0].between.Some? ==> CancelEach(q, ids, gaps).raised && CancelEach(q, ids, gaps).reported == []
    ensures gaps[0].between.None? ==>
              && Holds(next, ids[1..])
              && CancelEach(q, ids, gaps) == Reporting([ids[0]], CancelEach(next, ids[1..], gaps[1..]))
  {
    var before := Pass(q, gaps[0].before);
    assert ids[0] in ids;
    PassHolds(q, ids, gaps[0].before);
    PopHolds(before, ids);
    var entry, pop := before.byId[ids[0]], Pop(before, ids[0]);
    PassHolds(pop, ids[1..], gaps[0].between);
    next := q;
    if gaps[0].between.None? {
      RemoveHolds(pop, ids[1..], entry);
      PassHolds(Remove(pop, entry), ids[1..], gaps[0].after);
      next := Pass(Remove(pop, entry), gaps[0].after);
    }
    hide Holds, ListsAll, Replace;
  }

  /** When every assignment lists all that is still to be cancelled, a removal raises exactly when an
      assignment falls between a pop and its removal. */
  lemma {:induction false} RaisesExactlyWhenAssignedInBetween(q: Queue, ids: seq<ActionId>, gaps: seq<Gaps>)
    requires Holds(q, ids) && |gaps| == |ids| && AllListed(gaps, ids)
    ensures RaisedInBetween(CancelEach(q, ids, gaps), ids, gaps)
    decreases ids
  {
    if ids != [] {
      var next := FirstOf(q, ids, gaps);
      if gaps[0].between.None? {
        hide Holds;
        RaisesExactlyWhenAssignedInBetween(next, ids[1..], gaps[1..]);
        OneReported(CancelEach(next, ids[1..], gaps[1..]), ids, gaps);
      }
    }
  }

  // ----- what is left in the queue

  function Without(ids: seq<ActionId>, id: ActionId): seq<ActionId> {
    if ids == [] then []
    else (if ids[0] == id then [] else [ids[0]]) + Without(ids[1..], id)
  }

  function ListOf(specs: Option<seq<ActionSpec>>, otherwise: seq<ActionId>): seq<ActionId> {
    if specs.Some? then Ids(specs.value) else otherwise
  }

  /** The queued ids after a cancelation whose removals all go well: every assignment puts its own list
      in place of what was queued, and every removal takes its id out of what is queued then. */
  function IdsLeft(queued: seq<ActionId>, ids: seq<ActionId>, gaps: seq<Gaps>): seq<ActionId>
    requires |gaps| == |ids|
    decreases ids
  {
    if ids == [] then queued
    else IdsLeft(ListOf(gaps[0].after, Without(ListOf(gaps[0].before, queued), ids[0])), ids[1..], gaps[1..])
  }

  lemma {:induction false} RemovedIds(entries: seq<Entry>, entry: Entry)
    requires DistinctIds(Specs(entries)) && entry in entries
    ensures Ids(Specs(RemoveFirst(entries, entry))) == Without(Ids(Specs(entries)), entry.spec.id)
  {
    var tail, ids := entries[1..], Ids(Specs(entries));
    TailDistinct(entries);
    assert ids[1..] == Ids(Specs(tail));
    if entries[0] == entry {
      NoneWithout(Ids(Specs(tail)), entry.spec.id);
    } else {
      assert entry in tail;
      RemovedIds(tail, entry);
      assert Ids(Specs([entries[0]] + RemoveFirst(tail, entry))) == [entries[0].spec.id] + Ids(Specs(RemoveFirst(tail, entry)));
    }
  }

  lemma {:induction false} NoneWithout(ids: seq<ActionId>, id: ActionId)
    requires id !in ids
    ensures Without(ids, id) == ids
  {
    if ids != [] {
      NoneWithout(ids[1..], id);
    }
  }

  lemma PassIds(q: Queue, ids: seq<ActionId>, specs: Option<seq<ActionSpec>>)
    requires Holds(q, ids) && (specs.Some? ==> ListsAll(specs.value, ids))
    ensures Ids(Specs(Pass(q, specs).actions)) == ListOf(specs, Ids(Specs(q.actions)))
  {
    if specs.Some? {
      FillFailsOnUnknownType(q.byId, q.nextEvent, specs.value);
      FillKeeps(q.byId, q.nextEvent, specs.value);
      forall i | 0 <= i < |specs.value| ensures Pass(q, specs).actions[i].spec.id == specs.value[i].id {
        FillAt(q.byId, q.nextEvent, specs.value, i);
      }
    }
  }

  lemma FirstLeaves(q: Queue, ids: seq<ActionId>, gaps: seq<Gaps>) returns (next: Queue)
    requires Holds(q, ids) && |gaps| == |ids| && AllListed(gaps, ids) && ids != [] && gaps[0].between.None?
    ensures Holds(next, ids[1..])
    ensures CancelEach(q, ids, gaps) == Reporting([ids[0]], CancelEach(next, ids[1..], gaps[1..]))
    ensures Ids(Specs(next.actions))
         == ListOf(gaps[0].after, Without(ListOf(gaps[0].before, Ids(Specs(q.actions))), ids[0]))
  {
    var before := Pass(q, gaps[0].before);
    assert ids[0] in ids;
    PassHolds(q, ids, gaps[0].before);
    PassIds(q, ids, gaps[0].before);
    PopHolds(before, ids);
    var entry, pop := before.byId[ids[0]], Pop(before, ids[0]);
    RemoveHolds(pop, ids[1..], entry);
    RemovedIds(before.actions, entry);
    PassHolds(Remove(pop, entry), ids[1..], gaps[0].after);
    PassIds(Remove(pop, entry), ids[1..], gaps[0].after);
    next := Pass(Remove(pop, entry), gaps[0].after);
    hide Holds, ListsAll, Replace, Without;
  }

  /** What the cancelation leaves, when no removal raises; in particular an assignment after the last
      removal decides alone, even about ids that are reported as cancelled just then. */
  lemma {:induction false} CancelationLeaves(q: Queue, ids: seq<ActionId>, gaps: seq<Gaps>)
    requires Holds(q, ids) && |gaps| == |ids| && AllListed(gaps, ids)
    requires forall g | g in gaps :: g.between.None?
    ensures Ids(Specs(CancelEach(q, ids, gaps).queue.actions)) == IdsLeft(Ids(Specs(q.actions)), ids, gaps)
    ensures ids != [] && gaps[|ids| - 1].after.Some? ==>
              Ids(Specs(CancelEach(q, ids, gaps).queue.actions)) == Ids(gaps[|ids| - 1].after.value)
    decreases ids
  {
    if ids != [] {
      assert gaps[0] in gaps && forall g | g in gaps[1..] :: g in gaps;
      var next := FirstLeaves(q, ids, gaps);
      hide Holds;
      CancelationLeaves(next, ids[1..], gaps[1..]);
    }
  }

  /** The cleanup lists a coherent queue: every id of the list has its entry. */
  lemma ListedHolds(q: Queue)
    requires Coherent(q)
    ensures Holds(q, CancelIds(q.actions, true))
  {
    var ids := CancelIds(q.actions, true);
    CancelIdsMembers(q.actions, true);
    forall id | id in ids ensures id in q.byId && q.byId[id] in q.actions {
      var e :| e in q.actions && e.spec.id == id;
      var i :| 0 <= i < |q.actions| && q.actions[i] == e;
      assert q.byId[q.actions[i].spec.id] == q.actions[i];
    }
  }
}
