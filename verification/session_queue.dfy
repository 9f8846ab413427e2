/** The queue of one session's actions: the list `_actions` and the dictionary `_actions_by_id`.

    Values and their laws come first; `SessionActionQueue` in session_queue_class.dfy is the mutable
    object, proved against them. */
module QueueModel {
  import opened Actions
  import opened Lifecycle

  /** A queue entry. `event` is the identity of the entry's cancel event. */
  datatype Entry = Entry(event: nat, spec: ActionSpec)

  /** `nextEvent` numbers the events created so far; `cancelled` holds those that were set. */
  datatype Queue = Queue(actions: seq<Entry>, byId: map<ActionId, Entry>, nextEvent: nat, cancelled: set<nat>)

  const EmptyQueue := Queue([], map[], 0, {})

  function Specs(entries: seq<Entry>): (r: seq<ActionSpec>)
    ensures |r| == |entries| && forall i | 0 <= i < |r| :: r[i] == entries[i].spec
  {
    seq(|entries|, i requires 0 <= i < |entries| => entries[i].spec)
  }

  /** Every queued entry is the one stored under its own id, and no id is queued twice. Ids that
      are no longer queued may remain in the dictionary. */
  predicate Coherent(q: Queue) {
    && (forall k | k in q.byId :: q.byId[k].spec.id == k && q.byId[k].event < q.nextEvent)
    && (forall i | 0 <= i < |q.actions| ::
          q.actions[i].spec.id in q.byId && q.byId[q.actions[i].spec.id] == q.actions[i])
    && DistinctIds(Specs(q.actions))
  }

  lemma EntriesDistinct(q: Queue, i: nat, j: nat)
    requires Coherent(q) && i < j < |q.actions|
    ensures q.actions[i].spec.id != q.actions[j].spec.id && q.actions[i] != q.actions[j]
  {
    assert Specs(q.actions)[i].id != Specs(q.actions)[j].id;
  }

  // ----- replace

  /** What a pass over `specs` builds: the new list, and the dictionary with the new entries. When
      it meets an action type it does not know it stops with `ok == false`. */
  datatype Filled = Filled(entries: seq<Entry>, byId: map<ActionId, Entry>, nextEvent: nat, ok: bool)

  predicate Queueable(kind: ActionType) {
    kind.StartsWithEnv() || kind.TaskRun? || kind.SyncInput?
  }

  function Fill(byId: map<ActionId, Entry>, nextEvent: nat, specs: seq<ActionSpec>): Filled
    decreases specs
  {
    if specs == [] then Filled([], byId, nextEvent, true)
    else
      var spec := specs[0];
      if spec.id in byId then
        var rest := Fill(byId, nextEvent + 1, specs[1..]);
        rest.(entries := [byId[spec.id]] + rest.entries)
      else if Queueable(spec.kind) then
        var entry := Entry(nextEvent, spec);
        var rest := Fill(byId[spec.id := entry], nextEvent + 1, specs[1..]);
        rest.(entries := [entry] + rest.entries)
      else Filled([], byId, nextEvent + 1, false)
  }

  function Replace(q: Queue, specs: seq<ActionSpec>): Queue {
    var f := Fill(q.byId, q.nextEvent, specs);
    Queue(if f.ok then f.entries else q.actions, f.byId, f.nextEvent, q.cancelled)
  }

  predicate ReplaceSucceeds(q: Queue, specs: seq<ActionSpec>) {
    Fill(q.byId, q.nextEvent, specs).ok
  }

  /** The pass fails exactly on an action of unknown type that is not already known by its id. */
  lemma {:induction false} FillFailsOnUnknownType(byId: map<ActionId, Entry>, nextEvent: nat, specs: seq<ActionSpec>)
    requires DistinctIds(specs)
    ensures Fill(byId, nextEvent, specs).ok
            <==> forall a | a in specs :: a.id in byId || Queueable(a.kind)
    decreases specs
  {
    if specs != [] {
      var spec := specs[0];
      assert specs == [spec] + specs[1..];
      if spec.id in byId {
        FillFailsOnUnknownType(byId, nextEvent + 1, specs[1..]);
      } else if Queueable(spec.kind) {
        FillFailsOnUnknownType(byId[spec.id := Entry(nextEvent, spec)], nextEvent + 1, specs[1..]);
        forall a | a in specs[1..] ensures a.id != spec.id {
          var k :| 0 <= k < |specs[1..]| && specs[1..][k] == a;
          assert specs[k + 1].id != specs[0].id;
        }
      }
    }
  }

  /** The dictionary only grows, by the given ids, and no entry in it changes. */
  lemma {:induction false} FillKeeps(byId: map<ActionId, Entry>, nextEvent: nat, specs: seq<ActionSpec>)
    requires Fill(byId, nextEvent, specs).ok
    ensures var f := Fill(byId, nextEvent, specs);
            && |f.entries| == |specs|
            && f.nextEvent == nextEvent + |specs|
            && (forall k :: k in f.byId <==> k in byId || HasId(specs, k))
            && (forall k | k in byId :: f.byId[k] == byId[k])
    decreases specs
  {
    if specs != [] {
      var spec, tail := specs[0], specs[1..];
      var byId' := if spec.id in byId then byId else byId[spec.id := Entry(nextEvent, spec)];
      FillKeeps(byId', nextEvent + 1, tail);
      forall k ensures HasId(specs, k) <==> k == spec.id || HasId(tail, k) {
        if HasId(tail, k) {
          var i :| 0 <= i < |tail| && tail[i].id == k;
          assert specs[i + 1].id == k;
        }
        if HasId(specs, k) && k != spec.id {
          var i :| 0 <= i < |specs| && specs[i].id == k;
          assert tail[i - 1].id == k;
        }
        assert specs[0].id == spec.id;
      }
    }
  }

  /** The new list is the given one: entries already known by id are kept as they are, event and
      all; the others are new entries around the given actions, with events never used before. */
  lemma {:induction false} FillAt(byId: map<ActionId, Entry>, nextEvent: nat, specs: seq<ActionSpec>, i: nat)
    requires DistinctIds(specs) && Fill(byId, nextEvent, specs).ok && i < |specs|
    ensures var f := Fill(byId, nextEvent, specs);
            && |f.entries| == |specs|
            && f.entries[i] == (if specs[i].id in byId then byId[specs[i].id] else Entry(nextEvent + i, specs[i]))
            && specs[i].id in f.byId && f.byId[specs[i].id] == f.entries[i]
    decreases specs
  {
    var spec, tail := specs[0], specs[1..];
    var byId' := if spec.id in byId then byId else byId[spec.id := Entry(nextEvent, spec)];
    var f, r := Fill(byId, nextEvent, specs), Fill(byId', nextEvent + 1, tail);
    assert f == r.(entries := [byId'[spec.id]] + r.entries);
    FillKeeps(byId', nextEvent + 1, tail);
    if i > 0 {
      assert specs[i].id != specs[0].id;
      FillAt(byId', nextEvent + 1, tail, i - 1);
    }
  }

  /** The order after `replace` is the given order, and the queue stays coherent. */
  lemma ReplaceFollows(q: Queue, specs: seq<ActionSpec>)
    requires Coherent(q) && DistinctIds(specs) && ReplaceSucceeds(q, specs)
    ensures var r := Replace(q, specs);
            && Coherent(r)
            && Ids(Specs(r.actions)) == Ids(specs)
            && forall i | 0 <= i < |specs| ::
                 if specs[i].id in q.byId then r.actions[i] == q.byId[specs[i].id]
                 else r.actions[i].spec == specs[i] && r.actions[i].event >= q.nextEvent
  {
    var r := Replace(q, specs);
    FillKeeps(q.byId, q.nextEvent, specs);
    forall i | 0 <= i < |specs|
      ensures r.actions[i] == if specs[i].id in q.byId then q.byId[specs[i].id] else Entry(q.nextEvent + i, specs[i])
      ensures specs[i].id in r.byId && r.byId[specs[i].id] == r.actions[i]
    {
      FillAt(q.byId, q.nextEvent, specs, i);
    }
    forall k | k in r.byId ensures r.byId[k].spec.id == k && r.byId[k].event < r.nextEvent {
      if k !in q.byId {
        var i :| 0 <= i < |specs| && specs[i].id == k;
        assert r.byId[specs[i].id] == r.actions[i];
      }
    }
  }

  /** A pass that stops leaves behind the entries it made until then. */
  lemma {:induction false} FillStops(byId: map<ActionId, Entry>, nextEvent: nat, specs: seq<ActionSpec>) returns (n: nat)
    requires !Fill(byId, nextEvent, specs).ok
    ensures n < |specs| && !Queueable(specs[n].kind) && specs[n].id !in byId
    ensures var f := Fill(byId, nextEvent, specs);
            && f.nextEvent == nextEvent + n + 1
            && (forall k | k in byId :: k in f.byId && f.byId[k] == byId[k])
            && (forall i | 0 <= i < n :: specs[i].id in f.byId)
            && (forall k | k in f.byId && k !in byId ::
                  f.byId[k].spec.id == k && nextEvent <= f.byId[k].event < f.nextEvent && HasId(specs[..n], k))
    decreases specs
  {
    var spec, tail := specs[0], specs[1..];
    if spec.id !in byId && !Queueable(spec.kind) {
      return 0;
    }
    var byId' := if spec.id in byId then byId else byId[spec.id := Entry(nextEvent, spec)];
    n := FillStops(byId', nextEvent + 1, tail);
    var f := Fill(byId, nextEvent, specs);
    forall i | 0 <= i < n + 1 ensures specs[i].id in f.byId {
      if i > 0 {
        assert specs[i] == tail[i - 1];
      }
    }
    forall k | k in f.byId && k !in byId ensures HasId(specs[..n + 1], k) {
      if k == spec.id {
        assert specs[..n + 1][0].id == k;
      } else {
        var i :| 0 <= i < |tail[..n]| && tail[..n][i].id == k;
        assert specs[..n + 1][i + 1].id == k;
      }
    }
    n := n + 1;
  }

  /** When `replace` fails the list stays as it is, and the queue coherent; only the dictionary has
      gained entries, for the actions before the one of unknown type. */
  lemma FailedReplaceKeepsTheList(q: Queue, specs: seq<ActionSpec>)
    requires Coherent(q) && !ReplaceSucceeds(q, specs)
    ensures var r := Replace(q, specs);
            && r.actions == q.actions && r.cancelled == q.cancelled && Coherent(r)
            && (forall k | k in q.byId :: k in r.byId && r.byId[k] == q.byId[k])
            && exists n :: 0 <= n < |specs| && !Queueable(specs[n].kind) && specs[n].id !in q.byId
                 && (forall i | 0 <= i < n :: specs[i].id in r.byId)
                 && (forall k | k in r.byId :: k in q.byId || HasId(specs[..n], k))
  {
    var n := FillStops(q.byId, q.nextEvent, specs);
  }

  /** Replacing by the queue's own actions changes nothing but the event counter. */
  lemma ReplaceBySelf(q: Queue)
    requires Coherent(q)
    ensures var r := Replace(q, Specs(q.actions));
            r.actions == q.actions && r.byId == q.byId && ReplaceSucceeds(q, Specs(q.actions))
  {
    var specs := Specs(q.actions);
    FillFailsOnUnknownType(q.byId, q.nextEvent, specs);
    FillKeeps(q.byId, q.nextEvent, specs);
    forall i | 0 <= i < |specs| ensures Replace(q, specs).actions[i] == q.actions[i] {
      FillAt(q.byId, q.nextEvent, specs, i);
    }
  }

  // ----- insert_front

  function InsertFront(q: Queue, spec: ActionSpec): Queue {
    var entry := Entry(q.nextEvent, spec);
    Queue([entry] + q.actions, q.byId[spec.id := entry], q.nextEvent + 1, q.cancelled)
  }

  /** Inserting keeps the queue coherent exactly when the id is not queued already. */
  lemma InsertFrontCoherent(q: Queue, spec: ActionSpec)
    requires Coherent(q)
    ensures Coherent(InsertFront(q, spec)) <==> !HasId(Specs(q.actions), spec.id)
  {
    var r := InsertFront(q, spec);
    assert Specs(r.actions) == [spec] + Specs(q.actions);
    if HasId(Specs(q.actions), spec.id) {
      var i :| 0 <= i < |Specs(q.actions)| && Specs(q.actions)[i].id == spec.id;
      assert Specs(r.actions)[0].id == Specs(r.actions)[i + 1].id;
    } else {
      forall i | 0 <= i < |r.actions|
        ensures r.actions[i].spec.id in r.byId && r.byId[r.actions[i].spec.id] == r.actions[i]
      {
        if i > 0 {
          assert r.actions[i] == q.actions[i - 1];
          assert Specs(q.actions)[i - 1].id != spec.id;
        }
      }
    }
  }

  // ----- cancel_all

  /** The entries whose id is not in `gone`, in the same order. */
  function Drop(entries: seq<Entry>, gone: set<ActionId>): seq<Entry> {
    if entries == [] then []
    else if entries[0].spec.id in gone then Drop(entries[1..], gone)
    else [entries[0]] + Drop(entries[1..], gone)
  }

  lemma DropSpecs(entries: seq<Entry>, gone: set<ActionId>)
    ensures Specs(Drop(entries, gone)) == Outstanding(Specs(entries), gone)
  {
    if entries != [] {
      DropSpecs(entries[1..], gone);
      assert Specs(entries)[1..] == Specs(entries[1..]);
      assert Specs(Drop(entries, gone)) ==
        if entries[0].spec.id in gone then Specs(Drop(entries[1..], gone))
        else [entries[0].spec] + Specs(Drop(entries[1..], gone));
    }
  }

  lemma DropMembers(entries: seq<Entry>, gone: set<ActionId>)
    ensures forall e :: e in Drop(entries, gone) <==> e in entries && e.spec.id !in gone
  {
    if entries != [] {
      DropMembers(entries[1..], gone);
      assert entries == [entries[0]] + entries[1..];
    }
  }

  /** The ids `cancel_all` goes through: all queued ones, or all but those of ENV_EXIT actions. */
  function CancelIds(entries: seq<Entry>, ignoreEnvExits: bool): seq<ActionId> {
    if entries == [] then []
    else
      var rest := CancelIds(entries[1..], ignoreEnvExits);
      if ignoreEnvExits && entries[0].spec.kind.EnvExit? then rest else [entries[0].spec.id] + rest
  }

  function IdSet(ids: seq<ActionId>): set<ActionId> {
    set i | i in ids
  }

  function EventsOf(q: Queue, ids: set<ActionId>): set<nat> {
    set id | id in ids && id in q.byId :: q.byId[id].event
  }

  function CancelAll(q: Queue, ignoreEnvExits: bool): Queue {
    var gone := IdSet(CancelIds(q.actions, ignoreEnvExits));
    Queue(Drop(q.actions, gone), q.byId - gone, q.nextEvent, q.cancelled + EventsOf(q, gone))
  }

  function CancelReports(ids: seq<ActionId>, detail: int, attachments: bool): (r: seq<Event>)
    ensures |r| == |ids|
    ensures forall i | 0 <= i < |r| :: r[i] == Reported(NeverAttempted(ids[i], detail), attachments)
  {
    seq(|ids|, i requires 0 <= i < |ids| => Reported(NeverAttempted(ids[i], detail), attachments))
  }

  lemma CancelIdsMembers(entries: seq<Entry>, ignoreEnvExits: bool)
    ensures forall id :: id in CancelIds(entries, ignoreEnvExits) <==>
              exists e :: e in entries && e.spec.id == id && !(ignoreEnvExits && e.spec.kind.EnvExit?)
    ensures DistinctIds(Specs(entries)) ==>
              forall i, j | 0 <= i < j < |CancelIds(entries, ignoreEnvExits)| ::
                CancelIds(entries, ignoreEnvExits)[i] != CancelIds(entries, ignoreEnvExits)[j]
  {
    CancelIdsAre(entries, ignoreEnvExits);
    if DistinctIds(Specs(entries)) {
      CancelIdsDistinct(entries, ignoreEnvExits);
    }
  }

  lemma {:induction false} CancelIdsAre(entries: seq<Entry>, ignoreEnvExits: bool)
    ensures forall id :: id in CancelIds(entries, ignoreEnvExits) <==>
              exists e :: e in entries && e.spec.id == id && !(ignoreEnvExits && e.spec.kind.EnvExit?)
  {
    if entries != [] {
      CancelIdsAre(entries[1..], ignoreEnvExits);
      assert entries == [entries[0]] + entries[1..];
    }
  }

  lemma {:induction false} CancelIdsDistinct(entries: seq<Entry>, ignoreEnvExits: bool)
    requires DistinctIds(Specs(entries))
    ensures forall i, j | 0 <= i < j < |CancelIds(entries, ignoreEnvExits)| ::
              CancelIds(entries, ignoreEnvExits)[i] != CancelIds(entries, ignoreEnvExits)[j]
  {
    if entries != [] {
      var tail := entries[1..];
      TailDistinct(entries);
      CancelIdsDistinct(tail, ignoreEnvExits);
      CancelIdsAre(tail, ignoreEnvExits);
      forall id | id in CancelIds(tail, ignoreEnvExits) ensures id != entries[0].spec.id {
        var e :| e in tail && e.spec.id == id;
      }
      var ids, rest := CancelIds(entries, ignoreEnvExits), CancelIds(tail, ignoreEnvExits);
      forall i, j | 0 <= i < j < |ids| ensures ids[i] != ids[j] {
        if ids != rest {
          assert ids[j] == rest[j - 1] && ids[j] in rest;
        }
      }
    }
  }

  lemma TailDistinct(entries: seq<Entry>)
    requires entries != [] && DistinctIds(Specs(entries))
    ensures DistinctIds(Specs(entries[1..]))
    ensures forall e | e in entries[1..] :: e.spec.id != entries[0].spec.id
  {
    var tail := entries[1..];
    forall i, j | 0 <= i < j < |tail| ensures Specs(tail)[i].id != Specs(tail)[j].id {
      assert Specs(entries)[i + 1].id != Specs(entries)[j + 1].id;
    }
    forall e | e in tail ensures e.spec.id != entries[0].spec.id {
      var k :| 0 <= k < |tail| && tail[k] == e;
      assert Specs(entries)[0].id != Specs(entries)[k + 1].id;
    }
  }

  /** The list without the first occurrence of `entry`. */
  function RemoveFirst(entries: seq<Entry>, entry: Entry): seq<Entry> {
    if entries == [] then []
    else if entries[0] == entry then entries[1..]
    else [entries[0]] + RemoveFirst(entries[1..], entry)
  }

  /** Where no id is queued twice, exactly the entry goes. */
  lemma {:induction false} RemoveFirstMembers(entries: seq<Entry>, entry: Entry)
    requires DistinctIds(Specs(entries))
    ensures forall e :: e in RemoveFirst(entries, entry) <==> e in entries && e != entry
    ensures DistinctIds(Specs(RemoveFirst(entries, entry)))
  {
    if entries != [] {
      var tail := entries[1..];
      var rest := RemoveFirst(tail, entry);
      assert entries == [entries[0]] + tail;
      TailDistinct(entries);
      RemoveFirstMembers(tail, entry);
      if entries[0] != entry {
        forall i | 0 <= i < |rest| ensures rest[i].spec.id != entries[0].spec.id {
          assert rest[i] in rest;
        }
      }
    }
  }

  function ExitsOf(entries: seq<Entry>): seq<Entry> {
    if entries == [] then []
    else (if entries[0].spec.kind.EnvExit? then [entries[0]] else []) + ExitsOf(entries[1..])
  }

  lemma {:induction false} DropToExits(entries: seq<Entry>, gone: set<ActionId>)
    requires forall e | e in entries :: e.spec.id in gone <==> !e.spec.kind.EnvExit?
    ensures Drop(entries, gone) == ExitsOf(entries)
  {
    if entries != [] {
      assert entries[0] in entries;
      DropToExits(entries[1..], gone);
    }
  }

  lemma DropAll(entries: seq<Entry>, gone: set<ActionId>)
    requires forall e | e in entries :: e.spec.id in gone
    ensures Drop(entries, gone) == []
  {
    if entries != [] {
      assert entries[0] in entries;
      DropAll(entries[1..], gone);
    }
  }

  /** Ignoring ENV_EXITs, `cancel_all` leaves exactly the ENV_EXIT entries, in their order, and a
      coherent queue; not ignoring them, it leaves nothing. */
  lemma CancelAllLeaves(q: Queue, ignoreEnvExits: bool)
    requires Coherent(q)
    ensures Coherent(CancelAll(q, ignoreEnvExits))
    ensures CancelAll(q, ignoreEnvExits).actions == if ignoreEnvExits then ExitsOf(q.actions) else []
    ensures forall e | e in q.actions && !(ignoreEnvExits && e.spec.kind.EnvExit?) ::
              e.event in CancelAll(q, ignoreEnvExits).cancelled
  {
    var gone := IdSet(CancelIds(q.actions, ignoreEnvExits));
    var r := CancelAll(q, ignoreEnvExits);
    CancelIdsMembers(q.actions, ignoreEnvExits);
    DropMembers(q.actions, gone);
    DropSpecs(q.actions, gone);
    OutstandingMembers(Specs(q.actions), gone);
    forall e | e in q.actions
      ensures e.spec.id in gone <==> !(ignoreEnvExits && e.spec.kind.EnvExit?)
    {
      if e.spec.id in gone {
        var f :| f in q.actions && f.spec.id == e.spec.id && !(ignoreEnvExits && f.spec.kind.EnvExit?);
        assert f == e;
      }
    }
    if ignoreEnvExits {
      DropToExits(q.actions, gone);
    } else {
      DropAll(q.actions, gone);
    }
    forall i | 0 <= i < |r.actions|
      ensures r.actions[i].spec.id in r.byId && r.byId[r.actions[i].spec.id] == r.actions[i]
    {
      assert r.actions[i] in r.actions;
    }
    forall e | e in q.actions && !(ignoreEnvExits && e.spec.kind.EnvExit?) ensures e.event in r.cancelled {
      assert e.spec.id in gone && q.byId[e.spec.id] == e;
    }
  }

  /** Each cancelled id is reported NEVER_ATTEMPTED once, and nothing else changes track. */
  lemma CancelReportsTrack(t: Track, ids: seq<ActionId>, detail: int, attachments: bool, id: ActionId)
    requires forall i, j | 0 <= i < j < |ids| :: ids[i] != ids[j]
    ensures TrackFrom(t, CancelReports(ids, detail, attachments), id) ==
            if id in ids then Follow(t, Reported(NeverAttempted(id, detail), attachments), id) else t
  {
    var events := CancelReports(ids, detail, attachments);
    if id in ids {
      var k :| 0 <= k < |ids| && ids[k] == id;
      TrackOnce(t, events, k, id);
    } else {
      TrackUntouched(t, events, id);
    }
  }

  // ----- dequeue

  /** What the job entities answer when the head of the queue needs them. */
  datatype Answer = Found | UnsupportedSchema | ValueErrorRaised | RuntimeErrorRaised

  datatype Dequeued =
    | Nothing
    | NextAction(spec: ActionSpec)
      /** A SessionActionError that names the action. */
    | ActionError(id: ActionId)
      /** Any other exception. */
    | Crash

  function DequeueOutcome(q: Queue, answer: Answer): Dequeued {
    if q.actions == [] then Nothing
    else
      var spec := q.actions[0].spec;
      match spec.kind
      case EnvEnter => if answer.Found? then NextAction(spec) else ActionError(spec.id)
      case EnvExit => if answer.Found? then NextAction(spec) else ActionError(spec.id)
      case EnvOther => if answer.Found? then Crash else ActionError(spec.id)
      case TaskRun => if answer.Found? then NextAction(spec) else ActionError(spec.id)
      case SyncOutput => NextAction(spec)
      case SyncInput =>
        if answer.Found? then NextAction(spec)
        else if answer.RuntimeErrorRaised? then Crash
        else ActionError(spec.id)
      case OtherType => Crash
  }

  /** The entry leaves the queue only when an action is returned. */
  function Dequeue(q: Queue, answer: Answer): Queue {
    if DequeueOutcome(q, answer).NextAction? then
      q.(actions := q.actions[1..], byId := q.byId - {q.actions[0].spec.id})
    else q
  }

  lemma DequeueIsTail(q: Queue, answer: Answer)
    requires Coherent(q) && DequeueOutcome(q, answer).NextAction?
    ensures Coherent(Dequeue(q, answer))
    ensures [DequeueOutcome(q, answer).spec] + Specs(Dequeue(q, answer).actions) == Specs(q.actions)
    ensures q.actions[0].spec.id !in Dequeue(q, answer).byId
  {
    var r := Dequeue(q, answer);
    forall i | 0 <= i < |r.actions|
      ensures r.actions[i].spec.id in r.byId && r.byId[r.actions[i].spec.id] == r.actions[i]
    {
      EntriesDistinct(q, 0, i + 1);
    }
    forall i, j | 0 <= i < j < |r.actions| ensures Specs(r.actions)[i].id != Specs(r.actions)[j].id {
      EntriesDistinct(q, i + 1, j + 1);
    }
  }
}
