/** The scheduler's map of pending updates as the mutable object it is: sessions write to it, a
    request collects it, and the request's commit deletes from it. */
module SchedulerObject {
  import opened Actions
  import opened Lifecycle
  import opened SchedulerModel

  class Scheduler {
    var updates: map<ActionId, Status>
    /** Everything the sessions of this scheduler did, oldest first. */
    ghost var log: seq<Event>

    /** Every record is stored under its own id. */
    ghost predicate Valid()
      reads this
    {
      forall id | id in updates :: updates[id].id == id
    }

    /** The map and the log moved on by exactly `events`. */
    twostate predicate Absorbed(events: seq<Event>)
      reads this
    {
      updates == Absorb(old(updates), events) && log == old(log) + events
    }

    constructor ()
      ensures Valid() && updates == map[] && log == []
    {
      updates, log := map[], [];
    }

    method HandleUpdate(status: Status, ghost attachments: bool)
      requires Valid()
      modifies this
      ensures Valid()
      ensures Absorbed([Reported(status, attachments)])
    {
      updates := updates[status.id := status];
      log := log + [Reported(status, attachments)];
    }

    /** Records a step that is not reported. */
    ghost method Note(event: Event)
      requires Valid() && !event.Reported?
      modifies this`log
      ensures Valid() && Absorbed([event])
    {
      log := log + [event];
    }

    /** The request's content, and the transaction its commit will need. */
    method CollectUpdates() returns (sent: map<ActionId, Status>, tx: set<UpdateId>)
      requires Valid()
      ensures sent == updates && tx == Transaction(updates)
    {
      sent, tx := map[], {};
      var left := updates.Keys;
      while left != {}
        invariant left <= updates.Keys
        invariant forall id :: id in sent <==> id in updates && id !in left
        invariant forall id | id in sent :: sent[id] == updates[id]
        invariant tx == set id | id in updates && id !in left :: UpdateIdOf(updates[id])
      {
        var id :| id in left;
        ghost var before := tx;
        sent := sent[id := updates[id]];
        tx := tx + {UpdateIdOf(updates[id])};
        left := left - {id};
        forall u ensures u in tx <==> exists k :: k in updates && k !in left && UpdateIdOf(updates[k]) == u {
          if u in before {
            var k :| k in updates && k !in left + {id} && UpdateIdOf(updates[k]) == u;
            assert k in updates && k !in left;
          }
          assert id in updates && id !in left;
        }
      }
    }

    /** Deletes what the request carried, and nothing newer. */
    method CommitUpdates(tx: set<UpdateId>)
      requires Valid()
      modifies this`updates
      ensures Valid()
      ensures updates == Commit(old(updates), tx)
    {
      var left := updates.Keys;
      var toDelete: set<ActionId> := {};
      while left != {}
        invariant left <= updates.Keys && unchanged(this)
        invariant toDelete == set id | id in updates && id !in left && UpdateIdOf(updates[id]) in tx
      {
        var id :| id in left;
        if UpdateIdOf(updates[id]) in tx {
          toDelete := toDelete + {updates[id].id};
        }
        left := left - {id};
      }
      while toDelete != {}
        invariant toDelete <= updates.Keys <= old(updates).Keys && Valid()
        invariant forall id | id in old(updates) ::
                    if UpdateIdOf(old(updates)[id]) in tx then id in updates <==> id in toDelete else id in updates
        invariant forall id | id in updates :: updates[id] == old(updates)[id]
        decreases toDelete
      {
        var id :| id in toDelete;
        updates := updates - {id};
        toDelete := toDelete - {id};
      }
    }

    /** Writes a record for every listed action that has none. */
    method ReturnSessionActions(listed: seq<ActionSpec>, now: Time, detail: int)
      requires Valid()
      modifies this
      ensures Valid()
      ensures updates == ReturnStopped(old(updates), listed, now, detail)
      ensures log == old(log) + ReturnEvents(old(updates), listed, true, now, detail)
    {
      var i := 0;
      ghost var done: seq<Event> := [];
      assert listed[0..] == listed;
      while i < |listed|
        invariant 0 <= i <= |listed| && Valid()
        invariant updates == Absorb(old(updates), done) && log == old(log) + done
        invariant ReturnEvents(old(updates), listed, true, now, detail)
                  == done + ReturnEvents(updates, listed[i..], i == 0, now, detail)
      {
        var action := listed[i];
        assert listed[i..][0] == action && listed[i..][1..] == listed[i + 1..];
        if action.id !in updates {
          var status :=
            if i == 0 || action.kind.EnvExit? then FailedAt(action.id, now, detail)
            else NeverAttempted(action.id, detail);
          ghost var next := Reported(status, false);
          AbsorbAppend(old(updates), done, [next]);
          assert updates[action.id := status] == Absorb(updates, [next]);
          updates := updates[action.id := status];
          log := log + [next];
          done := done + [next];
        }
        i := i + 1;
      }
      assert listed[i..] == [];
      assert done == ReturnEvents(old(updates), listed, true, now, detail);
    }
  }
}
