/** The scheduler's map of pending status updates, and what it does with the service's answers. */
module SchedulerModel {
  import opened Actions
  import opened Lifecycle

  /** What tells two updates of one action apart: the completed status, or else the update time. */
  datatype UpdateKey = ByStatus(completed: CompletedStatus) | ByTime(time: Option<Time>)

  datatype UpdateId = UpdateId(id: ActionId, key: UpdateKey)

  function UpdateIdOf(st: Status): UpdateId {
    UpdateId(st.id, if st.completed.Some? then ByStatus(st.completed.value) else ByTime(st.updateTime))
  }

  /** The transaction of a request that sends `updates`. */
  function Transaction(updates: map<ActionId, Status>): set<UpdateId> {
    set id | id in updates :: UpdateIdOf(updates[id])
  }

  /** The map after the commit: what the request did not carry stays. */
  function Commit(updates: map<ActionId, Status>, tx: set<UpdateId>): map<ActionId, Status> {
    map id | id in updates && UpdateIdOf(updates[id]) !in tx :: updates[id]
  }

  function TerminalIds(m: map<ActionId, Status>): set<ActionId> {
    set id | id in m && m[id].Terminal()
  }

  /** The assigned actions the worker has not completed. */
  function Unfinished(listed: seq<ActionSpec>, updates: map<ActionId, Status>): seq<ActionSpec> {
    Outstanding(listed, TerminalIds(updates))
  }

  function ReturnStatus(action: ActionSpec, first: bool, now: Time, detail: int): Status {
    if first || action.kind.EnvExit? then FailedAt(action.id, now, detail) else NeverAttempted(action.id, detail)
  }

  /** The records written for the actions a stopped session was assigned; an id that has a record
      keeps it. */
  function ReturnEvents(updates: map<ActionId, Status>, listed: seq<ActionSpec>, first: bool, now: Time,
          detail: int): seq<Event>
    decreases listed
  {
    if listed == [] then []
    else if listed[0].id in updates then ReturnEvents(updates, listed[1..], false, now, detail)
    else
      var st := ReturnStatus(listed[0], first, now, detail);
      [Reported(st, false)] + ReturnEvents(updates[st.id := st], listed[1..], false, now, detail)
  }

  function ReturnStopped(updates: map<ActionId, Status>, listed: seq<ActionSpec>, now: Time, detail: int): map<ActionId, Status> {
    Absorb(updates, ReturnEvents(updates, listed, true, now, detail))
  }

  lemma {:induction false} ReturnEventsMembers(updates: map<ActionId, Status>, listed: seq<ActionSpec>,
          first: bool, now: Time, detail: int)
    requires DistinctIds(listed)
    ensures forall e | e in ReturnEvents(updates, listed, first, now, detail) ::
              && e.Completes() && e.Subject() !in updates && HasId(listed, e.Subject())
              && e.status.completed.value in {FAILED, NEVER_ATTEMPTED}
    decreases listed
  {
    if listed != [] {
      var tail := listed[1..];
      assert DistinctIds(tail) by {
        forall i, j | 0 <= i < j < |tail| ensures tail[i].id != tail[j].id {
          assert listed[i + 1].id != listed[j + 1].id;
        }
      }
      forall id | HasId(tail, id) ensures HasId(listed, id) {
        var i :| 0 <= i < |tail| && tail[i].id == id;
        assert listed[i + 1].id == id;
      }
      assert HasId(listed, listed[0].id) by { assert listed[0].id == listed[0].id; }
      if listed[0].id in updates {
        ReturnEventsMembers(updates, tail, false, now, detail);
      } else {
        var st := ReturnStatus(listed[0], first, now, detail);
        ReturnEventsMembers(updates[st.id := st], tail, false, now, detail);
      }
    }
  }

  /** Every returned id is reported once, when it had no record; all other ids are left alone. */
  lemma {:induction false} ReturnEventsTrack(t: Track, updates: map<ActionId, Status>, listed: seq<ActionSpec>,
          first: bool, now: Time, detail: int, id: ActionId)
    requires DistinctIds(listed)
    ensures var r := TrackFrom(t, ReturnEvents(updates, listed, first, now, detail), id);
            if HasId(listed, id) && id !in updates then
              exists k :: 0 <= k < |listed| && listed[k].id == id
                && r == Follow(t, Reported(ReturnStatus(listed[k], first && k == 0, now, detail), false), id)
            else r == t
    decreases listed
  {
    if listed != [] {
      var head, tail := listed[0], listed[1..];
      var st := ReturnStatus(head, first, now, detail);
      assert DistinctIds(tail) by {
        forall i, j | 0 <= i < j < |tail| ensures tail[i].id != tail[j].id {
          assert listed[i + 1].id != listed[j + 1].id;
        }
      }
      forall k | 0 <= k < |tail| ensures tail[k].id != head.id {
        assert listed[k + 1].id != listed[0].id;
      }
      var updates' := if head.id in updates then updates else updates[st.id := st];
      var t' := if head.id in updates then t else Follow(t, Reported(st, false), id);
      ReturnEventsTrack(t', updates', tail, false, now, detail, id);
      if id == head.id {
        assert !HasId(tail, id);
        assert listed[0].id == id;
      } else if HasId(tail, id) && id !in updates {
        var k :| 0 <= k < |tail| && tail[k].id == id
          && TrackFrom(t', ReturnEvents(updates', tail, false, now, detail), id)
             == Follow(t', Reported(ReturnStatus(tail[k], false && k == 0, now, detail), false), id);
        assert listed[k + 1].id == id;
      } else if HasId(listed, id) {
        var k :| 0 <= k < |listed| && listed[k].id == id;
        assert tail[k - 1].id == id;
      }
    }
  }

  /** Returning the actions of a dead session: every assigned action ends with a record, records
      that were there are untouched, nothing else gets one; a new record is FAILED for the first
      action of the list and for every ENV_EXIT, and NEVER_ATTEMPTED without times for the rest. */
  lemma ReturnStoppedRecords(updates: map<ActionId, Status>, listed: seq<ActionSpec>, now: Time, detail: int)
    requires DistinctIds(listed)
    ensures var r := ReturnStopped(updates, listed, now, detail);
            && (forall id | id in updates :: id in r && r[id] == updates[id])
            && (forall id | id in r :: id in updates || HasId(listed, id))
            && forall k | 0 <= k < |listed| && listed[k].id !in updates ::
                 var id := listed[k].id;
                 && id in r && r[id].id == id
                 && (r[id].completed == Some(FAILED) <==> k == 0 || listed[k].kind.EnvExit?)
                 && (r[id].completed == Some(NEVER_ATTEMPTED) <==> k != 0 && !listed[k].kind.EnvExit?)
                 && (r[id].completed == Some(NEVER_ATTEMPTED) ==> r[id].startTime.None? && r[id].endTime.None?)
  {
    var events := ReturnEvents(updates, listed, true, now, detail);
    var r := ReturnStopped(updates, listed, now, detail);
    forall id
      ensures Lookup(r, id) == TrackFrom(Track(Queued, Lookup(updates, id)), events, id).latest
    {
      AbsorbTracks(updates, Track(Queued, Lookup(updates, id)), events, id);
    }
    forall id ensures id in updates ==> Lookup(r, id) == Lookup(updates, id)
              ensures id in r ==> id in updates || HasId(listed, id)
    {
      ReturnEventsTrack(Track(Queued, Lookup(updates, id)), updates, listed, true, now, detail, id);
      assert Lookup(r, id) == TrackFrom(Track(Queued, Lookup(updates, id)), events, id).latest;
    }
    forall id | id in updates ensures id in r && r[id] == updates[id] {
      assert Lookup(r, id) == Lookup(updates, id);
    }
    forall k | 0 <= k < |listed| && listed[k].id !in updates
      ensures Lookup(r, listed[k].id) == Some(ReturnStatus(listed[k], k == 0, now, detail))
    {
      var id := listed[k].id;
      ReturnEventsTrack(Track(Queued, Lookup(updates, id)), updates, listed, true, now, detail, id);
      assert HasId(listed, id);
      var t := Track(Queued, Lookup(updates, id));
      var m :| 0 <= m < |listed| && listed[m].id == id
        && TrackFrom(t, events, id) == Follow(t, Reported(ReturnStatus(listed[m], true && m == 0, now, detail), false), id);
      assert m == k;
    }
  }
}
