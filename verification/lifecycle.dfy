/** The history of a run as a log of events, and the life cycle each action id must follow in it.

    `Phase` is an automaton over the events that concern one id. A log in which no id ever becomes
    `Broken` is one where nothing starts twice, nothing is completed twice and nothing is reported
    after its completion; the lemmas at the end say so in terms of positions in the log. */
module Lifecycle {
  import opened Actions

  datatype Event =
    | Started(id: ActionId, task: bool)
    | UploadQueued(id: ActionId)
    | UploadStarted(id: ActionId)
      /** `attachments` tells whether the session synchronises job attachments at that moment. */
    | Reported(status: Status, attachments: bool)
  {
    function Subject(): ActionId {
      if Reported? then status.id else id
    }

    predicate Completes() {
      Reported? && status.Terminal()
    }
  }

  datatype Phase = Queued | Running(task: bool) | UploadWaiting | Uploading | Done | Broken

  /** What one event does to the phase of the action it is about. */
  function Advance(p: Phase, e: Event): Phase {
    match p
    case Queued =>
      if e.Started? then Running(e.task)
      else if e.Completes() && e.status.completed.value in {NEVER_ATTEMPTED, FAILED} then Done
      else Broken
    case Running(task) =>
      if e.UploadQueued? && task then UploadWaiting
      else if !e.Reported? then Broken
      else if !e.status.Terminal() then p
      else if e.status.completed == Some(NEVER_ATTEMPTED) then Broken
      else if e.status.completed == Some(SUCCEEDED) && task && e.attachments then Broken
      else Done
    case UploadWaiting =>
      if e.UploadStarted? then Uploading
      else if e.Completes() && e.status.completed.value in {NEVER_ATTEMPTED, FAILED} then Done
      else Broken
    case Uploading =>
      if e.Completes() && e.status.completed != Some(NEVER_ATTEMPTED) then Done else Broken
    case Done => Broken
    case Broken => Broken
  }

  /** The phase of one id and the last thing reported about it. */
  datatype Track = Track(phase: Phase, latest: Option<Status>)

  function Follow(t: Track, e: Event, id: ActionId): Track {
    if e.Subject() != id then t
    else Track(Advance(t.phase, e), if e.Reported? then Some(e.status) else t.latest)
  }

  function TrackFrom(t: Track, log: seq<Event>, id: ActionId): Track
    decreases log
  {
    if log == [] then t else TrackFrom(Follow(t, log[0], id), log[1..], id)
  }

  const Fresh := Track(Queued, None)

  function TrackOf(log: seq<Event>, id: ActionId): Track {
    TrackFrom(Fresh, log, id)
  }

  function PhaseOf(log: seq<Event>, id: ActionId): Phase {
    TrackOf(log, id).phase
  }

  lemma {:induction false} TrackFromAppend(t: Track, a: seq<Event>, b: seq<Event>, id: ActionId)
    ensures TrackFrom(t, a + b, id) == TrackFrom(TrackFrom(t, a, id), b, id)
    decreases a
  {
    if a == [] {
      assert a + b == b;
    } else {
      assert (a + b)[1..] == a[1..] + b;
      TrackFromAppend(Follow(t, a[0], id), a[1..], b, id);
    }
  }

  lemma TrackAppend(log: seq<Event>, events: seq<Event>, id: ActionId)
    ensures TrackOf(log + events, id) == TrackFrom(TrackOf(log, id), events, id)
  {
    TrackFromAppend(Fresh, log, events, id);
  }

  lemma TrackUntouched(t: Track, events: seq<Event>, id: ActionId)
    requires forall e | e in events :: e.Subject() != id
    ensures TrackFrom(t, events, id) == t
    decreases events
  {
    if events != [] {
      assert events[0] in events;
      TrackUntouched(t, events[1..], id);
    }
  }

  /** One event about an id among events about others. */
  lemma {:induction false} TrackOnce(t: Track, events: seq<Event>, k: nat, id: ActionId)
    requires k < |events| && events[k].Subject() == id
    requires forall i | 0 <= i < |events| && i != k :: events[i].Subject() != id
    ensures TrackFrom(t, events, id) == Follow(t, events[k], id)
    decreases k
  {
    if k == 0 {
      TrackUntouched(Follow(t, events[0], id), events[1..], id);
    } else {
      TrackOnce(t, events[1..], k - 1, id);
    }
  }

  function StartedIds(log: seq<Event>): set<ActionId> {
    set e | e in log && e.Started? :: e.id
  }

  lemma StartedIdsAppend(a: seq<Event>, b: seq<Event>)
    ensures StartedIds(a + b) == StartedIds(a) + StartedIds(b)
  {
    assert forall e :: e in a + b <==> e in a || e in b;
  }

  // ----- what the scheduler's map keeps of a log

  /** The map after the reports among `events` were stored, newest last. */
  function Absorb(updates: map<ActionId, Status>, events: seq<Event>): map<ActionId, Status>
    decreases events
  {
    if events == [] then updates
    else Absorb(if events[0].Reported? then updates[events[0].status.id := events[0].status] else updates,
                events[1..])
  }

  function Lookup(m: map<ActionId, Status>, id: ActionId): Option<Status> {
    if id in m then Some(m[id]) else None
  }

  lemma {:induction false} AbsorbTracks(m: map<ActionId, Status>, t: Track, events: seq<Event>, id: ActionId)
    requires Lookup(m, id) == t.latest
    ensures Lookup(Absorb(m, events), id) == TrackFrom(t, events, id).latest
    decreases events
  {
    if events != [] {
      var e := events[0];
      var m' := if e.Reported? then m[e.status.id := e.status] else m;
      AbsorbTracks(m', Follow(t, e, id), events[1..], id);
    }
  }

  lemma {:induction false} AbsorbOverlay(view: map<ActionId, Status>, updates: map<ActionId, Status>,
          events: seq<Event>)
    ensures view + Absorb(updates, events) == Absorb(view + updates, events)
    decreases events
  {
    if events != [] {
      var e := events[0];
      if e.Reported? {
        assert view + updates[e.status.id := e.status] == (view + updates)[e.status.id := e.status];
        AbsorbOverlay(view, updates[e.status.id := e.status], events[1..]);
      } else {
        AbsorbOverlay(view, updates, events[1..]);
      }
    }
  }

  lemma {:induction false} AbsorbAppend(m: map<ActionId, Status>, a: seq<Event>, b: seq<Event>)
    ensures Absorb(m, a + b) == Absorb(Absorb(m, a), b)
    decreases a
  {
    if a == [] {
      assert a + b == b;
    } else {
      assert (a + b)[1..] == a[1..] + b;
      var e := a[0];
      AbsorbAppend(if e.Reported? then m[e.status.id := e.status] else m, a[1..], b);
    }
  }

  lemma {:induction false} AbsorbKeys(m: map<ActionId, Status>, events: seq<Event>)
    requires forall k | k in m :: m[k].id == k
    ensures forall k | k in Absorb(m, events) :: Absorb(m, events)[k].id == k
    ensures m.Keys <= Absorb(m, events).Keys
    decreases events
  {
    if events != [] {
      var e := events[0];
      AbsorbKeys(if e.Reported? then m[e.status.id := e.status] else m, events[1..]);
    }
  }

  lemma {:induction false} AbsorbUntouched(m: map<ActionId, Status>, events: seq<Event>, id: ActionId)
    requires forall e | e in events :: e.Subject() != id
    ensures Lookup(Absorb(m, events), id) == Lookup(m, id)
    decreases events
  {
    if events != [] {
      var e := events[0];
      assert e in events;
      AbsorbUntouched(if e.Reported? then m[e.status.id := e.status] else m, events[1..], id);
    }
  }

  // ----- what it means that an id is not Broken

  lemma BrokenStays(t: Track, events: seq<Event>, id: ActionId)
    requires t.phase.Broken?
    ensures TrackFrom(t, events, id).phase.Broken?
    decreases events
  {
    if events != [] {
      BrokenStays(Follow(t, events[0], id), events[1..], id);
    }
  }

  lemma {:induction false} DoneIffTerminal(t: Track, events: seq<Event>, id: ActionId)
    requires t.phase.Done? <==> t.latest.Some? && t.latest.value.Terminal()
    requires !TrackFrom(t, events, id).phase.Broken?
    ensures var r := TrackFrom(t, events, id);
            r.phase.Done? <==> r.latest.Some? && r.latest.value.Terminal()
    decreases events
  {
    if events != [] {
      if Follow(t, events[0], id).phase.Broken? {
        BrokenStays(Follow(t, events[0], id), events[1..], id);
      }
      DoneIffTerminal(Follow(t, events[0], id), events[1..], id);
    }
  }

  lemma StartedMeansNotQueued(t: Track, events: seq<Event>, id: ActionId)
    requires !t.phase.Queued?
    ensures !TrackFrom(t, events, id).phase.Queued?
    decreases events
  {
    if events != [] {
      StartedMeansNotQueued(Follow(t, events[0], id), events[1..], id);
    }
  }

  /** The track at position `k`, and from there past event `k` to the end. */
  lemma SplitAt(log: seq<Event>, k: nat, id: ActionId)
    requires k < |log|
    ensures TrackOf(log, id) == TrackFrom(Follow(TrackOf(log[..k], id), log[k], id), log[k + 1..], id)
    ensures TrackOf(log[..k + 1], id) == Follow(TrackOf(log[..k], id), log[k], id)
  {
    assert log == log[..k] + log[k..];
    assert log[k..][1..] == log[k + 1..];
    TrackAppend(log[..k], log[k..], id);
    assert log[..k + 1] == log[..k] + [log[k]];
    TrackAppend(log[..k], [log[k]], id);
    assert [log[k]][1..] == [];
  }

  lemma PrefixUnbroken(log: seq<Event>, k: nat, id: ActionId)
    requires k <= |log| && !PhaseOf(log, id).Broken?
    ensures !PhaseOf(log[..k], id).Broken?
  {
    assert log == log[..k] + log[k..];
    TrackAppend(log[..k], log[k..], id);
    if PhaseOf(log[..k], id).Broken? {
      BrokenStays(TrackOf(log[..k], id), log[k..], id);
    }
  }

  /** No id is started twice. */
  lemma StartedOnce(log: seq<Event>, id: ActionId, i: nat, j: nat)
    requires !PhaseOf(log, id).Broken?
    requires i < j < |log| && log[i].Started? && log[i].id == id
    ensures !(log[j].Started? && log[j].id == id)
  {
    PrefixUnbroken(log, j + 1, id);
    PrefixUnbroken(log, i + 1, id);
    SplitAt(log, i, id);
    SplitAt(log, j, id);
    assert log[..j] == log[..i + 1] + log[i + 1..j];
    TrackAppend(log[..i + 1], log[i + 1..j], id);
    StartedMeansNotQueued(TrackOf(log[..i + 1], id), log[i + 1..j], id);
  }

  /** Nothing is reported, started or queued under an id once its completion was reported. */
  lemma SilentAfterCompletion(log: seq<Event>, id: ActionId, i: nat, j: nat)
    requires !PhaseOf(log, id).Broken?
    requires i < j < |log| && log[i].Completes() && log[i].Subject() == id
    ensures log[j].Subject() != id
    decreases j
  {
    if log[j].Subject() == id {
      forall k | i < k < j ensures log[k].Subject() != id {
        SilentAfterCompletion(log, id, i, k);
      }
      PrefixUnbroken(log, j + 1, id);
      PrefixUnbroken(log, i + 1, id);
      SplitAt(log, i, id);
      SplitAt(log, j, id);
      assert log[..j] == log[..i + 1] + log[i + 1..j];
      TrackAppend(log[..i + 1], log[i + 1..j], id);
      TrackUntouched(TrackOf(log[..i + 1], id), log[i + 1..j], id);
    }
  }

  /** A started task that owes an upload does not leave `Running(true)` with a SUCCEEDED report. */
  lemma {:induction false} NoUploadNoSuccess(t: Track, events: seq<Event>, id: ActionId)
    requires t.phase == Running(true)
    requires forall e | e in events :: !(e.UploadStarted? && e.id == id)
    ensures TrackFrom(t, events, id).phase in {Running(true), UploadWaiting, Done, Broken}
    decreases events
  {
    var rest := t;
    for k := 0 to |events|
      invariant rest == TrackFrom(t, events[..k], id)
      invariant rest.phase in {Running(true), UploadWaiting, Done, Broken}
    {
      assert events[..k + 1] == events[..k] + [events[k]];
      TrackFromAppend(t, events[..k], [events[k]], id);
      assert [events[k]][1..] == [];
      rest := Follow(rest, events[k], id);
      assert events[k] in events;
    }
    assert events[..|events|] == events;
  }

  /** While the session synchronises attachments, a task is reported SUCCEEDED only after its own
      upload was started. */
  lemma SuccessAfterUpload(log: seq<Event>, id: ActionId, i: nat, j: nat) returns (k: nat)
    requires !PhaseOf(log, id).Broken?
    requires i < j < |log| && log[i] == Started(id, true)
    requires log[j].Reported? && log[j].status.id == id && log[j].attachments
    requires log[j].status.completed == Some(SUCCEEDED)
    ensures i < k < j && log[k] == UploadStarted(id)
  {
    PrefixUnbroken(log, j + 1, id);
    PrefixUnbroken(log, i + 1, id);
    SplitAt(log, i, id);
    SplitAt(log, j, id);
    assert log[..j] == log[..i + 1] + log[i + 1..j];
    TrackAppend(log[..i + 1], log[i + 1..j], id);
    if forall e | e in log[i + 1..j] :: !(e.UploadStarted? && e.id == id) {
      NoUploadNoSuccess(TrackOf(log[..i + 1], id), log[i + 1..j], id);
      assert false;
    }
    var e :| e in log[i + 1..j] && e.UploadStarted? && e.id == id;
    var m :| 0 <= m < |log[i + 1..j]| && log[i + 1..j][m] == e;
    k := i + 1 + m;
  }

  lemma UnstartedPhase(events: seq<Event>, id: ActionId)
    requires forall e | e in events :: !(e.Started? && e.id == id)
    ensures TrackFrom(Fresh, events, id).phase in {Queued, Done, Broken}
  {
    var rest := Fresh;
    for k := 0 to |events|
      invariant rest == TrackFrom(Fresh, events[..k], id)
      invariant rest.phase in {Queued, Done, Broken}
    {
      assert events[..k + 1] == events[..k] + [events[k]];
      TrackFromAppend(Fresh, events[..k], [events[k]], id);
      assert [events[k]][1..] == [];
      rest := Follow(rest, events[k], id);
      assert events[k] in events;
    }
    assert events[..|events|] == events;
  }

  /** What succeeds, is cancelled or is interrupted was started before. */
  lemma EndsAfterStart(log: seq<Event>, id: ActionId, j: nat) returns (i: nat)
    requires !PhaseOf(log, id).Broken?
    requires j < |log| && log[j].Reported? && log[j].status.id == id
    requires log[j].status.completed in {Some(SUCCEEDED), Some(CANCELED), Some(INTERRUPTED)}
    ensures i < j && log[i].Started? && log[i].id == id
  {
    PrefixUnbroken(log, j + 1, id);
    SplitAt(log, j, id);
    if forall e | e in log[..j] :: !(e.Started? && e.id == id) {
      UnstartedPhase(log[..j], id);
      assert false;
    }
    var e :| e in log[..j] && e.Started? && e.id == id;
    i :| 0 <= i < j && log[i] == e;
  }

  lemma UnqueuedPhase(t: Track, events: seq<Event>, id: ActionId)
    requires t.phase.Running? && forall e | e in events :: !(e.UploadQueued? && e.id == id)
    ensures TrackFrom(t, events, id).phase in {t.phase, Done, Broken}
  {
    var rest := t;
    for k := 0 to |events|
      invariant rest == TrackFrom(t, events[..k], id)
      invariant rest.phase in {t.phase, Done, Broken}
    {
      assert events[..k + 1] == events[..k] + [events[k]];
      TrackFromAppend(t, events[..k], [events[k]], id);
      assert [events[k]][1..] == [];
      rest := Follow(rest, events[k], id);
      assert events[k] in events;
    }
    assert events[..|events|] == events;
  }

  lemma UploadQueuedBefore(log: seq<Event>, id: ActionId, i: nat, j: nat) returns (k: nat)
    requires !PhaseOf(log, id).Broken?
    requires i < j < |log| && log[i].Started? && log[i].id == id
    requires log[j].Reported? && log[j].status.id == id && log[j].status.completed == Some(NEVER_ATTEMPTED)
    ensures i < k < j && log[k] == UploadQueued(id)
  {
    PrefixUnbroken(log, j + 1, id);
    PrefixUnbroken(log, i + 1, id);
    SplitAt(log, i, id);
    SplitAt(log, j, id);
    assert log[..j] == log[..i + 1] + log[i + 1..j];
    TrackAppend(log[..i + 1], log[i + 1..j], id);
    if forall e | e in log[i + 1..j] :: !(e.UploadQueued? && e.id == id) {
      UnqueuedPhase(TrackOf(log[..i + 1], id), log[i + 1..j], id);
      assert false;
    }
    var e :| e in log[i + 1..j] && e.UploadQueued? && e.id == id;
    var n :| 0 <= n < |log[i + 1..j]| && log[i + 1..j][n] == e;
    k := i + 1 + n;
  }

  lemma StartedAsTask(log: seq<Event>, id: ActionId, i: nat, k: nat)
    requires !PhaseOf(log, id).Broken?
    requires i < k <= |log| && log[i].Started? && log[i].id == id && PhaseOf(log[..k], id) == Running(true)
    ensures log[i].task
  {
    PrefixUnbroken(log, i + 1, id);
    SplitAt(log, i, id);
    assert log[..k] == log[..i + 1] + log[i + 1..k];
    TrackAppend(log[..i + 1], log[i + 1..k], id);
    SameTask(TrackOf(log[..i + 1], id), log[i + 1..k], id);
  }

  /** An action that was started is reported as never attempted only while it awaits its upload. */
  lemma NeverAttemptedAfterStart(log: seq<Event>, id: ActionId, i: nat, j: nat) returns (k: nat)
    requires !PhaseOf(log, id).Broken?
    requires i < j < |log| && log[i].Started? && log[i].id == id
    requires log[j].Reported? && log[j].status.id == id && log[j].status.completed == Some(NEVER_ATTEMPTED)
    ensures i < k < j && log[k] == UploadQueued(id) && log[i].task
    ensures forall m | k < m < j :: log[m].Subject() != id
  {
    hide PhaseOf;
    k := UploadQueuedBefore(log, id, i, j);
    WaitsUntouched(log, id, k, j);
    StartedAsTask(log, id, i, k);
  }

  lemma SameTask(t: Track, events: seq<Event>, id: ActionId)
    requires !t.phase.Queued?
    ensures TrackFrom(t, events, id).phase.Running? ==> TrackFrom(t, events, id).phase == t.phase
    decreases events
  {
    if events != [] {
      SameTask(Follow(t, events[0], id), events[1..], id);
    }
  }

  lemma WaitsUntouched(log: seq<Event>, id: ActionId, k: nat, j: nat)
    requires !PhaseOf(log, id).Broken? && k < j < |log| && log[k] == UploadQueued(id)
    requires log[j].Reported? && log[j].status.id == id && log[j].status.completed == Some(NEVER_ATTEMPTED)
    ensures forall m | k < m < j :: log[m].Subject() != id
    ensures PhaseOf(log[..k], id) == Running(true)
  {
    PrefixUnbroken(log, k + 1, id);
    SplitAt(log, k, id);
    assert TrackOf(log[..k + 1], id).phase.UploadWaiting?;
    forall m | k < m < j ensures log[m].Subject() != id {
      if log[m].Subject() == id {
        var f := FirstAbout(log, id, k + 1, m);
        assert log[..f] == log[..k + 1] + log[k + 1..f];
        TrackAppend(log[..k + 1], log[k + 1..f], id);
        TrackUntouched(TrackOf(log[..k + 1], id), log[k + 1..f], id);
        PrefixUnbroken(log, f + 1, id);
        SplitAt(log, f, id);
        PrefixUnbroken(log, j + 1, id);
        SplitAt(log, j, id);
        assert log[..j] == log[..f + 1] + log[f + 1..j];
        TrackAppend(log[..f + 1], log[f + 1..j], id);
        UploadedPhase(TrackOf(log[..f + 1], id), log[f + 1..j], id);
      }
    }
  }

  lemma FirstAbout(log: seq<Event>, id: ActionId, from: nat, m: nat) returns (f: nat)
    requires from <= m < |log| && log[m].Subject() == id
    ensures from <= f <= m && log[f].Subject() == id && forall k | from <= k < f :: log[k].Subject() != id
    ensures forall e | e in log[from..f] :: e.Subject() != id
  {
    f := from;
    while log[f].Subject() != id
      invariant from <= f <= m && forall k | from <= k < f :: log[k].Subject() != id
      decreases m - f
    {
      f := f + 1;
    }
  }

  lemma UploadedPhase(t: Track, events: seq<Event>, id: ActionId)
    requires t.phase in {Uploading, Done, Broken}
    ensures TrackFrom(t, events, id).phase in {Uploading, Done, Broken}
    decreases events
  {
    if events != [] {
      UploadedPhase(Follow(t, events[0], id), events[1..], id);
    }
  }
}
