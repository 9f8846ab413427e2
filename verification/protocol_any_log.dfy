/** What holds of the log in every run: nothing is started twice, and a task succeeds after its own
    upload was started. */
module AnyLog {
  import opened Actions
  import opened Lifecycle
  import opened Protocol
  import opened ProtocolShared
  import opened AnySides

  predicate Knows(sides: map<SessionId, Side>, id: ActionId) {
    exists sid :: sid in sides && HasId(sides[sid].pipeline, id)
  }

  predicate StartsOnce(log: seq<Event>) {
    forall i, j | 0 <= i < j < |log| && log[i].Started? && log[j].Started? :: log[i].id != log[j].id
  }

  predicate UploadsAfterStart(log: seq<Event>) {
    && UploadedIds(log) <= StartedIds(log)
    && forall i, k | 0 <= i < |log| && 0 <= k < |log| && log[i].Started? && log[k].UploadStarted? && log[i].id == log[k].id ::
         i < k
  }

  predicate Success(e: Event) {
    e.Reported? && e.attachments && e.status.completed == Some(SUCCEEDED)
  }

  ghost predicate SuccessAfterUpload(log: seq<Event>) {
    forall i, j | 0 <= i < j < |log| && log[i].Started? && log[i].task && Success(log[j]) && log[j].status.id == log[i].id ::
      exists k :: i < k < j && log[k] == UploadStarted(log[i].id)
  }

  /** An action was started as what it is. */
  ghost predicate KindsOk(sides: map<SessionId, Side>, log: seq<Event>) {
    forall sid, a, e | sid in sides && a in sides[sid].pipeline && e in log && e.Started? && e.id == a.id ::
      a.kind.TaskRun? == e.task
  }

  ghost predicate LogOk(sides: map<SessionId, Side>, log: seq<Event>) {
    && StartsOnce(log) && UploadsAfterStart(log) && SuccessAfterUpload(log) && KindsOk(sides, log)
    && forall e | e in log :: Knows(sides, e.Subject())
  }

  lemma StartsOnceGrows(log: seq<Event>, events: seq<Event>, pipeline: seq<ActionSpec>)
    requires StartsOnce(log) && EventsOk(pipeline, MarksOf(log), events)
    ensures StartsOnce(log + events)
  {
    var all := log + events;
    forall i, j | 0 <= i < j < |all| && all[i].Started? && all[j].Started? ensures all[i].id != all[j].id {
      if j >= |log| {
        FirstStarts(pipeline, MarksOf(log), events, j - |log|);
        NewStart(pipeline, MarksOf(log), events, j - |log|);
        assert log[i] in log;
      }
    }
  }

  lemma FirstStarts(pipeline: seq<ActionSpec>, m: Marks, events: seq<Event>, k: nat)
    requires EventsOk(pipeline, m, events) && k < |events| && (events[k].Started? || events[k].UploadStarted?)
    ensures k == 0
  {
  }

  lemma UploadsGrow(log: seq<Event>, events: seq<Event>, pipeline: seq<ActionSpec>)
    requires UploadsAfterStart(log) && EventsOk(pipeline, MarksOf(log), events)
    ensures UploadsAfterStart(log + events)
  {
    var all := log + events;
    MarksAppend(log, events);
    forall id | id in UploadedIds(events) ensures id in StartedIds(log) {
      var e :| e in events && e.UploadStarted? && e.id == id;
    }
    forall i, k | 0 <= i < |all| && 0 <= k < |all| && all[i].Started? && all[k].UploadStarted? && all[i].id == all[k].id
      ensures i < k
    {
      if k >= |log| {
        FirstStarts(pipeline, MarksOf(log), events, k - |log|);
        if i >= |log| {
          FirstStarts(pipeline, MarksOf(log), events, i - |log|);
        }
      } else {
        UploadedAt(log, k);
        if i >= |log| {
          NewStart(pipeline, MarksOf(log), events, i - |log|);
        }
      }
    }
  }

  lemma UploadedAt(log: seq<Event>, k: nat)
    requires k < |log| && log[k].UploadStarted?
    ensures log[k].id in UploadedIds(log)
  {
    assert log[k] in log;
  }

  lemma NewStart(pipeline: seq<ActionSpec>, m: Marks, events: seq<Event>, i: nat)
    requires EventsOk(pipeline, m, events) && i < |events| && events[i].Started?
    ensures events[i].id !in m.started
  {
    assert events[i] in events;
  }

  /** The upload of a task that succeeds was started after the task. */
  lemma UploadBetween(sides: map<SessionId, Side>, sid: SessionId, log: seq<Event>, events: seq<Event>, i: nat, f: Event)
      returns (k: nat)
    requires LogOk(sides, log) && sid in sides && EventsOk(sides[sid].pipeline, MarksOf(log), events)
    requires i < |log| && log[i].Started? && log[i].task && f in events && Success(f) && f.status.id == log[i].id
    ensures i < k < |log| && log[k] == UploadStarted(log[i].id)
  {
    var id := log[i].id;
    var a := SpecOf(sides[sid].pipeline, id);
    assert log[i] in log && a.kind.TaskRun?;
    var e :| e in log && e.UploadStarted? && e.id == id;
    k :| 0 <= k < |log| && log[k] == e;
  }

  lemma SpecOf(pipeline: seq<ActionSpec>, id: ActionId) returns (a: ActionSpec)
    requires HasId(pipeline, id)
    ensures a in pipeline && a.id == id
  {
    var j :| 0 <= j < |pipeline| && pipeline[j].id == id;
    a := pipeline[j];
  }

  /** A task that is started in the step does not succeed in it. */
  lemma StartsDoNotSucceed(pipeline: seq<ActionSpec>, m: Marks, events: seq<Event>, i: nat, j: nat)
    requires EventsOk(pipeline, m, events) && m.uploaded <= m.started && i < |events| && j < |events|
    requires events[i].Started? && events[i].task && Success(events[j])
    ensures events[j].status.id != events[i].id
  {
    var e, f := events[i], events[j];
    assert e in events && f in events;
    var a := SpecOf(pipeline, e.id);
    assert a.kind.TaskRun? && e.id !in m.started;
  }

  lemma SuccessGrows(sides: map<SessionId, Side>, sid: SessionId, log: seq<Event>, events: seq<Event>)
    requires LogOk(sides, log) && sid in sides && EventsOk(sides[sid].pipeline, MarksOf(log), events)
    ensures SuccessAfterUpload(log + events)
  {
    hide EventsOk, KindsOk, StartsOnce;
    var all := log + events;
    forall i, j | 0 <= i < j < |all| && all[i].Started? && all[i].task && Success(all[j]) && all[j].status.id == all[i].id
      ensures exists k :: i < k < j && all[k] == UploadStarted(all[i].id)
    {
      if j < |log| {
        var k :| i < k < j && log[k] == UploadStarted(log[i].id);
        assert all[k] == log[k];
      } else if i < |log| {
        assert all[j] == events[j - |log|];
        var k := UploadBetween(sides, sid, log, events, i, all[j]);
        assert all[k] == log[k];
      } else {
        assert all[i] == events[i - |log|] && all[j] == events[j - |log|];
        StartsDoNotSucceed(sides[sid].pipeline, MarksOf(log), events, i - |log|, j - |log|);
      }
    }
  }

  lemma KindsGrow(sides: map<SessionId, Side>, sid: SessionId, sides': map<SessionId, Side>, log: seq<Event>,
          events: seq<Event>)
    requires KindsOk(sides, log) && sid in sides && EventsOk(sides[sid].pipeline, MarksOf(log), events)
    requires sides'.Keys == sides.Keys && forall one | one in sides :: sides'[one].pipeline == sides[one].pipeline
    requires forall one | one in sides && one != sid :: SharesNoId(sides[one].pipeline, sides[sid].pipeline)
    ensures KindsOk(sides', log + events)
  {
    forall one, a, e | one in sides' && a in sides'[one].pipeline && e in log + events && e.Started? && e.id == a.id
      ensures a.kind.TaskRun? == e.task
    {
      if e !in log {
        assert e in events;
        if one != sid {
          NotShared(sides[one].pipeline, sides[sid].pipeline, a);
        }
      }
    }
  }

  lemma NotShared(one: seq<ActionSpec>, two: seq<ActionSpec>, a: ActionSpec)
    requires SharesNoId(one, two) && a in one
    ensures !HasId(two, a.id)
  {
    var i :| 0 <= i < |one| && one[i] == a;
  }

  /** A step of one session keeps the log in order. */
  lemma LogGrowsOk(sides: map<SessionId, Side>, sid: SessionId, sides': map<SessionId, Side>, log: seq<Event>,
          events: seq<Event>)
    requires LogOk(sides, log) && sid in sides && EventsOk(sides[sid].pipeline, MarksOf(log), events)
    requires sides'.Keys == sides.Keys && forall one | one in sides :: sides'[one].pipeline == sides[one].pipeline
    requires forall one | one in sides && one != sid :: SharesNoId(sides[one].pipeline, sides[sid].pipeline)
    ensures LogOk(sides', log + events)
  {
    StartsOnceGrows(log, events, sides[sid].pipeline);
    UploadsGrow(log, events, sides[sid].pipeline);
    SuccessGrows(sides, sid, log, events);
    KindsGrow(sides, sid, sides', log, events);
    hide StartsOnce, UploadsAfterStart, SuccessAfterUpload, KindsOk, HasId;
    forall e | e in log + events ensures Knows(sides', e.Subject()) {
      if e in log {
        var one :| one in sides && HasId(sides[one].pipeline, e.Subject());
        assert HasId(sides'[one].pipeline, e.Subject());
      } else {
        assert HasId(sides'[sid].pipeline, e.Subject());
      }
    }
  }

  /** The service's new actions were never heard of. */
  lemma LogExtends(sides: map<SessionId, Side>, more: map<SessionId, seq<ActionSpec>>, log: seq<Event>)
    requires LogOk(sides, log) && ServiceAppends(sides, more)
    ensures LogOk(Extend(sides, more), log)
    ensures forall sid, a | sid in sides && a in more[sid] :: forall e | e in log :: e.Subject() != a.id
  {
    hide StartsOnce, UploadsAfterStart, SuccessAfterUpload;
    forall sid, a | sid in sides && a in more[sid] ensures forall e | e in log :: e.Subject() != a.id {
      NewIsUnknown(sides, more, sid, a);
    }
    forall sid, a, e | sid in sides && a in sides[sid].pipeline + more[sid] && e in log && e.Started? && e.id == a.id
      ensures a.kind.TaskRun? == e.task
    {
      assert a in sides[sid].pipeline;
    }
    forall e | e in log ensures Knows(Extend(sides, more), e.Subject()) {
      var sid :| sid in sides && HasId(sides[sid].pipeline, e.Subject());
      var i :| 0 <= i < |sides[sid].pipeline| && sides[sid].pipeline[i].id == e.Subject();
      assert Extend(sides, more)[sid].pipeline[i].id == e.Subject();
    }
  }

  lemma NewIsUnknown(sides: map<SessionId, Side>, more: map<SessionId, seq<ActionSpec>>, sid: SessionId, a: ActionSpec)
    requires ServiceAppends(sides, more) && sid in sides && a in more[sid]
    ensures !Knows(sides, a.id)
  {
    var j :| 0 <= j < |more[sid]| && more[sid][j] == a;
    forall one | one in sides ensures !HasId(sides[one].pipeline, a.id) {
      if one == sid {
        AppendedIdIsNew(sides[sid].pipeline, more[sid], j);
      } else {
        AppendedIdIsNotShared(sides[one].pipeline, more[one], sides[sid].pipeline, more[sid], j);
      }
    }
  }
}
