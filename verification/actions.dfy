/** The vocabulary shared by the session-action protocol: what an action is, what is reported
    about it, and the life cycle a single action id goes through.

    Identifiers are opaque strings in the source and are only ever compared, so they are numbers
    here. Clock readings are integers. */
module Actions {

  datatype Option<+T> = None | Some(value: T)

  type ActionId = nat
  type EnvId = nat
  type StepId = nat
  type Time = int

  /** `EnvOther` is any other action type that starts with "ENV_"; `OtherType` is everything else. */
  datatype ActionType = EnvEnter | EnvExit | EnvOther | TaskRun | SyncInput | SyncOutput | OtherType
  {
    predicate StartsWithEnv() {
      EnvEnter? || EnvExit? || EnvOther?
    }

    /** The types that UpdateWorkerSchedule assigns. */
    predicate Assignable() {
      EnvEnter? || EnvExit? || TaskRun? || SyncInput?
    }
  }

  /** An action as it arrives from the service, or as the session makes it for an output upload. */
  datatype ActionSpec = ActionSpec(id: ActionId, kind: ActionType, env: EnvId, step: Option<StepId>)

  datatype CompletedStatus = SUCCEEDED | FAILED | INTERRUPTED | CANCELED | NEVER_ATTEMPTED

  /** What a session reports about one action. `detail` stands for the progress and message. */
  datatype Status = Status(
    id: ActionId,
    completed: Option<CompletedStatus>,
    updateTime: Option<Time>,
    startTime: Option<Time>,
    endTime: Option<Time>,
    detail: int)
  {
    predicate Terminal() {
      completed.Some?
    }
  }

  function NeverAttempted(id: ActionId, detail: int): Status {
    Status(id, Some(NEVER_ATTEMPTED), None, None, None, detail)
  }

  function FailedAt(id: ActionId, now: Time, detail: int): Status {
    Status(id, Some(FAILED), None, Some(now), Some(now), detail)
  }

  /** The states in which the Open Job Description runtime reports an action. */
  datatype ActionState = RUNNING | CANCELED_STATE | FAILED_STATE | SUCCESS | TIMEOUT

  function CompletedStatusOf(state: ActionState): Option<CompletedStatus> {
    match state
    case RUNNING => None
    case CANCELED_STATE => Some(CANCELED)
    case FAILED_STATE => Some(FAILED)
    case SUCCESS => Some(SUCCEEDED)
    case TIMEOUT => Some(FAILED)
  }

  predicate Unsuccessful(state: ActionState) {
    state.FAILED_STATE? || state.CANCELED_STATE? || state.TIMEOUT?
  }

  function Ids(specs: seq<ActionSpec>): (r: seq<ActionId>)
    ensures |r| == |specs| && forall i | 0 <= i < |r| :: r[i] == specs[i].id
  {
    seq(|specs|, i requires 0 <= i < |specs| => specs[i].id)
  }

  predicate DistinctIds(specs: seq<ActionSpec>) {
    forall i, j | 0 <= i < j < |specs| :: specs[i].id != specs[j].id
  }

  predicate HasId(specs: seq<ActionSpec>, id: ActionId) {
    exists i :: 0 <= i < |specs| && specs[i].id == id
  }

  /** The specs whose id is not in `gone`, in the same order. */
  function Outstanding(specs: seq<ActionSpec>, gone: set<ActionId>): (r: seq<ActionSpec>)
  {
    if specs == [] then []
    else if specs[0].id in gone then Outstanding(specs[1..], gone)
    else [specs[0]] + Outstanding(specs[1..], gone)
  }

  lemma OutstandingMembers(specs: seq<ActionSpec>, gone: set<ActionId>)
    ensures forall a :: a in Outstanding(specs, gone) <==> a in specs && a.id !in gone
    ensures DistinctIds(specs) ==> DistinctIds(Outstanding(specs, gone))
  {
    if specs != [] {
      OutstandingMembers(specs[1..], gone);
      assert specs == [specs[0]] + specs[1..];
      if DistinctIds(specs) {
        var rest := Outstanding(specs[1..], gone);
        forall k | 0 <= k < |rest| ensures rest[k].id != specs[0].id {
          assert rest[k] in rest;
          assert rest[k] in specs[1..];
        }
      }
    }
  }

  lemma OutstandingCompose(specs: seq<ActionSpec>, first: set<ActionId>, second: set<ActionId>)
    ensures Outstanding(Outstanding(specs, first), second) == Outstanding(specs, first + second)
  {
    if specs != [] {
      OutstandingCompose(specs[1..], first, second);
      if specs[0].id !in first {
        var rest := Outstanding(specs[1..], first);
        assert ([specs[0]] + rest)[1..] == rest;
      }
    }
  }

  lemma OutstandingNothingGone(specs: seq<ActionSpec>, gone: set<ActionId>)
    requires forall a | a in specs :: a.id !in gone
    ensures Outstanding(specs, gone) == specs
  {
    if specs != [] {
      OutstandingNothingGone(specs[1..], gone);
    }
  }

  lemma OutstandingAppend(a: seq<ActionSpec>, b: seq<ActionSpec>, gone: set<ActionId>)
    ensures Outstanding(a + b, gone) == Outstanding(a, gone) + Outstanding(b, gone)
  {
    if a == [] {
      assert a + b == b;
    } else {
      assert (a + b)[1..] == a[1..] + b;
      OutstandingAppend(a[1..], b, gone);
    }
  }

  /** Only membership of the listed ids matters. */
  lemma OutstandingAgree(specs: seq<ActionSpec>, one: set<ActionId>, two: set<ActionId>)
    requires forall a | a in specs :: a.id in one <==> a.id in two
    ensures Outstanding(specs, one) == Outstanding(specs, two)
  {
    if specs != [] {
      OutstandingAgree(specs[1..], one, two);
    }
  }

  /** Taking the first outstanding action away leaves the tail. */
  lemma OutstandingTail(specs: seq<ActionSpec>, gone: set<ActionId>)
    requires DistinctIds(specs) && Outstanding(specs, gone) != []
    ensures Outstanding(specs, gone + {Outstanding(specs, gone)[0].id}) == Outstanding(specs, gone)[1..]
  {
    var left := Outstanding(specs, gone);
    OutstandingMembers(specs, gone);
    OutstandingCompose(specs, gone, {left[0].id});
    OutstandingNothingGone(left[1..], {left[0].id});
  }

  /** An action whose predecessors are all gone comes first. */
  lemma OutstandingFirst(specs: seq<ActionSpec>, gone: set<ActionId>, k: nat)
    requires k < |specs| && specs[k].id !in gone
    requires forall i | 0 <= i < k :: specs[i].id in gone
    ensures Outstanding(specs, gone) != [] && Outstanding(specs, gone)[0] == specs[k]
  {
    if k > 0 {
      assert specs[0].id in gone;
      OutstandingFirst(specs[1..], gone, k - 1);
    }
  }

  /** Where the first outstanding action stands: everything before it is gone. */
  lemma OutstandingHead(specs: seq<ActionSpec>, gone: set<ActionId>) returns (k: nat)
    requires Outstanding(specs, gone) != []
    ensures k < |specs| && specs[k] == Outstanding(specs, gone)[0] && specs[k].id !in gone
    ensures forall i | 0 <= i < k :: specs[i].id in gone
  {
    if specs[0].id in gone {
      var j := OutstandingHead(specs[1..], gone);
      k := j + 1;
    } else {
      k := 0;
    }
  }

  lemma OutstandingHasId(specs: seq<ActionSpec>, gone: set<ActionId>, id: ActionId)
    ensures HasId(Outstanding(specs, gone), id) <==> HasId(specs, id) && id !in gone
  {
    OutstandingMembers(specs, gone);
    var o := Outstanding(specs, gone);
    if HasId(o, id) {
      var i :| 0 <= i < |o| && o[i].id == id;
      assert o[i] in o;
      var j :| 0 <= j < |specs| && specs[j] == o[i];
    }
    if HasId(specs, id) && id !in gone {
      var i :| 0 <= i < |specs| && specs[i].id == id;
      assert specs[i] in o;
      var j :| 0 <= j < |o| && o[j] == specs[i];
    }
  }
}
