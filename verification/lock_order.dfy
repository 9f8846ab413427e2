/** The two levels of reentrant locks: the scheduler's action-update lock and one current-action
    lock for each session.

    Every code path that takes locks is a nest of sections; a thread runs any sequence of them, and
    any number of threads run interleaved, one lock operation at a time. */
module LockOrder {

  type SessionId = nat

  datatype Lock = UpdateLock | ActionLock(session: SessionId)

  datatype Op = Acquire(lock: Lock) | Release(lock: Lock)

  /** The critical sections of the source. */
  datatype Section =
      /** A status update; the handler probes `idle` of the sessions in `probes`. With no probes it
          is also how the request's collection and its commit use the lock. */
    | Report(probes: seq<SessionId>)
      /** The run loop, the cleanup, the runtime's callback and a cancelation: both locks, and in
          them updates and callbacks of the runtime. */
    | Both(session: SessionId, inner: seq<Section>)
      /** The scheduler gives a session its actions: a cancelation if there is one to pass on, then
          the replacement, which takes the session's lock alone. */
    | Assignment(session: SessionId, cancels: bool)

  function Probes(sessions: seq<SessionId>): seq<Op> {
    if sessions == [] then []
    else [Acquire(ActionLock(sessions[0])), Release(ActionLock(sessions[0]))] + Probes(sessions[1..])
  }

  function Ops(section: Section): seq<Op>
    decreases section
  {
    match section
    case Report(probes) => [Acquire(UpdateLock)] + Probes(probes) + [Release(UpdateLock)]
    case Both(session, inner) =>
      [Acquire(UpdateLock), Acquire(ActionLock(session))] + Program(inner)
      + [Release(ActionLock(session)), Release(UpdateLock)]
    case Assignment(session, cancels) =>
      [Acquire(UpdateLock)]
      + (if cancels then [Acquire(UpdateLock), Acquire(ActionLock(session)), Release(ActionLock(session)), Release(UpdateLock)]
         else [])
      + [Acquire(ActionLock(session)), Release(ActionLock(session)), Release(UpdateLock)]
  }

  function Program(sections: seq<Section>): seq<Op>
    decreases sections
  {
    if sections == [] then [] else Ops(sections[0]) + Program(sections[1..])
  }

  // ----- threads

  /** What a thread still has to do and what it holds; a reentrant lock counts its acquisitions. */
  datatype Thread = Thread(todo: seq<Op>, held: multiset<Lock>)

  type Machine = seq<Thread>

  predicate CanStep(m: Machine, t: nat)
    requires t < |m|
  {
    && m[t].todo != []
    && match m[t].todo[0]
       case Acquire(lock) => forall u | 0 <= u < |m| && u != t :: lock !in m[u].held
       case Release(lock) => lock in m[t].held
  }

  function StepOf(m: Machine, t: nat): (r: Machine)
    requires t < |m| && CanStep(m, t)
    ensures |r| == |m|
  {
    var op := m[t].todo[0];
    m[t := Thread(m[t].todo[1..],
                  if op.Acquire? then m[t].held + multiset{op.lock} else m[t].held - multiset{op.lock})]
  }

  ghost predicate Legal(m: Machine, schedule: seq<nat>)
    decreases schedule
  {
    schedule == [] || (schedule[0] < |m| && CanStep(m, schedule[0]) && Legal(StepOf(m, schedule[0]), schedule[1..]))
  }

  ghost function Exec(m: Machine, schedule: seq<nat>): (r: Machine)
    requires Legal(m, schedule)
    ensures |r| == |m|
    decreases schedule
  {
    if schedule == [] then m else Exec(StepOf(m, schedule[0]), schedule[1..])
  }

  /** Nothing is held, and every thread is about to run sections of the source. */
  ghost predicate Init(m: Machine) {
    forall t | 0 <= t < |m| :: m[t].held == multiset{} && exists sections :: m[t].todo == Program(sections)
  }

  predicate Waits(m: Machine, t: nat, u: nat)
    requires t < |m| && u < |m|
  {
    t != u && m[t].todo != [] && m[t].todo[0].Acquire? && m[t].todo[0].lock in m[u].held
  }

  // ----- the discipline

  /** Whoever holds a session's lock holds the update lock. */
  ghost predicate Guarded(held: multiset<Lock>) {
    (exists s :: ActionLock(s) in held) ==> UpdateLock in held
  }

  ghost predicate Disciplined(held: multiset<Lock>, todo: seq<Op>)
    decreases todo
  {
    Guarded(held) &&
    if todo == [] then held == multiset{}
    else if todo[0].Acquire? then
      Disciplined(held + multiset{todo[0].lock}, todo[1..])
    else
      todo[0].lock in held && Disciplined(held - multiset{todo[0].lock}, todo[1..])
  }

  lemma Push(held: multiset<Lock>, op: Op, todo: seq<Op>)
    requires Guarded(held)
    requires if op.Acquire? then Disciplined(held + multiset{op.lock}, todo)
             else op.lock in held && Disciplined(held - multiset{op.lock}, todo)
    ensures Disciplined(held, [op] + todo)
  {
    assert ([op] + todo)[1..] == todo;
  }

  /** Taking a lock and giving it back around disciplined work is disciplined: the update lock
      always, a session's lock under the update lock. */
  lemma Around(held: multiset<Lock>, lock: Lock, todo: seq<Op>)
    requires Guarded(held) && (lock.ActionLock? ==> UpdateLock in held)
    requires Disciplined(held, todo)
    ensures Guarded(held + multiset{lock}) && Disciplined(held + multiset{lock}, [Release(lock)] + todo)
  {
    assert held + multiset{lock} - multiset{lock} == held;
    Push(held + multiset{lock}, Release(lock), todo);
  }

  lemma {:induction false} ProbesDisciplined(sessions: seq<SessionId>, held: multiset<Lock>, todo: seq<Op>)
    requires UpdateLock in held && Disciplined(held, todo)
    ensures Disciplined(held, Probes(sessions) + todo)
    decreases sessions
  {
    if sessions == [] {
      assert Probes(sessions) + todo == todo;
    } else {
      var rest := Probes(sessions[1..]) + todo;
      ProbesDisciplined(sessions[1..], held, todo);
      OneProbe(sessions[0], held, rest);
      assert Probes(sessions) + todo
          == [Acquire(ActionLock(sessions[0]))] + ([Release(ActionLock(sessions[0]))] + rest);
    }
  }

  lemma OneProbe(session: SessionId, held: multiset<Lock>, todo: seq<Op>)
    requires UpdateLock in held && Disciplined(held, todo)
    ensures Disciplined(held, Probe(session, todo))
  {
    Around(held, ActionLock(session), todo);
    Push(held, Acquire(ActionLock(session)), [Release(ActionLock(session))] + todo);
  }

  lemma {:induction false} SectionDisciplined(section: Section, held: multiset<Lock>, todo: seq<Op>)
    requires Disciplined(held, todo)
    ensures Disciplined(held, Ops(section) + todo)
    decreases section
  {
    match section
    case Report(probes) =>
      var inside := held + multiset{UpdateLock};
      var out := [Release(UpdateLock)] + todo;
      Around(held, UpdateLock, todo);
      ProbesDisciplined(probes, inside, out);
      Push(held, Acquire(UpdateLock), Probes(probes) + out);
      assert Ops(section) + todo == [Acquire(UpdateLock)] + (Probes(probes) + out);
    case Both(_, _) => BothDisciplined(section, held, todo);
    case Assignment(_, _) => AssignmentDisciplined(section, held, todo);
  }

  /** The operations of a probe, or of a replacement, before `todo`. */
  function Probe(session: SessionId, todo: seq<Op>): seq<Op> {
    [Acquire(ActionLock(session))] + ([Release(ActionLock(session))] + todo)
  }

  lemma AssignmentOps(session: SessionId, cancels: bool, todo: seq<Op>)
    ensures Ops(Assignment(session, cancels)) + todo ==
            [Acquire(UpdateLock)] +
            (if cancels then
               [Acquire(UpdateLock)] + Probe(session, [Release(UpdateLock)] + Probe(session, [Release(UpdateLock)] + todo))
             else Probe(session, [Release(UpdateLock)] + todo))
  {
  }

  lemma AssignmentDisciplined(section: Section, held: multiset<Lock>, todo: seq<Op>)
    requires section.Assignment? && Disciplined(held, todo)
    ensures Disciplined(held, Ops(section) + todo)
  {
    hide Disciplined, Guarded, Ops, Probe;
    DisciplineGuards(held, todo);
    var session := section.session;
    var inside := held + multiset{UpdateLock};
    var replace := Probe(session, [Release(UpdateLock)] + todo);
    AssignmentOps(session, section.cancels, todo);
    Around(held, UpdateLock, todo);
    OneProbe(session, inside, [Release(UpdateLock)] + todo);
    if section.cancels {
      var cancel := Probe(session, [Release(UpdateLock)] + replace);
      Around(inside, UpdateLock, replace);
      OneProbe(session, inside + multiset{UpdateLock}, [Release(UpdateLock)] + replace);
      Push(inside, Acquire(UpdateLock), cancel);
      Push(held, Acquire(UpdateLock), [Acquire(UpdateLock)] + cancel);
    } else {
      Push(held, Acquire(UpdateLock), replace);
    }
  }

  lemma DisciplineGuards(held: multiset<Lock>, todo: seq<Op>)
    requires Disciplined(held, todo)
    ensures Guarded(held)
  {
  }

  lemma {:induction false} BothDisciplined(section: Section, held: multiset<Lock>, todo: seq<Op>)
    requires section.Both? && Disciplined(held, todo)
    ensures Disciplined(held, Ops(section) + todo)
    decreases section, 0
  {
    BothOps(section, todo);
    DisciplineGuards(held, todo);
    hide Disciplined, Ops, Program, Guarded;
    var session := section.session;
    var update, action := held + multiset{UpdateLock}, held + multiset{UpdateLock} + multiset{ActionLock(session)};
    var out := [Release(UpdateLock)] + todo;
    var leave := [Release(ActionLock(session))] + out;
    Around(held, UpdateLock, todo);
    Around(update, ActionLock(session), out);
    ProgramDisciplined(section.inner, action, leave);
    Push(update, Acquire(ActionLock(session)), Program(section.inner) + leave);
    Push(held, Acquire(UpdateLock), [Acquire(ActionLock(session))] + (Program(section.inner) + leave));
  }

  lemma BothOps(section: Section, todo: seq<Op>)
    requires section.Both?
    ensures var leave := [Release(ActionLock(section.session))] + ([Release(UpdateLock)] + todo);
            Ops(section) + todo
            == [Acquire(UpdateLock)] + ([Acquire(ActionLock(section.session))] + (Program(section.inner) + leave))
  {
    hide Program;
  }

  lemma {:induction false} ProgramDisciplined(sections: seq<Section>, held: multiset<Lock>, todo: seq<Op>)
    requires Disciplined(held, todo)
    ensures Disciplined(held, Program(sections) + todo)
    decreases sections
  {
    hide Disciplined, Ops;
    if sections == [] {
      assert Program(sections) + todo == todo;
    } else {
      ProgramDisciplined(sections[1..], held, todo);
      SectionDisciplined(sections[0], held, Program(sections[1..]) + todo);
      assert Program(sections) + todo == Ops(sections[0]) + (Program(sections[1..]) + todo);
    }
  }

  // ----- every interleaving

  ghost predicate Inv(m: Machine) {
    && (forall t | 0 <= t < |m| :: Disciplined(m[t].held, m[t].todo))
    && (forall t, u, lock | 0 <= t < |m| && 0 <= u < |m| && t != u && lock in m[t].held :: lock !in m[u].held)
  }

  lemma InitInv(m: Machine)
    requires Init(m)
    ensures Inv(m)
  {
    forall t | 0 <= t < |m| ensures Disciplined(m[t].held, m[t].todo) {
      var sections :| m[t].todo == Program(sections);
      ProgramDisciplined(sections, multiset{}, []);
      assert Program(sections) + [] == m[t].todo;
    }
  }

  lemma StepInv(m: Machine, t: nat)
    requires Inv(m) && t < |m| && CanStep(m, t)
    ensures Inv(StepOf(m, t))
  {
    assert Disciplined(m[t].held, m[t].todo);
  }

  lemma {:induction false} RunInv(m: Machine, schedule: seq<nat>)
    requires Inv(m) && Legal(m, schedule)
    ensures Inv(Exec(m, schedule))
    decreases schedule
  {
    if schedule != [] {
      StepInv(m, schedule[0]);
      RunInv(StepOf(m, schedule[0]), schedule[1..]);
    }
  }

  /** In every reachable state, a thread that holds any session's lock holds the update lock. */
  lemma SessionLockHolderHoldsUpdateLock(m: Machine, schedule: seq<nat>, t: nat, session: SessionId)
    requires Init(m) && Legal(m, schedule) && t < |m|
    requires ActionLock(session) in Exec(m, schedule)[t].held
    ensures UpdateLock in Exec(m, schedule)[t].held
  {
    InitInv(m);
    RunInv(m, schedule);
    assert Disciplined(Exec(m, schedule)[t].held, Exec(m, schedule)[t].todo);
  }

  lemma HolderHoldsUpdateLock(m: Machine, u: nat, lock: Lock)
    requires Inv(m) && u < |m| && lock in m[u].held
    ensures UpdateLock in m[u].held
  {
    assert Disciplined(m[u].held, m[u].todo);
    if lock.ActionLock? {
      assert ActionLock(lock.session) in m[u].held;
    }
  }

  lemma UpdateHolderRuns(m: Machine, u: nat)
    requires Inv(m) && u < |m| && UpdateLock in m[u].held
    ensures CanStep(m, u)
  {
    assert Disciplined(m[u].held, m[u].todo);
    if m[u].todo[0].Acquire? {
      forall w | 0 <= w < |m| && w != u ensures m[u].todo[0].lock !in m[w].held {
        if m[u].todo[0].lock in m[w].held {
          HolderHoldsUpdateLock(m, w, m[u].todo[0].lock);
        }
      }
    }
  }

  /** Whoever is waited for can run: no chain of waiting threads is longer than one link, so the
      wait-for graph has no cycle. */
  lemma WaitedForCanRun(m: Machine, schedule: seq<nat>, t: nat, u: nat)
    requires Init(m) && Legal(m, schedule) && t < |m| && u < |m|
    requires Waits(Exec(m, schedule), t, u)
    ensures CanStep(Exec(m, schedule), u)
    ensures forall w | 0 <= w < |m| :: !Waits(Exec(m, schedule), u, w)
  {
    InitInv(m);
    RunInv(m, schedule);
    var now := Exec(m, schedule);
    HolderHoldsUpdateLock(now, u, now[t].todo[0].lock);
    UpdateHolderRuns(now, u);
  }

  /** A run that cannot go on has finished: every thread is done and every lock is free. Until
      then some thread can take a step, and no thread ever releases a lock it does not hold. */
  lemma NeverStuck(m: Machine, schedule: seq<nat>)
    requires Init(m) && Legal(m, schedule)
    requires forall t | 0 <= t < |m| :: !CanStep(Exec(m, schedule), t)
    ensures forall t | 0 <= t < |m| :: Exec(m, schedule)[t] == Thread([], multiset{})
  {
    InitInv(m);
    RunInv(m, schedule);
    var now := Exec(m, schedule);
    forall t | 0 <= t < |m| ensures now[t] == Thread([], multiset{}) {
      BlockedOnlyByAnother(now, t);
    }
  }

  lemma BlockedOnlyByAnother(m: Machine, t: nat)
    requires Inv(m) && t < |m| && !CanStep(m, t)
    ensures m[t] == Thread([], multiset{}) || exists u :: 0 <= u < |m| && CanStep(m, u)
  {
    assert Disciplined(m[t].held, m[t].todo);
    if m[t].todo != [] {
      var lock := m[t].todo[0].lock;
      var u :| 0 <= u < |m| && u != t && lock in m[u].held;
      HolderHoldsUpdateLock(m, u, lock);
      UpdateHolderRuns(m, u);
    }
  }

  /** The order matters: a thread that took a session's lock before the update lock, as a callback
      would when the start of an action did not take the update lock first, can be stuck for good
      with a report that probes that session. */
  lemma WrongOrderDeadlocks(session: SessionId) returns (schedule: seq<nat>)
    ensures var m := [Thread([Acquire(ActionLock(session)), Acquire(UpdateLock), Release(UpdateLock), Release(ActionLock(session))], multiset{}),
                      Thread(Ops(Report([session])), multiset{})];
            && Legal(m, schedule)
            && forall t | 0 <= t < |m| :: Exec(m, schedule)[t].todo != [] && !CanStep(Exec(m, schedule), t)
  {
    var m := [Thread([Acquire(ActionLock(session)), Acquire(UpdateLock), Release(UpdateLock), Release(ActionLock(session))], multiset{}),
              Thread(Ops(Report([session])), multiset{})];
    schedule := [0, 1];
    var one := StepOf(m, 0);
    var two := StepOf(one, 1);
    assert schedule[1..] == [1] && schedule[1..][1..] == [];
    assert Ops(Report([session]))[1] == Acquire(ActionLock(session));
    assert Exec(m, schedule) == two;
    assert two[0].todo[0] == Acquire(UpdateLock) && UpdateLock in two[1].held;
    assert two[1].todo[0] == Acquire(ActionLock(session)) && ActionLock(session) in two[0].held;
  }
}
