/** The timer that refreshes AWS credentials before they expire.

    Times and durations are whole microseconds. `Refresh` is atomic relative to entering and
    leaving the context; timers fire on time, and refreshing takes no time. */
module CredentialsRefresher {
  import opened Actions

  const MINUTE := 60000000

  /** What a refresh attempt does. */
  datatype Outcome = Refreshed | Interrupted | RecoverableError | UnrecoverableError

  /** A timer that was started; `id` is its identity. */
  datatype Alarm = Alarm(id: nat, due: Time)

  /** `alarms` are the timers that were started and neither fired nor were cancelled; `timer` is the
      one the refresher remembers, which may have fired already. */
  datatype Refresher = Refresher(
    advisory: int,
    mandatory: int,
    count: int,
    timer: Option<Alarm>,
    alarms: set<Alarm>,
    nextId: nat)

  datatype Event =
    | Enter(now: Time)
    | Leave
      /** The timer fires; `expiry` is the expiry of the credentials after the attempt. */
    | Fire(now: Time, outcome: Outcome, expiry: Time)

  function Delay(r: Refresher, remaining: int): int {
    if r.advisory < remaining then remaining - r.advisory else MINUTE
  }

  function SetTimer(r: Refresher, now: Time, remaining: int): Refresher {
    var alarm := Alarm(r.nextId, now + Delay(r, remaining));
    r.(timer := Some(alarm),
       alarms := (if r.timer.Some? then r.alarms - {r.timer.value} else r.alarms) + {alarm},
       nextId := r.nextId + 1)
  }

  /** How often the owner is told, and what is left, after the timer fired. */
  function Refresh(r: Refresher, now: Time, outcome: Outcome, expiry: Time): (Refresher, nat) {
    match outcome
    case Interrupted => (r, 0)
    case UnrecoverableError => (r, 1)
    case _ =>
      var told := if outcome.RecoverableError? then 1 else 0;
      if expiry - now < r.mandatory then (r, told + 1) else (SetTimer(r, now, expiry - now), told)
  }

  /** The refresher and the expiry of the credentials. */
  datatype World = World(r: Refresher, expiry: Time)

  function Fired(r: Refresher): Refresher {
    if r.timer.Some? then r.(alarms := r.alarms - {r.timer.value}) else r
  }

  function Step(w: World, e: Event): World {
    match e
    case Enter(now) =>
      World((if w.r.count == 0 then SetTimer(w.r, now, w.expiry - now) else w.r).(count := w.r.count + 1), w.expiry)
    case Leave =>
      World(if w.r.count == 1 && w.r.timer.Some?
            then w.r.(count := 0, alarms := w.r.alarms - {w.r.timer.value}, timer := None)
            else w.r.(count := w.r.count - 1),
            w.expiry)
    case Fire(now, outcome, expiry) => World(Refresh(Fired(w.r), now, outcome, expiry).0, expiry)
  }

  /** Timers fire when they are due; a context is left only after it was entered; and on entry at
      least the mandatory timeout remains. */
  predicate Enabled(w: World, e: Event) {
    match e
    case Enter(now) => w.r.count == 0 ==> w.expiry - now >= w.r.mandatory
    case Leave => w.r.count > 0
    case Fire(now, _, _) => exists a :: a in w.r.alarms && a.due == now
  }

  predicate Legal(w: World, events: seq<Event>)
    decreases events
  {
    events == [] || (Enabled(w, events[0]) && Legal(Step(w, events[0]), events[1..]))
  }

  function Exec(w: World, events: seq<Event>): World
    decreases events
  {
    if events == [] then w else Exec(Step(w, events[0]), events[1..])
  }

  function NewRefresher(advisory: int, mandatory: int): Refresher {
    Refresher(advisory, mandatory, 0, None, {}, 0)
  }

  function Min(a: int, b: int): int {
    if a < b then a else b
  }

  /** At most one timer is pending, the one the refresher remembers, and none outside the context;
      it fires with enough time left. */
  predicate Inv(w: World) {
    && w.r.count >= 0
    && (forall a | a in w.r.alarms :: w.r.timer == Some(a))
    && (w.r.count == 0 ==> w.r.alarms == {} && w.r.timer.None?)
    && (w.r.timer.Some? ==> w.r.timer.value.id < w.r.nextId)
    && (forall a | a in w.r.alarms :: w.expiry - a.due >= Min(w.r.advisory, w.r.mandatory - MINUTE))
  }

  lemma SetTimerKeeps(r: Refresher, now: Time, expiry: Time)
    requires (forall a | a in r.alarms :: r.timer == Some(a)) && expiry - now >= r.mandatory
    ensures var s := SetTimer(r, now, expiry - now);
            && s.alarms == {s.timer.value}
            && expiry - s.timer.value.due >= Min(r.advisory, r.mandatory - MINUTE)
  {
  }

  lemma StepKeeps(w: World, e: Event)
    requires Inv(w) && Enabled(w, e)
    ensures Inv(Step(w, e))
  {
    match e
    case Enter(now) =>
      if w.r.count == 0 {
        SetTimerKeeps(w.r, now, w.expiry);
      }
    case Leave =>
    case Fire(now, outcome, expiry) =>
      var fired := Fired(w.r);
      assert fired.alarms == {};
      if expiry - now >= fired.mandatory {
        SetTimerKeeps(fired, now, expiry);
      }
  }

  lemma {:induction false} RunKeeps(w: World, events: seq<Event>)
    requires Inv(w) && Legal(w, events)
    ensures Inv(Exec(w, events))
    ensures Exec(w, events).r.advisory == w.r.advisory && Exec(w, events).r.mandatory == w.r.mandatory
    decreases events
  {
    if events != [] {
      StepKeeps(w, events[0]);
      RunKeeps(Step(w, events[0]), events[1..]);
    }
  }

  /** In every run at most one timer is pending, and only inside the context. */
  lemma AtMostOnePending(advisory: int, mandatory: int, expiry: Time, events: seq<Event>, a: Alarm, b: Alarm)
    requires Legal(World(NewRefresher(advisory, mandatory), expiry), events)
    requires var r := Exec(World(NewRefresher(advisory, mandatory), expiry), events).r; a in r.alarms && b in r.alarms
    ensures a == b
    ensures Exec(World(NewRefresher(advisory, mandatory), expiry), events).r.count > 0
  {
    RunKeeps(World(NewRefresher(advisory, mandatory), expiry), events);
  }

  /** Every firing finds credentials that are still good for the advisory timeout, or for the
      mandatory timeout less a minute. */
  lemma EnoughLeftAtEveryFiring(advisory: int, mandatory: int, expiry: Time, events: seq<Event>, e: Event)
    requires Legal(World(NewRefresher(advisory, mandatory), expiry), events)
    requires e.Fire? && Enabled(Exec(World(NewRefresher(advisory, mandatory), expiry), events), e)
    ensures Exec(World(NewRefresher(advisory, mandatory), expiry), events).expiry - e.now
         >= Min(advisory, mandatory - MINUTE)
  {
    RunKeeps(World(NewRefresher(advisory, mandatory), expiry), events);
  }

  // ----- when nothing obtains a later expiry

  /** The number of attempts until refreshing ceases, when `remaining` is left at the moment the
      timer is set and no attempt changes the expiry. */
  function Attempts(r: Refresher, remaining: int): nat
    requires r.mandatory <= remaining
    decreases if remaining > r.advisory then 1 else 0, remaining - r.mandatory
  {
    var left := remaining - Delay(r, remaining);
    if left < r.mandatory then 1 else 1 + Attempts(r, left)
  }

  /** From the advisory period on, attempts come every minute. */
  lemma {:induction false} AttemptsWithinAdvisory(r: Refresher, remaining: int)
    requires r.mandatory <= remaining <= r.advisory
    ensures Attempts(r, remaining) == (remaining - r.mandatory) / MINUTE + 1
    decreases remaining - r.mandatory
  {
    if remaining - MINUTE >= r.mandatory {
      AttemptsWithinAdvisory(r, remaining - MINUTE);
    }
  }

  /** Refreshing ceases after that many attempts; from outside the advisory period it is exactly one
      more than the whole minutes between the two timeouts, and one for the first. */
  lemma AttemptsBound(r: Refresher, remaining: int)
    requires r.mandatory <= r.advisory && r.mandatory <= remaining
    ensures Attempts(r, remaining) <= (r.advisory - r.mandatory) / MINUTE + 2
    ensures remaining > r.advisory ==> Attempts(r, remaining) == (r.advisory - r.mandatory) / MINUTE + 2
  {
    if remaining > r.advisory {
      AttemptsWithinAdvisory(r, r.advisory);
    } else {
      AttemptsWithinAdvisory(r, remaining);
    }
  }

  /** The firings of a run in which every attempt leaves the expiry as it is. */
  function Futile(r: Refresher, now: Time, expiry: Time, outcomes: seq<Outcome>): seq<Event>
    decreases outcomes
  {
    if outcomes == [] then []
    else
      var due := now + Delay(r, expiry - now);
      [Fire(due, outcomes[0], expiry)] + Futile(r, due, expiry, outcomes[1..])
  }

  /** A timer is pending that was set at `now`, and nothing else is. */
  predicate SetAt(w: World, now: Time) {
    && w.r.timer.Some? && w.r.alarms == {w.r.timer.value}
    && w.r.timer.value.due == now + Delay(w.r, w.expiry - now)
    && w.expiry - now >= w.r.mandatory
  }

  /** When every attempt fails in a way that may be tried again, or succeeds without a later expiry,
      then exactly `Attempts` many of them are made: before the last one a timer is always pending,
      and after it none is. */
  lemma {:induction false} FutileAttemptsCease(w: World, now: Time, outcomes: seq<Outcome>)
    requires SetAt(w, now) && |outcomes| <= Attempts(w.r, w.expiry - now)
    requires forall o | o in outcomes :: o.Refreshed? || o.RecoverableError?
    ensures var events := Futile(w.r, now, w.expiry, outcomes);
            && Legal(w, events)
            && (Exec(w, events).r.alarms == {} <==> |outcomes| == Attempts(w.r, w.expiry - now))
    decreases outcomes
  {
    if outcomes != [] {
      var due := now + Delay(w.r, w.expiry - now);
      var events := Futile(w.r, now, w.expiry, outcomes);
      var e := events[0];
      assert w.r.timer.value in w.r.alarms && w.r.timer.value.due == due;
      assert outcomes[0] in outcomes;
      var next := Step(w, e);
      assert events[1..] == Futile(w.r, due, w.expiry, outcomes[1..]);
      if w.expiry - due < w.r.mandatory {
        assert outcomes[1..] == [] && events[1..] == [];
        assert next.r.alarms == {};
      } else {
        assert SetAt(next, due);
        FutileSame(w.r, next.r, due, w.expiry, outcomes[1..]);
        AttemptsSame(w.r, next.r, w.expiry - due);
        FutileAttemptsCease(next, due, outcomes[1..]);
      }
    }
  }

  lemma {:induction false} FutileSame(r: Refresher, s: Refresher, now: Time, expiry: Time, outcomes: seq<Outcome>)
    requires r.advisory == s.advisory
    ensures Futile(r, now, expiry, outcomes) == Futile(s, now, expiry, outcomes)
    decreases outcomes
  {
    if outcomes != [] {
      FutileSame(r, s, now + Delay(r, expiry - now), expiry, outcomes[1..]);
    }
  }

  lemma {:induction false} AttemptsSame(r: Refresher, s: Refresher, remaining: int)
    requires r.advisory == s.advisory && r.mandatory == s.mandatory <= remaining
    ensures Attempts(r, remaining) == Attempts(s, remaining)
    decreases if remaining > r.advisory then 1 else 0, remaining - r.mandatory
  {
    if remaining - Delay(r, remaining) >= r.mandatory {
      AttemptsSame(r, s, remaining - Delay(r, remaining));
    }
  }

  // ----- runs in which no attempt obtains a later expiry

  /** Firings only, none of which leaves a later expiry than it found. */
  predicate NeverLater(events: seq<Event>, expiry: Time)
    decreases events
  {
    events == [] || (events[0].Fire? && events[0].expiry <= expiry && NeverLater(events[1..], events[0].expiry))
  }

  /** How often a firing tells the owner. */
  function Told(w: World, e: Event): nat {
    if e.Fire? then Refresh(Fired(w.r), e.now, e.outcome, e.expiry).1 else 0
  }

  /** More time left never means fewer attempts. */
  lemma AttemptsMonotone(r: Refresher, less: int, more: int)
    requires r.mandatory <= less <= more
    ensures Attempts(r, less) <= Attempts(r, more)
  {
    if r.mandatory <= r.advisory {
      AttemptsBound(r, less);
      AttemptsBound(r, more);
      if more <= r.advisory {
        AttemptsWithinAdvisory(r, less);
        AttemptsWithinAdvisory(r, more);
      }
    }
  }

  /** What one firing leaves: a timer set at that moment, or none. */
  lemma FiringSets(w: World, now: Time, e: Event)
    requires SetAt(w, now) && e.Fire? && Enabled(w, e) && e.expiry <= w.expiry
    ensures e.now == now + Delay(w.r, w.expiry - now)
    ensures var next := Step(w, e);
            && next.expiry == e.expiry
            && next.r.advisory == w.r.advisory && next.r.mandatory == w.r.mandatory
            && if next.r.alarms == {} then Told(w, e) >= 1 || e.outcome.Interrupted?
               else SetAt(next, e.now)
  {
    var a :| a in w.r.alarms && a.due == e.now;
    assert a == w.r.timer.value;
    assert Fired(w.r).alarms == {};
  }

  /** However the attempts go, as long as none obtains a later expiry there are at most `Attempts` of
      them, and fewer as long as a timer is pending. */
  lemma {:induction false} FutileFiringsAreFew(w: World, now: Time, events: seq<Event>)
    requires SetAt(w, now) && Legal(w, events) && NeverLater(events, w.expiry)
    ensures |events| <= Attempts(w.r, w.expiry - now)
    ensures Exec(w, events).r.alarms != {} ==> |events| < Attempts(w.r, w.expiry - now)
    decreases events
  {
    if events != [] {
      var e, next := events[0], Step(w, events[0]);
      FiringSets(w, now, e);
      if next.r.alarms == {} {
        assert events[1..] == [] && Exec(w, events) == next;
      } else {
        FutileFiringsAreFew(next, e.now, events[1..]);
        AttemptsSame(w.r, next.r, next.expiry - e.now);
        AttemptsMonotone(w.r, next.expiry - e.now, w.expiry - e.now);
      }
    }
  }

  /** Refreshing without a later expiry: at most floor((advisory - mandatory) / 1 minute) + 2 attempts
      are made, after which no timer is pending any more; and when none is, the last attempt told the
      owner, unless it was interrupted. */
  lemma {:induction false} FutileRefreshingCeases(w: World, now: Time, events: seq<Event>)
    requires SetAt(w, now) && Legal(w, events) && NeverLater(events, w.expiry) && w.r.mandatory <= w.r.advisory
    ensures |events| <= (w.r.advisory - w.r.mandatory) / MINUTE + 2
    ensures |events| == (w.r.advisory - w.r.mandatory) / MINUTE + 2 ==> Exec(w, events).r.alarms == {}
    ensures events != [] && Exec(w, events).r.alarms == {} ==>
              var last, before := events[|events| - 1], Exec(w, events[..|events| - 1]);
              last.Fire? && (Told(before, last) >= 1 || last.outcome.Interrupted?)
  {
    FutileFiringsAreFew(w, now, events);
    AttemptsBound(w.r, w.expiry - now);
    LastFiring(w, now, events);
  }

  /** From the first entry on: refreshing that never obtains a later expiry ends after at most
      floor((advisory - mandatory) / 1 minute) + 2 attempts, and then the owner was told. */
  lemma EnteredRefreshingCeases(advisory: int, mandatory: int, expiry: Time, now: Time, events: seq<Event>)
    requires Enabled(World(NewRefresher(advisory, mandatory), expiry), Enter(now)) && mandatory <= advisory
    requires Legal(World(NewRefresher(advisory, mandatory), expiry), [Enter(now)] + events) && NeverLater(events, expiry)
    ensures var start := World(NewRefresher(advisory, mandatory), expiry);
            && |events| <= (advisory - mandatory) / MINUTE + 2
            && (|events| == (advisory - mandatory) / MINUTE + 2 ==> Exec(start, [Enter(now)] + events).r.alarms == {})
    ensures var start := World(NewRefresher(advisory, mandatory), expiry);
            Exec(start, [Enter(now)] + events).r.alarms == {} ==>
              && events != []
              && var last, before := events[|events| - 1], Exec(Step(start, Enter(now)), events[..|events| - 1]);
                 last.Fire? && (Told(before, last) >= 1 || last.outcome.Interrupted?)
  {
    var w := Step(World(NewRefresher(advisory, mandatory), expiry), Enter(now));
    assert ([Enter(now)] + events)[1..] == events;
    assert SetAt(w, now);
    if events == [] {
      assert Exec(w, events) == w && w.r.timer.value in w.r.alarms;
    }
    FutileRefreshingCeases(w, now, events);
  }

  lemma {:induction false} LastFiring(w: World, now: Time, events: seq<Event>)
    requires SetAt(w, now) && Legal(w, events) && NeverLater(events, w.expiry)
    ensures events != [] && Exec(w, events).r.alarms == {} ==>
              var last, before := events[|events| - 1], Exec(w, events[..|events| - 1]);
              last.Fire? && (Told(before, last) >= 1 || last.outcome.Interrupted?)
    decreases events
  {
    if events != [] {
      var e, next := events[0], Step(w, events[0]);
      FiringSets(w, now, e);
      if |events| == 1 {
        assert events == [e] && events[1..] == [] && events[..0] == [];
        assert Exec(w, events) == Exec(next, []) == next && Exec(w, events[..0]) == w;
      } else {
        assert next.r.alarms != {};
        LastFiring(next, e.now, events[1..]);
        assert events[..|events| - 1][1..] == events[1..][..|events[1..]| - 1];
        assert events[..|events| - 1][0] == e;
      }
    }
  }

  // ----- when the owner is told

  /** How often the owner is told over a run. */
  function ToldIn(w: World, events: seq<Event>): nat
    decreases events
  {
    if events == [] then 0
    else (if events[0].Fire? then Told(w, events[0]) else 0) + ToldIn(Step(w, events[0]), events[1..])
  }

  /** The owner is told of every error of an attempt, and once more when the credentials expire within
      the mandatory timeout after an attempt that was neither interrupted nor failed for good; the
      timer is set again exactly when they do not. */
  lemma TellsExactly(w: World, now: Time, outcome: Outcome, expiry: Time)
    ensures var e := Fire(now, outcome, expiry);
            var late := expiry - now < w.r.mandatory;
            && Told(w, e) == (match outcome
                              case Interrupted => 0
                              case UnrecoverableError => 1
                              case RecoverableError => if late then 2 else 1
                              case Refreshed => if late then 1 else 0)
            && if outcome.Refreshed? || outcome.RecoverableError? then
                 Step(w, e).r.alarms == (if w.r.timer.Some? then w.r.alarms - {w.r.timer.value} else w.r.alarms)
                                        + if late then {} else
                                          {Alarm(w.r.nextId, now + if w.r.advisory < expiry - now then expiry - now - w.r.advisory
                                                                   else 60 * 1000 * 1000)}
               else Step(w, e).r.alarms == if w.r.timer.Some? then w.r.alarms - {w.r.timer.value} else w.r.alarms
  {
  }

  /** An attempt went well: it succeeded, and left at least the mandatory timeout. */
  predicate InTime(e: Event, mandatory: int) {
    e.Fire? ==> e.outcome.Refreshed? && e.expiry - e.now >= mandatory
  }

  /** An owner is left alone over a run if and only if every attempt succeeded in time or was
      interrupted. */
  lemma {:induction false} LeftAloneExactlyWhenInTime(w: World, events: seq<Event>)
    ensures ToldIn(w, events) == 0
            <==> forall e | e in events :: InTime(e, w.r.mandatory) || (e.Fire? && e.outcome.Interrupted?)
    decreases events
  {
    if events != [] {
      assert events == [events[0]] + events[1..];
      assert Step(w, events[0]).r.mandatory == w.r.mandatory;
      LeftAloneExactlyWhenInTime(Step(w, events[0]), events[1..]);
      if events[0].Fire? {
        TellsExactly(w, events[0].now, events[0].outcome, events[0].expiry);
      }
    }
  }

  /** As long as every attempt succeeds in time, the refresher goes on: inside the context a timer is
      always pending. */
  lemma {:induction false} GoesOnWhileInTime(w: World, events: seq<Event>)
    requires Inv(w) && Legal(w, events) && (w.r.count > 0 ==> w.r.alarms != {})
    requires forall e | e in events :: InTime(e, w.r.mandatory)
    ensures Exec(w, events).r.count > 0 ==> Exec(w, events).r.alarms != {}
    decreases events
  {
    if events != [] {
      var next := Step(w, events[0]);
      assert events == [events[0]] + events[1..];
      StepKeeps(w, events[0]);
      StillPending(w, events[0]);
      GoesOnWhileInTime(next, events[1..]);
    }
  }

  lemma StillPending(w: World, e: Event)
    requires Inv(w) && Enabled(w, e) && (w.r.count > 0 ==> w.r.alarms != {}) && InTime(e, w.r.mandatory)
    ensures Step(w, e).r.count > 0 ==> Step(w, e).r.alarms != {}
    ensures Step(w, e).r.mandatory == w.r.mandatory
  {
    match e
    case Enter(now) =>
      if w.r.count == 0 {
        assert Alarm(w.r.nextId, now + Delay(w.r, w.expiry - now)) in Step(w, e).r.alarms;
      }
    case Leave =>
    case Fire(now, _, expiry) =>
      assert Alarm(w.r.nextId, now + Delay(w.r, expiry - now)) in Step(w, e).r.alarms;
  }

  // ----- the object

  class AwsCredentialsRefresher {
    const advisory: int
    const mandatory: int
    var contextCount: int
    var timer: Option<Alarm>
    /** The timers of the Python runtime that are running. */
    var alarms: set<Alarm>
    var nextId: nat
    var told: nat

    function State(): Refresher
      reads this
    {
      Refresher(advisory, mandatory, contextCount, timer, alarms, nextId)
    }

    constructor (advisory: int, mandatory: int)
      ensures State() == NewRefresher(advisory, mandatory) && told == 0
    {
      this.advisory, this.mandatory := advisory, mandatory;
      contextCount, timer, alarms, nextId, told := 0, None, {}, 0, 0;
    }

    method StartTimer(now: Time, remaining: int)
      modifies this`timer, this`alarms, this`nextId
      ensures State() == SetTimer(old(State()), now, remaining)
    {
      if timer.Some? {
        alarms := alarms - {timer.value};
        timer := None;
      }
      var refreshIn := MINUTE;
      if advisory < remaining {
        refreshIn := remaining - advisory;
      }
      timer := Some(Alarm(nextId, now + refreshIn));
      alarms := alarms + {timer.value};
      nextId := nextId + 1;
    }

    method EnterContext(now: Time, expiry: Time)
      modifies this`contextCount, this`timer, this`alarms, this`nextId
      ensures World(State(), expiry) == Step(World(old(State()), expiry), Enter(now))
    {
      if contextCount == 0 {
        StartTimer(now, expiry - now);
      }
      contextCount := contextCount + 1;
    }

    method LeaveContext(ghost expiry: Time)
      modifies this`contextCount, this`timer, this`alarms
      ensures World(State(), expiry) == Step(World(old(State()), expiry), Leave)
    {
      contextCount := contextCount - 1;
      if contextCount == 0 {
        if timer.Some? {
          alarms := alarms - {timer.value};
          timer := None;
        }
      }
    }

    /** The timer has fired; `before` is the expiry before the attempt and `expiry` the one after. */
    method OnTimer(now: Time, outcome: Outcome, expiry: Time, ghost before: Time)
      modifies this
      ensures World(State(), expiry) == Step(World(old(State()), before), Fire(now, outcome, expiry))
      ensures told == old(told) + match outcome
                                  case Interrupted => 0
                                  case UnrecoverableError => 1
                                  case RecoverableError => if expiry - now < mandatory then 2 else 1
                                  case Refreshed => if expiry - now < mandatory then 1 else 0
    {
      if timer.Some? {
        alarms := alarms - {timer.value};
      }
      if outcome.Interrupted? {
        return;
      }
      if outcome.RecoverableError? {
        told := told + 1;
      } else if outcome.UnrecoverableError? {
        told := told + 1;
        return;
      }
      if expiry - now < mandatory {
        told := told + 1;
      } else {
        StartTimer(now, expiry - now);
      }
    }
  }
}
