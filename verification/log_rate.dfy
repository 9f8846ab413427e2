/** The pace of PutLogEvents calls of one log stream: the throttle and the retries.

    Times are readings of a monotonic clock in seconds. */
module LogRate {
  import opened Actions

  const MAX_REQUESTS_PER_SECOND := 5

  /** One PutLogEvents call: which upload it was for, and when. */
  datatype Call = Call(upload: nat, at: real)

  // ----- one pass through the throttle

  /** The recorded times that are less than a second old; the times are in order. */
  function Recent(times: seq<real>, now: real): (r: seq<real>)
    ensures |r| <= |times| && r == times[|times| - |r|..]
    ensures forall i | 0 <= i < |times| - |r| :: now - times[i] >= 1.0
    ensures r != [] ==> now - r[0] < 1.0
  {
    if times != [] && now - times[0] >= 1.0 then
      var rest := Recent(times[1..], now);
      OneDropped(times, rest, now);
      rest
    else times
  }

  /** A record that is dropped from the front leaves what is left at the end. */
  lemma OneDropped(times: seq<real>, rest: seq<real>, now: real)
    requires times != [] && now - times[0] >= 1.0
    requires |rest| < |times| && rest == times[1..][|times| - 1 - |rest|..]
    requires forall i | 0 <= i < |times| - 1 - |rest| :: now - times[1..][i] >= 1.0
    ensures rest == times[|times| - |rest|..]
    ensures forall i | 0 <= i < |times| - |rest| :: now - times[i] >= 1.0
  {
    forall i | 1 <= i < |times| - |rest| ensures now - times[i] >= 1.0 {
      assert times[i] == times[1..][i - 1];
    }
  }

  lemma RecentOfNothing(now: real)
    ensures Recent([], now) == []
  {
  }

  lemma RecentUnfolds(times: seq<real>, now: real)
    requires times != []
    ensures Recent(times, now) == if now - times[0] >= 1.0 then Recent(times[1..], now) else times
    ensures now - times[0] < 1.0 ==> [times[0]] + times[1..] == times
  {
  }

  function Pruned(times: seq<real>, now: real): seq<real> {
    if |times| >= MAX_REQUESTS_PER_SECOND then Recent(times, now) else times
  }

  /** How long the throttle sleeps. */
  function Pause(times: seq<real>, now: real): real {
    var kept := Pruned(times, now);
    if |kept| >= MAX_REQUESTS_PER_SECOND then 1.0 - (now - kept[0]) else 0.0
  }

  /** The throttle sleeps exactly as long as five recorded uploads are less than a second old: after
      the pause fewer are, before its end they all are. */
  lemma PausesNoLongerThanNeeded(times: seq<real>, now: real, sleep: real)
    requires 0.0 <= sleep && forall i, j | 0 <= i < j < |times| :: times[i] <= times[j] <= now
    requires |times| <= 6 && (|times| == 6 ==> now >= times[0] + 1.0)
    ensures sleep >= Pause(times, now)
            <==> |times| < 5 || now + sleep - times[|times| - 5] >= 1.0
    ensures 0.0 <= Pause(times, now)
  {
    if |times| >= 5 {
      var kept := Recent(times, now);
      if |kept| == 5 {
        assert kept[0] == times[|times| - 5];
      }
    }
  }

  // ----- what holds over every run

  /** `records` are the times recorded for all uploads so far, `calls` all calls, and `clock` is the
      latest reading. */
  ghost predicate RateKept(times: seq<real>, records: seq<real>, calls: seq<Call>, clock: real) {
    && Recorded(times, records, clock)
    && Called(records, calls, clock)
    && Spaced(calls)
  }

  /** The deque holds the latest records, at most six of them, and what it no longer holds is at
      least a second old. */
  ghost predicate Recorded(times: seq<real>, records: seq<real>, clock: real) {
    && |times| <= |records| && times == records[|records| - |times|..]
    && |times| <= MAX_REQUESTS_PER_SECOND + 1
    && (|times| == MAX_REQUESTS_PER_SECOND + 1 ==> clock >= times[0] + 1.0)
    && (forall i | 0 <= i < |records| :: records[i] <= clock)
    && (forall i, j | 0 <= i < j < |records| :: records[i] <= records[j])
    && (forall i | 0 <= i < |records| - |times| :: clock - records[i] >= 1.0)
  }

  /** A call comes after the record of its upload and before the record of the next one, and at
      least a second after the record five uploads earlier. */
  ghost predicate Called(records: seq<real>, calls: seq<Call>, clock: real) {
    && (forall c | c in calls :: c.upload < |records| && records[c.upload] <= c.at <= clock)
    && (forall c | c in calls :: c.upload >= 5 ==> c.at >= records[c.upload - 5] + 1.0)
    && (forall c, j | c in calls && c.upload < j < |records| :: c.at <= records[j])
  }

  /** Calls are in order, and calls for one upload are at least a second apart. */
  ghost predicate Spaced(calls: seq<Call>) {
    forall i, j | 0 <= i < j < |calls| ::
      && calls[i].upload <= calls[j].upload
      && calls[i].at <= calls[j].at
      && (calls[i].upload == calls[j].upload ==> calls[j].at >= calls[i].at + 1.0)
  }

  /** Calls in a row either have two for the same upload among them or go up by an upload each. */
  lemma {:induction false} CallsInARow(calls: seq<Call>, k: nat, n: nat)
    requires Spaced(calls) && k + n < |calls|
    ensures calls[k + n].at >= calls[k].at + 1.0 || calls[k + n].upload >= calls[k].upload + n
    decreases n
  {
    if n > 0 {
      CallsInARow(calls, k, n - 1);
      assert calls[k + n - 1].at <= calls[k + n].at;
      if k < k + n - 1 {
        assert calls[k].at <= calls[k + n - 1].at;
      }
    }
  }

  /** Calls for uploads six apart are at least a second apart. */
  lemma UploadsApart(records: seq<real>, calls: seq<Call>, clock: real, first: Call, last: Call)
    requires Called(records, calls, clock) && first in calls && last in calls
    requires last.upload >= first.upload + 6
    ensures last.at >= first.at + 1.0
  {
    assert first.at <= records[last.upload - 5];
  }

  /** Any seven calls in a row take at least a second from the first to the last. */
  lemma SevenCallsTakeASecond(times: seq<real>, records: seq<real>, calls: seq<Call>, clock: real, k: nat)
    requires RateKept(times, records, calls, clock) && k + 6 < |calls|
    ensures calls[k + 6].at >= calls[k].at + 1.0
  {
    hide Recorded, Called, Spaced;
    CallsInARow(calls, k, 6);
    if calls[k + 6].upload >= calls[k].upload + 6 {
      assert calls[k] in calls && calls[k + 6] in calls;
      UploadsApart(records, calls, clock, calls[k], calls[k + 6]);
    }
  }

  function CountIn(calls: seq<Call>, from: real): nat {
    if calls == [] then 0
    else (if from <= calls[0].at < from + 1.0 then 1 else 0) + CountIn(calls[1..], from)
  }

  /** No half-open window of one second has more than six calls, failed calls and retries
      included. */
  lemma SixCallsPerSecond(times: seq<real>, records: seq<real>, calls: seq<Call>, clock: real, from: real)
    requires RateKept(times, records, calls, clock)
    ensures CountIn(calls, from) <= MAX_REQUESTS_PER_SECOND + 1
  {
    forall k | 0 <= k && k + 6 < |calls| ensures calls[k + 6].at >= calls[k].at + 1.0 {
      SevenCallsTakeASecond(times, records, calls, clock, k);
    }
    CountWindow(calls, from);
  }

  lemma {:induction false} CountWindow(calls: seq<Call>, from: real)
    requires Spaced(calls)
    requires forall k | 0 <= k && k + 6 < |calls| :: calls[k + 6].at >= calls[k].at + 1.0
    ensures CountIn(calls, from) <= 6
  {
    if calls != [] {
      var rest := calls[1..];
      forall k | 0 <= k && k + 6 < |rest| ensures rest[k + 6].at >= rest[k].at + 1.0 {
        assert calls[(k + 1) + 6].at >= calls[k + 1].at + 1.0;
      }
      if from <= calls[0].at < from + 1.0 {
        if |calls| > 6 {
          assert calls[0 + 6].at >= calls[0].at + 1.0;
          CountLate(calls, from, 6);
        } else {
          CountAtMost(calls, from);
        }
      } else {
        CountWindow(rest, from);
      }
    }
  }

  lemma CountAtMost(calls: seq<Call>, from: real)
    ensures CountIn(calls, from) <= |calls|
  {
  }

  /** Calls from position `n` on are past the window. */
  lemma {:induction false} CountLate(calls: seq<Call>, from: real, n: nat)
    requires Spaced(calls) && n < |calls| && calls[n].at >= from + 1.0
    ensures CountIn(calls, from) <= n
  {
    var rest := calls[1..];
    if n > 0 {
      CountLate(rest, from, n - 1);
    } else if rest != [] {
      assert calls[0].at <= calls[1].at;
      CountLate(rest, from, 0);
    }
  }

  /** The call times of `n` uploads one after the other that take no time and succeed at once. */
  function BackToBack(times: seq<real>, now: real, n: nat): seq<real>
    decreases n
  {
    if n == 0 then []
    else
      var at := now + Pause(times, now);
      [at] + BackToBack(Pruned(times, now) + [now], at, n - 1)
  }

  function Repeat(x: real, n: nat): (r: seq<real>)
    ensures |r| == n && forall i | 0 <= i < n :: r[i] == x
  {
    seq(n, i => x)
  }

  lemma OneUpload(times: seq<real>, now: real, n: nat)
    ensures BackToBack(times, now, 0) == []
    ensures BackToBack(times, now, n + 1)
         == [now + Pause(times, now)] + BackToBack(Pruned(times, now) + [now], now + Pause(times, now), n)
  {
    hide Pause, Pruned;
  }

  /** As long as the deque has room, nothing is pruned and nothing waits. */
  lemma {:induction false} FreeBurst(times: seq<real>, now: real, n: nat, more: nat)
    requires |times| + n <= MAX_REQUESTS_PER_SECOND
    ensures BackToBack(times, now, n + more) == Repeat(now, n) + BackToBack(times + Repeat(now, n), now, more)
    decreases n
  {
    hide BackToBack, Recent;
    if n == 0 {
      assert times + Repeat(now, 0) == times;
    } else {
      OneUpload(times, now, n - 1 + more);
      FreeBurst(times + [now], now, n - 1, more);
      assert times + [now] + Repeat(now, n - 1) == times + Repeat(now, n);
      assert Repeat(now, n) == [now] + Repeat(now, n - 1);
    }
  }

  /** Six is reached: of eleven uploads back to back, the last six calls come at the same moment,
      because the sixth records the time before it slept. */
  lemma SixIsReached()
    ensures BackToBack([], 0.0, 11) == Repeat(0.0, 5) + Repeat(1.0, 6)
  {
    hide BackToBack, Recent, Pruned, Pause;
    var five := Repeat(0.0, 5);
    var six := five + [0.0];
    FreeBurst([], 0.0, 5, 6);
    assert [] + five == five;
    FullOfZeros();
    OneUpload(five, 0.0, 5);
    OneUpload(six, 1.0, 4);
    FreeBurst([1.0], 1.0, 4, 0);
    OneUpload([1.0] + Repeat(1.0, 4), 1.0, 0);
    assert BackToBack(six, 1.0, 5) == [1.0] + Repeat(1.0, 4);
    assert [1.0] + ([1.0] + Repeat(1.0, 4)) == Repeat(1.0, 6);
  }

  /** Five records of the moment make the sixth upload wait; a second later all six are dropped. */
  lemma FullOfZeros()
    ensures var five := Repeat(0.0, 5);
            var six := five + [0.0];
            && Pruned(five, 0.0) == five && Pause(five, 0.0) == 1.0
            && Pruned(six, 1.0) + [1.0] == [1.0] && Pause(six, 1.0) == 0.0
  {
    var five := Repeat(0.0, 5);
    assert five[0] == 0.0;
    assert Recent(five, 0.0) == five;
    AllOld(five + [0.0], 1.0);
  }

  lemma {:induction false} AllOld(times: seq<real>, now: real)
    requires forall i | 0 <= i < |times| :: now - times[i] >= 1.0
    ensures Recent(times, now) == []
  {
    if times != [] {
      AllOld(times[1..], now);
    }
  }

  // ----- the object

  /** How one attempt of an upload goes: `lag` passes before the call, and a failure may find the
      stop event set. */
  datatype Attempt = Attempt(lag: real, fails: bool, stopping: bool)

  const STOPPED_RETRIES := 5

  /** The number of attempts the upload makes, and whether the last one succeeds; nothing when the
      attempts given do not settle it. */
  function Settled(attempts: seq<Attempt>, left: nat): (r: Option<(nat, bool)>)
    ensures r.Some? ==> r.value.0 <= |attempts| && (left > 0 ==> r.value.0 > 0)
    decreases attempts
  {
    if left == 0 then Some((0, false))
    else if attempts == [] then None
    else if !attempts[0].fails then Some((1, true))
    else
      var rest := Settled(attempts[1..], if attempts[0].stopping then left - 1 else left);
      if rest.None? then None else Some((rest.value.0 + 1, rest.value.1))
  }

  function StopFailures(attempts: seq<Attempt>): nat {
    if attempts == [] then 0
    else (if attempts[0].fails && attempts[0].stopping then 1 else 0) + StopFailures(attempts[1..])
  }

  /** An upload succeeds at the first attempt that does not fail; it gives up exactly after as many
      failures that found the stop event set as it had left, the last attempt being one of them. */
  lemma {:induction false} SettledMeans(attempts: seq<Attempt>, left: nat)
    requires Settled(attempts, left).Some? && left > 0
    ensures var (n, ok) := Settled(attempts, left).value;
            && 0 < n <= |attempts|
            && (forall i | 0 <= i < n - 1 :: attempts[i].fails)
            && (ok <==> !attempts[n - 1].fails)
            && (ok ==> StopFailures(attempts[..n]) < left)
            && (!ok ==> attempts[n - 1].stopping && StopFailures(attempts[..n]) == left)
    decreases attempts
  {
    var (n, ok) := Settled(attempts, left).value;
    assert attempts[..n][1..] == attempts[1..][..n - 1];
    if attempts[0].fails {
      var after := if attempts[0].stopping then left - 1 else left;
      if after > 0 {
        SettledMeans(attempts[1..], after);
      }
    }
  }

  class Pacer {
    var times: seq<real>
    ghost var records: seq<real>
    ghost var calls: seq<Call>
    /** The monotonic clock. */
    var clock: real

    ghost predicate Valid()
      reads this
    {
      RateKept(times, records, calls, clock)
    }

    /** Ready for a call of the upload recorded last. */
    ghost predicate Ready()
      reads this
    {
      && Valid() && records != []
      && (forall c | c in calls :: c.upload < |records| - 1)
      && (|records| > 5 ==> clock >= records[|records| - 6] + 1.0)
    }

    constructor (now: real)
      ensures Valid() && calls == [] && records == [] && clock == now
    {
      hide RateKept;
      NothingKept(now);
      times, records, calls, clock := [], [], [], now;
    }

    /** Reads the clock at `now`; a sleep lasts at least as long as it is asked to. */
    method Throttle(now: real, overrun: real)
      requires Valid() && now >= clock && overrun >= 0.0
      modifies this
      ensures Ready() && calls == old(calls) && records == old(records) + [now]
      ensures times == Pruned(old(times), now) + [now]
      ensures clock == now + Pause(old(times), now) + overrun
    {
      hide RateKept, Recent;
      ghost var before := times;
      var pause := 0.0;
      if |times| >= MAX_REQUESTS_PER_SECOND {
        Prune(now);
        if |times| >= MAX_REQUESTS_PER_SECOND {
          pause := 1.0 - (now - times[0]);
        }
      }
      RecordKeeps(before, records, calls, clock, now, now + pause + overrun);
      times := times + [now];
      records := records + [now];
      clock := now + pause + overrun;
      RateKeptCalls(old(times), old(records), calls, old(clock));
    }

    /** Drops the records that are a second old or older; the first younger one goes back. */
    method Prune(now: real)
      modifies this`times
      ensures times == Recent(old(times), now)
    {
      hide Recent;
      RecentOfNothing(now);
      while |times| > 0
        invariant Recent(old(times), now) == Recent(times, now)
        decreases |times|
      {
        RecentUnfolds(times, now);
        var earliest := times[0];
        times := times[1..];
        if now - earliest < 1.0 {
          times := [earliest] + times;
          break;
        }
      }
    }

    /** `lag` passes, and then the upload recorded last makes a call. */
    method Note(lag: real)
      requires Valid() && records != [] && lag >= 0.0
      requires |records| > 5 ==> clock >= records[|records| - 6] + 1.0
      requires forall c | c in calls && c.upload == |records| - 1 :: c.at + 1.0 <= clock
      modifies this`calls, this`clock
      ensures Valid() && clock == old(clock) + lag
      ensures calls == old(calls) + [Call(|records| - 1, clock)]
    {
      hide RateKept;
      NoteKeeps(times, records, calls, clock, lag);
      clock := clock + lag;
      calls := calls + [Call(|records| - 1, clock)];
    }

    /** The upload recorded last may call now. */
    ghost predicate MayCall()
      reads this
    {
      && Valid() && records != []
      && (|records| > 5 ==> clock >= records[|records| - 6] + 1.0)
      && (forall c | c in calls && c.upload == |records| - 1 :: c.at + 1.0 <= clock)
    }

    /** One attempt, and the sleep after a failed one. */
    method MakeAttempt(attempt: Attempt) returns (ok: bool)
      requires MayCall() && attempt.lag >= 0.0
      modifies this`calls, this`clock
      ensures Valid() && clock >= old(clock) && |calls| == |old(calls)| + 1
      ensures ok == !attempt.fails && (!ok ==> MayCall())
    {
      hide RateKept;
      Note(attempt.lag);
      ok := !attempt.fails;
      if !ok {
        Sleep(1.0);
      }
    }

    /** Calls until one succeeds, or until five of them failed and found the stop event set. */
    method Upload(attempts: seq<Attempt>) returns (success: bool, ghost made: nat)
      requires Ready() && Settled(attempts, STOPPED_RETRIES).Some?
      requires forall a | a in attempts :: a.lag >= 0.0
      modifies this`calls, this`clock
      ensures Valid() && clock >= old(clock)
      ensures Settled(attempts, STOPPED_RETRIES) == Some((made, success))
      ensures |calls| == |old(calls)| + made
    {
      hide RateKept;
      success := false;
      var left: nat := STOPPED_RETRIES;
      var i := 0;
      assert attempts[0..] == attempts && MayCall();
      while left > 0
        invariant 0 <= i <= |attempts| && left <= STOPPED_RETRIES && !success
        invariant MayCall() && clock >= old(clock) && |calls| == |old(calls)| + i
        invariant Settled(attempts[i..], left).Some?
        invariant Settled(attempts, STOPPED_RETRIES)
               == Some((i + Settled(attempts[i..], left).value.0, Settled(attempts[i..], left).value.1))
        decreases |attempts| - i
      {
        hide MayCall, Ready;
        var attempt := attempts[i];
        assert attempt in attempts && attempts[i..][0] == attempt && attempts[i..][1..] == attempts[i + 1..];
        success := MakeAttempt(attempt);
        i := i + 1;
        if success {
          break;
        }
        if attempt.stopping {
          left := left - 1;
        }
      }
      made := i;
    }

    method Sleep(seconds: real)
      requires Valid() && seconds >= 0.0
      modifies this`clock
      ensures Valid() && clock == old(clock) + seconds
    {
      hide RateKept;
      LaterKeeps(times, records, calls, clock, clock + seconds);
      clock := clock + seconds;
    }
  }

  /** After the pruning at most five records are left. */
  lemma PruneKeeps(times: seq<real>, records: seq<real>, calls: seq<Call>, clock: real, now: real)
    requires RateKept(times, records, calls, clock) && now >= clock
    ensures |Pruned(times, now)| <= MAX_REQUESTS_PER_SECOND
    ensures Pruned(times, now) == records[|records| - |Pruned(times, now)|..]
    ensures forall i | 0 <= i < |records| - |Pruned(times, now)| :: now - records[i] >= 1.0
  {
    hide Called, Spaced, Recent;
    PrunedRecorded(times, records, clock, now);
  }

  lemma PrunedRecorded(times: seq<real>, records: seq<real>, clock: real, now: real)
    requires Recorded(times, records, clock) && now >= clock
    ensures |Pruned(times, now)| <= MAX_REQUESTS_PER_SECOND
    ensures |Pruned(times, now)| <= |records| && Pruned(times, now) == records[|records| - |Pruned(times, now)|..]
    ensures forall i | 0 <= i < |records| - |Pruned(times, now)| :: now - records[i] >= 1.0
  {
    hide Recent;
    var kept := Pruned(times, now);
    assert kept == times[|times| - |kept|..];
    forall i | 0 <= i < |records| - |kept| ensures now - records[i] >= 1.0 {
      if i >= |records| - |times| {
        assert records[i] == times[i - (|records| - |times|)];
      }
    }
  }

  lemma RecordKeeps(times: seq<real>, records: seq<real>, calls: seq<Call>, clock: real, now: real, later: real)
    requires RateKept(times, records, calls, clock) && now >= clock && later >= now + Pause(times, now)
    ensures Pause(times, now) >= 0.0
    ensures RateKept(Pruned(times, now) + [now], records + [now], calls, later)
    ensures |records| >= 5 ==> later >= records[|records| - 5] + 1.0
  {
    var kept := Pruned(times, now);
    PruneKeeps(times, records, calls, clock, now);
    PauseAfterPruning(times, now);
    CalledLater(records, calls, clock, now, later);
    hide Pruned, Pause, Called, Spaced;
    if |kept| >= MAX_REQUESTS_PER_SECOND {
      assert kept[0] == records[|records| - 5];
    }
    RecordedNext(times, records, clock, kept, now, later);
  }

  lemma PauseAfterPruning(times: seq<real>, now: real)
    ensures Pause(times, now) >= 0.0
    ensures |Pruned(times, now)| >= MAX_REQUESTS_PER_SECOND ==> now + Pause(times, now) == Pruned(times, now)[0] + 1.0
  {
    if |times| >= MAX_REQUESTS_PER_SECOND {
      assert Pruned(times, now) == Recent(times, now);
    }
  }

  lemma RecordedNext(times: seq<real>, records: seq<real>, clock: real, kept: seq<real>, now: real, later: real)
    requires Recorded(times, records, clock) && clock <= now <= later
    requires |kept| <= MAX_REQUESTS_PER_SECOND && |kept| <= |records| && kept == records[|records| - |kept|..]
    requires forall i | 0 <= i < |records| - |kept| :: now - records[i] >= 1.0
    requires |kept| == MAX_REQUESTS_PER_SECOND ==> later >= kept[0] + 1.0
    ensures Recorded(kept + [now], records + [now], later)
  {
  }

  lemma CalledLater(records: seq<real>, calls: seq<Call>, clock: real, now: real, later: real)
    requires Called(records, calls, clock) && clock <= now <= later
    ensures Called(records + [now], calls, later)
  {
  }

  lemma NothingKept(now: real)
    ensures RateKept([], [], [], now)
  {
  }

  lemma LaterKeeps(times: seq<real>, records: seq<real>, calls: seq<Call>, clock: real, later: real)
    requires RateKept(times, records, calls, clock) && clock <= later
    ensures RateKept(times, records, calls, later)
  {
  }

  lemma RateKeptCalls(times: seq<real>, records: seq<real>, calls: seq<Call>, clock: real)
    requires RateKept(times, records, calls, clock)
    ensures forall c | c in calls :: c.upload < |records|
  {
  }

  lemma NoteKeeps(times: seq<real>, records: seq<real>, calls: seq<Call>, clock: real, lag: real)
    requires RateKept(times, records, calls, clock) && records != [] && lag >= 0.0
    requires |records| > 5 ==> clock >= records[|records| - 6] + 1.0
    requires forall c | c in calls && c.upload == |records| - 1 :: c.at + 1.0 <= clock
    ensures RateKept(times, records, calls + [Call(|records| - 1, clock + lag)], clock + lag)
  {
    var call := Call(|records| - 1, clock + lag);
    LaterKeeps(times, records, calls, clock, clock + lag);
    CalledAppend(records, calls, clock, call);
    assert Spaced(calls + [call]) by {
      assert forall i | 0 <= i < |calls| :: calls[i] in calls;
    }
  }

  lemma CalledAppend(records: seq<real>, calls: seq<Call>, clock: real, call: Call)
    requires Called(records, calls, clock) && records != []
    requires call.upload == |records| - 1 && call.at >= clock && call.at >= records[|records| - 1]
    requires |records| > 5 ==> call.at >= records[|records| - 6] + 1.0
    ensures Called(records, calls + [call], call.at)
  {
    assert forall c | c in calls + [call] :: c in calls || c == call;
  }
}
