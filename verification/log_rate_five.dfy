/** When the documented limit of five PutLogEvents calls a second holds, and when it does not. */
module LogRateFive {
  import opened Actions
  import opened LogRate

  /** The state of the throttle with its history. */
  datatype Pace = Pace(times: seq<real>, records: seq<real>, calls: seq<Call>, clock: real)
  {
    ghost predicate Kept() {
      RateKept(times, records, calls, clock)
    }
  }

  /** An upload that starts at once, succeeds at once, and is late only by the throttle's own pause. */
  function Prompt(p: Pace): Pace {
    var at := p.clock + Pause(p.times, p.clock);
    Pace(Pruned(p.times, p.clock) + [p.clock], p.records + [p.clock], p.calls + [Call(|p.records|, at)], at)
  }

  function Burst(p: Pace, n: nat): Pace
    decreases n
  {
    if n == 0 then p else Prompt(Burst(p, n - 1))
  }

  /** Every call is made at the time that was recorded for its upload: no pause, no delay, no retry. */
  predicate OnTime(records: seq<real>, calls: seq<Call>) {
    forall c | c in calls :: c.upload < |records| && c.at == records[c.upload]
  }

  lemma PromptKeeps(p: Pace)
    requires p.Kept()
    ensures Prompt(p).Kept()
    ensures p.clock <= Prompt(p).clock
  {
    hide RateKept, Pause, Pruned;
    var at := p.clock + Pause(p.times, p.clock);
    RecordKeeps(p.times, p.records, p.calls, p.clock, p.clock, at);
    RateKeptCalls(p.times, p.records, p.calls, p.clock);
    CallAtOnce(Pruned(p.times, p.clock) + [p.clock], p.records + [p.clock], p.calls, at);
  }

  lemma CallAtOnce(times: seq<real>, records: seq<real>, calls: seq<Call>, at: real)
    requires RateKept(times, records, calls, at) && records != [] && (forall c | c in calls :: c.upload < |records| - 1)
    requires |records| > 5 ==> at >= records[|records| - 6] + 1.0
    ensures RateKept(times, records, calls + [Call(|records| - 1, at)], at)
  {
    hide RateKept;
    NoteKeeps(times, records, calls, at, 0.0);
  }

  /** `r` goes on from `p` with `n` calls, none earlier than `from` or later than `until`. */
  predicate GoesOn(p: Pace, r: Pace, n: nat, from: real, until: real) {
    && |r.records| == |p.records| + n && p.records <= r.records
    && |r.calls| == |p.calls| + n && p.calls <= r.calls
    && from <= r.clock <= until
    && forall i | |p.calls| <= i < |r.calls| :: from <= r.calls[i].at <= until
  }

  lemma OneMoreCall(p: Pace, r: Pace, n: nat, from: real, until: real)
    requires GoesOn(p, r, n, from, until) && from <= Prompt(r).clock <= until
    ensures GoesOn(p, Prompt(r), n + 1, from, until)
  {
    hide Pause, Pruned;
  }

  lemma {:induction false} BurstKeeps(p: Pace, n: nat)
    requires p.Kept()
    ensures Burst(p, n).Kept() && GoesOn(p, Burst(p, n), n, p.clock, Burst(p, n).clock)
    decreases n
  {
    hide RateKept, Pause, Pruned, Prompt, GoesOn, Pace.Kept;
    if n == 0 {
      NoMoreCalls(p, p.clock);
    } else {
      var before := Burst(p, n - 1);
      BurstKeeps(p, n - 1);
      PromptKeeps(before);
      Widen(p, before, n - 1, p.clock, before.clock, Prompt(before).clock);
      OneMoreCall(p, before, n - 1, p.clock, Prompt(before).clock);
    }
  }

  lemma NoMoreCalls(p: Pace, until: real)
    requires p.clock <= until
    ensures GoesOn(p, p, 0, p.clock, until)
  {
  }

  lemma Widen(p: Pace, r: Pace, n: nat, from: real, until: real, later: real)
    requires GoesOn(p, r, n, from, until) && until <= later
    ensures GoesOn(p, r, n, from, later) && from <= later
  {
  }

  // ----- five, as long as calls are on time

  /** Six calls in a row of which the first one is on time take at least a second. */
  lemma SixFromOnTime(times: seq<real>, records: seq<real>, calls: seq<Call>, clock: real, k: nat)
    requires RateKept(times, records, calls, clock) && k + 5 < |calls|
    requires calls[k].upload < |records| && calls[k].at == records[calls[k].upload]
    ensures calls[k + 5].at >= calls[k].at + 1.0
  {
    CallsInARow(calls, k, 5);
    var first, last := calls[k], calls[k + 5];
    assert first in calls && last in calls;
    if last.upload >= first.upload + 5 {
      if last.upload - 5 > first.upload {
        assert records[first.upload] <= records[last.upload - 5];
      }
    }
  }

  /** Where any six calls in a row take a second, no window of a second has more than five. */
  lemma {:induction false} FiveInWindow(calls: seq<Call>, from: real)
    requires Spaced(calls)
    requires forall k | 0 <= k && k + 5 < |calls| :: calls[k + 5].at >= calls[k].at + 1.0
    ensures CountIn(calls, from) <= 5
  {
    if calls != [] {
      var rest := calls[1..];
      forall k | 0 <= k && k + 5 < |rest| ensures rest[k + 5].at >= rest[k].at + 1.0 {
        assert calls[(k + 1) + 5].at >= calls[k + 1].at + 1.0;
      }
      if from <= calls[0].at < from + 1.0 {
        if |calls| > 5 {
          assert calls[0 + 5].at >= calls[0].at + 1.0;
          CountLate(calls, from, 5);
        } else {
          CountAtMost(calls, from);
        }
      } else {
        FiveInWindow(rest, from);
      }
    }
  }

  /** Five a second holds of every history in which every call is on time. */
  lemma FiveWhenOnTime(times: seq<real>, records: seq<real>, calls: seq<Call>, clock: real, from: real)
    requires RateKept(times, records, calls, clock) && OnTime(records, calls)
    ensures CountIn(calls, from) <= MAX_REQUESTS_PER_SECOND
  {
    forall k | 0 <= k && k + 5 < |calls| ensures calls[k + 5].at >= calls[k].at + 1.0 {
      assert calls[k] in calls;
      SixFromOnTime(times, records, calls, clock, k);
    }
    FiveInWindow(calls, from);
  }

  // ----- six, after any call that is not on time

  function Max(a: real, b: real): real {
    if a < b then b else a
  }

  /** The pause ends no later than a second after the record five uploads earlier. */
  lemma PauseEnds(p: Pace)
    requires p.Kept()
    ensures var at := p.clock + Pause(p.times, p.clock);
            at == p.clock || (|p.records| >= 5 && at == p.records[|p.records| - 5] + 1.0)
  {
    var kept := Pruned(p.times, p.clock);
    PruneKeeps(p.times, p.records, p.calls, p.clock, p.clock);
    if |kept| >= MAX_REQUESTS_PER_SECOND {
      assert kept[0] == p.records[|p.records| - 5];
    }
  }

  /** Up to five prompt uploads after a record are called no later than a second after it. */
  lemma {:induction false} BurstIsSoon(p: Pace, n: nat)
    requires p.Kept() && p.records != [] && n <= 5
    ensures GoesOn(p, Burst(p, n), n, p.clock, Max(p.clock, p.records[|p.records| - 1] + 1.0))
    decreases n
  {
    hide RateKept, Pause, Pruned, Prompt, GoesOn, Pace.Kept;
    var until := Max(p.clock, p.records[|p.records| - 1] + 1.0);
    if n == 0 {
      NoMoreCalls(p, until);
    } else {
      var before := Burst(p, n - 1);
      BurstKeeps(p, n - 1);
      BurstIsSoon(p, n - 1);
      PromptEnds(p, before, n - 1, until);
      OneMoreCall(p, before, n - 1, p.clock, until);
    }
  }

  lemma PromptEnds(p: Pace, before: Pace, done: nat, until: real)
    requires p.Kept() && before.Kept() && p.records != [] && done < 5
    requires until == Max(p.clock, p.records[|p.records| - 1] + 1.0) && GoesOn(p, before, done, p.clock, until)
    ensures p.clock <= Prompt(before).clock <= until
  {
    PauseEnds(before);
    PromptKeeps(before);
    EarlierRecord(p, before, done);
    hide RateKept, Pause, Pruned;
  }

  lemma EarlierRecord(p: Pace, before: Pace, done: nat)
    requires p.Kept() && p.records != [] && done < 5
    requires p.records <= before.records && |before.records| == |p.records| + done
    ensures |before.records| >= 5 ==> before.records[|before.records| - 5] <= p.records[|p.records| - 1]
  {
    if |before.records| >= 5 {
      var i := |before.records| - 5;
      assert i < |p.records| && before.records[i] == p.records[i];
    }
  }

  lemma CountAppend(a: seq<Call>, b: seq<Call>, from: real)
    ensures CountIn(a + b, from) == CountIn(a, from) + CountIn(b, from)
  {
    if a == [] {
      assert a + b == b;
    } else {
      assert (a + b)[1..] == a[1..] + b;
      CountAppend(a[1..], b, from);
    }
  }

  lemma {:induction false} CountAll(calls: seq<Call>, from: real)
    requires forall i | 0 <= i < |calls| :: from <= calls[i].at < from + 1.0
    ensures CountIn(calls, from) == |calls|
  {
    if calls != [] {
      CountAll(calls[1..], from);
    }
  }

  /** After any call that is later than the time recorded for it, because the throttle paused, because
      something took time, or because it is a retry, five prompt uploads make six calls in the second
      that begins with it. */
  lemma SixAfterLateCall(p: Pace)
    requires p.Kept() && p.records != [] && p.calls != []
    requires p.calls[|p.calls| - 1].at == p.clock > p.records[|p.records| - 1]
    ensures CountIn(Burst(p, 5).calls, p.clock) >= 6
  {
    BurstIsSoon(p, 5);
    hide RateKept, Burst;
    LastSix(p, Burst(p, 5), Max(p.clock, p.records[|p.records| - 1] + 1.0));
  }

  lemma LastSix(p: Pace, r: Pace, until: real)
    requires p.calls != [] && p.calls[|p.calls| - 1].at == p.clock && until < p.clock + 1.0
    requires GoesOn(p, r, 5, p.clock, until)
    ensures CountIn(r.calls, p.clock) >= 6
  {
    var n := |p.calls|;
    var six := r.calls[n - 1..];
    assert r.calls[n - 1] == p.calls[n - 1];
    forall i | 0 <= i < |six| ensures p.clock <= six[i].at < p.clock + 1.0 {
      assert six[i] == r.calls[n - 1 + i];
    }
    CountAll(six, p.clock);
    CountAppend(r.calls[..n - 1], six, p.clock);
    assert r.calls == r.calls[..n - 1] + six;
  }

  /** The exact condition: in a history that was on time up to its last call, five a second survives
      five more prompt uploads if and only if that call is on time too. */
  lemma FiveExactlyWhenOnTime(p: Pace)
    requires p.Kept() && p.records != [] && p.calls != []
    requires p.calls[|p.calls| - 1].upload == |p.records| - 1 && p.calls[|p.calls| - 1].at == p.clock
    requires OnTime(p.records, p.calls[..|p.calls| - 1])
    ensures (forall from :: CountIn(Burst(p, 5).calls, from) <= MAX_REQUESTS_PER_SECOND) <==> OnTime(p.records, p.calls)
  {
    var n := |p.calls|;
    var last := p.calls[n - 1];
    assert last in p.calls && p.calls == p.calls[..n - 1] + [last];
    if OnTime(p.records, p.calls) {
      forall from ensures CountIn(Burst(p, 5).calls, from) <= MAX_REQUESTS_PER_SECOND {
        BurstOfFive(p, from);
      }
    } else {
      assert last.at >= p.records[last.upload];
      SixAfterLateCall(p);
    }
  }

  lemma BurstOfFive(p: Pace, from: real)
    requires p.Kept() && p.calls != [] && OnTime(p.records, p.calls)
    ensures CountIn(Burst(p, 5).calls, from) <= MAX_REQUESTS_PER_SECOND
  {
    BurstKeeps(p, 5);
    OnTimeAndFive(p, Burst(p, 5), from);
  }

  lemma OnTimeAndFive(p: Pace, r: Pace, from: real)
    requires r.Kept() && OnTime(p.records, p.calls) && GoesOn(p, r, 5, p.clock, r.clock)
    ensures CountIn(r.calls, from) <= MAX_REQUESTS_PER_SECOND
  {
    forall k | 0 <= k && k + 5 < |r.calls| ensures r.calls[k + 5].at >= r.calls[k].at + 1.0 {
      assert k < |p.calls| && r.calls[k] == p.calls[k] && p.calls[k] in p.calls;
      assert r.records[p.calls[k].upload] == p.records[p.calls[k].upload];
      SixFromOnTime(r.times, r.records, r.calls, r.clock, k);
    }
    FiveInWindow(r.calls, from);
  }

  /** A pass of the throttle that pauses makes its call late. */
  lemma PauseMakesLate(p: Pace)
    requires p.Kept() && |Pruned(p.times, p.clock)| >= MAX_REQUESTS_PER_SECOND
    ensures var r := Prompt(p);
            && r.Kept() && r.calls[|r.calls| - 1].at == r.clock > r.records[|r.records| - 1]
            && CountIn(Burst(r, 5).calls, r.clock) >= 6
  {
    PromptKeeps(p);
    var kept := Pruned(p.times, p.clock);
    assert p.clock - kept[0] < 1.0;
    SixAfterLateCall(Prompt(p));
  }
}
