/** One batch of log events for a PutLogEvents request: what it accepts, and the sort that puts it
    in time order. Timestamps are milliseconds, as CloudWatch wants them; clock readings are
    microseconds, as `datetime` has them. */
module LogBatch {
  import opened Actions
  import opened GreedySplit
  import opened LogChunks

  const MAX_BATCH_SIZE_BYTES := 1048576
  const MAX_EVENTS_PER_BATCH := 10000
  const MAX_LOG_EVENT_SIZE := 256000
  const EVENT_PADDING := 26
  const MICROS_PER_MS := 1000
  const MICROS_PER_HOUR := 3600000000
  const MAX_FUTURE_MICROS := 2 * MICROS_PER_HOUR
  const MAX_PAST_MICROS := 24 * MICROS_PER_HOUR
  const MAX_SPAN_MICROS := 24 * MICROS_PER_HOUR

  /** A log event with its size in UTF-8. `origin` names the emitted message it is a piece of, by its
      position in the order of emission; a rejection reason belongs to no message. */
  datatype Chunk = Chunk(origin: Option<nat>, timestamp: int, text: Text, size: nat)

  /** What a batch says about an event: accepted, kept for the next batch, or refused for its time. */
  datatype Verdict = Accepted | BatchFull | TooFarAhead | SpanTooLong | TooOld
  {
    predicate ForItsTime() {
      TooFarAhead? || SpanTooLong? || TooOld?
    }
  }

  function Weights(events: seq<Chunk>): (w: seq<nat>)
    ensures |w| == |events| && forall i | 0 <= i < |w| :: w[i] == events[i].size + EVENT_PADDING
  {
    seq(|events|, i requires 0 <= i < |events| => events[i].size + EVENT_PADDING)
  }

  function Bytes(events: seq<Chunk>): nat {
    Sum(Weights(events))
  }

  lemma WeightsAppend(a: seq<Chunk>, b: seq<Chunk>)
    ensures Weights(a + b) == Weights(a) + Weights(b)
    ensures Bytes(a + b) == Bytes(a) + Bytes(b)
  {
    assert Weights(a + b) == Weights(a) + Weights(b);
    SumAppend(Weights(a), Weights(b));
  }

  lemma BytesOfOne(e: Chunk)
    ensures Bytes([e]) == e.size + EVENT_PADDING
  {
    assert Weights([e]) == [e.size + EVENT_PADDING];
    SumOfOne(e.size + EVENT_PADDING);
  }

  // ----- time span

  function Earliest(events: seq<Chunk>): (t: Option<int>)
    ensures t.None? <==> events == []
    ensures events != [] ==> exists i :: 0 <= i < |events| && events[i].timestamp == t.value
    ensures forall i | 0 <= i < |events| :: t.value <= events[i].timestamp
  {
    if events == [] then None
    else
      var before := Earliest(events[..|events| - 1]);
      var last := events[|events| - 1].timestamp;
      assert forall i | 0 <= i < |events| - 1 :: events[i] == events[..|events| - 1][i];
      if before.None? || last < before.value then Some(last) else before
  }

  function Latest(events: seq<Chunk>): (t: Option<int>)
    ensures t.None? <==> events == []
    ensures events != [] ==> exists i :: 0 <= i < |events| && events[i].timestamp == t.value
    ensures forall i | 0 <= i < |events| :: events[i].timestamp <= t.value
  {
    if events == [] then None
    else
      var before := Latest(events[..|events| - 1]);
      var last := events[|events| - 1].timestamp;
      assert forall i | 0 <= i < |events| - 1 :: events[i] == events[..|events| - 1][i];
      if before.None? || last > before.value then Some(last) else before
  }

  function Low(t: Option<int>, other: int): int {
    if t.Some? && t.value < other then t.value else other
  }

  function High(t: Option<int>, other: int): int {
    if t.Some? && t.value > other then t.value else other
  }

  /** The checks in the order in which they are made: room first, then the times. */
  function Judge(events: seq<Chunk>, e: Chunk, now: int): Verdict {
    var t := e.timestamp * MICROS_PER_MS;
    if |events| + 1 > MAX_EVENTS_PER_BATCH then BatchFull
    else if Bytes(events) + e.size + EVENT_PADDING > MAX_BATCH_SIZE_BYTES then BatchFull
    else if now + MAX_FUTURE_MICROS < t then TooFarAhead
    else if (High(Latest(events), e.timestamp) - Low(Earliest(events), e.timestamp)) * MICROS_PER_MS > MAX_SPAN_MICROS
    then SpanTooLong
    else if t < now - MAX_PAST_MICROS then TooOld
    else Accepted
  }

  /** The service's limits on one request. */
  predicate WithinLimits(events: seq<Chunk>) {
    && |events| <= MAX_EVENTS_PER_BATCH
    && Bytes(events) <= MAX_BATCH_SIZE_BYTES
    && (forall i, j | 0 <= i < |events| && 0 <= j < |events| ::
          (events[i].timestamp - events[j].timestamp) * MICROS_PER_MS <= MAX_SPAN_MICROS)
  }

  lemma AcceptedStaysWithinLimits(events: seq<Chunk>, e: Chunk, now: int)
    requires WithinLimits(events) && Judge(events, e, now).Accepted?
    ensures WithinLimits(events + [e])
  {
    WeightsAppend(events, [e]);
    BytesOfOne(e);
    var lo, hi := Earliest(events), Latest(events);
    forall i | 0 <= i < |events|
      ensures Low(lo, e.timestamp) <= events[i].timestamp <= High(hi, e.timestamp)
    {
      assert lo.value <= events[i].timestamp <= hi.value;
    }
  }

  /** What a batch says about an event, in the service's numbers: it has no room beyond 10000 events or
      a mebibyte, each event counting 26 bytes more than its text; an event may be two hours ahead of
      the clock and a day behind it; and a request spans no more than a day. */
  lemma JudgesByTheLimits(events: seq<Chunk>, e: Chunk, now: int)
    ensures var hour, t, all := 3600 * 1000 * 1000, e.timestamp * 1000, events + [e];
            var room := |all| <= 10000 && Bytes(all) <= 1024 * 1024;
            var span := forall i | 0 <= i < |all| :: forall j | 0 <= j < |all| ::
                          (all[i].timestamp - all[j].timestamp) * 1000 <= 24 * hour;
            && (Judge(events, e, now).BatchFull? <==> !room)
            && (Judge(events, e, now).TooFarAhead? <==> room && t > now + 2 * hour)
            && (Judge(events, e, now).SpanTooLong? <==> room && t <= now + 2 * hour && !span)
            && (Judge(events, e, now).TooOld? <==> room && t <= now + 2 * hour && span && t < now - 24 * hour)
            && (Judge(events, e, now).Accepted? <==> room && now - 24 * hour <= t <= now + 2 * hour && span)
  {
    WeightsAppend(events, [e]);
    BytesOfOne(e);
    SpanIsExtremes(events, e);
  }

  lemma SpanIsExtremes(events: seq<Chunk>, e: Chunk)
    ensures var all := events + [e];
            (High(Latest(events), e.timestamp) - Low(Earliest(events), e.timestamp)) * 1000 <= 24 * 3600 * 1000 * 1000
            <==> forall i | 0 <= i < |all| :: forall j | 0 <= j < |all| ::
                   (all[i].timestamp - all[j].timestamp) * 1000 <= 24 * 3600 * 1000 * 1000
  {
    var all, lo, hi := events + [e], Low(Earliest(events), e.timestamp), High(Latest(events), e.timestamp);
    forall i | 0 <= i < |all| ensures lo <= all[i].timestamp <= hi {
      if i < |events| {
        assert Earliest(events).value <= events[i].timestamp <= Latest(events).value;
      }
    }
    var first := IndexOfLow(events, e);
    var last := IndexOfHigh(events, e);
    assert all[first].timestamp == lo && all[last].timestamp == hi;
  }

  lemma IndexOfLow(events: seq<Chunk>, e: Chunk) returns (i: nat)
    ensures i <= |events| && (events + [e])[i].timestamp == Low(Earliest(events), e.timestamp)
  {
    i := |events|;
    if events != [] && Earliest(events).value < e.timestamp {
      i :| 0 <= i < |events| && events[i].timestamp == Earliest(events).value;
    }
  }

  lemma IndexOfHigh(events: seq<Chunk>, e: Chunk) returns (i: nat)
    ensures i <= |events| && (events + [e])[i].timestamp == High(Latest(events), e.timestamp)
  {
    i := |events|;
    if events != [] && Latest(events).value > e.timestamp {
      i :| 0 <= i < |events| && events[i].timestamp == Latest(events).value;
    }
  }

  /** Times at which every batch takes an event: within the window of the clock, and close enough
      to every event of the batch. */
  predicate Admissible(t: int, now: int) {
    now - MAX_PAST_MICROS <= t * MICROS_PER_MS <= now + MAX_FUTURE_MICROS
  }

  predicate OneSpan(times: set<int>) {
    forall s, t | s in times && t in times :: (s - t) * MICROS_PER_MS <= MAX_SPAN_MICROS
  }

  /** An event with an admissible time is refused only by a batch without room for it. */
  lemma AdmissibleIsAccepted(events: seq<Chunk>, e: Chunk, now: int, times: set<int>)
    requires Admissible(e.timestamp, now) && OneSpan(times) && e.timestamp in times
    requires forall i | 0 <= i < |events| :: events[i].timestamp in times
    ensures Judge(events, e, now) ==
            if |events| + 1 <= MAX_EVENTS_PER_BATCH && Bytes(events) + e.size + EVENT_PADDING <= MAX_BATCH_SIZE_BYTES
            then Accepted else BatchFull
  {
    var lo, hi := Earliest(events), Latest(events);
    assert High(hi, e.timestamp) in times && Low(lo, e.timestamp) in times;
  }

  /** A refusal for its time is repeated for any event with the same timestamp, unless that event
      does not fit into what is left of the batch. */
  lemma RefusalRepeats(events: seq<Chunk>, e: Chunk, again: Chunk, now: int)
    requires Judge(events, e, now).ForItsTime() && again.timestamp == e.timestamp
    ensures Judge(events, again, now) ==
            if Bytes(events) + again.size + EVENT_PADDING > MAX_BATCH_SIZE_BYTES then BatchFull
            else Judge(events, e, now)
  {
  }

  /** Waiting does not help an event that is too old or makes the span too long. */
  lemma RefusalPersists(events: seq<Chunk>, e: Chunk, now: int, later: int)
    requires now <= later && Judge(events, e, now) in {SpanTooLong, TooOld}
    ensures Judge(events, e, later) == Judge(events, e, now)
  {
  }

  lemma ExtremesGrow(events: seq<Chunk>, e: Chunk)
    ensures Earliest(events + [e])
         == if Earliest(events).None? || e.timestamp < Earliest(events).value then Some(e.timestamp) else Earliest(events)
    ensures Latest(events + [e])
         == if Latest(events).None? || e.timestamp > Latest(events).value then Some(e.timestamp) else Latest(events)
  {
    assert (events + [e])[..|events|] == events;
  }

  // ----- the batch object

  class Batch {
    var events: seq<Chunk>
    var minTimestamp: Option<int>
    var maxTimestamp: Option<int>

    /** The request's limits are met, and the recorded times are the true extremes. */
    ghost predicate Valid()
      reads this
    {
      && WithinLimits(events)
      && minTimestamp == Earliest(events)
      && maxTimestamp == Latest(events)
    }

    constructor ()
      ensures Valid() && events == []
    {
      events, minTimestamp, maxTimestamp := [], None, None;
    }

    method Size() returns (size: nat)
      ensures size == Bytes(events)
    {
      size := 0;
      assert events[..0] == [];
      for i := 0 to |events|
        invariant size == Bytes(events[..i])
      {
        assert events[..i + 1] == events[..i] + [events[i]];
        WeightsAppend(events[..i], [events[i]]);
        BytesOfOne(events[i]);
        size := size + events[i].size + EVENT_PADDING;
      }
      assert events[..|events|] == events;
    }

    method Validate(e: Chunk, now: int) returns (verdict: Verdict)
      requires Valid()
      ensures verdict == Judge(events, e, now)
    {
      if |events| + 1 > MAX_EVENTS_PER_BATCH {
        return BatchFull;
      }
      var size := Size();
      if size + e.size + EVENT_PADDING > MAX_BATCH_SIZE_BYTES {
        return BatchFull;
      }
      var t := e.timestamp * MICROS_PER_MS;
      if now + MAX_FUTURE_MICROS < t {
        return TooFarAhead;
      }
      var first, last := t, t;
      if minTimestamp.Some? && minTimestamp.value * MICROS_PER_MS < first {
        first := minTimestamp.value * MICROS_PER_MS;
      }
      if maxTimestamp.Some? && maxTimestamp.value * MICROS_PER_MS > last {
        last := maxTimestamp.value * MICROS_PER_MS;
      }
      if last - first > MAX_SPAN_MICROS {
        return SpanTooLong;
      }
      if t < now - MAX_PAST_MICROS {
        return TooOld;
      }
      return Accepted;
    }

    method Add(e: Chunk, now: int) returns (verdict: Verdict)
      requires Valid()
      modifies this
      ensures Valid()
      ensures verdict == Judge(old(events), e, now)
      ensures events == if verdict.Accepted? then old(events) + [e] else old(events)
    {
      hide WithinLimits, Judge, Earliest, Latest;
      verdict := Validate(e, now);
      if !verdict.Accepted? {
        return;
      }
      AcceptedStaysWithinLimits(events, e, now);
      ExtremesGrow(events, e);
      if minTimestamp.None? || e.timestamp < minTimestamp.value {
        minTimestamp := Some(e.timestamp);
      }
      if maxTimestamp.None? || e.timestamp > maxTimestamp.value {
        maxTimestamp := Some(e.timestamp);
      }
      events := events + [e];
    }
  }

  // ----- the stable sort

  function Insert(e: Chunk, sorted: seq<Chunk>): seq<Chunk> {
    if sorted == [] || e.timestamp <= sorted[0].timestamp then [e] + sorted
    else [sorted[0]] + Insert(e, sorted[1..])
  }

  function StableSort(events: seq<Chunk>): seq<Chunk> {
    if events == [] then [] else Insert(events[0], StableSort(events[1..]))
  }

  predicate InTimeOrder(events: seq<Chunk>) {
    forall i, j | 0 <= i < j < |events| :: events[i].timestamp <= events[j].timestamp
  }

  /** The events that satisfy `keep`, in order. */
  function Pick(events: seq<Chunk>, keep: Chunk -> bool): seq<Chunk> {
    if events == [] then []
    else (if keep(events[0]) then [events[0]] else []) + Pick(events[1..], keep)
  }

  /** What `Pick` does with the first event. */
  lemma PickFirst(e: Chunk, rest: seq<Chunk>, keep: Chunk -> bool)
    ensures Pick([e] + rest, keep) == (if keep(e) then [e] else []) + Pick(rest, keep)
  {
    assert ([e] + rest)[1..] == rest;
  }

  lemma PickNone(keep: Chunk -> bool)
    ensures Pick([], keep) == []
  {
  }

  lemma {:induction false} PickAppend(a: seq<Chunk>, b: seq<Chunk>, keep: Chunk -> bool)
    ensures Pick(a + b, keep) == Pick(a, keep) + Pick(b, keep)
  {
    hide Pick;
    PickNone(keep);
    if a == [] {
      assert a + b == b;
    } else {
      var e, rest := a[0], a[1..];
      assert a + b == [e] + (rest + b) && a == [e] + rest;
      PickFirst(e, rest + b, keep);
      PickFirst(e, rest, keep);
      PickAppend(rest, b, keep);
    }
  }

  lemma {:induction false} InsertKeepsAll(e: Chunk, sorted: seq<Chunk>)
    ensures multiset(Insert(e, sorted)) == multiset([e] + sorted)
  {
    if sorted != [] && e.timestamp > sorted[0].timestamp {
      InsertKeepsAll(e, sorted[1..]);
      assert sorted == [sorted[0]] + sorted[1..];
    }
  }

  lemma {:induction false} InsertSorts(e: Chunk, sorted: seq<Chunk>)
    requires InTimeOrder(sorted)
    ensures InTimeOrder(Insert(e, sorted))
    ensures sorted != [] && e.timestamp > sorted[0].timestamp ==> Insert(e, sorted)[0] == sorted[0]
  {
    if sorted != [] && e.timestamp > sorted[0].timestamp {
      var rest := Insert(e, sorted[1..]);
      InsertSorts(e, sorted[1..]);
      assert rest[0].timestamp >= sorted[0].timestamp;
    }
  }

  lemma {:induction false} InsertKeepsOrder(e: Chunk, sorted: seq<Chunk>, keep: Chunk -> bool, t: int)
    requires InTimeOrder(sorted)
    requires (keep(e) ==> e.timestamp == t) && forall c | c in sorted && keep(c) :: c.timestamp == t
    ensures Pick(Insert(e, sorted), keep) == (if keep(e) then [e] else []) + Pick(sorted, keep)
  {
    hide Pick;
    if sorted == [] || e.timestamp <= sorted[0].timestamp {
      PickFirst(e, sorted, keep);
    } else {
      var head, rest := sorted[0], sorted[1..];
      assert sorted == [head] + rest && head in sorted;
      assert InTimeOrder(rest) && forall c | c in rest :: c in sorted;
      InsertKeepsOrder(e, rest, keep, t);
      PickFirst(head, Insert(e, rest), keep);
      PickFirst(head, rest, keep);
      assert !(keep(e) && keep(head));
    }
  }

  /** The result is a rearrangement in time order that keeps the order of any events that share a
      timestamp. */
  lemma {:induction false} StableSortSorts(events: seq<Chunk>)
    ensures InTimeOrder(StableSort(events))
    ensures multiset(StableSort(events)) == multiset(events)
  {
    if events != [] {
      StableSortSorts(events[1..]);
      InsertSorts(events[0], StableSort(events[1..]));
      InsertKeepsAll(events[0], StableSort(events[1..]));
      assert events == [events[0]] + events[1..];
    }
  }

  lemma {:induction false} StableSortIsStable(events: seq<Chunk>, keep: Chunk -> bool, t: int)
    requires forall c | c in events && keep(c) :: c.timestamp == t
    ensures Pick(StableSort(events), keep) == Pick(events, keep)
  {
    if events != [] {
      var rest := StableSort(events[1..]);
      StableSortIsStable(events[1..], keep, t);
      StableSortSorts(events[1..]);
      forall c | c in rest && keep(c) ensures c.timestamp == t {
        assert c in multiset(rest);
        assert c in events[1..];
      }
      InsertKeepsOrder(events[0], rest, keep, t);
    }
  }
}
