/** The partitioner, which turns emitted messages into log events, and the loop that collects a
    batch of them while other threads go on emitting. */
module LogCollector {
  import opened Actions
  import opened GreedySplit
  import opened Utf8
  import opened LogChunks
  import opened LogBatch

  /** An emitted message; `origin` is its position in the order of emission. */
  datatype Entry = Entry(origin: nat, timestamp: int, text: Text)

  /** What the handler emits, as long as it can be encoded: empty messages are padded there. */
  predicate WellFormed(e: Entry) {
    e.text != [] && Encodable(e.text)
  }

  function ChunksOf(e: Entry): (r: seq<Chunk>)
    ensures |r| == |Chunks(e.text, MAX_LOG_EVENT_SIZE)|
  {
    var pieces := Sized(Chunks(e.text, MAX_LOG_EVENT_SIZE));
    seq(|pieces|, i requires 0 <= i < |pieces| => Chunk(Some(e.origin), e.timestamp, pieces[i].text, pieces[i].size))
  }

  function AllChunks(entries: seq<Entry>): seq<Chunk> {
    if entries == [] then [] else ChunksOf(entries[0]) + AllChunks(entries[1..])
  }

  lemma {:induction false} AllChunksAppend(a: seq<Entry>, b: seq<Entry>)
    ensures AllChunks(a + b) == AllChunks(a) + AllChunks(b)
  {
    if a == [] {
      assert a + b == b;
    } else {
      assert (a + b)[1..] == a[1..] + b;
      AllChunksAppend(a[1..], b);
    }
  }

  lemma ChunksOfEntry(e: Entry)
    ensures forall c | c in ChunksOf(e) ::
              c.origin == Some(e.origin) && c.timestamp == e.timestamp && c.size == |Encode(c.text)| <= 256 * 1000
    ensures e.text != [] ==> ChunksOf(e) != []
  {
    ChunksReassemble(e.text, MAX_LOG_EVENT_SIZE);
  }

  lemma {:induction false} ChunkHasEntry(entries: seq<Entry>, c: Chunk) returns (e: Entry)
    requires c in AllChunks(entries)
    ensures e in entries && c in ChunksOf(e) && c.timestamp == e.timestamp && c.size <= MAX_LOG_EVENT_SIZE
  {
    ChunksOfEntry(entries[0]);
    if c in ChunksOf(entries[0]) {
      e := entries[0];
    } else {
      e := ChunkHasEntry(entries[1..], c);
    }
  }

  class Partitioner {
    var raw: seq<Entry>
    var pending: seq<Chunk>

    /** The log events still to come, as if every message were partitioned already. */
    ghost function Queue(): seq<Chunk>
      reads this
    {
      pending + AllChunks(raw)
    }

    ghost predicate Valid()
      reads this
    {
      forall e | e in raw :: WellFormed(e)
    }

    constructor ()
      ensures Valid() && Queue() == []
    {
      raw, pending := [], [];
    }

    /** Other threads emitted messages. */
    method Arrive(entries: seq<Entry>)
      requires Valid() && forall e | e in entries :: WellFormed(e)
      modifies this
      ensures Valid()
      ensures Queue() == old(Queue()) + AllChunks(entries)
      ensures raw == old(raw) + entries && pending == old(pending)
    {
      hide AllChunks, WellFormed;
      AllChunksAppend(raw, entries);
      raw := raw + entries;
    }

    method PartitionRawEvent() returns (events: seq<Chunk>)
      requires Valid() && raw != []
      modifies this`raw
      ensures Valid() && raw == old(raw)[1..]
      ensures events == ChunksOf(old(raw)[0]) && events != []
    {
      var entry := raw[0];
      assert entry in raw;
      ChunksOfEntry(entry);
      raw := raw[1..];
      var cut := ChunkString(entry.text, MAX_LOG_EVENT_SIZE);
      var pieces := cut.pieces;
      events := seq(|pieces|, i requires 0 <= i < |pieces| => Chunk(Some(entry.origin), entry.timestamp, pieces[i].text, pieces[i].size));
    }

    /** The next log event; nothing when both deques are empty. */
    method Next() returns (next: Option<Chunk>)
      requires Valid()
      modifies this
      ensures Valid()
      ensures next.None? <==> old(Queue()) == []
      ensures old(Queue()) == (if next.Some? then [next.value] else []) + Queue()
    {
      hide ChunksOf, WellFormed;
      if |pending| > 0 {
        next := Some(pending[0]);
        pending := pending[1..];
      } else if |raw| > 0 {
        assert AllChunks(raw) == ChunksOf(raw[0]) + AllChunks(raw[1..]);
        var events := PartitionRawEvent();
        pending := pending + events[1..];
        next := Some(events[0]);
      } else {
        next := None;
      }
    }

    method AppendLeft(e: Chunk)
      requires Valid()
      modifies this`pending
      ensures Valid() && Queue() == [e] + old(Queue())
    {
      pending := [e] + pending;
    }

    method HasItems() returns (items: bool)
      requires Valid()
      ensures items <==> Queue() != []
      ensures !items ==> pending == [] && raw == []
    {
      items := |pending| > 0 || |raw| > 0;
      if |raw| > 0 {
        assert raw[0] in raw;
        ChunksOfEntry(raw[0]);
      }
    }
  }

  // ----- one turn of the collecting loop

  /** The text that replaces a log event refused for its time. */
  type Reason = (Chunk, Verdict) -> Piece

  datatype Collecting = Collecting(queue: seq<Chunk>, events: seq<Chunk>, done: bool)

  function Refused(e: Chunk, verdict: Verdict, reason: Reason): (r: Chunk)
    ensures r.timestamp == e.timestamp
  {
    Chunk(None, e.timestamp, reason(e, verdict).text, reason(e, verdict).size)
  }

  function Turn(s: Collecting, now: int, reason: Reason): Collecting {
    if s.queue == [] then s.(done := true)
    else
      var head := s.queue[0];
      var verdict := Judge(s.events, head, now);
      if verdict.Accepted? then s.(queue := s.queue[1..], events := s.events + [head])
      else if verdict.BatchFull? then s.(done := true)
      else s.(queue := [Refused(head, verdict, reason)] + s.queue[1..])
  }

  /** An event that has room and is refused for its time gives way to the text of the reason, with its
      timestamp and for no message; the batch and the rest of the queue stay. */
  lemma RefusedGivesWay(s: Collecting, now: int, reason: Reason)
    requires s.queue != [] && |s.events| + 1 <= 10000 && Bytes(s.events + [s.queue[0]]) <= 1024 * 1024
    requires s.queue[0].timestamp * 1000 > now + 7200000000 || s.queue[0].timestamp * 1000 < now - 86400000000
    ensures var r, head := Turn(s, now, reason), s.queue[0];
            && r.events == s.events && r.done == s.done && |r.queue| == |s.queue| && r.queue[1..] == s.queue[1..]
            && r.queue[0].origin.None? && r.queue[0].timestamp == head.timestamp
            && exists verdict :: verdict in {TooFarAhead, SpanTooLong, TooOld}
                 && r.queue[0].text == reason(head, verdict).text && r.queue[0].size == reason(head, verdict).size
  {
    JudgesByTheLimits(s.events, s.queue[0], now);
    hide Judge, Bytes;
    assert s.queue == [s.queue[0]] + s.queue[1..];
    var verdict := Judge(s.events, s.queue[0], now);
  }

  /** A refused event is replaced by the reason; a full batch ends the collection. */
  method CollectOne(p: Partitioner, batch: Batch, now: int, reason: Reason) returns (done: bool)
    requires p.Valid() && batch.Valid()
    modifies p, batch
    ensures p.Valid() && batch.Valid()
    ensures Collecting(p.Queue(), batch.events, done)
         == Turn(Collecting(old(p.Queue()), old(batch.events), false), now, reason)
  {
    hide Judge, WithinLimits, AllChunks, WellFormed;
    var next := p.Next();
    if next.None? {
      return true;
    }
    var event := next.value;
    assert old(p.Queue())[1..] == p.Queue();
    var verdict := batch.Add(event, now);
    if verdict.ForItsTime() {
      p.AppendLeft(Refused(event, verdict, reason));
    }
    if verdict.BatchFull? {
      p.AppendLeft(event);
      return true;
    }
    return false;
  }

  // ----- when the loop ends; nothing arrives, and turn `k` reads the clock as `clock(k)`

  function Turns(s: Collecting, clock: nat -> int, k: nat, reason: Reason, n: nat): Collecting
    decreases n
  {
    if n == 0 || s.done then s else Turns(Turn(s, clock(k), reason), clock, k + 1, reason, n - 1)
  }

  ghost predicate Ends(s: Collecting, clock: nat -> int, k: nat, reason: Reason) {
    exists n: nat :: Turns(s, clock, k, reason, n).done
  }

  predicate RefusedHead(s: Collecting, now: int) {
    !s.done && s.queue != [] && Judge(s.events, s.queue[0], now).ForItsTime()
  }

  /** The head of the queue is refused for its time at every turn from `k` on. */
  ghost predicate Stuck(s: Collecting, clock: nat -> int, k: nat, reason: Reason) {
    forall n: nat :: RefusedHead(Turns(s, clock, k, reason, n), clock(k + n))
  }

  ghost predicate NeverStuck(s: Collecting, clock: nat -> int, k: nat, reason: Reason) {
    forall n: nat :: !Stuck(Turns(s, clock, k, reason, n), clock, k + n, reason)
  }

  /** Some reading from turn `k` on accepts the event. */
  ghost predicate AcceptedFrom(events: seq<Chunk>, e: Chunk, clock: nat -> int, k: nat) {
    exists m: nat :: k <= m && Judge(events, e, clock(m)).Accepted?
  }

  ghost predicate NeverGoesBack(clock: nat -> int) {
    forall i: nat, j: nat :: i <= j ==> clock(i) <= clock(j)
  }

  /** The reason for refusing `e` at turn `k`, the reason for refusing the reason, and so on. */
  function Reasons(events: seq<Chunk>, e: Chunk, clock: nat -> int, k: nat, reason: Reason, n: nat): (r: Chunk)
    ensures r.timestamp == e.timestamp
  {
    if n == 0 then e
    else
      var last := Reasons(events, e, clock, k, reason, n - 1);
      Refused(last, Judge(events, last, clock(k + n - 1)), reason)
  }

  predicate HasRoom(events: seq<Chunk>, size: nat) {
    Bytes(events) + size + EVENT_PADDING <= MAX_BATCH_SIZE_BYTES
  }

  ghost predicate AllFit(s: Collecting, clock: nat -> int, k: nat, reason: Reason)
    requires s.queue != []
  {
    forall n: nat :: HasRoom(s.events, Reasons(s.events, s.queue[0], clock, k, reason, n).size)
  }

  lemma {:induction false} TurnsAddUp(s: Collecting, clock: nat -> int, k: nat, reason: Reason, a: nat, b: nat)
    ensures Turns(s, clock, k, reason, a + b) == Turns(Turns(s, clock, k, reason, a), clock, k + a, reason, b)
    decreases a
  {
    hide Turn;
    if a > 0 && !s.done {
      TurnsAddUp(Turn(s, clock(k), reason), clock, k + 1, reason, a - 1, b);
    }
  }

  lemma OneMoreTurn(s: Collecting, clock: nat -> int, k: nat, reason: Reason, n: nat)
    requires !Turns(s, clock, k, reason, n).done
    ensures Turns(s, clock, k, reason, n + 1) == Turn(Turns(s, clock, k, reason, n), clock(k + n), reason)
  {
    TurnsAddUp(s, clock, k, reason, n, 1);
    var r := Turns(s, clock, k, reason, n);
    assert Turns(r, clock, k + n, reason, 1) == Turns(Turn(r, clock(k + n), reason), clock, k + n + 1, reason, 0);
  }

  /** What follows the state after `n` turns follows the first state. */
  lemma EndsLater(s: Collecting, clock: nat -> int, k: nat, reason: Reason, n: nat)
    requires Ends(Turns(s, clock, k, reason, n), clock, k + n, reason)
    ensures Ends(s, clock, k, reason)
  {
    var m: nat :| Turns(Turns(s, clock, k, reason, n), clock, k + n, reason, m).done;
    TurnsAddUp(s, clock, k, reason, n, m);
  }

  lemma DoneStays(s: Collecting, clock: nat -> int, k: nat, reason: Reason, n: nat, m: nat)
    requires n <= m && Turns(s, clock, k, reason, n).done
    ensures Turns(s, clock, k, reason, m).done
  {
    TurnsAddUp(s, clock, k, reason, n, m - n);
  }

  lemma StuckGoesOn(s: Collecting, clock: nat -> int, k: nat, reason: Reason, m: nat)
    requires Stuck(s, clock, k, reason)
    ensures !Turns(s, clock, k, reason, m).done
  {
    assert RefusedHead(Turns(s, clock, k, reason, m), clock(k + m));
  }

  lemma StuckNeverEnds(s: Collecting, clock: nat -> int, k: nat, reason: Reason, n: nat)
    requires Stuck(Turns(s, clock, k, reason, n), clock, k + n, reason)
    ensures !Ends(s, clock, k, reason)
  {
    forall m: nat ensures !Turns(s, clock, k, reason, m).done {
      StuckGoesOn(Turns(s, clock, k, reason, n), clock, k + n, reason, m);
      TurnsAddUp(s, clock, k, reason, n, m);
      if Turns(s, clock, k, reason, m).done {
        DoneStays(s, clock, k, reason, m, n + m);
      }
    }
  }

  lemma FullEnds(s: Collecting, clock: nat -> int, k: nat, reason: Reason)
    requires s.done || s.queue == [] || Judge(s.events, s.queue[0], clock(k)).BatchFull?
    ensures Ends(s, clock, k, reason)
  {
    assert Turns(s, clock, k, reason, 0) == s;
    if !s.done {
      OneMoreTurn(s, clock, k, reason, 0);
      assert Turns(s, clock, k, reason, 1).done;
    }
  }

  /** Two events of one timestamp that both fit get the same verdict. */
  lemma OnlyTheTimeCounts(events: seq<Chunk>, e: Chunk, again: Chunk, now: int)
    requires |events| + 1 <= MAX_EVENTS_PER_BATCH && HasRoom(events, e.size) && HasRoom(events, again.size)
    requires again.timestamp == e.timestamp
    ensures Judge(events, again, now) == Judge(events, e, now) && !Judge(events, e, now).BatchFull?
  {
  }

  lemma RefusedFits(s: Collecting, now: int)
    requires RefusedHead(s, now)
    ensures |s.events| + 1 <= MAX_EVENTS_PER_BATCH && HasRoom(s.events, s.queue[0].size)
  {
  }

  /** As long as the reasons fit and no reading accepts the event, each turn only puts the next
      reason in place of the last one. */
  lemma {:induction false} RefusalGoesRound(s: Collecting, clock: nat -> int, k: nat, reason: Reason, n: nat)
    requires RefusedHead(s, clock(k))
    requires forall m: nat | m < n :: HasRoom(s.events, Reasons(s.events, s.queue[0], clock, k, reason, m).size)
    requires forall m: nat | k <= m < k + n :: !Judge(s.events, s.queue[0], clock(m)).Accepted?
    ensures Turns(s, clock, k, reason, n)
         == s.(queue := [Reasons(s.events, s.queue[0], clock, k, reason, n)] + s.queue[1..])
  {
    hide Judge, HasRoom;
    if n == 0 {
      assert [s.queue[0]] + s.queue[1..] == s.queue;
    } else {
      hide Turns;
      RefusedFits(s, clock(k));
      RefusalGoesRound(s, clock, k, reason, n - 1);
      var last := Reasons(s.events, s.queue[0], clock, k, reason, n - 1);
      OnlyTheTimeCounts(s.events, s.queue[0], last, clock(k + n - 1));
      OneMoreTurn(s, clock, k, reason, n - 1);
    }
  }

  /** While the head is stuck the reasons fit and no reading accepts it. */
  lemma {:induction false} StuckSoFar(s: Collecting, clock: nat -> int, k: nat, reason: Reason, n: nat)
    requires Stuck(s, clock, k, reason) && RefusedHead(s, clock(k))
    ensures forall m: nat | m < n :: HasRoom(s.events, Reasons(s.events, s.queue[0], clock, k, reason, m).size)
    ensures forall m: nat | k <= m < k + n :: !Judge(s.events, s.queue[0], clock(m)).Accepted?
  {
    if n > 0 {
      hide Judge, HasRoom, Turns, Stuck, RefusedHead, Reasons;
      StuckSoFar(s, clock, k, reason, n - 1);
      StuckThen(s, clock, k, reason, n - 1);
    }
  }

  lemma StuckThen(s: Collecting, clock: nat -> int, k: nat, reason: Reason, n: nat)
    requires Stuck(s, clock, k, reason) && RefusedHead(s, clock(k))
    requires forall m: nat | m < n :: HasRoom(s.events, Reasons(s.events, s.queue[0], clock, k, reason, m).size)
    requires forall m: nat | k <= m < k + n :: !Judge(s.events, s.queue[0], clock(m)).Accepted?
    ensures HasRoom(s.events, Reasons(s.events, s.queue[0], clock, k, reason, n).size)
    ensures !Judge(s.events, s.queue[0], clock(k + n)).Accepted?
  {
    hide Judge, HasRoom, Turns, Reasons;
    RefusedFits(s, clock(k));
    RefusalGoesRound(s, clock, k, reason, n);
    var last, now := Turns(s, clock, k, reason, n), clock(k + n);
    assert RefusedHead(last, now);
    RefusedFits(last, now);
    OnlyTheTimeCounts(s.events, s.queue[0], last.queue[0], now);
  }

  /** A refused head is stuck exactly when every reason fits and no later reading accepts it. */
  lemma StuckExactlyWhen(s: Collecting, clock: nat -> int, k: nat, reason: Reason)
    requires RefusedHead(s, clock(k))
    ensures Stuck(s, clock, k, reason)
            <==> AllFit(s, clock, k, reason) && !AcceptedFrom(s.events, s.queue[0], clock, k)
  {
    RefusedFits(s, clock(k));
    hide Judge, HasRoom, Turns;
    if AllFit(s, clock, k, reason) && !AcceptedFrom(s.events, s.queue[0], clock, k) {
      forall n: nat ensures RefusedHead(Turns(s, clock, k, reason, n), clock(k + n)) {
        RefusalGoesRound(s, clock, k, reason, n);
        OnlyTheTimeCounts(s.events, s.queue[0], Reasons(s.events, s.queue[0], clock, k, reason, n), clock(k + n));
      }
    } else if Stuck(s, clock, k, reason) {
      if m: nat :| k <= m && Judge(s.events, s.queue[0], clock(m)).Accepted? {
        StuckSoFar(s, clock, k, reason, m - k + 1);
        assert false;
      }
      var n: nat :| !HasRoom(s.events, Reasons(s.events, s.queue[0], clock, k, reason, n).size);
      StuckSoFar(s, clock, k, reason, n + 1);
      assert false;
    }
  }

  lemma NeverAccepted(events: seq<Chunk>, e: Chunk, clock: nat -> int, k: nat)
    requires NeverGoesBack(clock) && Judge(events, e, clock(k)) in {SpanTooLong, TooOld}
    ensures !AcceptedFrom(events, e, clock, k)
  {
    forall m: nat | k <= m ensures !Judge(events, e, clock(m)).Accepted? {
      assert clock(k) <= clock(m);
      RefusalPersists(events, e, clock(k), clock(m));
    }
  }

  /** Once a reason does not fit, the loop has ended or a reading has accepted the event before. */
  lemma NoRoomEnds(s: Collecting, clock: nat -> int, k: nat, reason: Reason)
    requires RefusedHead(s, clock(k)) && !AllFit(s, clock, k, reason)
    requires !AcceptedFrom(s.events, s.queue[0], clock, k)
    ensures Ends(s, clock, k, reason)
  {
    hide Turns, Ends;
    var n: nat :| !HasRoom(s.events, Reasons(s.events, s.queue[0], clock, k, reason, n).size);
    var m := 0;
    while HasRoom(s.events, Reasons(s.events, s.queue[0], clock, k, reason, m).size)
      invariant forall i: nat | i < m :: HasRoom(s.events, Reasons(s.events, s.queue[0], clock, k, reason, i).size)
      invariant 0 <= m <= n
      decreases n - m
    {
      m := m + 1;
    }
    RefusalGoesRound(s, clock, k, reason, m);
    var r := Turns(s, clock, k, reason, m);
    FullEnds(r, clock, k + m, reason);
    EndsLater(s, clock, k, reason, m);
  }

  /** What a refused head means at a clock that never goes back. One that is too old or makes the
      span too long is never accepted, so the loop ends exactly when some reason does not fit the rest
      of the batch. One that is too far ahead stays exactly when in addition no later reading
      accepts it. */
  lemma RefusedHeadEnds(s: Collecting, clock: nat -> int, k: nat, reason: Reason)
    requires NeverGoesBack(clock) && RefusedHead(s, clock(k))
    ensures !Judge(s.events, s.queue[0], clock(k)).TooFarAhead? ==>
              (Ends(s, clock, k, reason) <==> !AllFit(s, clock, k, reason))
    ensures Judge(s.events, s.queue[0], clock(k)).TooFarAhead? ==>
              (Stuck(s, clock, k, reason)
               <==> AllFit(s, clock, k, reason) && !AcceptedFrom(s.events, s.queue[0], clock, k))
    ensures Stuck(s, clock, k, reason) ==> !Ends(s, clock, k, reason)
  {
    StuckExactlyWhen(s, clock, k, reason);
    assert Turns(s, clock, k, reason, 0) == s;
    if Stuck(s, clock, k, reason) {
      StuckNeverEnds(s, clock, k, reason, 0);
    }
    if !Judge(s.events, s.queue[0], clock(k)).TooFarAhead? {
      NeverAccepted(s.events, s.queue[0], clock, k);
      if !AllFit(s, clock, k, reason) {
        NoRoomEnds(s, clock, k, reason);
      }
    }
  }

  lemma {:induction false} TurnsShrink(s: Collecting, clock: nat -> int, k: nat, reason: Reason, n: nat)
    ensures |Turns(s, clock, k, reason, n).queue| <= |s.queue|
    decreases n
  {
    hide Judge, Refused;
    if n > 0 && !s.done {
      TurnsShrink(Turn(s, clock(k), reason), clock, k + 1, reason, n - 1);
    }
  }

  /** A head that is not refused at turn `k` leaves the queue, or the loop ends. */
  lemma AcceptedLeaves(s: Collecting, now: int, reason: Reason)
    requires !s.done && !RefusedHead(s, now)
    ensures Turn(s, now, reason).done || |Turn(s, now, reason).queue| < |s.queue|
  {
  }

  lemma {:induction false} UnstuckEnds(s: Collecting, clock: nat -> int, k: nat, reason: Reason)
    requires NeverStuck(s, clock, k, reason)
    ensures Ends(s, clock, k, reason)
    decreases |s.queue|
  {
    hide Turn, RefusedHead;
    assert Turns(s, clock, k, reason, 0) == s;
    if !s.done {
      assert !Stuck(s, clock, k + 0, reason);
      var n: nat :| !RefusedHead(Turns(s, clock, k, reason, n), clock(k + n));
      var r := Turns(s, clock, k, reason, n);
      if !r.done {
        OneMoreTurn(s, clock, k, reason, n);
        AcceptedLeaves(r, clock(k + n), reason);
        TurnsShrink(s, clock, k, reason, n);
        var next := Turns(s, clock, k, reason, n + 1);
        if !next.done {
          StillUnstuck(s, clock, k, reason, n + 1);
          UnstuckEnds(next, clock, k + n + 1, reason);
          EndsLater(s, clock, k, reason, n + 1);
        }
      }
    }
  }

  lemma StillUnstuck(s: Collecting, clock: nat -> int, k: nat, reason: Reason, n: nat)
    requires NeverStuck(s, clock, k, reason)
    ensures NeverStuck(Turns(s, clock, k, reason, n), clock, k + n, reason)
  {
    hide Turns, Stuck;
    var next, from := Turns(s, clock, k, reason, n), k + n;
    forall m: nat ensures !Stuck(Turns(next, clock, from, reason, m), clock, from + m, reason) {
      TurnsAddUp(s, clock, k, reason, n, m);
      assert !Stuck(Turns(s, clock, k, reason, n + m), clock, k + (n + m), reason);
    }
  }

  /** Collecting ends exactly when no turn leaves it with a head that is refused for ever. */
  lemma CollectingEndsIffNeverStuck(s: Collecting, clock: nat -> int, k: nat, reason: Reason)
    ensures Ends(s, clock, k, reason) <==> NeverStuck(s, clock, k, reason)
  {
    if n: nat :| Stuck(Turns(s, clock, k, reason, n), clock, k + n, reason) {
      StuckNeverEnds(s, clock, k, reason, n);
      assert !NeverStuck(s, clock, k, reason);
    } else {
      UnstuckEnds(s, clock, k, reason);
    }
  }

  /** The head is refused only as long as the clock has not come near its time. */
  ghost predicate OnlyAhead(s: Collecting, clock: nat -> int, k: nat) {
    RefusedHead(s, clock(k)) ==>
      Judge(s.events, s.queue[0], clock(k)).TooFarAhead? && AcceptedFrom(s.events, s.queue[0], clock, k)
  }

  /** At a clock that never goes back, when no reason is longer than `most` bytes and the batch has
      room for one at every refusal, collecting ends exactly when each refused event is too far
      ahead and some later reading accepts it. */
  lemma CollectingEndsIffRefusalsPass(s: Collecting, clock: nat -> int, k: nat, reason: Reason, most: nat)
    requires NeverGoesBack(clock) && forall e, v :: reason(e, v).size <= most
    requires forall n: nat :: RefusedHead(Turns(s, clock, k, reason, n), clock(k + n)) ==>
                                HasRoom(Turns(s, clock, k, reason, n).events, most)
    ensures Ends(s, clock, k, reason) <==> forall n: nat :: OnlyAhead(Turns(s, clock, k, reason, n), clock, k + n)
  {
    CollectingEndsIffNeverStuck(s, clock, k, reason);
    forall n: nat
      ensures Stuck(Turns(s, clock, k, reason, n), clock, k + n, reason)
              <==> !OnlyAhead(Turns(s, clock, k, reason, n), clock, k + n)
    {
      var r := Turns(s, clock, k, reason, n);
      ShortReasonsStick(r, clock, k + n, reason, most);
    }
    hide Stuck, OnlyAhead, Turns;
    if NeverStuck(s, clock, k, reason) {
      assert forall n: nat :: OnlyAhead(Turns(s, clock, k, reason, n), clock, k + n);
    } else {
      var n: nat :| Stuck(Turns(s, clock, k, reason, n), clock, k + n, reason);
      assert !OnlyAhead(Turns(s, clock, k, reason, n), clock, k + n);
    }
  }

  lemma ShortReasonsStick(s: Collecting, clock: nat -> int, k: nat, reason: Reason, most: nat)
    requires NeverGoesBack(clock) && forall e, v :: reason(e, v).size <= most
    requires RefusedHead(s, clock(k)) ==> HasRoom(s.events, most)
    ensures Stuck(s, clock, k, reason) <==> !OnlyAhead(s, clock, k)
  {
    assert Turns(s, clock, k, reason, 0) == s;
    if RefusedHead(s, clock(k)) {
      RefusedFits(s, clock(k));
      forall n: nat ensures HasRoom(s.events, Reasons(s.events, s.queue[0], clock, k, reason, n).size) {}
      StuckExactlyWhen(s, clock, k, reason);
      if !Judge(s.events, s.queue[0], clock(k)).TooFarAhead? {
        NeverAccepted(s.events, s.queue[0], clock, k);
      }
    } else {
      assert !RefusedHead(Turns(s, clock, k, reason, 0), clock(k + 0));
    }
  }

  // ----- collecting a batch while messages keep arriving

  /** The messages that arrived before the first `n` turns. */
  function Gather(arrivals: nat -> seq<Entry>, n: nat): seq<Entry> {
    if n == 0 then [] else Gather(arrivals, n - 1) + arrivals(n - 1)
  }

  /** Every message that is queued or arrives is well formed, and its time is accepted by the clock
      at every turn and lies in one span with all the others. */
  ghost predicate AllAdmissible(queue: seq<Chunk>, arrivals: nat -> seq<Entry>, clock: nat -> int, times: set<int>) {
    && OneSpan(times)
    && (forall c | c in queue :: c.timestamp in times)
    && (forall k: nat, e | e in arrivals(k) :: WellFormed(e) && e.timestamp in times)
    && (forall k: nat, t | t in times :: Admissible(t, clock(k)))
  }

  predicate RoomFor(events: seq<Chunk>, e: Chunk) {
    |events| + 1 <= MAX_EVENTS_PER_BATCH && HasRoom(events, e.size)
  }

  predicate TimesIn(chunks: seq<Chunk>, times: set<int>) {
    forall c | c in chunks :: c.timestamp in times
  }

  /** With admissible times a turn takes the head into the batch when there is room, and ends the
      collection otherwise. */
  lemma AdmissibleTurn(s: Collecting, now: int, reason: Reason, times: set<int>)
    requires !s.done && OneSpan(times) && TimesIn(s.queue, times) && TimesIn(s.events, times)
    requires forall t | t in times :: Admissible(t, now)
    ensures Turn(s, now, reason) ==
            if s.queue != [] && RoomFor(s.events, s.queue[0])
            then Collecting(s.queue[1..], s.events + [s.queue[0]], false) else s.(done := true)
  {
    if s.queue != [] {
      AdmissibleIsAccepted(s.events, s.queue[0], now, times);
    }
  }

  lemma ArrivedTimes(entries: seq<Entry>, times: set<int>)
    requires forall e | e in entries :: e.timestamp in times
    ensures TimesIn(AllChunks(entries), times)
  {
    forall c | c in AllChunks(entries) ensures c.timestamp in times {
      var e := ChunkHasEntry(entries, c);
    }
  }

  lemma {:induction false} InsertKeepsBytes(e: Chunk, sorted: seq<Chunk>)
    ensures Bytes(Insert(e, sorted)) == Bytes([e] + sorted)
  {
    if sorted == [] || e.timestamp <= sorted[0].timestamp {
    } else {
      var rest := sorted[1..];
      InsertKeepsBytes(e, rest);
      assert sorted == [sorted[0]] + rest;
      WeightsAppend([e], sorted);
      WeightsAppend([sorted[0]], rest);
      WeightsAppend([e], rest);
      WeightsAppend([sorted[0]], Insert(e, rest));
    }
  }

  lemma {:induction false} SortKeepsBytes(events: seq<Chunk>)
    ensures Bytes(StableSort(events)) == Bytes(events)
  {
    if events != [] {
      SortKeepsBytes(events[1..]);
      InsertKeepsBytes(events[0], StableSort(events[1..]));
      WeightsAppend([events[0]], StableSort(events[1..]));
      WeightsAppend([events[0]], events[1..]);
      assert events == [events[0]] + events[1..];
    }
  }

  lemma SortKeepsLimits(events: seq<Chunk>)
    requires WithinLimits(events)
    ensures WithinLimits(StableSort(events)) && InTimeOrder(StableSort(events))
  {
    var sorted := StableSort(events);
    StableSortSorts(events);
    SortKeepsBytes(events);
    assert |sorted| == |multiset(sorted)| == |events|;
    forall i, j | 0 <= i < |sorted| && 0 <= j < |sorted|
      ensures (sorted[i].timestamp - sorted[j].timestamp) * MICROS_PER_MS <= MAX_SPAN_MICROS
    {
      assert sorted[i] in multiset(sorted) && sorted[j] in multiset(sorted);
      assert sorted[i] in events && sorted[j] in events;
    }
  }

  /** One turn: messages arrive, then the head of the queue is looked at. */
  method CollectAdmissible(p: Partitioner, batch: Batch, entries: seq<Entry>, now: int, reason: Reason,
          ghost times: set<int>)
    returns (done: bool)
    requires p.Valid() && batch.Valid() && TimesIn(p.Queue(), times) && TimesIn(batch.events, times)
    requires OneSpan(times) && forall t | t in times :: Admissible(t, now)
    requires forall e | e in entries :: WellFormed(e) && e.timestamp in times
    modifies p, batch
    ensures p.Valid() && batch.Valid() && TimesIn(p.Queue(), times) && TimesIn(batch.events, times)
    ensures batch.events + p.Queue() == old(batch.events + p.Queue()) + AllChunks(entries)
    ensures |batch.events| == |old(batch.events)| + if done then 0 else 1
    ensures done ==> p.Queue() == [] || !RoomFor(batch.events, p.Queue()[0])
    ensures TakesNext(old(batch.events), old(p.Queue()) + AllChunks(entries), batch.events, p.Queue(), done)
  {
    hide Judge, WithinLimits, WellFormed, OneSpan, AllChunks, Turn, RoomFor, Admissible, TimesIn;
    ArrivedTimes(entries, times);
    TimesInBoth(p.Queue(), AllChunks(entries), times);
    p.Arrive(entries);
    ghost var before := Collecting(p.Queue(), batch.events, false);
    done := CollectOne(p, batch, now, reason);
    TurnKeepsEvents(before, now, reason, times);
    TurnTakesNext(before, now, reason, times);
  }

  /** The first event of the queue goes into the batch when there is room, and the collection is done
      otherwise. */
  predicate TakesNext(events: seq<Chunk>, queue: seq<Chunk>, events': seq<Chunk>, queue': seq<Chunk>, done: bool) {
    if queue != [] && RoomFor(events, queue[0]) then !done && events' == events + [queue[0]] && queue' == queue[1..]
    else done && events' == events && queue' == queue
  }

  lemma TurnTakesNext(s: Collecting, now: int, reason: Reason, times: set<int>)
    requires !s.done && OneSpan(times) && TimesIn(s.queue, times) && TimesIn(s.events, times)
    requires forall t | t in times :: Admissible(t, now)
    ensures var r := Turn(s, now, reason); TakesNext(s.events, s.queue, r.events, r.queue, r.done)
  {
    hide Turn, RoomFor, Admissible, OneSpan;
    AdmissibleTurn(s, now, reason, times);
  }

  /** What a collection takes and leaves, and how many turns it makes. */
  datatype Collection = Collection(taken: seq<Chunk>, left: seq<Chunk>, turns: nat)

  /** The collection that has `events` and goes on at turn `k`, when no event is refused for its time. */
  function CollectFrom(events: seq<Chunk>, queue: seq<Chunk>, arrivals: nat -> seq<Entry>, k: nat): Collection
    decreases MAX_EVENTS_PER_BATCH - |events|
  {
    var all := queue + AllChunks(arrivals(k));
    if all != [] && RoomFor(events, all[0]) then CollectFrom(events + [all[0]], all[1..], arrivals, k + 1)
    else Collection(events, all, k + 1)
  }

  /** A collection of `before` and what arrives loses and makes up nothing, asks once for each event
      that it takes and once more, and stops only when nothing is left or the next event does not fit. */
  lemma {:induction false} CollectedIsWhole(events: seq<Chunk>, queue: seq<Chunk>, arrivals: nat -> seq<Entry>, k: nat,
          before: seq<Chunk>)
    requires events + queue == before + AllChunks(Gather(arrivals, k))
    ensures var c := CollectFrom(events, queue, arrivals, k);
            && c.taken + c.left == before + AllChunks(Gather(arrivals, c.turns))
            && k < c.turns && |c.taken| - |events| == c.turns - k - 1
            && (c.left == [] || !RoomFor(c.taken, c.left[0]))
    decreases MAX_EVENTS_PER_BATCH - |events|
  {
    hide AllChunks, Gather;
    var all := queue + AllChunks(arrivals(k));
    GatherOneMore(arrivals, k);
    assert events + all == events + queue + AllChunks(arrivals(k));
    assert events + all == before + AllChunks(Gather(arrivals, k + 1)) by {
      assert before + AllChunks(Gather(arrivals, k)) + AllChunks(arrivals(k))
          == before + (AllChunks(Gather(arrivals, k)) + AllChunks(arrivals(k)));
    }
    if all != [] && RoomFor(events, all[0]) {
      assert events + [all[0]] + all[1..] == events + all;
      CollectedIsWhole(events + [all[0]], all[1..], arrivals, k + 1, before);
    }
  }

  lemma CollectStep(events: seq<Chunk>, queue: seq<Chunk>, arrivals: nat -> seq<Entry>, k: nat, events': seq<Chunk>,
          queue': seq<Chunk>, done: bool)
    requires TakesNext(events, queue + AllChunks(arrivals(k)), events', queue', done)
    ensures CollectFrom(events, queue, arrivals, k)
         == if done then Collection(events', queue', k + 1) else CollectFrom(events', queue', arrivals, k + 1)
  {
  }

  lemma TimesInBoth(a: seq<Chunk>, b: seq<Chunk>, times: set<int>)
    requires TimesIn(a, times) && TimesIn(b, times)
    ensures TimesIn(a + b, times)
  {
  }

  lemma TurnKeepsEvents(s: Collecting, now: int, reason: Reason, times: set<int>)
    requires !s.done && OneSpan(times) && TimesIn(s.queue, times) && TimesIn(s.events, times)
    requires forall t | t in times :: Admissible(t, now)
    ensures var r := Turn(s, now, reason);
            && TimesIn(r.queue, times) && TimesIn(r.events, times)
            && r.events + r.queue == s.events + s.queue
            && |r.events| == |s.events| + (if r.done then 0 else 1)
            && (r.done ==> r.queue == [] || !RoomFor(r.events, r.queue[0]))
  {
    hide Turn, RoomFor, Admissible, OneSpan;
    AdmissibleTurn(s, now, reason, times);
    if s.queue != [] {
      assert s.queue == [s.queue[0]] + s.queue[1..];
    }
  }

  /** Collects until nothing is left or the next event does not fit; no event is lost or made up,
      whatever arrives meanwhile, and the request is within the service's limits and in time order.
      `turns` counts how often the partitioner was asked. */
  method CollectLogs(p: Partitioner, arrivals: nat -> seq<Entry>, clock: nat -> int, reason: Reason, ghost times: set<int>)
    returns (events: seq<Chunk>, ghost taken: seq<Chunk>, turns: nat)
    requires p.Valid() && AllAdmissible(p.Queue(), arrivals, clock, times)
    modifies p
    ensures p.Valid() && TimesIn(p.Queue(), times)
    ensures taken + p.Queue() == old(p.Queue()) + AllChunks(Gather(arrivals, turns))
    ensures Collection(taken, p.Queue(), turns) == CollectFrom([], old(p.Queue()), arrivals, 0)
    ensures p.Queue() == [] || !RoomFor(taken, p.Queue()[0])
    ensures events == StableSort(taken)
    ensures WithinLimits(taken) && WithinLimits(events) && InTimeOrder(events)
    ensures 1 <= turns <= MAX_EVENTS_PER_BATCH + 1
  {
    hide Judge, WithinLimits, StableSort, InTimeOrder, WellFormed, OneSpan, Bytes, AllChunks, RoomFor, TimesIn, Admissible, Gather,
      TakesNext, CollectFrom;
    var batch := new Batch();
    var done := false;
    turns := 0;
    ghost var first := p.Queue();
    NothingGathered(arrivals, first, times);
    CollectedIsWhole([], first, arrivals, 0, first);
    while !done
      invariant p.Valid() && batch.Valid() && fresh(batch)
      invariant TimesIn(batch.events, times) && TimesIn(p.Queue(), times)
      invariant CollectFrom([], first, arrivals, 0)
             == if done then Collection(batch.events, p.Queue(), turns)
                else CollectFrom(batch.events, p.Queue(), arrivals, turns)
      decreases !done, MAX_EVENTS_PER_BATCH - |batch.events|
    {
      ghost var before, queue := batch.events, p.Queue();
      done := CollectAdmissible(p, batch, arrivals(turns), clock(turns), reason, times);
      CollectStep(before, queue, arrivals, turns, batch.events, p.Queue(), done);
      BatchIsShort(batch.events);
      turns := turns + 1;
    }
    BatchIsShort(batch.events);
    taken := batch.events;
    SortKeepsLimits(taken);
    events := StableSort(batch.events);
  }

  lemma NothingGathered(arrivals: nat -> seq<Entry>, queue: seq<Chunk>, times: set<int>)
    requires forall c | c in queue :: c.timestamp in times
    ensures [] + queue == queue + AllChunks(Gather(arrivals, 0))
    ensures TimesIn([], times) && TimesIn(queue, times)
  {
  }

  lemma BatchIsShort(events: seq<Chunk>)
    requires WithinLimits(events)
    ensures |events| <= MAX_EVENTS_PER_BATCH
  {
  }

  lemma GatherOneMore(arrivals: nat -> seq<Entry>, n: nat)
    ensures AllChunks(Gather(arrivals, n + 1)) == AllChunks(Gather(arrivals, n)) + AllChunks(arrivals(n))
  {
    AllChunksAppend(Gather(arrivals, n), arrivals(n));
  }

  // ----- how many batches a queue takes

  /** What a collection without arrivals takes is the longest front of the queue that fits. */
  lemma TakenIsLongestFront(taken: seq<Chunk>, rest: seq<Chunk>)
    requires WithinLimits(taken) && (rest == [] || !RoomFor(taken, rest[0]))
    ensures |taken| == Take(Weights(taken + rest), MAX_EVENTS_PER_BATCH, MAX_BATCH_SIZE_BYTES)
  {
    var w := Weights(taken + rest);
    assert w[..|taken|] == Weights(taken);
    TakeIsLongest(w, MAX_EVENTS_PER_BATCH, MAX_BATCH_SIZE_BYTES, |taken|);
    if rest != [] {
      assert w[..|taken| + 1] == Weights(taken + [rest[0]]);
      WeightsAppend(taken, [rest[0]]);
      BytesOfOne(rest[0]);
      TakeIsLongest(w, MAX_EVENTS_PER_BATCH, MAX_BATCH_SIZE_BYTES, |taken| + 1);
    }
  }

  /** Each event fits a batch of its own. */
  predicate EachFits(queue: seq<Chunk>) {
    forall i | 0 <= i < |queue| :: HasRoom([], queue[i].size)
  }

  function BatchesNeeded(queue: seq<Chunk>): nat
    requires EachFits(queue)
  {
    EachFitsIsSplittable(queue);
    GreedyParts(Weights(queue), MAX_EVENTS_PER_BATCH, MAX_BATCH_SIZE_BYTES)
  }

  lemma EachFitsIsSplittable(queue: seq<Chunk>)
    requires EachFits(queue)
    ensures Splittable(Weights(queue), MAX_EVENTS_PER_BATCH, MAX_BATCH_SIZE_BYTES)
  {
    forall i | 0 <= i < |queue| ensures Weights(queue)[i] <= MAX_BATCH_SIZE_BYTES {
      assert HasRoom([], queue[i].size);
    }
  }

  /** No split of the queue into consecutive requests within the limits on count and size has
      fewer of them. */
  lemma BatchesNeededIsFewest(queue: seq<Chunk>, requests: seq<seq<Chunk>>)
    requires EachFits(queue) && Flatten(requests) == queue
    requires forall r | r in requests :: |r| <= MAX_EVENTS_PER_BATCH && Bytes(r) <= MAX_BATCH_SIZE_BYTES
    ensures BatchesNeeded(queue) <= |requests|
  {
    EachFitsIsSplittable(queue);
    var parts := AllWeights(requests);
    AllWeightsFlatten(requests);
    forall p | p in parts ensures Fits(p, MAX_EVENTS_PER_BATCH, MAX_BATCH_SIZE_BYTES) {
      var i :| 0 <= i < |parts| && parts[i] == p;
      assert requests[i] in requests;
    }
    GreedyIsFewest(Weights(queue), MAX_EVENTS_PER_BATCH, MAX_BATCH_SIZE_BYTES, parts);
  }

  function AllWeights(requests: seq<seq<Chunk>>): (w: seq<seq<nat>>)
    ensures |w| == |requests| && forall i | 0 <= i < |w| :: w[i] == Weights(requests[i])
  {
    seq(|requests|, i requires 0 <= i < |requests| => Weights(requests[i]))
  }

  lemma {:induction false} AllWeightsFlatten(requests: seq<seq<Chunk>>)
    ensures Flatten(AllWeights(requests)) == Weights(Flatten(requests))
  {
    if requests != [] {
      AllWeightsFlatten(requests[1..]);
      assert AllWeights(requests)[1..] == AllWeights(requests[1..]);
      WeightsAppend(requests[0], Flatten(requests[1..]));
    }
  }

  /** One collection without arrivals leaves a queue that needs one batch less. */
  lemma OneBatchLess(taken: seq<Chunk>, rest: seq<Chunk>)
    requires EachFits(taken + rest) && WithinLimits(taken) && (rest == [] || !RoomFor(taken, rest[0]))
    requires taken + rest != []
    ensures EachFits(rest) && taken != []
    ensures BatchesNeeded(taken + rest) == 1 + BatchesNeeded(rest)
  {
    var queue := taken + rest;
    forall i | 0 <= i < |rest| ensures HasRoom([], rest[i].size) {
      assert rest[i] == queue[|taken| + i];
    }
    assert HasRoom([], queue[0].size);
    TakenIsLongestFront(taken, rest);
    assert Weights(queue)[|taken|..] == Weights(rest);
    EachFitsIsSplittable(queue);
  }
}
