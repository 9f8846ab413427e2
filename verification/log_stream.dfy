/** The thread that streams log events to CloudWatch: collect a batch, upload it, until it is told to
    stop and nothing is left; and what becomes of every emitted message. */
module LogStream {
  import opened Actions
  import opened GreedySplit
  import opened Utf8
  import opened LogChunks
  import opened LogBatch
  import opened LogCollector
  import opened LogRate

  // ----- what the handler emits

  const SPACE: CodePoint := 0x20

  /** Truncates towards zero. */
  function Truncate(x: real): int {
    if x >= 0.0 then x.Floor else -((-x).Floor)
  }

  /** The queued form of the `n`-th log record, created at `created` seconds. */
  function Emitted(n: nat, created: real, message: Text): Entry {
    Entry(n, Truncate(created * 1000.0), if message == [] then [SPACE] else message)
  }

  /** Whatever is emitted can be streamed if it can be encoded at all, a blank line included; its
      timestamp is the last whole millisecond not after its creation. */
  lemma EmittedIsWellFormed(n: nat, created: real, message: Text)
    ensures WellFormed(Emitted(n, created, message)) <==> Encodable(message)
    ensures Emitted(n, created, message).text == (if message == [] then [0x20] else message)
    ensures Emitted(n, created, message).origin == n
    ensures created >= 0.0 ==>
              Emitted(n, created, message).timestamp as real <= created * 1000.0
                < Emitted(n, created, message).timestamp as real + 1.0
    ensures created <= 0.0 ==>
              Emitted(n, created, message).timestamp as real - 1.0 < created * 1000.0
                <= Emitted(n, created, message).timestamp as real
  {
    if message == [] {
      assert !Surrogate(SPACE);
    }
  }

  // ----- the thread

  /** A batch as it was collected, and whether its request was accepted; a request that was not is
      dropped. */
  datatype Request = Request(taken: seq<Chunk>, accepted: bool)
  {
    /** What is sent. */
    function Events(): seq<Chunk> {
      StableSort(taken)
    }
  }

  /** What the environment does during one round of the run loop: whether the stop event is set when
      the loop looks at it, what arrives and what the clocks read while a batch is collected, and how the
      attempts of an upload go. */
  datatype Round = Round(
    stop: bool,
    arrivals: nat -> seq<Entry>,
    clock: nat -> int,
    wait: real,
    overrun: real,
    attempts: seq<Attempt>)

  function TakenBy(requests: seq<Request>): seq<Chunk> {
    if requests == [] then [] else requests[0].taken + TakenBy(requests[1..])
  }

  function SentBy(requests: seq<Request>): seq<Chunk> {
    if requests == [] then [] else requests[0].Events() + SentBy(requests[1..])
  }

  lemma {:induction false} TakenAppend(a: seq<Request>, b: seq<Request>)
    ensures TakenBy(a + b) == TakenBy(a) + TakenBy(b)
  {
    if a == [] {
      assert a + b == b;
    } else {
      assert (a + b)[1..] == a[1..] + b;
      TakenAppend(a[1..], b);
    }
  }

  /** The times of the round, which are its own, are admissible, and its upload is settled in the end. */
  ghost predicate RoundOk(round: Round, times: set<int>) {
    && AllAdmissible([], round.arrivals, round.clock, times)
    && round.wait >= 0.0 && round.overrun >= 0.0
    && Settled(round.attempts, STOPPED_RETRIES).Some?
    && forall a | a in round.attempts :: a.lag >= 0.0
  }

  /** What is queued after a round. */
  function LeftAfter(queue: seq<Chunk>, round: Round): seq<Chunk> {
    CollectFrom([], queue, round.arrivals, 0).left
  }

  /** Every round that is made finds times that are admissible for it: those of what is queued then
      and of what arrives in it. */
  ghost predicate Admits(queue: seq<Chunk>, rounds: seq<Round>)
    decreases rounds
  {
    || rounds == [] || (rounds[0].stop && queue == [])
    || ((exists times :: RoundOk(rounds[0], times) && TimesIn(queue, times))
        && Admits(LeftAfter(queue, rounds[0]), rounds[1..]))
  }

  lemma AdmitsRound(queue: seq<Chunk>, rounds: seq<Round>, i: nat) returns (times: set<int>)
    requires i < |rounds| && Admits(queue, rounds[i..]) && !(rounds[i].stop && queue == [])
    ensures RoundOk(rounds[i], times) && TimesIn(queue, times)
    ensures Admits(LeftAfter(queue, rounds[i]), rounds[i + 1..])
  {
    hide RoundOk, TimesIn, LeftAfter;
    assert rounds[i..][0] == rounds[i] && rounds[i..][1..] == rounds[i + 1..];
    times :| RoundOk(rounds[i], times) && TimesIn(queue, times);
  }

  // ----- each message is emitted once

  predicate DistinctOrigins(entries: seq<Entry>) {
    forall i, j | 0 <= i < j < |entries| :: entries[i].origin != entries[j].origin
  }

  predicate NoSharedOrigin(a: seq<Entry>, b: seq<Entry>) {
    forall i, j | 0 <= i < |a| && 0 <= j < |b| :: a[i].origin != b[j].origin
  }

  /** No message arrives twice. */
  ghost predicate OncePerRound(arrivals: nat -> seq<Entry>) {
    && (forall k: nat :: DistinctOrigins(arrivals(k)))
    && forall k: nat, l: nat | k < l :: NoSharedOrigin(arrivals(k), arrivals(l))
  }

  ghost predicate NoneArrives(entries: seq<Entry>, arrivals: nat -> seq<Entry>) {
    forall k: nat :: NoSharedOrigin(entries, arrivals(k))
  }

  /** What arrives in the round was not emitted before, and each message of it arrives once. */
  ghost predicate AllNew(emitted: seq<Entry>, round: Round) {
    OncePerRound(round.arrivals) && NoneArrives(emitted, round.arrivals)
  }

  /** No message arrives in both rounds. */
  ghost predicate Apart(one: Round, two: Round) {
    forall k: nat :: NoneArrives(one.arrivals(k), two.arrivals)
  }

  lemma {:induction false} GatherApart(arrivals: nat -> seq<Entry>, n: nat, other: seq<Entry>)
    requires forall k: nat | k < n :: NoSharedOrigin(arrivals(k), other)
    ensures NoSharedOrigin(Gather(arrivals, n), other)
  {
    if n > 0 {
      GatherApart(arrivals, n - 1, other);
      assert NoSharedOrigin(arrivals(n - 1), other);
    }
  }

  lemma {:induction false} GatherDistinct(arrivals: nat -> seq<Entry>, n: nat)
    requires OncePerRound(arrivals)
    ensures DistinctOrigins(Gather(arrivals, n))
  {
    if n > 0 {
      GatherDistinct(arrivals, n - 1);
      GatherApart(arrivals, n - 1, arrivals(n - 1));
      assert DistinctOrigins(arrivals(n - 1));
    }
  }

  /** What arrived in the first turns of a round extends what was emitted, and no message of a round
      apart from it was emitted by then. */
  lemma ArrivedOnce(emitted: seq<Entry>, round: Round, n: nat)
    requires DistinctOrigins(emitted) && AllNew(emitted, round)
    ensures DistinctOrigins(emitted + Gather(round.arrivals, n))
  {
    GatherDistinct(round.arrivals, n);
    forall k: nat | k < n ensures NoSharedOrigin(round.arrivals(k), emitted) {
      assert NoSharedOrigin(emitted, round.arrivals(k));
    }
    GatherApart(round.arrivals, n, emitted);
  }

  lemma StillNew(emitted: seq<Entry>, round: Round, n: nat, later: Round)
    requires AllNew(emitted, later) && Apart(round, later)
    ensures AllNew(emitted + Gather(round.arrivals, n), later)
  {
    forall l: nat ensures NoSharedOrigin(emitted + Gather(round.arrivals, n), later.arrivals(l)) {
      forall k: nat | k < n ensures NoSharedOrigin(round.arrivals(k), later.arrivals(l)) {
        assert NoneArrives(round.arrivals(k), later.arrivals);
      }
      GatherApart(round.arrivals, n, later.arrivals(l));
      assert NoSharedOrigin(emitted, later.arrivals(l));
    }
  }

  lemma AllStillNew(emitted: seq<Entry>, round: Round, n: nat, rounds: seq<Round>)
    requires forall r | r in rounds :: AllNew(emitted, r) && Apart(round, r)
    ensures forall r | r in rounds :: AllNew(emitted + Gather(round.arrivals, n), r)
  {
    forall r | r in rounds ensures AllNew(emitted + Gather(round.arrivals, n), r) {
      StillNew(emitted, round, n, r);
    }
  }

  /** Nothing arrives. */
  ghost predicate Quiet(round: Round) {
    forall k: nat :: round.arrivals(k) == []
  }

  lemma RoundAdmissible(round: Round, queue: seq<Chunk>, times: set<int>)
    requires RoundOk(round, times) && TimesIn(queue, times)
    ensures AllAdmissible(queue, round.arrivals, round.clock, times)
  {
  }

  lemma {:induction false} QuietGathersNothing(arrivals: nat -> seq<Entry>, n: nat)
    requires forall k: nat :: arrivals(k) == []
    ensures Gather(arrivals, n) == []
  {
    if n > 0 {
      QuietGathersNothing(arrivals, n - 1);
      assert arrivals(n - 1) == [];
    }
  }

  /** Fewer than five failures that find the stop event set do not drop a batch. */
  ghost predicate GaveUp(round: Round) {
    exists n :: 0 < n <= |round.attempts| && StopFailures(round.attempts[..n]) == 5
                && forall i | 0 <= i < n :: round.attempts[i].fails
  }

  /** The batch count goes down by one for every request. */
  ghost predicate OnePerRequest(queue: seq<Chunk>, made: nat, rest: seq<Chunk>) {
    EachFits(queue) ==> EachFits(rest) && BatchesNeeded(queue) == made + BatchesNeeded(rest)
  }

  lemma CountCollected(queue: seq<Chunk>, taken: seq<Chunk>, rest: seq<Chunk>)
    requires queue == taken + rest && WithinLimits(taken) && (rest == [] || !RoomFor(taken, rest[0]))
    ensures OnePerRequest(queue, if taken == [] then 0 else 1, rest)
  {
    if EachFits(queue) && queue != [] {
      OneBatchLess(taken, rest);
    }
  }

  lemma CountsAddUp(queue: seq<Chunk>, made: nat, middle: seq<Chunk>, more: nat, rest: seq<Chunk>)
    requires OnePerRequest(queue, made, middle) && OnePerRequest(middle, more, rest)
    ensures OnePerRequest(queue, made + more, rest)
  {
  }

  lemma NoChunks()
    ensures AllChunks([]) == []
  {
  }

  lemma SortOfNothing(events: seq<Chunk>)
    ensures StableSort(events) == [] <==> events == []
  {
    StableSortSorts(events);
    assert |multiset(StableSort(events))| == |StableSort(events)|;
  }

  lemma TakenWithNext(requests: seq<Request>, taken: seq<Chunk>, accepted: bool)
    ensures TakenBy(requests + [Request(taken, accepted)]) == TakenBy(requests) + taken
  {
    TakenAppend(requests, [Request(taken, accepted)]);
    var next := [Request(taken, accepted)];
    assert TakenBy(next) == next[0].taken + TakenBy(next[1..]) && next[1..] == [];
  }

  lemma NothingEmitted()
    ensures TakenBy([]) + [] == AllChunks([]) && DistinctOrigins([])
  {
  }

  class LogStreamThread {
    const partitioner: Partitioner
    const pacer: Pacer
    /** The messages that were emitted so far, and the requests made. */
    ghost var emitted: seq<Entry>
    ghost var requests: seq<Request>

    /** Everything emitted is in a request or still queued, in order; no message was emitted twice;
        every request is within the service's limits; and the calls keep their pace. */
    ghost predicate Valid()
      reads this, partitioner, pacer
    {
      && partitioner.Valid() && pacer.Valid()
      && TakenBy(requests) + partitioner.Queue() == AllChunks(emitted)
      && DistinctOrigins(emitted)
      && (forall r | r in requests :: r.taken != [] && WithinLimits(r.Events()) && InTimeOrder(r.Events()))
    }

    constructor (now: real)
      ensures Valid() && fresh(partitioner) && fresh(pacer) && emitted == [] && requests == []
    {
      hide RateKept, WithinLimits, InTimeOrder, AllChunks, TakenBy, DistinctOrigins, StableSort, WellFormed;
      NothingEmitted();
      partitioner := new Partitioner();
      pacer := new Pacer(now);
      emitted, requests := [], [];
    }

    method IsRunning(stop: bool) returns (running: bool)
      requires Valid()
      ensures running <==> !stop || partitioner.Queue() != []
      ensures !running ==> partitioner.pending == [] && partitioner.raw == []
    {
      running := true;
      if stop {
        running := partitioner.HasItems();
      }
    }

    /** Sends one batch. It is dropped only when five attempts failed and found the stop event set. */
    method UploadLogs(events: seq<Chunk>, wait: real, overrun: real, attempts: seq<Attempt>)
      returns (success: bool, ghost made: nat)
      requires pacer.Valid() && wait >= 0.0 && overrun >= 0.0
      requires Settled(attempts, STOPPED_RETRIES).Some? && forall a | a in attempts :: a.lag >= 0.0
      modifies pacer
      ensures pacer.Valid()
      ensures made <= |attempts| && |pacer.calls| == |old(pacer.calls)| + made
      ensures success ==> made > 0 && !attempts[made - 1].fails && StopFailures(attempts[..made]) < 5
      ensures !success ==>
                && 0 < made && StopFailures(attempts[..made]) == 5 && attempts[made - 1].stopping
                && forall i | 0 <= i < made :: attempts[i].fails
    {
      pacer.Throttle(pacer.clock + wait, overrun);
      success, made := pacer.Upload(attempts);
      SettledMeans(attempts, STOPPED_RETRIES);
    }

    /** One round of the run loop: a batch is collected and sent, or the thread sleeps. */
    method RunRound(round: Round, reason: Reason, ghost times: set<int>) returns (ghost turns: nat)
      requires Valid() && RoundOk(round, times) && TimesIn(partitioner.Queue(), times) && AllNew(emitted, round)
      modifies this, partitioner, pacer
      ensures Valid() && TimesIn(partitioner.Queue(), times)
      ensures partitioner.Queue() == LeftAfter(old(partitioner.Queue()), round)
      ensures old(requests) <= requests && emitted == old(emitted) + Gather(round.arrivals, turns)
      ensures forall i | |old(requests)| <= i < |requests| :: requests[i].accepted || GaveUp(round)
      ensures Quiet(round) ==>
                emitted == old(emitted)
                && OnePerRequest(old(partitioner.Queue()), |requests| - |old(requests)|, partitioner.Queue())
    {
      hide WithinLimits, InTimeOrder, AllChunks, TimesIn, StableSort, TakenBy, AllAdmissible, OnePerRequest, Quiet, GaveUp, RateKept,
        DistinctOrigins, AllNew, Gather, LeftAfter;
      var events, taken, n := Collect(round, reason, times);
      turns := n;
      if |events| > 0 {
        SortOfNothing(taken);
        Send(events, taken, round);
      } else {
        SortOfNothing(taken);
        pacer.Sleep(0.2);
      }
    }

    /** Everything emitted is in a request, in `taken`, or still queued. */
    ghost predicate Holds(taken: seq<Chunk>)
      reads this, partitioner, pacer
    {
      && partitioner.Valid() && pacer.Valid()
      && TakenBy(requests) + (taken + partitioner.Queue()) == AllChunks(emitted)
      && DistinctOrigins(emitted)
      && (forall r | r in requests :: r.taken != [] && WithinLimits(r.Events()) && InTimeOrder(r.Events()))
    }

    method Collect(round: Round, reason: Reason, ghost times: set<int>)
      returns (events: seq<Chunk>, ghost taken: seq<Chunk>, ghost turns: nat)
      requires Valid() && RoundOk(round, times) && TimesIn(partitioner.Queue(), times) && AllNew(emitted, round)
      modifies this`emitted, partitioner
      ensures Holds(taken) && TimesIn(partitioner.Queue(), times)
      ensures partitioner.Queue() == LeftAfter(old(partitioner.Queue()), round)
      ensures emitted == old(emitted) + Gather(round.arrivals, turns)
      ensures events == StableSort(taken) && WithinLimits(events) && InTimeOrder(events)
      ensures Quiet(round) ==>
                emitted == old(emitted)
                && OnePerRequest(old(partitioner.Queue()), if taken == [] then 0 else 1, partitioner.Queue())
    {
      hide WithinLimits, InTimeOrder, AllChunks, TimesIn, StableSort, RoomFor, TakenBy, AllAdmissible, Gather, OnePerRequest,
        DistinctOrigins, AllNew, CollectFrom;
      RoundAdmissible(round, partitioner.Queue(), times);
      ghost var queue := partitioner.Queue();
      events, taken, turns := CollectLogs(partitioner, round.arrivals, round.clock, reason, times);
      ghost var arrived := Gather(round.arrivals, turns);
      AllChunksAppend(emitted, arrived);
      ArrivedOnce(emitted, round, turns);
      assert TakenBy(requests) + (taken + partitioner.Queue()) == AllChunks(emitted + arrived);
      emitted := emitted + arrived;
      if Quiet(round) {
        QuietGathersNothing(round.arrivals, turns);
        NoChunks();
        CountCollected(queue, taken, partitioner.Queue());
      }
    }

    method Send(events: seq<Chunk>, ghost taken: seq<Chunk>, round: Round)
      requires Holds(taken) && taken != [] && events == StableSort(taken) && WithinLimits(events) && InTimeOrder(events)
      requires round.wait >= 0.0 && round.overrun >= 0.0
      requires Settled(round.attempts, STOPPED_RETRIES).Some? && forall a | a in round.attempts :: a.lag >= 0.0
      modifies this`requests, pacer
      ensures Valid()
      ensures |requests| == |old(requests)| + 1 && old(requests) <= requests
      ensures requests[|old(requests)|].accepted || GaveUp(round)
    {
      hide WithinLimits, InTimeOrder, AllChunks, StableSort, TakenBy, DistinctOrigins;
      var success, made := UploadLogs(events, round.wait, round.overrun, round.attempts);
      TakenWithNext(requests, taken, success);
      requests := requests + [Request(taken, success)];
    }

    /** The run loop, as far as the given rounds go. When it exits, the stop event was set and both
        deques are empty; every request was accepted, or dropped after five failures that found the
        stop event set; and when nothing arrives meanwhile, the requests are as few as can be. The
        pieces of every message are in the requests and in the queue in order, and the exit leaves
        none in the queue. */
    method Run(rounds: seq<Round>, reason: Reason) returns (exited: bool)
      requires Valid() && Admits(partitioner.Queue(), rounds)
      requires forall r | r in rounds :: AllNew(emitted, r)
      requires forall i, j | 0 <= i < j < |rounds| :: Apart(rounds[i], rounds[j])
      modifies this, partitioner, pacer
      ensures Valid()
      ensures exited ==> partitioner.pending == [] && partitioner.raw == [] && exists r :: r in rounds && r.stop
      ensures old(requests) <= requests && old(emitted) <= emitted
      ensures forall i | |old(requests)| <= i < |requests| :: requests[i].accepted || exists r :: r in rounds && GaveUp(r)
      ensures (forall r | r in rounds :: Quiet(r)) ==>
                emitted == old(emitted)
                && OnePerRequest(old(partitioner.Queue()), |requests| - |old(requests)|, partitioner.Queue())
      ensures forall e | e in emitted :: Reassembles(requests, partitioner.Queue(), e)
      ensures exited ==> forall e | e in emitted :: InRequests(requests, e)
    {
      hide WithinLimits, InTimeOrder, AllChunks, TimesIn, TakenBy, RoundOk, Quiet, GaveUp, OnePerRequest, RateKept, StableSort, WellFormed,
        DistinctOrigins, AllNew, Apart, Gather, Reassembles, InRequests, Admits, LeftAfter;
      CountNothing(partitioner.Queue());
      assert rounds[0..] == rounds;
      for i := 0 to |rounds|
        invariant Valid() && Admits(partitioner.Queue(), rounds[i..])
        invariant old(requests) <= requests && old(emitted) <= emitted
        invariant forall r | r in rounds[i..] :: AllNew(emitted, r)
        invariant forall k | |old(requests)| <= k < |requests| :: requests[k].accepted || exists r :: r in rounds && GaveUp(r)
        invariant (forall r | r in rounds :: Quiet(r)) ==>
                    emitted == old(emitted)
                    && OnePerRequest(old(partitioner.Queue()), |requests| - |old(requests)|, partitioner.Queue())
      {
        var round := rounds[i];
        assert round in rounds;
        var running := IsRunning(round.stop);
        if !running {
          EachReassembles(requests, partitioner.Queue(), emitted);
          return true;
        }
        ghost var made, middle := |requests| - |old(requests)|, partitioner.Queue();
        ghost var before := |requests|;
        ghost var soFar := emitted;
        ghost var times := AdmitsRound(partitioner.Queue(), rounds, i);
        ghost var turns := RunRound(round, reason, times);
        LaterRounds(rounds, i);
        AllStillNew(soFar, round, turns, rounds[i + 1..]);
        if forall r | r in rounds :: Quiet(r) {
          CountsAddUp(old(partitioner.Queue()), made, middle, |requests| - before, partitioner.Queue());
        }
      }
      EachReassembles(requests, partitioner.Queue(), emitted);
      exited := false;
    }
  }

  lemma LaterRounds(rounds: seq<Round>, i: nat)
    requires i < |rounds| && forall k, l | 0 <= k < l < |rounds| :: Apart(rounds[k], rounds[l])
    ensures rounds[i] in rounds[i..]
    ensures forall r | r in rounds[i + 1..] :: r in rounds[i..] && Apart(rounds[i], r)
  {
    hide Apart;
    assert rounds[i..] == [rounds[i]] + rounds[i + 1..];
    forall r | r in rounds[i + 1..] ensures Apart(rounds[i], r) {
      var l :| i < l < |rounds| && rounds[l] == r;
    }
  }

  lemma CountNothing(queue: seq<Chunk>)
    ensures OnePerRequest(queue, 0, queue)
  {
  }

  // ----- what becomes of a message

  function From(origin: nat): Chunk -> bool {
    (c: Chunk) => c.origin == Some(origin)
  }

  function TextOf(chunks: seq<Chunk>): Text {
    if chunks == [] then [] else chunks[0].text + TextOf(chunks[1..])
  }

  lemma {:induction false} PickEverything(chunks: seq<Chunk>, keep: Chunk -> bool)
    requires forall c | c in chunks :: keep(c)
    ensures Pick(chunks, keep) == chunks
  {
    if chunks != [] {
      PickEverything(chunks[1..], keep);
    }
  }

  lemma {:induction false} PickNothing(chunks: seq<Chunk>, keep: Chunk -> bool)
    requires forall c | c in chunks :: !keep(c)
    ensures Pick(chunks, keep) == []
  {
    if chunks != [] {
      PickNothing(chunks[1..], keep);
    }
  }

  lemma PickFromEntry(e: Entry, origin: nat)
    ensures Pick(ChunksOf(e), From(origin)) == if e.origin == origin then ChunksOf(e) else []
  {
    ChunksOfEntry(e);
    if e.origin == origin {
      PickEverything(ChunksOf(e), From(origin));
    } else {
      PickNothing(ChunksOf(e), From(origin));
    }
  }

  lemma {:induction false} PickFromOthers(entries: seq<Entry>, origin: nat)
    requires forall e | e in entries :: e.origin != origin
    ensures Pick(AllChunks(entries), From(origin)) == []
  {
    if entries != [] {
      PickFromEntry(entries[0], origin);
      PickFromOthers(entries[1..], origin);
      PickAppend(ChunksOf(entries[0]), AllChunks(entries[1..]), From(origin));
    }
  }

  lemma {:induction false} PickFromAll(entries: seq<Entry>, i: nat)
    requires i < |entries| && DistinctOrigins(entries)
    ensures Pick(AllChunks(entries), From(entries[i].origin)) == ChunksOf(entries[i])
  {
    AllChunksFirst(entries);
    hide Pick, AllChunks, ChunksOf, From;
    var origin := entries[i].origin;
    PickFromEntry(entries[0], origin);
    PickAppend(ChunksOf(entries[0]), AllChunks(entries[1..]), From(origin));
    if i == 0 {
      PickFromOthers(entries[1..], origin);
    } else {
      PickFromAll(entries[1..], i - 1);
    }
  }

  lemma AllChunksFirst(entries: seq<Entry>)
    requires entries != []
    ensures AllChunks(entries) == ChunksOf(entries[0]) + AllChunks(entries[1..])
  {
  }

  lemma OneOriginOneTime(entries: seq<Entry>, i: nat, c: Chunk)
    requires i < |entries| && DistinctOrigins(entries)
    requires c in AllChunks(entries) && From(entries[i].origin)(c)
    ensures c.timestamp == entries[i].timestamp
  {
    var e := ChunkHasEntry(entries, c);
    ChunksOfEntry(e);
    var j :| 0 <= j < |entries| && entries[j] == e;
  }

  /** Sorting each batch keeps the pieces of one message in order. */
  lemma {:induction false} SentKeepsOrder(requests: seq<Request>, keep: Chunk -> bool, t: int)
    requires forall c | c in TakenBy(requests) && keep(c) :: c.timestamp == t
    ensures Pick(SentBy(requests), keep) == Pick(TakenBy(requests), keep)
  {
    if requests != [] {
      SentKeepsOrder(requests[1..], keep, t);
      StableSortIsStable(requests[0].taken, keep, t);
      PickAppend(requests[0].Events(), SentBy(requests[1..]), keep);
      PickAppend(requests[0].taken, TakenBy(requests[1..]), keep);
    }
  }

  lemma {:induction false} TextOfPieces(chunks: seq<Chunk>, texts: seq<Text>)
    requires |chunks| == |texts| && forall i | 0 <= i < |chunks| :: chunks[i].text == texts[i]
    ensures TextOf(chunks) == Flatten(texts)
  {
    if chunks != [] {
      TextOfPieces(chunks[1..], texts[1..]);
    }
  }

  lemma TextOfEntry(e: Entry)
    ensures TextOf(ChunksOf(e)) == e.text
  {
    ChunksReassemble(e.text, MAX_LOG_EVENT_SIZE);
    TextOfPieces(ChunksOf(e), Chunks(e.text, MAX_LOG_EVENT_SIZE));
  }

  /** The pieces of the message that were sent, in that order, and those still queued are its pieces,
      and put together they are its text. */
  ghost predicate Reassembles(requests: seq<Request>, queue: seq<Chunk>, e: Entry) {
    var from := From(e.origin);
    && Pick(SentBy(requests), from) + Pick(queue, from) == ChunksOf(e)
    && TextOf(Pick(SentBy(requests), from) + Pick(queue, from)) == e.text
  }

  ghost predicate InRequests(requests: seq<Request>, e: Entry) {
    TextOf(Pick(SentBy(requests), From(e.origin))) == e.text
  }

  lemma EachReassembles(requests: seq<Request>, queue: seq<Chunk>, emitted: seq<Entry>)
    requires TakenBy(requests) + queue == AllChunks(emitted) && DistinctOrigins(emitted)
    ensures forall e | e in emitted :: Reassembles(requests, queue, e)
    ensures queue == [] ==> forall e | e in emitted :: InRequests(requests, e)
  {
    hide TakenBy, SentBy, AllChunks, Pick, TextOf, DistinctOrigins;
    forall e | e in emitted
      ensures Reassembles(requests, queue, e) && (queue == [] ==> InRequests(requests, e))
    {
      var i :| 0 <= i < |emitted| && emitted[i] == e;
      MessagesReassemble(requests, queue, emitted, i);
    }
  }

  /** The pieces of a message that were sent, in the order in which they were sent, followed by
      those still queued, are exactly its pieces in order, and put together they are its text. When
      nothing is queued any more, all of them were sent. */
  lemma MessagesReassemble(requests: seq<Request>, queue: seq<Chunk>, emitted: seq<Entry>, i: nat)
    requires TakenBy(requests) + queue == AllChunks(emitted)
    requires DistinctOrigins(emitted) && i < |emitted|
    ensures var from := From(emitted[i].origin);
            && Pick(SentBy(requests), from) + Pick(queue, from) == ChunksOf(emitted[i])
            && TextOf(Pick(SentBy(requests), from) + Pick(queue, from)) == emitted[i].text
            && (queue == [] ==> TextOf(Pick(SentBy(requests), from)) == emitted[i].text)
  {
    var from := From(emitted[i].origin);
    forall c | c in TakenBy(requests) && from(c) ensures c.timestamp == emitted[i].timestamp {
      assert c in AllChunks(emitted);
      OneOriginOneTime(emitted, i, c);
    }
    SentKeepsOrder(requests, from, emitted[i].timestamp);
    PickAppend(TakenBy(requests), queue, from);
    PickFromAll(emitted, i);
    TextOfEntry(emitted[i]);
    if queue == [] {
      assert Pick(SentBy(requests), from) + Pick(queue, from) == Pick(SentBy(requests), from);
    }
  }
}
