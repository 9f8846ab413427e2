/** The cache of job entities: identifiers and keys, batches, and what the cache holds after any
    sequence of warm-ups and requests, against a service that answers each identifier always the
    same. The mutable cache is in job_entities_class.dfy. */
module JobEntityModel {
  import opened Actions
  import opened GreedySplit

  datatype Identifier =
    | EnvironmentDetails(id: string)
    | StepDetails(id: string)
    | JobDetails(id: string)
    | JobAttachmentDetails(id: string)

  function Key(identifier: Identifier): string {
    if identifier.JobAttachmentDetails? then "JA(" + identifier.id + ")" else identifier.id
  }

  /** Two identifiers share a key when they are equal, when they are of two other kinds and name the
      same id, or when one names the other's id with the decoration for job attachments. */
  lemma KeysCollide(one: Identifier, two: Identifier)
    ensures Key(one) == Key(two) <==>
            if one.JobAttachmentDetails? == two.JobAttachmentDetails? then one.id == two.id
            else if one.JobAttachmentDetails? then two.id == "JA(" + one.id + ")"
            else one.id == "JA(" + two.id + ")"
  {
    if one.JobAttachmentDetails? && two.JobAttachmentDetails? && Key(one) == Key(two) {
      assert Key(one)[3..|Key(one)| - 1] == one.id;
      assert Key(two)[3..|Key(two)| - 1] == two.id;
    }
  }

  type Data = int

  datatype Failure = MaxPayloadSizeExceeded | OtherFailure(code: nat)

  /** What the service says about one identifier when it is asked directly. */
  datatype Verdict = Found(data: Data) | NotFound(code: nat)

  type Service = Identifier -> Verdict

  datatype Found = Entity(identifier: Identifier, data: Data)

  datatype Failed = EntityError(identifier: Identifier, failure: Failure)

  /** The answer to one request: the two lists, an error that is logged and skipped, or an exception
      that is not caught. */
  datatype Reply = Listed(entities: seq<Found>, errors: seq<Failed>) | Skipped | Raised

  datatype Record = Record(identifier: Identifier, data: Option<Data>, error: Option<Failure>)

  type Cache = map<string, Record>

  // ----- batches

  function Batched<T>(items: seq<T>, n: nat): seq<seq<T>>
    requires n >= 1
    decreases |items|
  {
    if items == [] then []
    else if |items| <= n then [items]
    else [items[..n]] + Batched(items[n..], n)
  }

  /** The batches cover the items once, in order; each has from one to `n`, and all but the last
      have `n`. */
  lemma {:induction false} BatchedCovers<T>(items: seq<T>, n: nat)
    requires n >= 1
    ensures Flatten(Batched(items, n)) == items
    ensures forall i | 0 <= i < |Batched(items, n)| :: 1 <= |Batched(items, n)[i]| <= n
    ensures forall i | 0 <= i < |Batched(items, n)| - 1 :: |Batched(items, n)[i]| == n
    decreases |items|
  {
    if items != [] {
      if |items| <= n {
        FlattenOne(items);
      } else {
        BatchedCovers(items[n..], n);
        assert Batched(items, n)[1..] == Batched(items[n..], n);
        assert items == items[..n] + items[n..];
      }
    }
  }

  // ----- what one batch does to the cache

  function Create(cache: Cache, identifiers: seq<Identifier>): Cache
    decreases identifiers
  {
    if identifiers == [] then cache
    else
      var key := Key(identifiers[0]);
      Create(if key in cache then cache else cache[key := Record(identifiers[0], None, None)], identifiers[1..])
  }

  function StoreEntities(cache: Cache, entities: seq<Found>): Cache
    decreases entities
  {
    if entities == [] then cache
    else
      var key := Key(entities[0].identifier);
      StoreEntities(if key in cache then cache[key := cache[key].(data := Some(entities[0].data))] else cache, entities[1..])
  }

  function StoreErrors(cache: Cache, errors: seq<Failed>): Cache
    decreases errors
  {
    if errors == [] then cache
    else
      var key := Key(errors[0].identifier);
      StoreErrors(if key in cache && !errors[0].failure.MaxPayloadSizeExceeded?
                  then cache[key := cache[key].(error := Some(errors[0].failure))] else cache, errors[1..])
  }

  function CacheBatch(cache: Cache, batch: seq<Identifier>, reply: Reply): Cache {
    var created := Create(cache, batch);
    if reply.Listed? then StoreErrors(StoreEntities(created, reply.entities), reply.errors) else created
  }

  /** The batches one after the other, until one raises; false when one does. */
  function CacheBatches(cache: Cache, batches: seq<seq<Identifier>>, replies: seq<Reply>): (Cache, bool)
    requires |batches| <= |replies|
    decreases batches
  {
    if batches == [] then (cache, true)
    else
      var next := CacheBatch(cache, batches[0], replies[0]);
      if replies[0].Raised? then (next, false) else CacheBatches(next, batches[1..], replies[1..])
  }

  // ----- a request

  datatype Result = Got(data: Data) | EntityFailed(failure: Failure) | RequestFailed
  {
    /** What the service says, as a result. */
    predicate Says(verdict: Verdict) {
      this == match verdict case Found(data) => Got(data) case NotFound(code) => EntityFailed(OtherFailure(code))
    }
  }

  function Request(cache: Cache, identifier: Identifier, reply: Reply): (Cache, Result) {
    var key := Key(identifier);
    var created := Create(cache, [identifier]);
    if key in created && created[key].data.Some? then (created, Got(created[key].data.value))
    else
      var after := CacheBatch(created, [identifier], reply);
      (after,
       if reply.Raised? || key !in after then RequestFailed
       else if after[key].data.Some? then Got(after[key].data.value)
       else if after[key].error.Some? then EntityFailed(after[key].error.value)
       else RequestFailed)
  }

  // ----- the contract of the service

  /** The reply lists every identifier of the batch, with the service's answer; in a batch of more
      than one it may say instead that an entity is too large to go with the others. */
  ghost predicate Honest(service: Service, batch: seq<Identifier>, reply: Reply) {
    reply.Listed? ==>
      && (forall e | e in reply.entities :: e.identifier in batch && service(e.identifier) == Verdict.Found(e.data))
      && (forall e | e in reply.errors ::
            && e.identifier in batch
            && if e.failure.MaxPayloadSizeExceeded? then |batch| > 1
               else service(e.identifier) == NotFound(e.failure.code))
      && (forall i | i in batch ::
            || (exists e :: e in reply.entities && e.identifier == i)
            || (exists e :: e in reply.errors && e.identifier == i))
  }

  /** No two of the identifiers in use share a key. */
  ghost predicate DistinctKeys(used: set<Identifier>) {
    forall one, two | one in used && two in used && Key(one) == Key(two) :: one == two
  }

  /** What is cached is the service's answer, stored under the identifier's key. */
  ghost predicate Agrees(service: Service, used: set<Identifier>, cache: Cache) {
    forall key | key in cache ::
      var r := cache[key];
      && r.identifier in used && Key(r.identifier) == key
      && (r.data.Some? ==> service(r.identifier) == Verdict.Found(r.data.value))
      && (r.error.Some? ==> r.error.value.OtherFailure? && service(r.identifier) == NotFound(r.error.value.code))
  }

  /** Records stay, and data that is there stays as it is. */
  ghost predicate Grows(before: Cache, after: Cache) {
    forall key | key in before ::
      && key in after && after[key].identifier == before[key].identifier
      && (before[key].data.Some? ==> after[key].data == before[key].data)
  }

  lemma {:induction false} CreateKeeps(service: Service, used: set<Identifier>, cache: Cache,
          identifiers: seq<Identifier>)
    requires Agrees(service, used, cache) && forall i | i in identifiers :: i in used
    ensures Agrees(service, used, Create(cache, identifiers)) && Grows(cache, Create(cache, identifiers))
    ensures forall i | i in identifiers :: Key(i) in Create(cache, identifiers)
    ensures forall key | key in cache :: Create(cache, identifiers)[key] == cache[key]
    decreases identifiers
  {
    if identifiers != [] {
      var i := identifiers[0];
      assert i in identifiers && identifiers == [i] + identifiers[1..];
      var next := if Key(i) in cache then cache else cache[Key(i) := Record(i, None, None)];
      CreateKeeps(service, used, next, identifiers[1..]);
    }
  }

  /** Records with the same answer for their key are records of the same identifier. */
  lemma SameRecord(service: Service, used: set<Identifier>, cache: Cache, identifier: Identifier)
    requires DistinctKeys(used) && Agrees(service, used, cache)
    requires identifier in used && Key(identifier) in cache
    ensures cache[Key(identifier)].identifier == identifier
  {
  }

  lemma {:induction false} EntitiesKeep(service: Service, used: set<Identifier>, cache: Cache, entities: seq<Found>)
    requires DistinctKeys(used) && Agrees(service, used, cache)
    requires forall e | e in entities ::
               e.identifier in used && Key(e.identifier) in cache && service(e.identifier) == Verdict.Found(e.data)
    ensures var r := StoreEntities(cache, entities);
            && Agrees(service, used, r) && Grows(cache, r)
            && (forall e | e in entities :: r[Key(e.identifier)].data == Some(e.data))
            && (forall key | key in cache :: r[key].error == cache[key].error)
    decreases entities
  {
    if entities != [] {
      var e := entities[0];
      assert e in entities && entities == [e] + entities[1..];
      SameRecord(service, used, cache, e.identifier);
      var key := Key(e.identifier);
      var next := cache[key := cache[key].(data := Some(e.data))];
      assert Agrees(service, used, next);
      EntitiesKeep(service, used, next, entities[1..]);
    }
  }

  lemma {:induction false} ErrorsKeep(service: Service, used: set<Identifier>, cache: Cache, errors: seq<Failed>)
    requires DistinctKeys(used) && Agrees(service, used, cache)
    requires forall e | e in errors ::
               && e.identifier in used && Key(e.identifier) in cache
               && (e.failure.OtherFailure? ==> service(e.identifier) == NotFound(e.failure.code))
    ensures var r := StoreErrors(cache, errors);
            && Agrees(service, used, r) && Grows(cache, r)
            && (forall e | e in errors && e.failure.OtherFailure? :: r[Key(e.identifier)].error == Some(e.failure))
            && (forall key | key in cache :: r[key].data == cache[key].data)
    decreases errors
  {
    if errors != [] {
      var e := errors[0];
      assert e in errors && errors == [e] + errors[1..];
      SameRecord(service, used, cache, e.identifier);
      var key := Key(e.identifier);
      var next := if e.failure.MaxPayloadSizeExceeded? then cache else cache[key := cache[key].(error := Some(e.failure))];
      assert Agrees(service, used, next);
      ErrorsKeep(service, used, next, errors[1..]);
      if e.failure.OtherFailure? {
        ErrorStays(service, used, next, errors[1..], e);
      }
    }
  }

  /** A stored error is only ever overwritten by the same error. */
  lemma ErrorStays(service: Service, used: set<Identifier>, cache: Cache, errors: seq<Failed>, e: Failed)
    requires DistinctKeys(used) && Agrees(service, used, cache) && e.identifier in used && Key(e.identifier) in cache
    requires e.failure.OtherFailure? && cache[Key(e.identifier)].error == Some(e.failure)
    requires forall f | f in errors ::
               && f.identifier in used && Key(f.identifier) in cache
               && (f.failure.OtherFailure? ==> service(f.identifier) == NotFound(f.failure.code))
    ensures Key(e.identifier) in StoreErrors(cache, errors)
    ensures StoreErrors(cache, errors)[Key(e.identifier)].error == Some(e.failure)
    decreases errors
  {
    if errors != [] {
      var f := errors[0];
      assert f in errors && errors == [f] + errors[1..];
      SameRecord(service, used, cache, f.identifier);
      SameRecord(service, used, cache, e.identifier);
      var key := Key(f.identifier);
      var next := if f.failure.MaxPayloadSizeExceeded? then cache else cache[key := cache[key].(error := Some(f.failure))];
      assert Agrees(service, used, next);
      ErrorStays(service, used, next, errors[1..], e);
    }
  }

  /** A batch keeps the cache in agreement with the service, whatever part of it fails, and an
      identifier asked for alone is settled by it. */
  lemma BatchKeeps(service: Service, used: set<Identifier>, cache: Cache, batch: seq<Identifier>, reply: Reply)
    requires DistinctKeys(used) && Agrees(service, used, cache) && Honest(service, batch, reply)
    requires forall i | i in batch :: i in used
    ensures var r := CacheBatch(cache, batch, reply);
            && Agrees(service, used, r) && Grows(cache, r)
            && (forall i | i in batch :: Key(i) in r)
            && (|batch| == 1 && reply.Listed? ==>
                  match service(batch[0])
                  case Found(data) => r[Key(batch[0])].data == Some(data)
                  case NotFound(code) => r[Key(batch[0])].error == Some(OtherFailure(code)))
  {
    var created := Create(cache, batch);
    CreateKeeps(service, used, cache, batch);
    if reply.Listed? {
      var stored := StoreEntities(created, reply.entities);
      EntitiesKeep(service, used, created, reply.entities);
      ErrorsKeep(service, used, stored, reply.errors);
      if |batch| == 1 {
        assert batch[0] in batch;
      }
    }
  }

  lemma {:induction false} BatchesKeep(service: Service, used: set<Identifier>, cache: Cache,
          batches: seq<seq<Identifier>>, replies: seq<Reply>)
    requires DistinctKeys(used) && Agrees(service, used, cache) && |batches| <= |replies|
    requires forall k | 0 <= k < |batches| ::
               Honest(service, batches[k], replies[k]) && forall i | i in batches[k] :: i in used
    ensures var r := CacheBatches(cache, batches, replies).0; Agrees(service, used, r) && Grows(cache, r)
    decreases batches
  {
    if batches != [] {
      BatchKeeps(service, used, cache, batches[0], replies[0]);
      if !replies[0].Raised? {
        BatchesKeep(service, used, CacheBatch(cache, batches[0], replies[0]), batches[1..], replies[1..]);
      }
    }
  }

  // ----- any sequence of warm-ups and requests

  datatype Use =
    | Warm(identifiers: seq<Identifier>, most: nat, replies: seq<Reply>)
    | Ask(identifier: Identifier, reply: Reply)

  function After(cache: Cache, use: Use): Cache {
    match use
    case Warm(identifiers, most, replies) =>
      if most >= 1 && |Batched(identifiers, most)| <= |replies|
      then CacheBatches(cache, Batched(identifiers, most), replies).0 else cache
    case Ask(identifier, reply) => Request(cache, identifier, reply).0
  }

  function AfterAll(cache: Cache, uses: seq<Use>): Cache
    decreases uses
  {
    if uses == [] then cache else AfterAll(After(cache, uses[0]), uses[1..])
  }

  ghost predicate UsesWell(service: Service, used: set<Identifier>, use: Use) {
    match use
    case Warm(identifiers, most, replies) =>
      && (forall i | i in identifiers :: i in used)
      && most >= 1 && |Batched(identifiers, most)| <= |replies|
      && (forall k | 0 <= k < |Batched(identifiers, most)| :: Honest(service, Batched(identifiers, most)[k], replies[k]))
    case Ask(identifier, reply) => identifier in used && Honest(service, [identifier], reply)
  }

  lemma RequestKeeps(service: Service, used: set<Identifier>, cache: Cache, identifier: Identifier, reply: Reply)
    requires DistinctKeys(used) && Agrees(service, used, cache)
    requires identifier in used && Honest(service, [identifier], reply)
    ensures var (r, result) := Request(cache, identifier, reply);
            && Agrees(service, used, r) && Grows(cache, r)
            && (reply.Listed? ==> result.Says(service(identifier)))
            && (result.Got? ==> result.Says(service(identifier)))
  {
    hide Honest, Agrees, Grows, CacheBatch, Create, DistinctKeys;
    var created := Create(cache, [identifier]);
    assert identifier in [identifier];
    CreateKeeps(service, used, cache, [identifier]);
    RecordSays(service, used, created, identifier);
    if created[Key(identifier)].data.None? {
      var after := CacheBatch(created, [identifier], reply);
      BatchKeeps(service, used, created, [identifier], reply);
      RecordSays(service, used, after, identifier);
      GrowsTwice(cache, created, after);
    }
  }

  lemma GrowsTwice(one: Cache, two: Cache, three: Cache)
    requires Grows(one, two) && Grows(two, three)
    ensures Grows(one, three)
  {
  }

  /** What a record of an identifier in use holds is what the service says about it. */
  lemma RecordSays(service: Service, used: set<Identifier>, cache: Cache, identifier: Identifier)
    requires DistinctKeys(used) && Agrees(service, used, cache)
    requires identifier in used && Key(identifier) in cache
    ensures var r := cache[Key(identifier)];
            && (r.data.Some? ==> service(identifier) == Verdict.Found(r.data.value))
            && (r.error.Some? ==> r.error.value.OtherFailure? && service(identifier) == NotFound(r.error.value.code))
  {
    SameRecord(service, used, cache, identifier);
  }

  lemma {:induction false} PartIsMember<T>(parts: seq<seq<T>>, k: nat, x: T)
    requires k < |parts| && x in parts[k]
    ensures x in Flatten(parts)
  {
    if k > 0 {
      PartIsMember(parts[1..], k - 1, x);
    }
  }

  lemma UseKeeps(service: Service, used: set<Identifier>, cache: Cache, use: Use)
    requires DistinctKeys(used) && Agrees(service, used, cache) && UsesWell(service, used, use)
    ensures Agrees(service, used, After(cache, use)) && Grows(cache, After(cache, use))
  {
    match use
    case Warm(identifiers, most, replies) =>
      var batches := Batched(identifiers, most);
      BatchedCovers(identifiers, most);
      forall k, i | 0 <= k < |batches| && i in batches[k] ensures i in used {
        PartIsMember(batches, k, i);
      }
      BatchesKeep(service, used, cache, batches, replies);
    case Ask(identifier, reply) => RequestKeeps(service, used, cache, identifier, reply);
  }

  /** After any sequence of warm-ups and requests every record is empty or holds the service's answer,
      and data once cached never changes. */
  lemma {:induction false} CacheAlwaysAgrees(service: Service, used: set<Identifier>, cache: Cache, uses: seq<Use>)
    requires DistinctKeys(used) && Agrees(service, used, cache)
    requires forall u | u in uses :: UsesWell(service, used, u)
    ensures Agrees(service, used, AfterAll(cache, uses)) && Grows(cache, AfterAll(cache, uses))
    decreases uses
  {
    if uses != [] {
      assert uses[0] in uses && forall u | u in uses[1..] :: u in uses;
      UseKeeps(service, used, cache, uses[0]);
      CacheAlwaysAgrees(service, used, After(cache, uses[0]), uses[1..]);
    }
  }

  /** What a reply lists is in the cache: the data of every entity and, but for payload size, every
      error, under the identifier's key. */
  ghost predicate Holds(cache: Cache, reply: Reply) {
    reply.Listed? ==>
      && (forall e | e in reply.entities :: Key(e.identifier) in cache && cache[Key(e.identifier)].data == Some(e.data))
      && (forall e | e in reply.errors && e.failure.OtherFailure? ::
            Key(e.identifier) in cache && cache[Key(e.identifier)].error == Some(e.failure))
  }

  lemma BatchStores(service: Service, used: set<Identifier>, cache: Cache, batch: seq<Identifier>, reply: Reply)
    requires DistinctKeys(used) && Agrees(service, used, cache) && Honest(service, batch, reply)
    requires forall i | i in batch :: i in used
    ensures Holds(CacheBatch(cache, batch, reply), reply)
  {
    var created := Create(cache, batch);
    CreateKeeps(service, used, cache, batch);
    if reply.Listed? {
      var stored := StoreEntities(created, reply.entities);
      EntitiesKeep(service, used, created, reply.entities);
      ErrorsKeep(service, used, stored, reply.errors);
    }
  }

  /** Later batches leave what is there. */
  lemma StillHolds(reply: Reply, one: Cache, two: Cache)
    requires Holds(one, reply) && Grows(one, two) && KeepsErrors(one, two)
    ensures Holds(two, reply)
  {
  }

  ghost predicate KeepsErrors(before: Cache, after: Cache) {
    forall key | key in before && before[key].error.Some? :: key in after && after[key].error == before[key].error
  }

  /** An error once stored is never another one, since the service answers always the same. */
  lemma {:induction false} StoredErrorsStay(service: Service, used: set<Identifier>, cache: Cache, errors: seq<Failed>)
    requires DistinctKeys(used) && Agrees(service, used, cache)
    requires forall e | e in errors ::
               && e.identifier in used && Key(e.identifier) in cache
               && (e.failure.OtherFailure? ==> service(e.identifier) == NotFound(e.failure.code))
    ensures KeepsErrors(cache, StoreErrors(cache, errors))
    decreases errors
  {
    if errors != [] {
      var e := errors[0];
      assert e in errors && errors == [e] + errors[1..];
      SameRecord(service, used, cache, e.identifier);
      var key := Key(e.identifier);
      var next := if e.failure.MaxPayloadSizeExceeded? then cache else cache[key := cache[key].(error := Some(e.failure))];
      assert Agrees(service, used, next) && KeepsErrors(cache, next);
      StoredErrorsStay(service, used, next, errors[1..]);
    }
  }

  lemma BatchKeepsErrors(service: Service, used: set<Identifier>, cache: Cache, batch: seq<Identifier>, reply: Reply)
    requires DistinctKeys(used) && Agrees(service, used, cache) && Honest(service, batch, reply)
    requires forall i | i in batch :: i in used
    ensures KeepsErrors(cache, CacheBatch(cache, batch, reply))
  {
    var created := Create(cache, batch);
    CreateKeeps(service, used, cache, batch);
    if reply.Listed? {
      EntitiesKeep(service, used, created, reply.entities);
      StoredErrorsStay(service, used, StoreEntities(created, reply.entities), reply.errors);
    }
  }

  /** Of the batches, exactly those up to the first one that raises are cached. */
  lemma {:induction false} BatchesStore(service: Service, used: set<Identifier>, cache: Cache, batches: seq<seq<Identifier>>,
          replies: seq<Reply>, k: nat)
    requires DistinctKeys(used) && Agrees(service, used, cache) && |batches| <= |replies|
    requires forall i | 0 <= i < |batches| :: Honest(service, batches[i], replies[i]) && forall x | x in batches[i] :: x in used
    requires k < |batches| && forall i | 0 <= i < k :: !replies[i].Raised?
    ensures Holds(CacheBatches(cache, batches, replies).0, replies[k])
    decreases batches
  {
    hide Honest, Agrees, DistinctKeys, CacheBatch, Holds, KeepsErrors, Grows;
    var next := CacheBatch(cache, batches[0], replies[0]);
    BatchKeeps(service, used, cache, batches[0], replies[0]);
    if k > 0 {
      BatchesStore(service, used, next, batches[1..], replies[1..], k - 1);
    } else {
      BatchStores(service, used, cache, batches[0], replies[0]);
      if !replies[0].Raised? {
        BatchesKeep(service, used, next, batches[1..], replies[1..]);
        BatchesKeepErrors(service, used, next, batches[1..], replies[1..]);
        StillHolds(replies[0], next, CacheBatches(next, batches[1..], replies[1..]).0);
      }
    }
  }

  /** A warm-up goes through all its batches exactly when none raises, and ends with the first one that
      does. */
  lemma {:induction false} RaiseEndsWarming(cache: Cache, batches: seq<seq<Identifier>>, replies: seq<Reply>, k: nat)
    requires |batches| <= |replies| && k <= |batches| && forall i | 0 <= i < k :: !replies[i].Raised?
    ensures k == |batches| ==> CacheBatches(cache, batches, replies).1
    ensures k < |batches| && replies[k].Raised? ==>
              && !CacheBatches(cache, batches, replies).1
              && CacheBatches(cache, batches, replies).0 == CacheBatches(cache, batches[..k + 1], replies).0
    decreases batches
  {
    if k == 0 {
      if batches != [] {
        assert batches[..1][0] == batches[0];
      }
    } else {
      var next := CacheBatch(cache, batches[0], replies[0]);
      RaiseEndsWarming(next, batches[1..], replies[1..], k - 1);
      if k < |batches| {
        assert batches[..k + 1][1..] == batches[1..][..k];
      }
    }
  }

  lemma {:induction false} BatchesKeepErrors(service: Service, used: set<Identifier>, cache: Cache, batches: seq<seq<Identifier>>,
          replies: seq<Reply>)
    requires DistinctKeys(used) && Agrees(service, used, cache) && |batches| <= |replies|
    requires forall i | 0 <= i < |batches| :: Honest(service, batches[i], replies[i]) && forall x | x in batches[i] :: x in used
    ensures KeepsErrors(cache, CacheBatches(cache, batches, replies).0)
    decreases batches
  {
    if batches != [] {
      BatchKeeps(service, used, cache, batches[0], replies[0]);
      BatchKeepsErrors(service, used, cache, batches[0], replies[0]);
      if !replies[0].Raised? {
        BatchesKeepErrors(service, used, CacheBatch(cache, batches[0], replies[0]), batches[1..], replies[1..]);
      }
    }
  }

  /** Warming does what it is for: after any use of the cache, a warm-up stores all that the replies
      list until one raises, and a later request for a listed entity is answered from the cache,
      whatever the service would reply to it then. */
  lemma WarmedIsAnswered(service: Service, used: set<Identifier>, uses: seq<Use>, identifiers: seq<Identifier>, most: nat,
          replies: seq<Reply>, later: seq<Use>, k: nat, e: Found, reply: Reply)
    requires DistinctKeys(used) && (forall u | u in uses :: UsesWell(service, used, u)) && forall u | u in later :: UsesWell(service, used, u)
    requires UsesWell(service, used, Warm(identifiers, most, replies))
    requires k < |Batched(identifiers, most)| && forall i | 0 <= i < k :: !replies[i].Raised?
    requires replies[k].Listed? && e in replies[k].entities
    ensures Holds(After(AfterAll(map[], uses), Warm(identifiers, most, replies)), replies[k])
    ensures var cache := AfterAll(After(AfterAll(map[], uses), Warm(identifiers, most, replies)), later);
            Request(cache, e.identifier, reply) == (cache, Got(e.data))
  {
    hide Honest, Agrees, DistinctKeys, CacheBatches;
    var cache, warm := AfterAll(map[], uses), Warm(identifiers, most, replies);
    NothingDisagrees(service, used);
    CacheAlwaysAgrees(service, used, map[], uses);
    UseKeeps(service, used, cache, warm);
    BatchedInUse(service, used, warm);
    BatchesStore(service, used, cache, Batched(identifiers, most), replies, k);
    CacheAlwaysAgrees(service, used, After(cache, warm), later);
    CachedAnswers(AfterAll(After(cache, warm), later), e.identifier, e.data, reply);
  }

  lemma CachedAnswers(cache: Cache, identifier: Identifier, data: Data, reply: Reply)
    requires Key(identifier) in cache && cache[Key(identifier)].data == Some(data)
    ensures Request(cache, identifier, reply) == (cache, Got(data))
  {
    assert [identifier][1..] == [] && Create(cache, [identifier]) == cache;
  }

  lemma NothingDisagrees(service: Service, used: set<Identifier>)
    ensures Agrees(service, used, map[])
  {
  }

  lemma BatchedInUse(service: Service, used: set<Identifier>, use: Use)
    requires use.Warm? && UsesWell(service, used, use)
    ensures forall k, i | 0 <= k < |Batched(use.identifiers, use.most)| && i in Batched(use.identifiers, use.most)[k] :: i in used
  {
    var batches := Batched(use.identifiers, use.most);
    BatchedCovers(use.identifiers, use.most);
    forall k, i | 0 <= k < |batches| && i in batches[k] ensures i in used {
      PartIsMember(batches, k, i);
    }
  }

  /** A request returns what the service says, whatever was warmed or requested before: payload-size
      errors, failed batches and errors of earlier batches make no difference. When the request's own
      call fails it still returns nothing that the service does not say. */
  lemma WarmingIsTransparent(service: Service, used: set<Identifier>, uses: seq<Use>, identifier: Identifier,
          reply: Reply)
    requires DistinctKeys(used) && forall u | u in uses :: UsesWell(service, used, u)
    requires identifier in used && Honest(service, [identifier], reply)
    ensures var result := Request(AfterAll(map[], uses), identifier, reply).1;
            && (reply.Listed? ==> result.Says(service(identifier)))
            && (reply.Listed? ==> result == Request(map[], identifier, reply).1)
            && (result.Got? ==> result.Says(service(identifier)))
  {
    CacheAlwaysAgrees(service, used, map[], uses);
    RequestKeeps(service, used, AfterAll(map[], uses), identifier, reply);
    RequestKeeps(service, used, map[], identifier, reply);
  }

  /** The reply to a request for one identifier that is found. */
  function Finds(service: Service, identifier: Identifier): Reply
    requires service(identifier).Found?
  {
    Listed([Entity(identifier, service(identifier).data)], [])
  }

  /** Sharing a key is exactly what breaks it: requesting one identifier makes a request for another
      return the wrong data, for some service, if and only if the two share a key. */
  lemma TransparentIffKeysDiffer(one: Identifier, two: Identifier)
    requires one != two
    ensures (forall service: Service | service(one).Found? && service(two).Found? ::
               Request(Request(map[], one, Finds(service, one)).0, two, Finds(service, two)).1.Says(service(two)))
            <==> Key(one) != Key(two)
  {
    if Key(one) == Key(two) {
      var service: Service := i => if i == one then Verdict.Found(1) else Verdict.Found(2);
      SharedKeyReturnsTheOther(service, one, two);
      assert !Request(Request(map[], one, Finds(service, one)).0, two, Finds(service, two)).1.Says(service(two));
    } else {
      forall service: Service | service(one).Found? && service(two).Found?
        ensures Request(Request(map[], one, Finds(service, one)).0, two, Finds(service, two)).1.Says(service(two))
      {
        var used := {one, two};
        RequestKeeps(service, used, map[], one, Finds(service, one));
        RequestKeeps(service, used, Request(map[], one, Finds(service, one)).0, two, Finds(service, two));
      }
    }
  }

  lemma SharedKeyReturnsTheOther(service: Service, one: Identifier, two: Identifier)
    requires Key(one) == Key(two) && service(one).Found? && service(two).Found?
    ensures Request(Request(map[], one, Finds(service, one)).0, two, Finds(service, two)).1 == Got(service(one).data)
  {
    var first := Request(map[], one, Finds(service, one)).0;
    RequestKeeps(service, {one}, map[], one, Finds(service, one));
    assert first[Key(one)].data == Some(service(one).data);
    assert Create(first, [two]) == first;
  }
}
