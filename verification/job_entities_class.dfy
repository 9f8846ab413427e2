/** The mutable cache of job entities, proved against job_entities.dfy. What the service replies comes
    in as parameters. */
module JobEntitiesObject {
  import opened Actions
  import opened GreedySplit
  import opened JobEntityModel

  class EntityRecord {
    const identifier: Identifier
    var data: Option<Data>
    var error: Option<Failure>

    constructor (identifier: Identifier)
      ensures this.identifier == identifier && data == None && error == None
    {
      this.identifier := identifier;
      data, error := None, None;
    }
  }

  class JobEntities {
    var recordMap: map<string, EntityRecord>

    /** No record is stored under two keys. */
    ghost predicate Valid()
      reads this
    {
      forall one, two | one in recordMap && two in recordMap && recordMap[one] == recordMap[two] :: one == two
    }

    ghost function Contents(): Cache
      reads this, recordMap.Values
    {
      map key | key in recordMap ::
        Record(recordMap[key].identifier, recordMap[key].data, recordMap[key].error)
    }

    constructor ()
      ensures Valid() && Contents() == map[] && recordMap == map[]
    {
      recordMap := map[];
    }

    method CreateRecords(identifiers: seq<Identifier>)
      requires Valid()
      modifies this
      ensures Valid() && Contents() == Create(old(Contents()), identifiers)
      ensures fresh(recordMap.Values - old(recordMap.Values)) && old(recordMap.Values) <= recordMap.Values
    {
      assert identifiers[0..] == identifiers;
      for i := 0 to |identifiers|
        invariant Valid() && fresh(recordMap.Values - old(recordMap.Values)) && old(recordMap.Values) <= recordMap.Values
        invariant Create(Contents(), identifiers[i..]) == Create(old(Contents()), identifiers)
      {
        var identifier := identifiers[i];
        var key := Key(identifier);
        assert identifiers[i..][0] == identifier && identifiers[i..][1..] == identifiers[i + 1..];
        if key !in recordMap {
          AddRecord(key, identifier);
        }
      }
      assert identifiers[|identifiers|..] == [];
    }

    method AddRecord(key: string, identifier: Identifier)
      requires Valid() && key !in recordMap
      modifies this
      ensures Valid() && Contents() == old(Contents())[key := Record(identifier, None, None)]
      ensures fresh(recordMap.Values - old(recordMap.Values)) && old(recordMap.Values) <= recordMap.Values
    {
      ghost var before, contents := recordMap, Contents();
      var record := new EntityRecord(identifier);
      assert record !in before.Values;
      recordMap := recordMap[key := record];
      assert forall k | k in before :: before[k] in before.Values && recordMap[k] == before[k];
      assert forall k | k in recordMap :: k == key || k in before;
      forall r | r in before.Values ensures r in recordMap.Values {
        var k :| k in before && before[k] == r;
        assert recordMap[k] == r;
      }
      assert Contents() == contents[key := Record(identifier, None, None)];
    }

    method SaveEntities(entities: seq<Found>)
      requires Valid() && forall e | e in entities :: Key(e.identifier) in recordMap
      modifies recordMap.Values
      ensures recordMap == old(recordMap) && Contents() == StoreEntities(old(Contents()), entities)
    {
      assert entities[0..] == entities;
      for i := 0 to |entities|
        invariant recordMap == old(recordMap)
        invariant StoreEntities(Contents(), entities[i..]) == StoreEntities(old(Contents()), entities)
      {
        var entity := entities[i];
        var key := Key(entity.identifier);
        assert entity in entities && recordMap[key] in recordMap.Values;
        assert entities[i..][0] == entity && entities[i..][1..] == entities[i + 1..];
        ghost var contents := Contents();
        recordMap[key].data := Some(entity.data);
        assert Contents() == contents[key := contents[key].(data := Some(entity.data))];
      }
      assert entities[|entities|..] == [];
    }

    method SaveErrors(errors: seq<Failed>)
      requires Valid() && forall e | e in errors :: Key(e.identifier) in recordMap
      modifies recordMap.Values
      ensures recordMap == old(recordMap) && Contents() == StoreErrors(old(Contents()), errors)
    {
      assert errors[0..] == errors;
      for i := 0 to |errors|
        invariant recordMap == old(recordMap)
        invariant StoreErrors(Contents(), errors[i..]) == StoreErrors(old(Contents()), errors)
      {
        var failed := errors[i];
        assert errors[i..][0] == failed && errors[i..][1..] == errors[i + 1..];
        assert failed in errors && recordMap[Key(failed.identifier)] in recordMap.Values;
        if failed.failure.MaxPayloadSizeExceeded? {
          continue;
        }
        var key := Key(failed.identifier);
        ghost var contents := Contents();
        recordMap[key].error := Some(failed.failure);
        assert Contents() == contents[key := contents[key].(error := Some(failed.failure))];
      }
      assert errors[|errors|..] == [];
    }

    /** One batch. The service only speaks of identifiers it was asked about. */
    method CacheOneBatch(batch: seq<Identifier>, reply: Reply)
      requires Valid() && AboutBatch(batch, reply)
      modifies this, recordMap.Values
      ensures Valid() && Contents() == CacheBatch(old(Contents()), batch, reply)
      ensures fresh(recordMap.Values - old(recordMap.Values)) && old(recordMap.Values) <= recordMap.Values
    {
      CreateRecords(batch);
      ghost var created := Contents();
      BatchHasRecords(old(Contents()), batch);
      assert forall key | key in created :: key in recordMap;
      if reply.Listed? {
        SaveEntities(reply.entities);
        SaveErrors(reply.errors);
      }
    }

    /** Asks for the identifiers batch by batch; false when a request raises. */
    method CacheEntities(identifiers: seq<Identifier>, most: nat, replies: seq<Reply>) returns (ok: bool)
      requires Valid() && most >= 1 && |Batched(identifiers, most)| <= |replies|
      requires forall k | 0 <= k < |Batched(identifiers, most)| :: AboutBatch(Batched(identifiers, most)[k], replies[k])
      modifies this, recordMap.Values
      ensures Valid()
      ensures (Contents(), ok) == CacheBatches(old(Contents()), Batched(identifiers, most), replies)
      ensures fresh(recordMap.Values - old(recordMap.Values)) && old(recordMap.Values) <= recordMap.Values
    {
      var left, k := identifiers, 0;
      ghost var batches := Batched(identifiers, most);
      assert batches[0..] == batches && replies[0..] == replies;
      while left != []
        invariant Valid() && 0 <= k <= |batches| && Batched(left, most) == batches[k..]
        invariant CacheBatches(Contents(), batches[k..], replies[k..]) == CacheBatches(old(Contents()), batches, replies)
        invariant fresh(recordMap.Values - old(recordMap.Values)) && old(recordMap.Values) <= recordMap.Values
        decreases |left|
      {
        var batch := if |left| <= most then left else left[..most];
        assert batch == batches[k..][0] == batches[k];
        assert batches[k..][1..] == batches[k + 1..] && replies[k..][1..] == replies[k + 1..] && replies[k..][0] == replies[k];
        left := left[|batch|..];
        CacheOneBatch(batch, replies[k]);
        if replies[k].Raised? {
          return false;
        }
        k := k + 1;
      }
      assert batches[k..] == [];
      ok := true;
    }

    /** The cached data, or what asking the service for this one identifier gives. */
    method RequestEntity(identifier: Identifier, most: nat, reply: Reply) returns (result: Result)
      requires Valid() && most >= 1 && AboutBatch([identifier], reply)
      modifies this, recordMap.Values
      ensures Valid()
      ensures (Contents(), result) == Request(old(Contents()), identifier, reply)
      ensures fresh(recordMap.Values - old(recordMap.Values)) && old(recordMap.Values) <= recordMap.Values
    {
      hide Create, StoreEntities, StoreErrors, AboutBatch;
      var key := Key(identifier);
      BatchHasRecords(old(Contents()), [identifier]);
      CreateRecords([identifier]);
      assert identifier in [identifier] && key in Contents();
      ghost var created := Contents();
      var record := recordMap[key];
      if record.data.Some? {
        return Got(record.data.value);
      }
      CreatedTwice(old(Contents()), identifier);
      OneBatch(created, identifier, most, reply);
      var ok := CacheEntities([identifier], most, [reply]);
      BatchHasRecords(created, [identifier]);
      BatchKeepsKeys(created, [identifier], reply);
      assert key in Contents();
      if !ok {
        return RequestFailed;
      }
      record := recordMap[key];
      if record.data.Some? {
        return Got(record.data.value);
      }
      if record.error.Some? {
        return EntityFailed(record.error.value);
      }
      return RequestFailed;
    }
  }

  ghost predicate AboutBatch(batch: seq<Identifier>, reply: Reply) {
    reply.Listed? ==>
      && (forall e | e in reply.entities :: e.identifier in batch)
      && (forall e | e in reply.errors :: e.identifier in batch)
  }

  lemma {:induction false} BatchHasRecords(cache: Cache, batch: seq<Identifier>)
    ensures forall i | i in batch :: Key(i) in Create(cache, batch)
    ensures forall key | key in cache :: key in Create(cache, batch) && Create(cache, batch)[key] == cache[key]
    decreases batch
  {
    if batch != [] {
      var next := if Key(batch[0]) in cache then cache else cache[Key(batch[0]) := Record(batch[0], None, None)];
      BatchHasRecords(next, batch[1..]);
      assert batch == [batch[0]] + batch[1..];
    }
  }

  lemma CreatedTwice(cache: Cache, identifier: Identifier)
    ensures Create(Create(cache, [identifier]), [identifier]) == Create(cache, [identifier])
  {
    assert [identifier][1..] == [];
  }

  lemma OneBatch(cache: Cache, identifier: Identifier, most: nat, reply: Reply)
    requires most >= 1
    ensures Batched([identifier], most) == [[identifier]]
    ensures CacheBatches(cache, [[identifier]], [reply]) == (CacheBatch(cache, [identifier], reply), !reply.Raised?)
  {
    assert [[identifier]][1..] == [];
  }

  lemma {:induction false} StoringKeepsKeys(cache: Cache, entities: seq<Found>, errors: seq<Failed>)
    ensures StoreEntities(cache, entities).Keys == cache.Keys
    ensures StoreErrors(cache, errors).Keys == cache.Keys
    decreases |entities| + |errors|
  {
    if entities != [] {
      var key := Key(entities[0].identifier);
      StoringKeepsKeys(if key in cache then cache[key := cache[key].(data := Some(entities[0].data))] else cache, entities[1..], []);
    }
    if errors != [] {
      var key := Key(errors[0].identifier);
      StoringKeepsKeys(if key in cache && !errors[0].failure.MaxPayloadSizeExceeded?
                       then cache[key := cache[key].(error := Some(errors[0].failure))] else cache, [], errors[1..]);
    }
  }

  lemma BatchKeepsKeys(cache: Cache, batch: seq<Identifier>, reply: Reply)
    ensures CacheBatch(cache, batch, reply).Keys == Create(cache, batch).Keys
  {
    if reply.Listed? {
      StoringKeepsKeys(Create(cache, batch), reply.entities, []);
      StoringKeepsKeys(StoreEntities(Create(cache, batch), reply.entities), [], reply.errors);
    }
  }
}
