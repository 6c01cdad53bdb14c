/** packet/store.go: the in-memory store that trackers share. */
module EventStore {
  import opened Basics
  import opened PacketTypes
  import opened EventLog

  function VersionOf(versions: map<PacketID, Version>, id: PacketID): Version {
    if id in versions then versions[id] else 0
  }

  /** The version and ownership checks of one append. Both stores make them. */
  method ValidateAppend(expected: map<PacketID, Version>, records: seq<EventRecord>) returns (ok: bool)
    ensures ok <==> Positioned(expected, records)
  {
    if |records| == 0 || "" in expected {
      return false;
    }
    var next: map<PacketID, int> := map p | p in expected :: expected[p] + 1;
    for i := 0 to |records|
      invariant NextVersions(next, expected, records[..i])
      invariant forall k :: 0 <= k < i ==> PositionedAt(expected, records, k)
    {
      var record := records[i];
      ChecksPosition(next, expected, records, i);
      if record.packetID !in next || EventPacketID(record.event) != record.packetID
         || record.streamVersion != next[record.packetID]
      {
        return false;
      }
      NextSnoc(next, expected, records, i);
      next := next[record.packetID := next[record.packetID] + 1];
    }
    return true;
  }

  /** What the checks call the next version of each packet, once some records have passed. */
  ghost predicate NextVersions(next: map<PacketID, int>, expected: map<PacketID, Version>, records: seq<EventRecord>) {
    next.Keys == expected.Keys && forall p :: p in next ==> next[p] == expected[p] + |Stream(records, p)| + 1
  }

  lemma ChecksPosition(next: map<PacketID, int>, expected: map<PacketID, Version>, records: seq<EventRecord>, i: nat)
    requires i < |records| && NextVersions(next, expected, records[..i])
    ensures PositionedAt(expected, records, i)
       <==> (records[i].packetID in next && EventPacketID(records[i].event) == records[i].packetID
             && records[i].streamVersion == next[records[i].packetID])
  {
  }

  lemma NextSnoc(next: map<PacketID, int>, expected: map<PacketID, Version>, records: seq<EventRecord>, i: nat)
    requires i < |records| && NextVersions(next, expected, records[..i]) && records[i].packetID in next
    ensures NextVersions(next[records[i].packetID := next[records[i].packetID] + 1], expected, records[..i + 1])
  {
    TakeOneMore(records, i);
    forall p
      ensures |Stream(records[..i + 1], p)|
           == |Stream(records[..i], p)| + (if records[i].packetID == p then 1 else 0)
    {
      StreamSnoc(records[..i], records[i], p);
    }
  }

  ghost predicate Counts(versions: map<PacketID, Version>, log: seq<EventRecord>) {
    forall p :: VersionOf(versions, p) == |Stream(log, p)|
  }

  lemma CountSnoc(versions: map<PacketID, Version>, log: seq<EventRecord>, r: EventRecord)
    requires Counts(versions, log) && r.streamVersion == |Stream(log, r.packetID)| + 1
    ensures Counts(versions[r.packetID := r.streamVersion], log + [r])
  {
    forall p
      ensures VersionOf(versions[r.packetID := r.streamVersion], p) == |Stream(log + [r], p)|
    {
      StreamSnoc(log, r, p);
    }
  }

  lemma PlacedInBatch(before: seq<EventRecord>, batch: seq<EventRecord>, i: nat)
    requires i < |batch| && StoreLog(before + batch)
    ensures batch[i].streamVersion == |Stream(before + batch[..i], batch[i].packetID)| + 1
  {
    assert (before + batch)[|before| + i] == batch[i] && (before + batch)[..|before| + i] == before + batch[..i];
    assert PlacedAt(before + batch, |before| + i);
  }

  lemma EventIDsSnoc(log: seq<EventRecord>, r: EventRecord)
    ensures EventIDs(log + [r]) == EventIDs(log) + {r.event.meta.id}
  {
    assert forall q :: q in log + [r] <==> q in log || q == r;
  }

  lemma IndexStep(before: seq<EventRecord>, batch: seq<EventRecord>, i: nat, versions: map<PacketID, Version>)
    requires i < |batch| && StoreLog(before + batch) && Counts(versions, before + batch[..i])
    ensures Counts(versions[batch[i].packetID := batch[i].streamVersion], before + batch[..i + 1])
    ensures EventIDs(before + batch[..i + 1]) == EventIDs(before + batch[..i]) + {batch[i].event.meta.id}
  {
    PlacedInBatch(before, batch, i);
    CountSnoc(versions, before + batch[..i], batch[i]);
    EventIDsSnoc(before + batch[..i], batch[i]);
    assert before + batch[..i + 1] == (before + batch[..i]) + [batch[i]];
  }

  // The loop of Append over the records it has taken.
  method IndexBatch(versions: map<PacketID, Version>, eventIDs: set<EventID>, ghost before: seq<EventRecord>,
                    batch: seq<EventRecord>)
    returns (counted: map<PacketID, Version>, used: set<EventID>)
    requires StoreLog(before + batch) && Counts(versions, before) && eventIDs == EventIDs(before)
    ensures Counts(counted, before + batch) && used == EventIDs(before + batch)
  {
    counted, used := versions, eventIDs;
    assert before + batch[..0] == before;
    for i := 0 to |batch|
      invariant Counts(counted, before + batch[..i]) && used == EventIDs(before + batch[..i])
    {
      IndexStep(before, batch, i, counted);
      counted := counted[batch[i].packetID := batch[i].streamVersion];
      used := used + {batch[i].event.meta.id};
    }
    assert batch[..|batch|] == batch;
  }

  class MemoryEventStore {
    var records: seq<EventRecord>
    var versions: map<PacketID, Version>
    var eventIDs: set<EventID>

    ghost predicate Valid()
      reads this
    {
      && StoreLog(records)
      && Counts(versions, records)
      && eventIDs == EventIDs(records)
    }

    constructor ()
      ensures Valid() && records == []
    {
      records, versions, eventIDs := [], map[], {};
    }

    /** Every record, or only those of the packets named. */
    method Load(packetIDs: seq<PacketID>) returns (result: seq<EventRecord>)
      requires Valid()
      ensures packetIDs == [] ==> result == records
      ensures packetIDs != [] ==> result == Only(records, set p | p in packetIDs)
    {
      if |packetIDs| == 0 {
        return records;
      }
      var wanted := set p | p in packetIDs;
      result := [];
      for i := 0 to |records|
        invariant result == Only(records[..i], wanted)
      {
        assert records[..i + 1][..i] == records[..i];
        if records[i].packetID in wanted {
          result := result + [records[i]];
        }
      }
      assert records[..|records|] == records;
    }

    method VersionsCurrent(expected: map<PacketID, Version>) returns (ok: bool)
      requires Valid()
      ensures ok <==> Current(records, expected)
    {
      var unchecked := expected.Keys;
      while unchecked != {}
        invariant unchecked <= expected.Keys
        invariant forall p :: p in expected && p !in unchecked ==> |Stream(records, p)| == expected[p]
        decreases unchecked
      {
        var p :| p in unchecked;
        if VersionOf(versions, p) != expected[p] {
          return false;
        }
        unchecked := unchecked - {p};
      }
      return true;
    }

    method EventIDsFresh(batch: seq<EventRecord>) returns (ok: bool)
      requires Valid()
      ensures ok <==> UniqueEventIDs(batch) && EventIDs(records) !! EventIDs(batch)
    {
      var batchIDs: set<EventID> := {};
      for i := 0 to |batch|
        invariant batchIDs == EventIDs(batch[..i])
        invariant UniqueEventIDs(batch[..i])
        invariant eventIDs !! batchIDs
      {
        var id := batch[i].event.meta.id;
        assert batch[i] in batch && id in EventIDs(batch);
        if id in eventIDs {
          return false;
        }
        if id in batchIDs {
          var r :| r in batch[..i] && r.event.meta.id == id;
          var k :| 0 <= k < i && batch[k] == r;
          return false;
        }
        assert batch[..i + 1] == batch[..i] + [batch[i]];
        forall k | 0 <= k < i
          ensures batch[k].event.meta.id != id
        {
          assert batch[k] in batch[..i];
        }
        batchIDs := batchIDs + {id};
      }
      assert batch[..|batch|] == batch;
      return true;
    }

    /** All of the batch or none of it, and only over the versions its writer saw. */
    method Append(expected: map<PacketID, Version>, batch: seq<EventRecord>) returns (r: Result<(), Error>)
      requires Valid()
      modifies this
      ensures Valid()
      ensures r.Ok? <==> Accepts(old(records), expected, batch)
      ensures r.Err? ==> (r.error == Conflict <==> !Current(old(records), expected))
      ensures records == old(records) + (if r.Ok? then batch else [])
    {
      var current := VersionsCurrent(expected);
      if !current {
        return Err(Conflict);
      }
      var positioned := ValidateAppend(expected, batch);
      if !positioned {
        return Err(InvalidEvent);
      }
      var unused := EventIDsFresh(batch);
      if !unused {
        return Err(InvalidEvent);
      }
      AcceptKeepsStoreLog(records, expected, batch);
      versions, eventIDs := IndexBatch(versions, eventIDs, records, batch);
      records := records + batch;
      return Ok(());
    }
  }
}
