/** The shared log as a sequence of records, and what "contiguous", "unique" and "replays"
    mean for it. Nothing here is executable: stores and trackers are proved against it. */
module EventLog {
  import opened Basics
  import opened PacketTypes
  import opened Lifecycle

  type Streams = map<PacketID, seq<Event>>

  /** The events of one packet, in log order. */
  ghost function Stream(log: seq<EventRecord>, id: PacketID): seq<Event>
    decreases |log|
  {
    if |log| == 0 then []
    else
      var last := log[|log| - 1];
      Stream(log[..|log| - 1], id) + (if last.packetID == id then [last.event] else [])
  }

  lemma StreamSnoc(log: seq<EventRecord>, record: EventRecord, id: PacketID)
    ensures Stream(log + [record], id) == Stream(log, id) + (if record.packetID == id then [record.event] else [])
  {
    assert (log + [record])[..|log|] == log;
  }

  lemma {:induction false} StreamConcat(a: seq<EventRecord>, b: seq<EventRecord>, id: PacketID)
    ensures Stream(a + b, id) == Stream(a, id) + Stream(b, id)
    decreases |b|
  {
    if |b| == 0 {
      assert a + b == a;
    } else {
      var rest, last := b[..|b| - 1], b[|b| - 1];
      StreamConcat(a, rest, id);
      assert a + b == (a + rest) + [last];
      StreamSnoc(a + rest, last, id);
    }
  }

  /** Where in the log the k-th event of a packet lies. */
  lemma {:induction false} StreamPosition(log: seq<EventRecord>, id: PacketID, k: nat) returns (i: nat)
    requires k < |Stream(log, id)|
    ensures i < |log| && log[i].packetID == id && log[i].event == Stream(log, id)[k] && |Stream(log[..i], id)| == k
    decreases |log|
  {
    var n := |log| - 1;
    if k < |Stream(log[..n], id)| {
      i := StreamPosition(log[..n], id, k);
      assert log[..n][..i] == log[..i];
    } else {
      i := n;
    }
  }

  ghost function Touched(log: seq<EventRecord>): set<PacketID> {
    set r | r in log :: r.packetID
  }

  lemma {:induction false} TouchedStream(log: seq<EventRecord>, id: PacketID)
    ensures id in Touched(log) <==> Stream(log, id) != []
    decreases |log|
  {
    if |log| > 0 {
      var n := |log| - 1;
      TouchedStream(log[..n], id);
      assert log == log[..n] + [log[n]];
      assert forall r :: r in log <==> r in log[..n] || r == log[n];
    }
  }

  ghost function EventIDs(log: seq<EventRecord>): set<EventID> {
    set r | r in log :: r.event.meta.id
  }

  ghost predicate UniqueEventIDs(log: seq<EventRecord>) {
    forall i, j :: 0 <= i < j < |log| ==> log[i].event.meta.id != log[j].event.meta.id
  }

  /** Record i sits where its packet's stream ends, so every stream counts up from one. */
  ghost predicate Placed(log: seq<EventRecord>) {
    forall i :: 0 <= i < |log| ==> PlacedAt(log, i)
  }

  ghost predicate PlacedAt(log: seq<EventRecord>, i: nat)
    requires i < |log|
  {
    && log[i].packetID != "" && EventPacketID(log[i].event) == log[i].packetID
    && log[i].streamVersion == |Stream(log[..i], log[i].packetID)| + 1
  }

  ghost predicate StoreLog(log: seq<EventRecord>) {
    Placed(log) && UniqueEventIDs(log)
  }

  /** Every packet in the log folds to a projection. */
  ghost predicate Replays(log: seq<EventRecord>) {
    forall id :: Replay(Stream(log, id)).Ok?
  }

  ghost function Only(log: seq<EventRecord>, ids: set<PacketID>): seq<EventRecord>
    decreases |log|
  {
    if |log| == 0 then []
    else
      var last := log[|log| - 1];
      Only(log[..|log| - 1], ids) + (if last.packetID in ids then [last] else [])
  }

  // ---- streams held by packet id ------------------------------------------------------

  ghost function StreamIn(streams: Streams, id: PacketID): seq<Event> {
    if id in streams then streams[id] else []
  }

  ghost function IDsOf(events: seq<Event>): set<EventID> {
    set e | e in events :: e.meta.id
  }

  ghost function StreamEventIDs(streams: Streams): set<EventID> {
    set p, e | p in streams && e in streams[p] :: e.meta.id
  }

  ghost predicate DistinctIn(streams: Streams) {
    forall p, i, q, j ::
      p in streams && q in streams && 0 <= i < |streams[p]| && 0 <= j < |streams[q]| ==>
        streams[p][i].meta.id == streams[q][j].meta.id ==> p == q && i == j
  }

  ghost predicate OwnEvents(streams: Streams) {
    forall p, e :: p in streams && e in streams[p] ==> EventPacketID(e) == p
  }

  ghost predicate NoEmptyStream(streams: Streams) {
    forall p :: p in streams ==> streams[p] != []
  }

  ghost predicate AllReplay(streams: Streams) {
    forall p :: p in streams ==> Replay(streams[p]).Ok?
  }

  ghost predicate Occurs(streams: Streams, r: EventRecord) {
    r.packetID in streams && 1 <= r.streamVersion <= |streams[r.packetID]|
    && streams[r.packetID][r.streamVersion - 1] == r.event
  }

  /** Per packet, the records carry the versions 1..n once each and nothing else. Only the
      multiset of records matters, not the order a store returned them in. */
  ghost predicate Represents(records: multiset<EventRecord>, streams: Streams) {
    NoEmptyStream(streams) && forall r: EventRecord :: records[r] == Once(Occurs(streams, r))
  }

  lemma RepresentsUnique(records: multiset<EventRecord>, s: Streams, t: Streams)
    requires Represents(records, s) && Represents(records, t)
    ensures s == t
  {
    forall p | p in s
      ensures p in t && |s[p]| <= |t[p]|
    {
      var n := |s[p]|;
      var r := EventRecord(p, n, s[p][n - 1]);
      assert Occurs(s, r) && records[r] == 1;
      assert Occurs(t, r);
    }
    forall p | p in t
      ensures p in s && |t[p]| <= |s[p]|
    {
      var n := |t[p]|;
      var r := EventRecord(p, n, t[p][n - 1]);
      assert Occurs(t, r) && records[r] == 1;
      assert Occurs(s, r);
    }
    forall p | p in s
      ensures s[p] == t[p]
    {
      forall i | 0 <= i < |s[p]|
        ensures s[p][i] == t[p][i]
      {
        var r := EventRecord(p, i + 1, s[p][i]);
        assert Occurs(s, r) && records[r] == 1;
        assert Occurs(t, r);
      }
    }
  }

  /** The streams that records represent, if they represent any. */
  ghost function Grouped(records: multiset<EventRecord>): Option<Streams> {
    if s: Streams :| Represents(records, s) then Some(s) else None
  }

  ghost function Extend(streams: Streams, r: EventRecord): Streams {
    streams[r.packetID := StreamIn(streams, r.packetID) + [r.event]]
  }

  lemma RepresentsSnoc(records: multiset<EventRecord>, streams: Streams, r: EventRecord)
    requires Represents(records, streams)
    requires r.streamVersion == |StreamIn(streams, r.packetID)| + 1
    ensures Represents(records + multiset{r}, Extend(streams, r))
  {
    var after := Extend(streams, r);
    forall q: EventRecord
      ensures (records + multiset{r})[q] == Once(Occurs(after, q))
    {
      assert records[q] == Once(Occurs(streams, q));
      if q.packetID == r.packetID {
        if q.streamVersion == r.streamVersion {
          assert !Occurs(streams, q);
        } else {
          assert Occurs(after, q) <==> Occurs(streams, q);
        }
      } else {
        assert Occurs(after, q) <==> Occurs(streams, q);
      }
    }
  }

  lemma PlacedPrefix(log: seq<EventRecord>, n: nat)
    requires n <= |log| && Placed(log)
    ensures Placed(log[..n])
  {
    forall i | 0 <= i < n
      ensures PlacedAt(log[..n], i)
    {
      assert PlacedAt(log, i) && log[..n][..i] == log[..i];
    }
  }

  /** The streams of the packets asked for that have any event. */
  ghost function StreamsOf(log: seq<EventRecord>, ids: set<PacketID>): Streams {
    map p | p in ids && Stream(log, p) != [] :: Stream(log, p)
  }

  /** A well-placed log represents its own streams, restricted to any packets asked for. */
  lemma {:induction false} OnlyRepresents(log: seq<EventRecord>, ids: set<PacketID>)
    requires Placed(log)
    ensures Represents(multiset(Only(log, ids)), StreamsOf(log, ids))
    decreases |log|
  {
    if |log| == 0 {
      assert StreamsOf(log, ids) == map[];
    } else {
      var n := |log| - 1;
      var init, last := log[..n], log[n];
      assert log == init + [last];
      PlacedPrefix(log, n);
      assert PlacedAt(log, n);
      OnlyRepresents(init, ids);
      var before, after := StreamsOf(init, ids), StreamsOf(log, ids);
      if last.packetID in ids {
        RepresentsSnoc(multiset(Only(init, ids)), before, last);
        forall q
          ensures q in after <==> q in Extend(before, last)
          ensures q in after ==> after[q] == Extend(before, last)[q]
        {
          StreamSnoc(init, last, q);
        }
        assert after == Extend(before, last);
      } else {
        forall q
          ensures q in after <==> q in before
          ensures q in after ==> after[q] == before[q]
        {
          StreamSnoc(init, last, q);
        }
        assert after == before;
      }
    }
  }

  // ---- compare and set ----------------------------------------------------------------

  /** Every touched stream is exactly as long as the writer believes. */
  ghost predicate Current(log: seq<EventRecord>, expected: map<PacketID, Version>) {
    forall p :: p in expected ==> |Stream(log, p)| == expected[p]
  }

  ghost predicate PositionedAt(expected: map<PacketID, Version>, batch: seq<EventRecord>, i: nat)
    requires i < |batch|
  {
    && batch[i].packetID in expected && EventPacketID(batch[i].event) == batch[i].packetID
    && batch[i].streamVersion == expected[batch[i].packetID] + |Stream(batch[..i], batch[i].packetID)| + 1
  }

  ghost predicate Positioned(expected: map<PacketID, Version>, batch: seq<EventRecord>) {
    && |batch| > 0 && "" !in expected
    && forall i :: 0 <= i < |batch| ==> PositionedAt(expected, batch, i)
  }

  /** Exactly when a store takes a batch. */
  ghost predicate Accepts(log: seq<EventRecord>, expected: map<PacketID, Version>, batch: seq<EventRecord>) {
    && Current(log, expected) && Positioned(expected, batch)
    && UniqueEventIDs(batch) && EventIDs(log) !! EventIDs(batch)
  }

  lemma AcceptKeepsStoreLog(log: seq<EventRecord>, expected: map<PacketID, Version>, batch: seq<EventRecord>)
    requires StoreLog(log) && Accepts(log, expected, batch)
    ensures StoreLog(log + batch)
  {
    var all := log + batch;
    forall i | 0 <= i < |all|
      ensures PlacedAt(all, i)
    {
      if i < |log| {
        assert PlacedAt(log, i) && all[..i] == log[..i];
      } else {
        var j := i - |log|;
        assert PositionedAt(expected, batch, j);
        assert all[..i] == log + batch[..j];
        StreamConcat(log, batch[..j], all[i].packetID);
      }
    }
    forall i, j | 0 <= i < j < |all|
      ensures all[i].event.meta.id != all[j].event.meta.id
    {
      if i < |log| <= j {
        assert log[i] in log && batch[j - |log|] in batch;
        assert log[i].event.meta.id in EventIDs(log) && batch[j - |log|].event.meta.id in EventIDs(batch);
      }
    }
  }
}
