/** What a tracker holds, as a value: its cached streams, the projection folded from them and
    the event ids they use; when loaded records may replace part of it, and when a batch may
    extend it. */
module TrackerCache {
  import opened Basics
  import opened PacketTypes
  import opened Lifecycle
  import opened EventLog

  datatype Cache = Cache(
    streams: Streams,
    projection: map<PacketID, Packet>,
    eventIDs: set<EventID>,
    ready: bool)

  const EMPTY_CACHE := Cache(map[], map[], {}, true)

  ghost function Project(streams: Streams): map<PacketID, Packet>
    requires AllReplay(streams)
  {
    map p | p in streams :: Replay(streams[p]).value
  }

  /** The cache agrees with replaying its own streams. Between DropProjection and a rebuild
      only the streams are meaningful. */
  ghost predicate Coherent(c: Cache) {
    && NoEmptyStream(c.streams) && OwnEvents(c.streams)
    && (c.ready ==>
          && DistinctIn(c.streams) && AllReplay(c.streams)
          && c.projection == Project(c.streams)
          && c.eventIDs == StreamEventIDs(c.streams))
  }

  /** No cached stream says more than the log. */
  ghost predicate Behind(streams: Streams, log: seq<EventRecord>) {
    forall p :: p in streams ==> streams[p] <= Stream(log, p)
  }

  ghost function IDSet(ids: seq<PacketID>): set<PacketID> {
    set p | p in ids
  }

  ghost function Untargeted(streams: Streams, ids: seq<PacketID>): Streams {
    if ids == [] then map[] else streams - IDSet(ids)
  }

  /** Exactly when a refresh takes the records a store returned, in whatever order. */
  ghost predicate Loadable(c: Cache, records: multiset<EventRecord>, ids: seq<PacketID>, rebuild: bool) {
    && "" !in ids
    && Grouped(records).Some?
    && var loaded := Grouped(records).value;
    && (ids != [] ==> loaded.Keys <= IDSet(ids))
    && OwnEvents(loaded) && DistinctIn(loaded)
    && (rebuild ==> AllReplay(loaded) && StreamEventIDs(loaded) !! StreamEventIDs(Untargeted(c.streams, ids)))
  }

  /** The cache a refresh leaves: named streams replaced, everything derived from the result. */
  ghost predicate LoadedInto(c: Cache, records: multiset<EventRecord>, ids: seq<PacketID>, rebuild: bool,
                             after: Cache) {
    && Grouped(records).Some?
    && after.streams == Untargeted(c.streams, ids) + Grouped(records).value
    && (if rebuild then
          AllReplay(after.streams) && after.projection == Project(after.streams)
          && after.eventIDs == StreamEventIDs(after.streams) && after.ready
        else after == c.(streams := after.streams))
  }

  lemma HeldIDs(streams: Streams)
    ensures forall p, i :: p in streams && 0 <= i < |streams[p]| ==> streams[p][i].meta.id in StreamEventIDs(streams)
  {
    forall p, i | p in streams && 0 <= i < |streams[p]|
      ensures streams[p][i].meta.id in StreamEventIDs(streams)
    {
      assert streams[p][i] in streams[p];
    }
  }

  lemma LoadKeepsCoherent(c: Cache, records: multiset<EventRecord>, ids: seq<PacketID>, rebuild: bool, after: Cache)
    requires Coherent(c) && Loadable(c, records, ids, rebuild) && LoadedInto(c, records, ids, rebuild, after)
    requires rebuild && ids != [] ==> c.ready
    requires !rebuild ==> !c.ready
    ensures Coherent(after)
  {
    var loaded := Grouped(records).value;
    var kept: Streams := Untargeted(c.streams, ids);
    if rebuild {
      assert DistinctIn(kept);
      JoinedDistinct(kept, loaded);
    }
  }

  lemma JoinedDistinct(kept: Streams, loaded: Streams)
    requires DistinctIn(kept) && DistinctIn(loaded) && StreamEventIDs(loaded) !! StreamEventIDs(kept)
    requires kept.Keys !! loaded.Keys
    ensures DistinctIn(kept + loaded)
  {
    HeldIDs(loaded);
    HeldIDs(kept);
  }

  // ---- one record at a time -------------------------------------------------------------

  /** sortRecords: by packet, then by version. */
  predicate RecordLess(a: EventRecord, b: EventRecord) {
    if a.packetID != b.packetID then Less(a.packetID, b.packetID) else a.streamVersion < b.streamVersion
  }

  lemma RecordOrder()
    ensures StrictWeakOrder(RecordLess)
  {
    forall a: EventRecord, b: EventRecord | RecordLess(a, b)
      ensures !RecordLess(b, a)
    {
      LessTotal(a.packetID, b.packetID);
    }
    forall a: EventRecord, b: EventRecord, c: EventRecord | !RecordLess(a, b) && !RecordLess(b, c)
      ensures !RecordLess(a, c)
    {
      LessTotal(a.packetID, b.packetID);
      LessTotal(b.packetID, c.packetID);
      LessTotal(a.packetID, c.packetID);
      if Less(b.packetID, a.packetID) && Less(c.packetID, b.packetID) {
        LessTransitive(c.packetID, b.packetID, a.packetID);
      }
    }
  }

  lemma OccursPrefix(streams: Streams, whole: Streams, p: PacketID)
    requires forall r :: Occurs(streams, r) ==> Occurs(whole, r)
    requires p in streams && streams[p] != []
    ensures p in whole && streams[p] <= whole[p]
  {
    var n := |streams[p]|;
    assert Occurs(streams, EventRecord(p, n, streams[p][n - 1]));
    forall k | 0 <= k < n
      ensures streams[p][k] == whole[p][k]
    {
      assert Occurs(streams, EventRecord(p, k + 1, streams[p][k]));
    }
  }

  /** In sorted order the next record of representable records always extends its stream. */
  lemma NextRecord(sorted: seq<EventRecord>, i: nat, streams: Streams, whole: Streams)
    requires i < |sorted| && Ordered(sorted, RecordLess)
    requires Represents(multiset(sorted[..i]), streams) && Represents(multiset(sorted), whole)
    ensures sorted[i].streamVersion == |StreamIn(streams, sorted[i].packetID)| + 1
    ensures Occurs(whole, sorted[i])
    ensures forall r :: Occurs(streams, r) ==> Occurs(whole, r)
  {
    var r := sorted[i];
    var p, length := r.packetID, |StreamIn(streams, r.packetID)|;
    assert sorted == sorted[..i] + sorted[i..];
    assert multiset(sorted) == multiset(sorted[..i]) + multiset(sorted[i..]);
    assert r in sorted[i..];
    assert Occurs(whole, r);
    forall q | Occurs(streams, q)
      ensures Occurs(whole, q)
    {
      assert multiset(sorted[..i])[q] == 1;
    }
    assert !Occurs(streams, r);
    if p in streams {
      OccursPrefix(streams, whole, p);
    }
    assert r.streamVersion > length;
    var due := EventRecord(p, length + 1, whole[p][length]);
    assert Occurs(whole, due) && multiset(sorted)[due] == 1;
    assert !Occurs(streams, due) && multiset(sorted[..i])[due] == 0;
    assert due in sorted[i..];
    var j :| i <= j < |sorted| && sorted[j] == due;
    assert i < j ==> !RecordLess(sorted[j], sorted[i]);
  }

  lemma NewInStreams(streams: Streams, whole: Streams, r: EventRecord)
    requires Occurs(whole, r) && DistinctIn(whole)
    requires forall q :: Occurs(streams, q) ==> Occurs(whole, q)
    requires r.streamVersion == |StreamIn(streams, r.packetID)| + 1
    ensures r.event.meta.id !in StreamEventIDs(streams)
  {
    forall q, e | q in streams && e in streams[q]
      ensures e.meta.id != r.event.meta.id
    {
      var k :| 0 <= k < |streams[q]| && streams[q][k] == e;
      assert Occurs(streams, EventRecord(q, k + 1, e));
      assert whole[q][k] == e;
    }
  }

  /** Every record of an acceptable load passes each of the loop's checks. */
  lemma GoodRecord(c: Cache, sorted: seq<EventRecord>, ids: seq<PacketID>, rebuild: bool, i: nat, streams: Streams)
    requires i < |sorted| && Ordered(sorted, RecordLess)
    requires Represents(multiset(sorted[..i]), streams)
    requires Loadable(c, multiset(sorted), ids, rebuild)
    ensures var r := sorted[i];
            && (ids == [] || r.packetID in ids)
            && r.streamVersion == |StreamIn(streams, r.packetID)| + 1
            && EventPacketID(r.event) == r.packetID
            && r.event.meta.id !in StreamEventIDs(streams)
            && (rebuild ==> r.event.meta.id !in StreamEventIDs(Untargeted(c.streams, ids)))
            && (rebuild ==> Replay(StreamIn(streams, r.packetID) + [r.event]).Ok?)
  {
    var whole := Grouped(multiset(sorted)).value;
    var r := sorted[i];
    var p := r.packetID;
    NextRecord(sorted, i, streams, whole);
    HeldIDs(whole);
    NewInStreams(streams, whole, r);
    if p in streams {
      OccursPrefix(streams, whole, p);
    }
    assert whole[p][..r.streamVersion] == StreamIn(streams, p) + [r.event];
    if rebuild {
      ReplayPrefix(whole[p], r.streamVersion);
    }
  }

  lemma ExtendEventIDs(streams: Streams, r: EventRecord)
    ensures StreamEventIDs(Extend(streams, r)) == StreamEventIDs(streams) + {r.event.meta.id}
  {
    var after: Streams := Extend(streams, r);
    forall id | id in StreamEventIDs(streams)
      ensures id in StreamEventIDs(after)
    {
      var p, e :| p in streams && e in streams[p] && e.meta.id == id;
      assert p in after && e in after[p];
    }
    assert r.event in after[r.packetID];
  }

  lemma ExtendDistinct(streams: Streams, r: EventRecord)
    requires DistinctIn(streams) && r.event.meta.id !in StreamEventIDs(streams)
    ensures DistinctIn(Extend(streams, r))
  {
    var after: Streams := Extend(streams, r);
    forall p, i, q, j | p in after && q in after && 0 <= i < |after[p]| && 0 <= j < |after[q]|
      && after[p][i].meta.id == after[q][j].meta.id
      ensures p == q && i == j
    {
      if i < |StreamIn(streams, p)| {
        assert streams[p][i] in streams[p];
      }
      if j < |StreamIn(streams, q)| {
        assert streams[q][j] in streams[q];
      }
    }
  }

  lemma UntargetedIDs(c: Cache, ids: seq<PacketID>)
    requires Coherent(c) && c.ready && ids != []
    ensures StreamEventIDs(Untargeted(c.streams, ids))
         == c.eventIDs - (set p, e | p in ids && p in c.streams && e in c.streams[p] :: e.meta.id)
  {
    var kept: Streams := Untargeted(c.streams, ids);
    var dropped := set p, e | p in ids && p in c.streams && e in c.streams[p] :: e.meta.id;
    forall id | id in StreamEventIDs(kept)
      ensures id in c.eventIDs && id !in dropped
    {
      var p, e :| p in kept && e in kept[p] && e.meta.id == id;
      assert p in c.streams && e in c.streams[p];
      var i :| 0 <= i < |c.streams[p]| && c.streams[p][i] == e;
      forall q, f | q in ids && q in c.streams && f in c.streams[q]
        ensures f.meta.id != id
      {
        var j :| 0 <= j < |c.streams[q]| && c.streams[q][j] == f;
      }
    }
    forall id | id in c.eventIDs && id !in dropped
      ensures id in StreamEventIDs(kept)
    {
      var p, e :| p in c.streams && e in c.streams[p] && e.meta.id == id;
      assert p in kept && e in kept[p];
    }
  }

  // ---- a batch over cached streams ------------------------------------------------------

  ghost function EventsFor(events: seq<Event>, id: PacketID): seq<Event>
    decreases |events|
  {
    if |events| == 0 then []
    else
      var last := events[|events| - 1];
      EventsFor(events[..|events| - 1], id) + (if EventPacketID(last) == id then [last] else [])
  }

  lemma EventsForSnoc(events: seq<Event>, i: nat, id: PacketID)
    requires i < |events|
    ensures EventsFor(events[..i + 1], id)
         == EventsFor(events[..i], id) + (if EventPacketID(events[i]) == id then [events[i]] else [])
  {
    assert events[..i + 1][..i] == events[..i];
  }

  lemma {:induction false} EventsForPrefix(events: seq<Event>, i: nat, id: PacketID)
    requires i <= |events|
    ensures EventsFor(events[..i], id) <= EventsFor(events, id)
    decreases |events| - i
  {
    if i < |events| {
      EventsForSnoc(events, i, id);
      EventsForPrefix(events, i + 1, id);
    } else {
      assert events[..i] == events;
    }
  }

  ghost predicate Touches(events: seq<Event>, id: PacketID) {
    EventsFor(events, id) != []
  }

  ghost function TouchedBy(events: seq<Event>): set<PacketID> {
    set e | e in events :: EventPacketID(e)
  }

  lemma {:induction false} TouchedMember(events: seq<Event>, id: PacketID)
    ensures id in TouchedBy(events) <==> Touches(events, id)
    decreases |events|
  {
    if |events| > 0 {
      var n := |events| - 1;
      TouchedMember(events[..n], id);
      assert events == events[..n] + [events[n]];
    }
  }

  ghost predicate DistinctMeta(events: seq<Event>) {
    forall i, j :: 0 <= i < j < |events| ==> events[i].meta.id != events[j].meta.id
  }

  /** The record each event of a batch becomes over the streams its writer holds. */
  ghost function RecordsFor(streams: Streams, events: seq<Event>): (records: seq<EventRecord>)
    ensures |records| == |events|
    decreases |events|
  {
    if |events| == 0 then []
    else
      var n := |events| - 1;
      var p := EventPacketID(events[n]);
      RecordsFor(streams, events[..n])
      + [EventRecord(p, |StreamIn(streams, p)| + |EventsFor(events[..n], p)| + 1, events[n])]
  }

  ghost function Extended(streams: Streams, events: seq<Event>): Streams
    decreases |events|
  {
    if |events| == 0 then streams
    else
      var n := |events| - 1;
      Extend(Extended(streams, events[..n]), EventRecord(EventPacketID(events[n]), 0, events[n]))
  }

  // One event more extends one stream and the ids.
  lemma ExtendedLast(streams: Streams, events: seq<Event>, i: nat)
    requires i < |events|
    ensures Extended(streams, events[..i + 1])
         == Extend(Extended(streams, events[..i]), EventRecord(EventPacketID(events[i]), 0, events[i]))
    ensures IDsOf(events[..i + 1]) == IDsOf(events[..i]) + {events[i].meta.id}
  {
    assert events[..i + 1][..i] == events[..i];
    assert events[..i + 1] == events[..i] + [events[i]];
  }

  lemma {:induction false} ExtendedStream(streams: Streams, events: seq<Event>, id: PacketID)
    ensures StreamIn(Extended(streams, events), id) == StreamIn(streams, id) + EventsFor(events, id)
    ensures id in Extended(streams, events) <==> id in streams || Touches(events, id)
    decreases |events|
  {
    if |events| > 0 {
      var n := |events| - 1;
      ExtendedStream(streams, events[..n], id);
      ExtendSnoc(Extended(streams, events[..n]), EventRecord(EventPacketID(events[n]), 0, events[n]), id);
    }
  }

  lemma ExtendSnoc(streams: Streams, r: EventRecord, id: PacketID)
    ensures StreamIn(Extend(streams, r), id) == StreamIn(streams, id) + (if r.packetID == id then [r.event] else [])
    ensures id in Extend(streams, r) <==> id in streams || r.packetID == id
  {
  }

  lemma RecordsLast(streams: Streams, events: seq<Event>)
    requires |events| > 0
    ensures var init, last := events[..|events| - 1], events[|events| - 1];
            var p := EventPacketID(last);
            RecordsFor(streams, events) == RecordsFor(streams, init)
              + [EventRecord(p, |StreamIn(streams, p)| + |EventsFor(init, p)| + 1, last)]
  {
  }

  lemma {:induction false} RecordAt(streams: Streams, events: seq<Event>, i: nat)
    requires i < |events|
    ensures RecordsFor(streams, events)[..i] == RecordsFor(streams, events[..i])
    ensures var p := EventPacketID(events[i]);
            RecordsFor(streams, events)[i]
              == EventRecord(p, |StreamIn(streams, p)| + |EventsFor(events[..i], p)| + 1, events[i])
    decreases |events|
  {
    var n := |events| - 1;
    RecordsLast(streams, events);
    if i < n {
      RecordAt(streams, events[..n], i);
      assert events[..n][..i] == events[..i];
    }
  }

  lemma {:induction false} RecordStream(streams: Streams, events: seq<Event>, id: PacketID)
    ensures Stream(RecordsFor(streams, events), id) == EventsFor(events, id)
    decreases |events|
  {
    if |events| > 0 {
      var n := |events| - 1;
      RecordStream(streams, events[..n], id);
      StreamSnoc(RecordsFor(streams, events[..n]), RecordsFor(streams, events)[n], id);
    }
  }

  /** The batch passes every check a tracker can make without the store. */
  ghost predicate Foldable(c: Cache, events: seq<Event>) {
    && (forall e :: e in events ==> EventPacketID(e) != "" && e.meta.id !in c.eventIDs)
    && DistinctMeta(events)
    && (forall p :: Touches(events, p) ==> Replay(StreamIn(c.streams, p) + EventsFor(events, p)).Ok?)
  }

  /** Exactly when a tracker's batch reaches the log. */
  ghost predicate Committable(c: Cache, log: seq<EventRecord>, events: seq<Event>) {
    && Foldable(c, events)
    && (forall p :: Touches(events, p) ==> |Stream(log, p)| == |StreamIn(c.streams, p)|)
    && IDsOf(events) !! EventIDs(log)
  }

  ghost function VersionsSeen(streams: Streams, events: seq<Event>): map<PacketID, Version> {
    map p | p in TouchedBy(events) :: |StreamIn(streams, p)|
  }

  /** Every beginning of a foldable batch folds. */
  lemma GoodEvent(c: Cache, events: seq<Event>, i: nat)
    requires i < |events| && Foldable(c, events)
    ensures EventPacketID(events[i]) != "" && events[i].meta.id !in c.eventIDs
    ensures events[i].meta.id !in IDsOf(events[..i])
    ensures var p := EventPacketID(events[i]);
            Replay(StreamIn(c.streams, p) + EventsFor(events[..i + 1], p)).Ok?
  {
    assert events[i] in events;
    forall e | e in events[..i]
      ensures e.meta.id != events[i].meta.id
    {
      var k :| 0 <= k < i && events[k] == e;
    }
    var p := EventPacketID(events[i]);
    EventsForPrefix(events, i + 1, p);
    var whole := StreamIn(c.streams, p) + EventsFor(events, p);
    var part := StreamIn(c.streams, p) + EventsFor(events[..i + 1], p);
    assert whole[..|part|] == part;
    ReplayPrefix(whole, |part|);
  }

  lemma BatchPositioned(streams: Streams, events: seq<Event>)
    requires |events| > 0 && forall e :: e in events ==> EventPacketID(e) != ""
    ensures Positioned(VersionsSeen(streams, events), RecordsFor(streams, events))
  {
    var expected, batch := VersionsSeen(streams, events), RecordsFor(streams, events);
    forall i | 0 <= i < |batch|
      ensures PositionedAt(expected, batch, i)
    {
      RecordAt(streams, events, i);
      RecordStream(streams, events[..i], EventPacketID(events[i]));
      assert events[i] in events;
    }
  }

  lemma BatchUnique(streams: Streams, events: seq<Event>)
    ensures UniqueEventIDs(RecordsFor(streams, events)) <==> DistinctMeta(events)
    ensures EventIDs(RecordsFor(streams, events)) == IDsOf(events)
  {
    var batch := RecordsFor(streams, events);
    forall i | 0 <= i < |batch|
      ensures batch[i].event == events[i]
    {
      RecordAt(streams, events, i);
    }
    forall id
      ensures id in EventIDs(batch) <==> id in IDsOf(events)
    {
      if id in EventIDs(batch) {
        var r :| r in batch && r.event.meta.id == id;
        var k :| 0 <= k < |batch| && batch[k] == r;
        assert events[k] in events;
      }
      if id in IDsOf(events) {
        var e :| e in events && e.meta.id == id;
        var k :| 0 <= k < |events| && events[k] == e;
        assert batch[k] in batch;
      }
    }
  }

  /** A batch's records always fit the versions its writer saw, so a store can refuse it only
      for a version that moved or an event id already in the log. */
  lemma BatchAccepted(c: Cache, log: seq<EventRecord>, events: seq<Event>)
    requires Foldable(c, events) && |events| > 0
    ensures Accepts(log, VersionsSeen(c.streams, events), RecordsFor(c.streams, events))
       <==> Committable(c, log, events)
  {
    var expected, batch := VersionsSeen(c.streams, events), RecordsFor(c.streams, events);
    BatchPositioned(c.streams, events);
    BatchUnique(c.streams, events);
    CurrentVersions(c, log, events);
  }

  lemma CurrentVersions(c: Cache, log: seq<EventRecord>, events: seq<Event>)
    ensures Current(log, VersionsSeen(c.streams, events))
       <==> forall p :: Touches(events, p) ==> |Stream(log, p)| == |StreamIn(c.streams, p)|
  {
    forall p
      ensures p in TouchedBy(events) <==> Touches(events, p)
    {
      TouchedMember(events, p);
    }
  }

  /** One foldable event at a time keeps streams and ids in step. */
  lemma {:induction false} ExtendedDistinct(c: Cache, events: seq<Event>, n: nat)
    requires Coherent(c) && c.ready && Foldable(c, events) && n <= |events|
    ensures StreamEventIDs(Extended(c.streams, events[..n])) == c.eventIDs + IDsOf(events[..n])
    ensures DistinctIn(Extended(c.streams, events[..n]))
    decreases n
  {
    if n > 0 {
      ExtendedDistinct(c, events, n - 1);
      GoodEvent(c, events, n - 1);
      ExtendedStep(c.streams, events, n - 1, c.eventIDs);
    } else {
      assert events[..0] == [];
    }
  }

  lemma ExtendedStep(streams: Streams, events: seq<Event>, n: nat, ids: set<EventID>)
    requires n < |events|
    requires DistinctIn(Extended(streams, events[..n]))
    requires StreamEventIDs(Extended(streams, events[..n])) == ids + IDsOf(events[..n])
    requires events[n].meta.id !in ids && events[n].meta.id !in IDsOf(events[..n])
    ensures StreamEventIDs(Extended(streams, events[..n + 1])) == ids + IDsOf(events[..n + 1])
    ensures DistinctIn(Extended(streams, events[..n + 1]))
  {
    var before := Extended(streams, events[..n]);
    var r := EventRecord(EventPacketID(events[n]), 0, events[n]);
    ExtendedLast(streams, events, n);
    ExtendDistinct(before, r);
    ExtendEventIDs(before, r);
  }

  lemma ExtendedEntry(c: Cache, events: seq<Event>, p: PacketID)
    requires Coherent(c) && c.ready && Foldable(c, events) && p in Extended(c.streams, events)
    ensures var stream := Extended(c.streams, events)[p];
            stream != [] && Replay(stream).Ok? && forall e :: e in stream ==> EventPacketID(e) == p
  {
    ExtendedStream(c.streams, events, p);
    OwnEventsFor(events, p);
    var stream := Extended(c.streams, events)[p];
    assert stream == StreamIn(c.streams, p) + EventsFor(events, p);
    if !Touches(events, p) {
      assert stream == c.streams[p];
    }
  }

  lemma ExtendedCoherent(c: Cache, events: seq<Event>)
    requires Coherent(c) && c.ready && Foldable(c, events)
    ensures var after := Extended(c.streams, events);
            NoEmptyStream(after) && OwnEvents(after) && DistinctIn(after) && AllReplay(after)
            && StreamEventIDs(after) == c.eventIDs + IDsOf(events)
  {
    var after := Extended(c.streams, events);
    ExtendedDistinct(c, events, |events|);
    assert events[..|events|] == events;
    forall p | p in after
      ensures after[p] != [] && Replay(after[p]).Ok? && forall e :: e in after[p] ==> EventPacketID(e) == p
    {
      ExtendedEntry(c, events, p);
    }
  }

  lemma {:induction false} OwnEventsFor(events: seq<Event>, id: PacketID)
    ensures forall e :: e in EventsFor(events, id) ==> EventPacketID(e) == id
    decreases |events|
  {
    if |events| > 0 {
      OwnEventsFor(events[..|events| - 1], id);
    }
  }

  // ---- the same batch over the log itself -----------------------------------------------

  /** The log after a batch. */
  ghost function Appended(log: seq<EventRecord>, events: seq<Event>): seq<EventRecord>
    decreases |events|
  {
    if |events| == 0 then log
    else
      var n := |events| - 1;
      var before := Appended(log, events[..n]);
      var p := EventPacketID(events[n]);
      before + [EventRecord(p, |Stream(before, p)| + 1, events[n])]
  }

  /** The batch folds over the log's own streams and its event ids are new. */
  ghost predicate FoldsOnto(log: seq<EventRecord>, events: seq<Event>) {
    && (forall e :: e in events ==> EventPacketID(e) != "")
    && DistinctMeta(events) && IDsOf(events) !! EventIDs(log)
    && (forall p :: Touches(events, p) ==> Replay(Stream(log, p) + EventsFor(events, p)).Ok?)
  }

  lemma AppendedLast(log: seq<EventRecord>, events: seq<Event>) returns (before: seq<EventRecord>, r: EventRecord)
    requires |events| > 0
    ensures before == Appended(log, events[..|events| - 1]) && Appended(log, events) == before + [r]
    ensures var last := events[|events| - 1];
            r == EventRecord(EventPacketID(last), |Stream(before, EventPacketID(last))| + 1, last)
  {
    var last := events[|events| - 1];
    before := Appended(log, events[..|events| - 1]);
    r := EventRecord(EventPacketID(last), |Stream(before, EventPacketID(last))| + 1, last);
  }

  lemma EventsForInit(events: seq<Event>, id: PacketID)
    requires |events| > 0
    ensures var last := events[|events| - 1];
            EventsFor(events, id)
              == EventsFor(events[..|events| - 1], id) + (if EventPacketID(last) == id then [last] else [])
  {
  }

  lemma {:induction false} AppendedStream(log: seq<EventRecord>, events: seq<Event>, id: PacketID)
    ensures log <= Appended(log, events)
    ensures Stream(Appended(log, events), id) == Stream(log, id) + EventsFor(events, id)
    decreases |events|
  {
    if |events| > 0 {
      var before, r := AppendedLast(log, events);
      AppendedStream(log, events[..|events| - 1], id);
      StreamSnoc(before, r, id);
      EventsForInit(events, id);
    }
  }

  ghost predicate Measured(log: seq<EventRecord>, streams: Streams, event: Event) {
    |StreamIn(streams, EventPacketID(event))| == |Stream(log, EventPacketID(event))|
  }

  // The last record of both forms of a batch.
  lemma LastRecord(log: seq<EventRecord>, streams: Streams, events: seq<Event>) returns (r: EventRecord)
    requires |events| > 0 && Measured(log, streams, events[|events| - 1])
    ensures Appended(log, events) == Appended(log, events[..|events| - 1]) + [r]
    ensures RecordsFor(streams, events) == RecordsFor(streams, events[..|events| - 1]) + [r]
  {
    var before;
    before, r := AppendedLast(log, events);
    AppendedStream(log, events[..|events| - 1], EventPacketID(events[|events| - 1]));
    RecordsLast(streams, events);
  }

  lemma {:induction false} AppendedRecords(log: seq<EventRecord>, streams: Streams, events: seq<Event>)
    requires forall i :: 0 <= i < |events| ==> Measured(log, streams, events[i])
    ensures Appended(log, events) == log + RecordsFor(streams, events)
    decreases |events|
  {
    if |events| > 0 {
      var init := events[..|events| - 1];
      AppendedRecords(log, streams, init);
      var r := LastRecord(log, streams, events);
      assert (log + RecordsFor(streams, init)) + [r] == log + (RecordsFor(streams, init) + [r]);
    }
  }

  lemma BehindIDs(c: Cache, log: seq<EventRecord>)
    requires Coherent(c) && c.ready && Behind(c.streams, log)
    ensures c.eventIDs <= EventIDs(log)
  {
    forall id | id in c.eventIDs
      ensures id in EventIDs(log)
    {
      var p, e :| p in c.streams && e in c.streams[p] && e.meta.id == id;
      var k :| 0 <= k < |c.streams[p]| && c.streams[p][k] == e;
      var i := StreamPosition(log, p, k);
      assert log[i] in log;
    }
  }

  lemma TouchesEach(events: seq<Event>, i: nat)
    requires i < |events|
    ensures Touches(events, EventPacketID(events[i]))
  {
    EventsForSnoc(events, i, EventPacketID(events[i]));
    EventsForPrefix(events, i + 1, EventPacketID(events[i]));
  }

  lemma FreshRecords(streams: Streams, log: seq<EventRecord>, events: seq<Event>)
    requires forall p :: Touches(events, p) ==> StreamIn(streams, p) == Stream(log, p)
    ensures log + RecordsFor(streams, events) == Appended(log, events)
  {
    forall i | 0 <= i < |events|
      ensures Measured(log, streams, events[i])
    {
      TouchesEach(events, i);
    }
    AppendedRecords(log, streams, events);
  }

  /** When the touched streams are up to date, only the log decides. */
  lemma FreshBatch(c: Cache, log: seq<EventRecord>, events: seq<Event>)
    requires Coherent(c) && c.ready && Behind(c.streams, log)
    requires forall p :: Touches(events, p) ==> StreamIn(c.streams, p) == Stream(log, p)
    ensures Committable(c, log, events) <==> FoldsOnto(log, events)
  {
    assert c.eventIDs <= EventIDs(log) by {
      BehindIDs(c, log);
    }
    assert forall e :: e in events ==> e.meta.id in IDsOf(events);
  }

  lemma CommittedStream(streams: Streams, log: seq<EventRecord>, events: seq<Event>, p: PacketID)
    requires StreamIn(streams, p) <= Stream(log, p)
    requires Touches(events, p) ==> |Stream(log, p)| == |StreamIn(streams, p)|
    ensures StreamIn(Extended(streams, events), p) <= Stream(log + RecordsFor(streams, events), p)
    ensures Touches(events, p) ==>
              StreamIn(Extended(streams, events), p) == Stream(log + RecordsFor(streams, events), p)
  {
    var cached, logged, added := StreamIn(streams, p), Stream(log, p), EventsFor(events, p);
    assert StreamIn(Extended(streams, events), p) == cached + added by {
      ExtendedStream(streams, events, p);
    }
    assert Stream(log + RecordsFor(streams, events), p) == logged + added by {
      StreamConcat(log, RecordsFor(streams, events), p);
      RecordStream(streams, events, p);
    }
    if Touches(events, p) {
      assert cached == logged;
    } else {
      assert cached + added == cached && logged + added == logged;
    }
  }

  /** A cache behind the log, and equal to it where a batch is to go, stays behind it after. */
  lemma CommitStaysBehind(streams: Streams, log: seq<EventRecord>, events: seq<Event>)
    requires Behind(streams, log)
    requires forall p :: Touches(events, p) ==> |Stream(log, p)| == |StreamIn(streams, p)|
    ensures Behind(Extended(streams, events), log + RecordsFor(streams, events))
    ensures forall p :: Touches(events, p) ==>
              StreamIn(Extended(streams, events), p) == Stream(log + RecordsFor(streams, events), p)
  {
    forall p
      ensures StreamIn(Extended(streams, events), p) <= Stream(log + RecordsFor(streams, events), p)
      ensures Touches(events, p) ==>
                StreamIn(Extended(streams, events), p) == Stream(log + RecordsFor(streams, events), p)
    {
      CommittedStream(streams, log, events, p);
    }
  }

  // ---- a refresh against the log itself -------------------------------------------------

  lemma GroupedIs(records: multiset<EventRecord>, streams: Streams)
    requires Represents(records, streams)
    ensures Grouped(records) == Some(streams)
  {
    RepresentsUnique(records, streams, Grouped(records).value);
  }

  /** Two places in a log's streams with one event id are one place. */
  lemma LogDistinct(log: seq<EventRecord>, p: PacketID, k: nat, q: PacketID, l: nat)
    requires UniqueEventIDs(log) && k < |Stream(log, p)| && l < |Stream(log, q)|
    requires Stream(log, p)[k].meta.id == Stream(log, q)[l].meta.id
    ensures p == q && k == l
  {
    var i := StreamPosition(log, p, k);
    var j := StreamPosition(log, q, l);
  }

  lemma LogOwns(log: seq<EventRecord>, p: PacketID, k: nat)
    requires Placed(log) && k < |Stream(log, p)|
    ensures EventPacketID(Stream(log, p)[k]) == p && p != ""
  {
    var i := StreamPosition(log, p, k);
    assert PlacedAt(log, i);
  }

  ghost predicate Targets(ids: seq<PacketID>, p: PacketID) {
    ids == [] || p in ids
  }

  /** What a store keeps for the packets asked for: everything when none is named. */
  ghost function LoadOf(log: seq<EventRecord>, ids: seq<PacketID>): seq<EventRecord> {
    if ids == [] then log else Only(log, IDSet(ids))
  }

  lemma {:induction false} OnlyAll(log: seq<EventRecord>, ids: set<PacketID>)
    requires forall i :: 0 <= i < |log| ==> log[i].packetID in ids
    ensures Only(log, ids) == log
    decreases |log|
  {
    if |log| > 0 {
      var n := |log| - 1;
      OnlyAll(log[..n], ids);
      assert log == log[..n] + [log[n]];
    }
  }

  ghost predicate StreamsFor(loaded: Streams, log: seq<EventRecord>, ids: seq<PacketID>) {
    && NoEmptyStream(loaded)
    && forall p :: StreamIn(loaded, p) == if Targets(ids, p) then Stream(log, p) else []
  }

  /** Loading a well-placed log gives exactly its streams for the packets asked for. */
  lemma LoadedStreams(log: seq<EventRecord>, ids: seq<PacketID>)
    requires Placed(log)
    ensures Grouped(multiset(LoadOf(log, ids))).Some?
    ensures StreamsFor(Grouped(multiset(LoadOf(log, ids))).value, log, ids)
  {
    var wanted := if ids == [] then Touched(log) else IDSet(ids);
    if ids == [] {
      OnlyAll(log, wanted);
    }
    OnlyRepresents(log, wanted);
    GroupedIs(multiset(LoadOf(log, ids)), StreamsOf(log, wanted));
    forall p
      ensures p in Touched(log) <==> Stream(log, p) != []
    {
      TouchedStream(log, p);
    }
  }

  /** Streams that say no more than the log share its soundness. */
  lemma BehindSound(streams: Streams, log: seq<EventRecord>)
    requires StoreLog(log) && Behind(streams, log)
    ensures OwnEvents(streams) && DistinctIn(streams)
    ensures Replays(log) ==> AllReplay(streams)
  {
    forall p, k | p in streams && 0 <= k < |streams[p]|
      ensures EventPacketID(streams[p][k]) == p
    {
      assert streams[p] <= Stream(log, p);
      LogOwns(log, p, k);
    }
    forall p, k, q, l | p in streams && q in streams && 0 <= k < |streams[p]| && 0 <= l < |streams[q]|
      ensures streams[p][k].meta.id == streams[q][l].meta.id ==> p == q && k == l
    {
      assert streams[p] <= Stream(log, p) && streams[q] <= Stream(log, q);
      if streams[p][k].meta.id == streams[q][l].meta.id {
        LogDistinct(log, p, k, q, l);
      }
    }
    if Replays(log) {
      forall p | p in streams
        ensures Replay(streams[p]).Ok?
      {
        assert streams[p] == Stream(log, p)[..|streams[p]|];
        ReplayPrefix(Stream(log, p), |streams[p]|);
      }
    }
  }

  /** Streams of different packets share no event id. */
  lemma BehindApart(a: Streams, b: Streams, log: seq<EventRecord>)
    requires StoreLog(log) && Behind(a, log) && Behind(b, log) && a.Keys !! b.Keys
    ensures StreamEventIDs(a) !! StreamEventIDs(b)
  {
    forall p, e, q, f | p in a && e in a[p] && q in b && f in b[q]
      ensures e.meta.id != f.meta.id
    {
      var k :| 0 <= k < |a[p]| && a[p][k] == e;
      var l :| 0 <= l < |b[q]| && b[q][l] == f;
      assert a[p] <= Stream(log, p) && b[q] <= Stream(log, q);
      DifferentPackets(log, p, k, q, l);
    }
  }

  lemma LoadedBehind(loaded: Streams, log: seq<EventRecord>, ids: seq<PacketID>)
    requires StreamsFor(loaded, log, ids)
    ensures Behind(loaded, log) && forall p :: p in loaded ==> Targets(ids, p)
    ensures AllReplay(loaded) <==> forall p :: Targets(ids, p) ==> Replay(Stream(log, p)).Ok?
  {
    forall p
      ensures p in loaded && Targets(ids, p) ==> loaded[p] == Stream(log, p)
      ensures p !in loaded && Targets(ids, p) ==> Stream(log, p) == []
      ensures p in loaded ==> Targets(ids, p)
    {
      assert StreamIn(loaded, p) == if Targets(ids, p) then Stream(log, p) else [];
    }
    assert Replay([]).Ok?;
  }

  /** A refresh from a log can fail only on an empty id or a stream that does not replay. */
  lemma LogLoadable(c: Cache, log: seq<EventRecord>, ids: seq<PacketID>, rebuild: bool)
    requires StoreLog(log) && Behind(c.streams, log)
    ensures Loadable(c, multiset(LoadOf(log, ids)), ids, rebuild)
       <==> "" !in ids && (rebuild ==> forall p :: Targets(ids, p) ==> Replay(Stream(log, p)).Ok?)
  {
    LoadedStreams(log, ids);
    var loaded: Streams := Grouped(multiset(LoadOf(log, ids))).value;
    LoadedBehind(loaded, log, ids);
    BehindSound(loaded, log);
    BehindApart(loaded, Untargeted(c.streams, ids), log);
  }

  lemma DifferentPackets(log: seq<EventRecord>, p: PacketID, k: nat, q: PacketID, l: nat)
    requires UniqueEventIDs(log) && k < |Stream(log, p)| && l < |Stream(log, q)| && p != q
    ensures Stream(log, p)[k].meta.id != Stream(log, q)[l].meta.id
  {
    var i := StreamPosition(log, p, k);
    var j := StreamPosition(log, q, l);
  }

  /** After a refresh the named streams are the log's and the others are as they were. */
  ghost predicate RefreshedFrom(before: Streams, log: seq<EventRecord>, ids: seq<PacketID>, after: Streams) {
    forall p :: StreamIn(after, p) == if Targets(ids, p) then Stream(log, p) else StreamIn(before, p)
  }

  lemma RefreshStaysBehind(c: Cache, log: seq<EventRecord>, ids: seq<PacketID>, rebuild: bool, after: Cache)
    requires StoreLog(log) && Behind(c.streams, log)
    requires LoadedInto(c, multiset(LoadOf(log, ids)), ids, rebuild, after)
    ensures RefreshedFrom(c.streams, log, ids, after.streams)
    ensures Behind(after.streams, log)
  {
    LoadedStreams(log, ids);
    var loaded: Streams := Grouped(multiset(LoadOf(log, ids))).value;
    forall p
      ensures StreamIn(after.streams, p) == if Targets(ids, p) then Stream(log, p) else StreamIn(c.streams, p)
    {
      assert StreamIn(loaded, p) == (if Targets(ids, p) then Stream(log, p) else []);
    }
    forall p | p in after.streams
      ensures after.streams[p] <= Stream(log, p)
    {
      assert StreamIn(after.streams, p) == if Targets(ids, p) then Stream(log, p) else StreamIn(c.streams, p);
    }
  }

  // ---- a refresh whose queries are answered at different moments ---------------------------

  /** What a refresh of a cache may see of a log that grew meanwhile. Packets that are named are
      read by a query each, at moments of their own; everything is read by one query. No moment
      lies before the refresh began, so nothing cached goes unread. */
  ghost predicate Glimpsed(c: Cache, log: seq<EventRecord>, ids: seq<PacketID>, loaded: Streams) {
    && NoEmptyStream(loaded) && Behind(loaded, log) && (forall p :: p in loaded ==> Targets(ids, p))
    && (forall p :: Targets(ids, p) ==> StreamIn(c.streams, p) <= StreamIn(loaded, p))
    && (ids == [] ==> exists n: nat :: n <= |log| && StreamsFor(loaded, log[..n], []))
  }

  /** Over a log that replays every such refresh succeeds. */
  lemma GlimpseLoadable(c: Cache, log: seq<EventRecord>, records: multiset<EventRecord>, ids: seq<PacketID>,
                        rebuild: bool)
    requires StoreLog(log) && Replays(log) && Behind(c.streams, log) && "" !in ids
    requires Grouped(records).Some? && Glimpsed(c, log, ids, Grouped(records).value)
    ensures Loadable(c, records, ids, rebuild)
  {
    var loaded: Streams := Grouped(records).value;
    BehindSound(loaded, log);
    BehindApart(loaded, Untargeted(c.streams, ids), log);
  }

  /** It leaves the cache behind the log, with every stream as far as it was or further. */
  lemma GlimpseStaysBehind(c: Cache, log: seq<EventRecord>, records: multiset<EventRecord>, ids: seq<PacketID>,
                           rebuild: bool, after: Cache)
    requires Behind(c.streams, log) && Grouped(records).Some? && Glimpsed(c, log, ids, Grouped(records).value)
    requires LoadedInto(c, records, ids, rebuild, after)
    ensures Behind(after.streams, log)
    ensures forall p :: StreamIn(c.streams, p) <= StreamIn(after.streams, p)
    ensures forall p :: StreamIn(after.streams, p)
              == if Targets(ids, p) then StreamIn(Grouped(records).value, p) else StreamIn(c.streams, p)
  {
  }

  lemma LoadGlimpsed(c: Cache, log: seq<EventRecord>, ids: seq<PacketID>)
    requires Placed(log) && Behind(c.streams, log)
    ensures Grouped(multiset(LoadOf(log, ids))).Some?
    ensures Glimpsed(c, log, ids, Grouped(multiset(LoadOf(log, ids))).value)
  {
    LoadedStreams(log, ids);
    LoadedBehind(Grouped(multiset(LoadOf(log, ids))).value, log, ids);
    assert log[..|log|] == log;
  }

  /** Growth of the log never leaves a cache ahead of it. */
  lemma GrowthKeepsBehind(streams: Streams, log: seq<EventRecord>, later: seq<EventRecord>)
    requires Behind(streams, log) && log <= later
    ensures Behind(streams, later)
  {
    forall p | p in streams
      ensures streams[p] <= Stream(later, p)
    {
      StreamConcat(log, later[|log|..], p);
      assert later == log + later[|log|..];
    }
  }
}
