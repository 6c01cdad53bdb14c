/** packet/tracker.go: a tracker's refreshes, its compare-and-set appends and its commands. */
module Tracking {
  import opened Basics
  import opened PacketTypes
  import opened Lifecycle
  import opened EventLog
  import opened EventStore
  import opened TrackerCache
  import opened Commands

  datatype Gathered = Gathered(
    streams: map<PacketID, seq<Event>>, projection: map<PacketID, Packet>, used: set<EventID>)

  ghost predicate GatheredSoFar(g: Gathered, records: multiset<EventRecord>, kept: set<EventID>, rebuild: bool) {
    && Represents(records, g.streams) && OwnEvents(g.streams) && DistinctIn(g.streams)
    && g.used == kept + StreamEventIDs(g.streams) && kept !! StreamEventIDs(g.streams)
    && (rebuild ==> AllReplay(g.streams) && g.projection == Project(g.streams))
  }

  lemma ProjectExtend(streams: Streams, projection: map<PacketID, Packet>, r: EventRecord, packet: Packet)
    requires AllReplay(streams) && projection == Project(streams)
    requires Replay(StreamIn(streams, r.packetID) + [r.event]) == Ok(packet)
    ensures AllReplay(Extend(streams, r)) && projection[r.packetID := packet] == Project(Extend(streams, r))
  {
    ProjectUpdate(streams, r.packetID, StreamIn(streams, r.packetID) + [r.event], packet);
  }

  lemma ProjectUpdate(streams: Streams, p: PacketID, stream: seq<Event>, packet: Packet)
    requires AllReplay(streams) && Replay(stream) == Ok(packet)
    ensures AllReplay(streams[p := stream]) && Project(streams)[p := packet] == Project(streams[p := stream])
  {
  }

  lemma GatherStep(g: Gathered, records: multiset<EventRecord>, kept: set<EventID>, rebuild: bool,
                   r: EventRecord, after: Gathered)
    requires GatheredSoFar(g, records, kept, rebuild)
    requires r.streamVersion == |StreamIn(g.streams, r.packetID)| + 1
    requires EventPacketID(r.event) == r.packetID && r.event.meta.id !in g.used
    requires after.streams == Extend(g.streams, r) && after.used == g.used + {r.event.meta.id}
    requires rebuild ==> AllReplay(after.streams) && after.projection == Project(after.streams)
    ensures GatheredSoFar(after, records + multiset{r}, kept, rebuild)
  {
    RepresentsSnoc(records, g.streams, r);
    ExtendDistinct(g.streams, r);
    ExtendEventIDs(g.streams, r);
    ExtendOwns(g.streams, r);
  }

  lemma ExtendOwns(streams: Streams, r: EventRecord)
    requires OwnEvents(streams) && EventPacketID(r.event) == r.packetID
    ensures OwnEvents(Extend(streams, r))
  {
  }

  /** The checks one record must pass, given the records before it in sorted order. */
  ghost predicate Fits(g: Gathered, record: EventRecord, packetIDs: seq<PacketID>, rebuild: bool) {
    && (packetIDs == [] || record.packetID in packetIDs)
    && record.streamVersion == |StreamIn(g.streams, record.packetID)| + 1
    && EventPacketID(record.event) == record.packetID
    && record.event.meta.id !in g.used
    && (rebuild ==> Replay(StreamIn(g.streams, record.packetID) + [record.event]).Ok?)
  }

  // Applying a record to the projection folds its stream one event further.
  lemma AppliedNext(streams: Streams, projection: map<PacketID, Packet>, record: EventRecord, packet: Packet)
    requires AllReplay(streams) && projection == Project(streams)
    requires packet == if record.packetID in projection then projection[record.packetID] else NO_PACKET
    ensures Replay(StreamIn(streams, record.packetID) + [record.event]) == ApplyEvent(packet, record.event)
  {
    FoldSnoc(NO_PACKET, StreamIn(streams, record.packetID), record.event);
  }

  method GatherOne(g: Gathered, record: EventRecord, rebuildProjection: bool, packetIDs: seq<PacketID>,
                   ghost records: multiset<EventRecord>, ghost kept: set<EventID>)
    returns (r: Result<Gathered, Error>)
    requires GatheredSoFar(g, records, kept, rebuildProjection)
    ensures r.Ok? <==> Fits(g, record, packetIDs, rebuildProjection)
    ensures r.Ok? ==> r.value.streams == Extend(g.streams, record)
    ensures r.Ok? ==> GatheredSoFar(r.value, records + multiset{record}, kept, rebuildProjection)
  {
    if packetIDs != [] && record.packetID !in packetIDs {
      return Err(InvalidEvent);
    }
    var history := if record.packetID in g.streams then g.streams[record.packetID] else [];
    if record.streamVersion != |history| + 1 || EventPacketID(record.event) != record.packetID
       || record.event.meta.id in g.used
    {
      return Err(InvalidEvent);
    }
    var rebuilt := g.projection;
    if rebuildProjection {
      var packet := if record.packetID in rebuilt then rebuilt[record.packetID] else NO_PACKET;
      var applied := ApplyEvent(packet, record.event);
      AppliedNext(g.streams, rebuilt, record, packet);
      if applied.Err? {
        return Err(applied.error);
      }
      ProjectExtend(g.streams, rebuilt, record, applied.value);
      rebuilt := rebuilt[record.packetID := applied.value];
    }
    var after := Gathered(g.streams[record.packetID := history + [record.event]], rebuilt,
                          g.used + {record.event.meta.id});
    GatherStep(g, records, kept, rebuildProjection, record, after);
    return Ok(after);
  }

  lemma NothingGathered(kept: set<EventID>, rebuild: bool, g: Gathered)
    requires g == Gathered(map[], map[], kept)
    ensures GatheredSoFar(g, multiset{}, kept, rebuild)
  {
  }

  lemma GoodFits(c: Cache, sorted: seq<EventRecord>, ids: seq<PacketID>, rebuild: bool, i: nat, g: Gathered,
                 kept: set<EventID>)
    requires i < |sorted| && Ordered(sorted, RecordLess) && Loadable(c, multiset(sorted), ids, rebuild)
    requires GatheredSoFar(g, multiset(sorted[..i]), kept, rebuild)
    requires kept == if rebuild then StreamEventIDs(Untargeted(c.streams, ids)) else {}
    ensures Fits(g, sorted[i], ids, rebuild)
  {
    GoodRecord(c, sorted, ids, rebuild, i, g.streams);
  }

  lemma GatheredLoads(g: Gathered, c: Cache, records: multiset<EventRecord>, kept: set<EventID>, ids: seq<PacketID>,
                      rebuild: bool)
    requires GatheredSoFar(g, records, kept, rebuild) && (ids == [] || g.streams.Keys <= IDSet(ids)) && "" !in ids
    requires kept == if rebuild then StreamEventIDs(Untargeted(c.streams, ids)) else {}
    ensures Loadable(c, records, ids, rebuild)
  {
    GroupedIs(records, g.streams);
  }

  // The record loop of refreshLocked, over sorted records.
  method Gather(records: seq<EventRecord>, rebuildProjection: bool, packetIDs: seq<PacketID>,
                kept: set<EventID>, ghost c: Cache)
    returns (r: Result<Gathered, Error>)
    requires Ordered(records, RecordLess) && "" !in packetIDs
    requires kept == if rebuildProjection then StreamEventIDs(Untargeted(c.streams, packetIDs)) else {}
    ensures r.Ok? <==> Loadable(c, multiset(records), packetIDs, rebuildProjection)
    ensures r.Ok? ==> GatheredSoFar(r.value, multiset(records), kept, rebuildProjection)
    ensures r.Ok? ==> packetIDs == [] || r.value.streams.Keys <= IDSet(packetIDs)
  {
    var g := Gathered(map[], map[], kept);
    NothingGathered(kept, rebuildProjection, g);
    assert records[..0] == [];
    for i := 0 to |records|
      invariant GatheredSoFar(g, multiset(records[..i]), kept, rebuildProjection)
      invariant packetIDs == [] || g.streams.Keys <= IDSet(packetIDs)
    {
      if Loadable(c, multiset(records), packetIDs, rebuildProjection) {
        GoodFits(c, records, packetIDs, rebuildProjection, i, g, kept);
      }
      var next := GatherOne(g, records[i], rebuildProjection, packetIDs, multiset(records[..i]), kept);
      if next.Err? {
        return next;
      }
      TakeOneMore(records, i);
      g := next.value;
    }
    assert records[..|records|] == records;
    GatheredLoads(g, c, multiset(records), kept, packetIDs, rebuildProjection);
    return Ok(g);
  }

  /** The cache once gathered records have replaced the streams they were asked for. */
  ghost predicate InstalledInto(c: Cache, g: Gathered, ids: seq<PacketID>, rebuild: bool, after: Cache) {
    var targets := IDSet(ids);
    if ids == [] then
      after == (if rebuild then Cache(g.streams, g.projection, g.used, true) else c.(streams := g.streams))
    else
      && after.streams == (c.streams - targets) + g.streams && after.ready == c.ready
      && after.projection == (if rebuild then (c.projection - targets) + g.projection else c.projection)
      && after.eventIDs == (if rebuild then g.used else c.eventIDs)
  }

  lemma ProjectSplit(held: Streams, found: Streams, targets: set<PacketID>)
    requires AllReplay(held) && AllReplay(found)
    ensures AllReplay((held - targets) + found)
    ensures (Project(held) - targets) + Project(found) == Project((held - targets) + found)
  {
  }

  lemma InstalledLoads(c: Cache, g: Gathered, records: multiset<EventRecord>, kept: set<EventID>,
                       ids: seq<PacketID>, rebuild: bool, after: Cache)
    requires Coherent(c) && (rebuild && ids != [] ==> c.ready)
    requires GatheredSoFar(g, records, kept, rebuild) && (ids == [] || g.streams.Keys <= IDSet(ids))
    requires rebuild ==> kept == StreamEventIDs(Untargeted(c.streams, ids))
    requires InstalledInto(c, g, ids, rebuild, after)
    ensures LoadedInto(c, records, ids, rebuild, after)
  {
    GroupedIs(records, g.streams);
    assert after.streams == Untargeted(c.streams, ids) + g.streams;
    if rebuild {
      InstalledIDs(Untargeted(c.streams, ids), g.streams);
      if ids != [] {
        ProjectSplit(c.streams, g.streams, IDSet(ids));
      }
    }
  }

  // The maps appendLocked keeps while it folds a batch on private copies.
  datatype Folding = Folding(
    working: map<PacketID, Packet>,
    batchIDs: set<EventID>,
    expected: map<PacketID, Version>,
    next: map<PacketID, Version>,
    records: seq<EventRecord>)

  ghost predicate FoldedPacket(f: Folding, c: Cache, events: seq<Event>, p: PacketID) {
    var stream := StreamIn(c.streams, p) + EventsFor(events, p);
    if Touches(events, p) then
      && p in f.working && p in f.expected && p in f.next
      && Replay(stream) == Ok(f.working[p])
      && f.expected[p] == |StreamIn(c.streams, p)| && f.next[p] == |stream| + 1
    else
      p !in f.working && p !in f.expected && p !in f.next
  }

  ghost predicate FoldedSoFar(f: Folding, c: Cache, events: seq<Event>) {
    && (forall p :: FoldedPacket(f, c, events, p))
    && (forall e :: e in events ==> EventPacketID(e) != "" && e.meta.id !in c.eventIDs)
    && DistinctMeta(events) && f.batchIDs == IDsOf(events)
    && f.records == RecordsFor(c.streams, events)
  }

  lemma EventsForLast(events: seq<Event>, e: Event, p: PacketID)
    ensures EventsFor(events + [e], p) == EventsFor(events, p) + (if EventPacketID(e) == p then [e] else [])
  {
    assert (events + [e])[..|events|] == events;
  }

  lemma RecordsForLast(streams: Streams, events: seq<Event>, e: Event)
    ensures var p := EventPacketID(e);
            RecordsFor(streams, events + [e])
              == RecordsFor(streams, events) + [EventRecord(p, |StreamIn(streams, p)| + |EventsFor(events, p)| + 1, e)]
  {
    RecordsLast(streams, events + [e]);
    assert (events + [e])[..|events|] == events;
  }

  /** Where a batch may go next: the event is somebody's, its id is new, and it applies. */
  ghost predicate Follows(c: Cache, events: seq<Event>, e: Event) {
    var p := EventPacketID(e);
    && p != "" && e.meta.id !in c.eventIDs && e.meta.id !in IDsOf(events)
    && Replay(StreamIn(c.streams, p) + EventsFor(events + [e], p)).Ok?
  }

  /** The packet, version and expected version the loop looks up are the fold's own. */
  lemma FoldLookup(f: Folding, c: Cache, events: seq<Event>, p: PacketID)
    requires Coherent(c) && c.ready && FoldedSoFar(f, c, events)
    ensures var stream := StreamIn(c.streams, p) + EventsFor(events, p);
            if p in f.working then
              p in f.next && Replay(stream) == Ok(f.working[p]) && f.next[p] == |stream| + 1
              && p in f.expected && f.expected[p] == |StreamIn(c.streams, p)|
            else
              stream == StreamIn(c.streams, p)
              && Replay(stream) == Ok(if p in c.projection then c.projection[p] else NO_PACKET)
  {
    assert FoldedPacket(f, c, events, p);
    assert !Touches(events, p) ==> StreamIn(c.streams, p) + EventsFor(events, p) == StreamIn(c.streams, p);
  }

  ghost predicate Advanced(f: Folding, c: Cache, events: seq<Event>, e: Event, version: Version, packet: Packet,
                           after: Folding)
  {
    var p := EventPacketID(e);
    && after.working == f.working[p := packet]
    && after.expected == f.expected[p := |StreamIn(c.streams, p)|]
    && after.next == f.next[p := version + 1]
    && version == |StreamIn(c.streams, p) + EventsFor(events, p)| + 1
    && Replay(StreamIn(c.streams, p) + EventsFor(events + [e], p)) == Ok(packet)
    && after.records == f.records + [EventRecord(p, version, e)]
    && after.batchIDs == f.batchIDs + {e.meta.id}
  }

  lemma FoldStepPacket(f: Folding, c: Cache, events: seq<Event>, e: Event, version: Version, packet: Packet,
                       after: Folding, q: PacketID)
    requires FoldedPacket(f, c, events, q) && Advanced(f, c, events, e, version, packet, after)
    ensures FoldedPacket(after, c, events + [e], q)
  {
    EventsForLast(events, e, q);
    if q != EventPacketID(e) {
      assert EventsFor(events + [e], q) == EventsFor(events, q);
    }
  }

  lemma FoldStep(f: Folding, c: Cache, events: seq<Event>, e: Event, version: Version, packet: Packet, after: Folding)
    requires FoldedSoFar(f, c, events) && Follows(c, events, e)
    requires Advanced(f, c, events, e, version, packet, after)
    ensures FoldedSoFar(after, c, events + [e])
  {
    forall q
      ensures FoldedPacket(after, c, events + [e], q)
    {
      assert FoldedPacket(f, c, events, q);
      FoldStepPacket(f, c, events, e, version, packet, after, q);
    }
    MetaSnoc(events, e);
    assert after.records == RecordsFor(c.streams, events + [e]) by {
      FoldStepRecords(f, c, events, e, version, packet, after);
    }
  }

  lemma FoldStepRecords(f: Folding, c: Cache, events: seq<Event>, e: Event, version: Version, packet: Packet,
                        after: Folding)
    requires f.records == RecordsFor(c.streams, events) && Advanced(f, c, events, e, version, packet, after)
    ensures after.records == RecordsFor(c.streams, events + [e])
  {
    RecordsForLast(c.streams, events, e);
  }

  lemma MetaSnoc(events: seq<Event>, e: Event)
    requires DistinctMeta(events) && e.meta.id !in IDsOf(events)
    ensures DistinctMeta(events + [e]) && IDsOf(events + [e]) == IDsOf(events) + {e.meta.id}
  {
    assert forall d :: d in events ==> d.meta.id in IDsOf(events);
  }

  method FoldOne(f: Folding, streams: map<PacketID, seq<Event>>, projection: map<PacketID, Packet>,
                 eventIDs: set<EventID>, event: Event, ghost events: seq<Event>)
    returns (r: Result<Folding, Error>)
    requires var c := Cache(streams, projection, eventIDs, true); Coherent(c) && FoldedSoFar(f, c, events)
    ensures r.Ok? <==> Follows(Cache(streams, projection, eventIDs, true), events, event)
    ensures r.Ok? ==> FoldedSoFar(r.value, Cache(streams, projection, eventIDs, true), events + [event])
  {
    ghost var c := Cache(streams, projection, eventIDs, true);
    var p := EventPacketID(event);
    if p == "" || event.meta.id in eventIDs || event.meta.id in f.batchIDs {
      return Err(InvalidEvent);
    }
    FoldLookup(f, c, events, p);
    var length := if p in streams then |streams[p]| else 0;
    var packet := if p in f.working then f.working[p] else if p in projection then projection[p] else NO_PACKET;
    var expected := if p in f.working then f.expected else f.expected[p := length];
    var version := if p in f.working then f.next[p] else length + 1;
    var applied := ApplyEvent(packet, event);
    ApplyNext(StreamIn(streams, p), events, event, packet);
    if applied.Err? {
      return Err(applied.error);
    }
    var after := Folding(f.working[p := applied.value], f.batchIDs + {event.meta.id}, expected,
                         f.next[p := version + 1], f.records + [EventRecord(p, version, event)]);
    assert expected == f.expected[p := length];
    FoldStep(f, c, events, event, version, applied.value, after);
    return Ok(after);
  }

  lemma ApplyNext(stream: seq<Event>, events: seq<Event>, e: Event, packet: Packet)
    requires Replay(stream + EventsFor(events, EventPacketID(e))) == Ok(packet)
    ensures Replay(stream + EventsFor(events + [e], EventPacketID(e))) == ApplyEvent(packet, e)
  {
    var p := EventPacketID(e);
    var before := stream + EventsFor(events, p);
    assert stream + EventsFor(events + [e], p) == before + [e] by {
      EventsForLast(events, e, p);
    }
    ReplaySnoc(before, e);
  }

  lemma NothingFolded(f: Folding, c: Cache)
    requires f == Folding(map[], {}, map[], map[], [])
    ensures FoldedSoFar(f, c, [])
  {
  }

  lemma FoldedFolds(f: Folding, c: Cache, events: seq<Event>)
    requires FoldedSoFar(f, c, events)
    ensures Foldable(c, events)
  {
    forall p | Touches(events, p)
      ensures Replay(StreamIn(c.streams, p) + EventsFor(events, p)).Ok?
    {
      assert FoldedPacket(f, c, events, p);
    }
    assert forall e :: e in events ==> e.meta.id in IDsOf(events);
  }

  // The event loop of appendLocked.
  method FoldBatch(streams: map<PacketID, seq<Event>>, projection: map<PacketID, Packet>,
                   eventIDs: set<EventID>, events: seq<Event>)
    returns (r: Result<Folding, Error>)
    requires Coherent(Cache(streams, projection, eventIDs, true))
    ensures r.Ok? <==> Foldable(Cache(streams, projection, eventIDs, true), events)
    ensures r.Ok? ==> FoldedSoFar(r.value, Cache(streams, projection, eventIDs, true), events)
  {
    ghost var c := Cache(streams, projection, eventIDs, true);
    var f := Folding(map[], {}, map[], map[], []);
    assert events[..0] == [];
    NothingFolded(f, c);
    for i := 0 to |events|
      invariant FoldedSoFar(f, c, events[..i])
    {
      TakeOneMore(events, i);
      if Foldable(c, events) {
        GoodEvent(c, events, i);
      }
      var next := FoldOne(f, streams, projection, eventIDs, events[i], events[..i]);
      if next.Err? {
        return next;
      }
      f := next.value;
    }
    assert events[..|events|] == events;
    FoldedFolds(f, c, events);
    return Ok(f);
  }

  lemma FoldedVersions(f: Folding, c: Cache, events: seq<Event>)
    requires FoldedSoFar(f, c, events)
    ensures f.expected == VersionsSeen(c.streams, events)
  {
    forall p
      ensures p in f.expected <==> p in VersionsSeen(c.streams, events)
      ensures p in f.expected ==> f.expected[p] == |StreamIn(c.streams, p)|
    {
      assert FoldedPacket(f, c, events, p);
      TouchedMember(events, p);
    }
  }

  lemma FoldedProjection(f: Folding, c: Cache, events: seq<Event>)
    requires Coherent(c) && c.ready && Foldable(c, events) && FoldedSoFar(f, c, events)
    requires AllReplay(Extended(c.streams, events))
    ensures c.projection + f.working == Project(Extended(c.streams, events))
  {
    var projected := c.projection + f.working;
    forall p
      ensures p in projected <==> p in Extended(c.streams, events)
      ensures p in projected ==> Replay(Extended(c.streams, events)[p]) == Ok(projected[p])
    {
      FoldedProjectionAt(f, c, events, p);
    }
    ProjectedIs(projected, Extended(c.streams, events));
  }

  lemma ProjectedIs(projected: map<PacketID, Packet>, streams: Streams)
    requires AllReplay(streams) && forall p :: p in projected <==> p in streams
    requires forall p :: p in projected ==> Replay(streams[p]) == Ok(projected[p])
    ensures projected == Project(streams)
  {
  }

  lemma FoldedProjectionAt(f: Folding, c: Cache, events: seq<Event>, p: PacketID)
    requires Coherent(c) && c.ready && FoldedSoFar(f, c, events)
    ensures var after := Extended(c.streams, events);
            && (p in c.projection + f.working <==> p in after)
            && (p in after ==> Replay(after[p]) == Ok((c.projection + f.working)[p]))
  {
    ExtendedStream(c.streams, events, p);
    assert FoldedPacket(f, c, events, p);
    if !Touches(events, p) {
      assert StreamIn(c.streams, p) + EventsFor(events, p) == StreamIn(c.streams, p);
    }
  }

  /** What a committed batch leaves in the cache agrees with replaying it. */
  lemma CommitKeepsCoherent(f: Folding, c: Cache, events: seq<Event>, after: Cache)
    requires Coherent(c) && c.ready && Foldable(c, events) && FoldedSoFar(f, c, events)
    requires after == Cache(Extended(c.streams, events), c.projection + f.working, c.eventIDs + IDsOf(events), true)
    ensures Coherent(after)
  {
    ExtendedCoherent(c, events);
    FoldedProjection(f, c, events);
  }

  // The loop that copies a committed batch into the cache.
  method ExtendStreams(streams: map<PacketID, seq<Event>>, eventIDs: set<EventID>, events: seq<Event>)
    returns (extended: map<PacketID, seq<Event>>, used: set<EventID>)
    ensures extended == Extended(streams, events)
    ensures used == eventIDs + IDsOf(events)
  {
    extended, used := streams, eventIDs;
    assert events[..0] == [];
    for i := 0 to |events|
      invariant extended == Extended(streams, events[..i])
      invariant used == eventIDs + IDsOf(events[..i])
    {
      var p := EventPacketID(events[i]);
      ExtendedLast(streams, events, i);
      extended := extended[p := (if p in extended then extended[p] else []) + [events[i]]];
      used := used + {events[i].meta.id};
    }
    assert events[..|events|] == events;
  }

  method SetToSeq(ids: set<PacketID>) returns (listed: seq<PacketID>)
    ensures forall p :: p in listed <==> p in ids
  {
    listed := [];
    var rest := ids;
    while rest != {}
      invariant forall p :: p in ids <==> p in listed || p in rest
      decreases rest
    {
      var p :| p in rest;
      rest := rest - {p};
      listed := listed + [p];
    }
  }

  /** With the named packets refreshed, only the log decides. */
  lemma UpToDate(c: Cache, log: seq<EventRecord>, command: Command, rule: TenantRule, now: Time, stamps: seq<Stamp>)
    requires Coherent(c) && c.ready && Behind(c.streams, log) && |stamps| >= 3 && "" !in Named(command)
    requires forall p :: p in Named(command) ==> StreamIn(c.streams, p) == Stream(log, p)
    ensures LocalBatch(c, command, stamps) == BatchOver(log, command, stamps)
    ensures Succeeds(c, log, command, rule, now, stamps) <==> Admits(log, command, rule, now, stamps)
    ensures log + RecordsFor(c.streams, BatchOver(log, command, stamps))
         == Appended(log, BatchOver(log, command, stamps))
  {
    var events := BatchOver(log, command, stamps);
    assert command.packetID in Named(command);
    SameStatus(c, log, command);
    forall p | Touches(events, p)
      ensures StreamIn(c.streams, p) == Stream(log, p)
    {
      BatchTouches(command, StatusIn(log, command.packetID), stamps, p);
    }
    FreshBatch(c, log, events);
    FreshRecords(c.streams, log, events);
    SameQuestions(c, log, command, rule, now);
  }

  lemma SameQuestions(c: Cache, log: seq<EventRecord>, command: Command, rule: TenantRule, now: Time)
    requires Coherent(c) && c.ready && "" !in Named(command)
    requires forall p :: p in Named(command) ==> StreamIn(c.streams, p) == Stream(log, p)
    ensures LocallyAsked(c, command, rule, now) <==> Asked(log, command, rule, now)
  {
    assert command.packetID in Named(command);
    assert command.Supersede? ==> command.replacementID in Named(command);
  }

  /** Once the batch is in, the tracker projects each named packet as the new log does. */
  lemma NamedProjected(c: Cache, log: seq<EventRecord>, command: Command, stamps: seq<Stamp>, events: seq<Event>,
                       after: Cache)
    requires Replays(log) && |stamps| >= 3 && events == BatchOver(log, command, stamps) && FoldsOnto(log, events)
    requires forall p :: p in Named(command) ==> StreamIn(c.streams, p) == Stream(log, p)
    requires Coherent(after) && after.ready && after.streams == Extended(c.streams, events)
    ensures Replays(Appended(log, events))
    ensures forall p :: p in Named(command) ==>
              p in after.projection && Replay(Stream(Appended(log, events), p)) == Ok(after.projection[p])
  {
    AppendedReplays(log, events);
    NamedTouched(command, StatusIn(log, command.packetID), stamps);
    forall p | p in Named(command)
      ensures p in after.projection && Replay(Stream(Appended(log, events), p)) == Ok(after.projection[p])
    {
      ExtendedStream(c.streams, events, p);
      AppendedStream(log, events, p);
    }
  }

  /** A command that nobody interrupts does what the log admits. */
  lemma RanFresh(c: Cache, after: Cache, log: seq<EventRecord>, later: seq<EventRecord>, command: Command,
                 rule: TenantRule, now: Time, stamps: seq<Stamp>, ok: bool)
    requires Coherent(c) && c.ready && Behind(c.streams, log) && Replays(log) && |stamps| >= 3 && "" !in Named(command)
    requires forall p :: p in Named(command) ==> StreamIn(c.streams, p) == Stream(log, p)
    requires Coherent(after) && after.ready && Ran(c, after, log, later, command, rule, now, stamps, ok)
    ensures Outcome(log, later, true, command, rule, now, stamps, ok) && Replays(later)
    ensures ok ==> forall p :: p in Named(command) ==>
              p in after.projection && Replay(Stream(later, p)) == Ok(after.projection[p])
  {
    UpToDate(c, log, command, rule, now, stamps);
    if ok {
      NamedProjected(c, log, command, stamps, BatchOver(log, command, stamps), after);
    }
  }

  /** What appending a command's own batch makes of cache and log is what the command does. */
  lemma AppendedRan(c: Cache, after: Cache, log: seq<EventRecord>, later: seq<EventRecord>, command: Command,
                    rule: TenantRule, now: Time, stamps: seq<Stamp>, events: seq<Event>, ok: bool)
    requires |stamps| >= 3 && LocallyAsked(c, command, rule, now) && events == LocalBatch(c, command, stamps)
    requires Coherent(after) && after.ready && (ok <==> Committable(c, log, events))
    requires later == log + (if ok then RecordsFor(c.streams, events) else [])
    requires if ok then after.streams == Extended(c.streams, events) else CaughtUp(c, after, later, events)
    ensures Ran(c, after, log, later, command, rule, now, stamps, ok)
    ensures ok ==> command.packetID in after.projection && forall p :: p in Named(command) ==> p in after.projection
  {
    assert !ok ==> later == log;
    if ok {
      NamedHeld(c, command, stamps, after);
      assert command.packetID in Named(command);
    }
  }

  // The packets a batch names are projected once it is committed.
  lemma NamedHeld(c: Cache, command: Command, stamps: seq<Stamp>, after: Cache)
    requires |stamps| >= 3 && Coherent(after) && after.ready
    requires after.streams == Extended(c.streams, LocalBatch(c, command, stamps))
    ensures forall p :: p in Named(command) ==> p in after.projection
  {
    var status := if command.packetID in c.projection then c.projection[command.packetID].status else Unset;
    NamedTouched(command, status, stamps);
    forall p | p in Named(command)
      ensures p in after.projection
    {
      ExtendedStream(c.streams, LocalBatch(c, command, stamps), p);
    }
  }

  class Tracker {
    var streams: map<PacketID, seq<Event>>
    var projection: map<PacketID, Packet>
    var eventIDs: set<EventID>
    var projectionReady: bool
    const store: MemoryEventStore
    const tenantRule: TenantRule

    ghost function Cached(): Cache
      reads this
    {
      Cache(streams, projection, eventIDs, projectionReady)
    }

    /** The cache agrees with replaying its own streams and never says more than the log. */
    ghost predicate Valid()
      reads this, store
    {
      store.Valid() && Coherent(Cached()) && Behind(streams, store.records)
    }

    constructor (rule: TenantRule, store: MemoryEventStore)
      requires store.Valid()
      ensures this.store == store && this.tenantRule == rule && Valid()
      ensures Cached() == EMPTY_CACHE
    {
      this.store, tenantRule := store, rule;
      streams, projection, eventIDs, projectionReady := map[], map[], {}, true;
    }

    /** What a refresh does with the records a store returned, whatever their order. */
    method Install(loaded: seq<EventRecord>, rebuildProjection: bool, packetIDs: seq<PacketID>)
      returns (r: Result<(), Error>)
      requires Coherent(Cached())
      requires rebuildProjection && packetIDs != [] ==> projectionReady
      requires !rebuildProjection ==> !projectionReady
      modifies this
      ensures r.Ok? <==> Loadable(old(Cached()), multiset(loaded), packetIDs, rebuildProjection)
      ensures r.Ok? ==> LoadedInto(old(Cached()), multiset(loaded), packetIDs, rebuildProjection, Cached())
      ensures r.Err? ==> Cached() == old(Cached())
      ensures Coherent(Cached())
    {
      ghost var c := Cached();
      RecordOrder();
      var records := SortSlice(loaded, RecordLess);
      if "" in packetIDs {
        return Err(InvalidEvent);
      }
      var kept := KeptIDs(rebuildProjection, packetIDs);
      var gathered := Gather(records, rebuildProjection, packetIDs, kept, c);
      if gathered.Err? {
        return Err(gathered.error);
      }
      ReplaceStreams(gathered.value, rebuildProjection, packetIDs);
      InstalledLoads(c, gathered.value, multiset(loaded), kept, packetIDs, rebuildProjection, Cached());
      LoadKeepsCoherent(c, multiset(loaded), packetIDs, rebuildProjection, Cached());
      return Ok(());
    }

    // The event ids of the streams a refresh leaves alone.
    method KeptIDs(rebuildProjection: bool, packetIDs: seq<PacketID>) returns (kept: set<EventID>)
      requires Coherent(Cached())
      requires rebuildProjection && packetIDs != [] ==> projectionReady
      ensures kept == if rebuildProjection then StreamEventIDs(Untargeted(streams, packetIDs)) else {}
    {
      kept := {};
      if packetIDs != [] && rebuildProjection {
        kept := eventIDs - (set p, e | p in packetIDs && p in streams && e in streams[p] :: e.meta.id);
        UntargetedIDs(Cached(), packetIDs);
      }
    }

    method ReplaceStreams(g: Gathered, rebuildProjection: bool, packetIDs: seq<PacketID>)
      modifies this
      ensures InstalledInto(old(Cached()), g, packetIDs, rebuildProjection, Cached())
    {
      var targets := set p | p in packetIDs;
      if packetIDs == [] {
        streams := g.streams;
        if rebuildProjection {
          projection, eventIDs, projectionReady := g.projection, g.used, true;
        }
      } else {
        streams := (streams - targets) + g.streams;
        if rebuildProjection {
          projection := (projection - targets) + g.projection;
          eventIDs := g.used;
        }
      }
    }

    /** Load and install: the named streams become the log's, or nothing changes at all. */
    method RefreshLocked(rebuildProjection: bool, packetIDs: seq<PacketID>) returns (r: Result<(), Error>)
      requires Valid()
      requires rebuildProjection && packetIDs != [] ==> projectionReady
      requires !rebuildProjection ==> !projectionReady
      modifies this
      ensures Valid()
      ensures r.Ok? <==> ("" !in packetIDs
        && (rebuildProjection ==> forall p :: Targets(packetIDs, p) ==> Replay(Stream(store.records, p)).Ok?))
      ensures r.Ok? ==> RefreshedFrom(old(streams), store.records, packetIDs, streams)
      ensures r.Ok? ==> projectionReady == (rebuildProjection || old(projectionReady))
      ensures r.Err? ==> Cached() == old(Cached())
    {
      ghost var c := Cached();
      var loaded := store.Load(packetIDs);
      assert loaded == LoadOf(store.records, packetIDs);
      LogLoadable(c, store.records, packetIDs, rebuildProjection);
      r := Install(loaded, rebuildProjection, packetIDs);
      if r.Ok? {
        RefreshStaysBehind(c, store.records, packetIDs, rebuildProjection, Cached());
      }
    }

    method DropProjection()
      requires Valid()
      modifies this
      ensures Valid() && !projectionReady && streams == old(streams)
    {
      projection, eventIDs, projectionReady := map[], {}, false;
    }

    /** Replaying the whole log again: every stream is the log's and the projection theirs. */
    method RebuildProjection() returns (r: Result<(), Error>)
      requires Valid()
      modifies this
      ensures Valid()
      ensures r.Ok? <==> Replays(store.records)
      ensures r.Ok? ==> projectionReady && forall p :: StreamIn(streams, p) == Stream(store.records, p)
      ensures r.Err? ==> Cached() == old(Cached())
    {
      r := RefreshLocked(true, []);
    }

    method PrepareLocked(packetIDs: seq<PacketID>) returns (r: Result<(), Error>)
      requires Valid()
      modifies this
      ensures Valid()
      ensures r.Ok? <==> (old(projectionReady) && "" !in packetIDs
        && forall p :: Targets(packetIDs, p) ==> Replay(Stream(store.records, p)).Ok?)
      ensures r.Ok? ==> projectionReady && RefreshedFrom(old(streams), store.records, packetIDs, streams)
      ensures r.Err? ==> Cached() == old(Cached())
    {
      if !projectionReady {
        return Err(ProjectionUnavailable);
      }
      r := RefreshLocked(true, packetIDs);
    }

    method CurrentLocked(id: PacketID, expected: Version) returns (r: Result<Packet, Error>)
      requires Valid() && projectionReady
      ensures r.Ok? <==> StreamIn(streams, id) != [] && |StreamIn(streams, id)| == expected
      ensures r.Ok? ==> Replay(StreamIn(streams, id)) == Ok(r.value)
      ensures r.Ok? <==> id in projection && |StreamIn(streams, id)| == expected
      ensures r.Ok? ==> r.value == projection[id]
      ensures r.Err? ==> (r.error == Conflict <==> |StreamIn(streams, id)| != expected)
    {
      var actual := if id in streams then |streams[id]| else 0;
      if actual != expected {
        return Err(Conflict);
      }
      if id !in projection {
        return Err(NotFound);
      }
      return Ok(projection[id]);
    }

    // After the store refused a batch: catch up on the streams it touched.
    method CatchUp(events: seq<Event>, touched: set<PacketID>)
      requires Valid() && projectionReady && |events| > 0 && touched == TouchedBy(events)
      modifies this
      ensures Valid() && projectionReady
      ensures CaughtUp(old(Cached()), Cached(), store.records, events)
    {
      var listed := SetToSeq(touched);
      assert EventPacketID(events[0]) in touched;
      var _ := RefreshLocked(true, listed);
      forall p
        ensures Touches(events, p) <==> Targets(listed, p)
      {
        TouchedMember(events, p);
      }
    }

    // After the store took a batch: the same events extend the cache.
    method Commit(f: Folding, events: seq<Event>, ghost log: seq<EventRecord>)
      requires Coherent(Cached()) && projectionReady && FoldedSoFar(f, Cached(), events)
      requires Committable(Cached(), log, events) && Behind(streams, log)
      modifies this
      ensures Coherent(Cached()) && projectionReady && streams == Extended(old(streams), events)
      ensures Behind(streams, log + RecordsFor(old(streams), events))
    {
      ghost var c := Cached();
      CommitStaysBehind(streams, log, events);
      var extended, used := ExtendStreams(streams, eventIDs, events);
      streams, eventIDs, projection := extended, used, projection + f.working;
      CommitKeepsCoherent(f, c, events, Cached());
    }

    /** Compare and set. The batch is folded on private copies first; the store then takes all
        of it or none. A refusal refreshes the streams the batch touched. */
    method AppendLocked(events: seq<Event>) returns (r: Result<(), Error>)
      requires Valid() && projectionReady && |events| > 0
      modifies this, store
      ensures Valid() && projectionReady
      ensures r.Ok? <==> Committable(old(Cached()), old(store.records), events)
      ensures store.records == old(store.records) + (if r.Ok? then RecordsFor(old(streams), events) else [])
      ensures r.Ok? ==> streams == Extended(old(streams), events)
      ensures r.Err? ==> CaughtUp(old(Cached()), Cached(), store.records, events)
    {
      ghost var log := store.records;
      var folded := FoldBatch(streams, projection, eventIDs, events);
      if folded.Err? {
        return Err(folded.error);
      }
      var f := folded.value;
      FoldedVersions(f, Cached(), events);
      BatchAccepted(Cached(), log, events);
      r := store.Append(f.expected, f.records);
      if r.Err? {
        assert store.records == log;
        CatchUp(events, f.expected.Keys);
      } else {
        Commit(f, events, log);
      }
    }

    // prepareLocked on the packets a command names.
    method PrepareNamed(command: Command) returns (r: Result<(), Error>)
      requires Valid() && Replays(store.records)
      modifies this
      ensures Valid() && projectionReady == old(projectionReady)
      ensures r.Ok? <==> old(projectionReady) && "" !in Named(command)
      ensures r.Ok? ==> forall p :: p in Named(command) ==> StreamIn(streams, p) == Stream(store.records, p)
    {
      r := PrepareLocked(Named(command));
      assert forall p :: p in Named(command) ==> Targets(Named(command), p);
    }

    /** Appending a command's batch. Between the refresh and this, others may have appended: the
        cache may be stale, and then the store refuses. */
    method AppendCommand(command: Command, ghost now: Time, ghost stamps: seq<Stamp>, events: seq<Event>)
      returns (r: Result<Packet, Error>)
      requires Valid() && projectionReady && |stamps| >= 3 && LocallyAsked(Cached(), command, tenantRule, now)
      requires events == LocalBatch(Cached(), command, stamps)
      modifies this, store
      ensures Valid() && projectionReady
      ensures Ran(old(Cached()), Cached(), old(store.records), store.records, command, tenantRule, now, stamps, r.Ok?)
      ensures r.Ok? ==> forall p :: p in Named(command) ==> p in projection
      ensures r.Ok? ==> r.value == projection[command.packetID]
    {
      ghost var c, log := Cached(), store.records;
      var appended := AppendLocked(events);
      AppendedRan(c, Cached(), log, store.records, command, tenantRule, now, stamps, events, appended.Ok?);
      r := if appended.Err? then Err(appended.error) else Ok(projection[command.packetID]);
    }

    /** A first event for a packet that has none; its body stays as issued. */
    method Issue(command: Command, now: Time, stamps: seq<Stamp>) returns (r: Result<Packet, Error>)
      requires Valid() && Replays(store.records) && command.Issue? && |stamps| >= 3
      modifies this, store
      ensures Valid() && Replays(store.records) && projectionReady == old(projectionReady)
      ensures Outcome(old(store.records), store.records, old(projectionReady), command, tenantRule, now, stamps, r.Ok?)
      ensures r.Ok? ==> Replay(Stream(store.records, command.packetID)) == Ok(r.value)
    {
      var prepared := PrepareNamed(command);
      if prepared.Err? {
        return Err(prepared.error);
      }
      ghost var c, log := Cached(), store.records;
      r := IssuePrepared(command, now, stamps);
      RanFresh(c, Cached(), log, store.records, command, tenantRule, now, stamps, r.Ok?);
    }

    // Issue after its refresh.
    method IssuePrepared(command: Command, now: Time, stamps: seq<Stamp>) returns (r: Result<Packet, Error>)
      requires Valid() && projectionReady && command.Issue? && |stamps| >= 3 && "" !in Named(command)
      modifies this, store
      ensures Valid() && projectionReady
      ensures Ran(old(Cached()), Cached(), old(store.records), store.records, command, tenantRule, now, stamps, r.Ok?)
      ensures r.Ok? ==> command.packetID in projection && r.value == projection[command.packetID]
    {
      if command.packetID in streams {
        return Err(AlreadyExists);
      }
      if !tenantRule(command.tenantID, now) {
        return Err(TenantRefused);
      }
      var meta := Metadata(stamps[0].id, stamps[0].at, command.actor);
      var issued := PacketIssued(meta, command.packetID, command.tenantID, command.body, "");
      r := AppendCommand(command, now, stamps, [issued]);
    }

    /** The take and the move to in progress it brings reach the log together or not at all. */
    method Take(command: Command, now: Time, stamps: seq<Stamp>) returns (r: Result<Packet, Error>)
      requires Valid() && Replays(store.records) && command.Take? && |stamps| >= 3
      modifies this, store
      ensures Valid() && Replays(store.records) && projectionReady == old(projectionReady)
      ensures Outcome(old(store.records), store.records, old(projectionReady), command, tenantRule, now, stamps, r.Ok?)
      ensures r.Ok? ==> Replay(Stream(store.records, command.packetID)) == Ok(r.value)
    {
      var prepared := PrepareNamed(command);
      if prepared.Err? {
        return Err(prepared.error);
      }
      ghost var c, log := Cached(), store.records;
      r := TakePrepared(command, now, stamps);
      RanFresh(c, Cached(), log, store.records, command, tenantRule, now, stamps, r.Ok?);
    }

    method TakePrepared(command: Command, now: Time, stamps: seq<Stamp>) returns (r: Result<Packet, Error>)
      requires Valid() && projectionReady && command.Take? && |stamps| >= 3 && "" !in Named(command)
      modifies this, store
      ensures Valid() && projectionReady
      ensures Ran(old(Cached()), Cached(), old(store.records), store.records, command, tenantRule, now, stamps, r.Ok?)
      ensures r.Ok? ==> command.packetID in projection && r.value == projection[command.packetID]
    {
      var current := CurrentLocked(command.packetID, command.expected);
      if current.Err? {
        return Err(current.error);
      }
      var taken := Metadata(stamps[0].id, stamps[0].at, command.actor);
      var moved := Metadata(stamps[1].id, stamps[1].at, command.actor);
      r := AppendCommand(command, now, stamps, [
        PacketTaken(taken, command.packetID),
        PacketTransitioned(moved, command.packetID, current.value.status, InProgress, [])]);
    }

    /** A comment never replaces an earlier one. */
    method AddComment(command: Command, now: Time, stamps: seq<Stamp>) returns (r: Result<Packet, Error>)
      requires Valid() && Replays(store.records) && command.AddComment? && |stamps| >= 3
      modifies this, store
      ensures Valid() && Replays(store.records) && projectionReady == old(projectionReady)
      ensures Outcome(old(store.records), store.records, old(projectionReady), command, tenantRule, now, stamps, r.Ok?)
      ensures r.Ok? ==> Replay(Stream(store.records, command.packetID)) == Ok(r.value)
    {
      var prepared := PrepareNamed(command);
      if prepared.Err? {
        return Err(prepared.error);
      }
      ghost var c, log := Cached(), store.records;
      r := AddCommentPrepared(command, now, stamps);
      RanFresh(c, Cached(), log, store.records, command, tenantRule, now, stamps, r.Ok?);
    }

    method AddCommentPrepared(command: Command, now: Time, stamps: seq<Stamp>) returns (r: Result<Packet, Error>)
      requires Valid() && projectionReady && command.AddComment? && |stamps| >= 3 && "" !in Named(command)
      modifies this, store
      ensures Valid() && projectionReady
      ensures Ran(old(Cached()), Cached(), old(store.records), store.records, command, tenantRule, now, stamps, r.Ok?)
      ensures r.Ok? ==> command.packetID in projection && r.value == projection[command.packetID]
    {
      var current := CurrentLocked(command.packetID, command.expected);
      if current.Err? {
        return Err(current.error);
      }
      var meta := Metadata(stamps[0].id, stamps[0].at, command.actor);
      r := AppendCommand(command, now, stamps, [PacketCommented(meta, command.packetID, command.text)]);
    }

    /** A legal transition; moving to done also appends its close. */
    method Transition(command: Command, now: Time, stamps: seq<Stamp>) returns (r: Result<Packet, Error>)
      requires Valid() && Replays(store.records) && command.Transition? && |stamps| >= 3
      modifies this, store
      ensures Valid() && Replays(store.records) && projectionReady == old(projectionReady)
      ensures Outcome(old(store.records), store.records, old(projectionReady), command, tenantRule, now, stamps, r.Ok?)
      ensures r.Ok? ==> Replay(Stream(store.records, command.packetID)) == Ok(r.value)
    {
      var prepared := PrepareNamed(command);
      if prepared.Err? {
        return Err(prepared.error);
      }
      ghost var c, log := Cached(), store.records;
      r := TransitionPrepared(command, now, stamps);
      RanFresh(c, Cached(), log, store.records, command, tenantRule, now, stamps, r.Ok?);
    }

    method TransitionPrepared(command: Command, now: Time, stamps: seq<Stamp>) returns (r: Result<Packet, Error>)
      requires Valid() && projectionReady && command.Transition? && |stamps| >= 3 && "" !in Named(command)
      modifies this, store
      ensures Valid() && projectionReady
      ensures Ran(old(Cached()), Cached(), old(store.records), store.records, command, tenantRule, now, stamps, r.Ok?)
      ensures r.Ok? ==> command.packetID in projection && r.value == projection[command.packetID]
    {
      var current := CurrentLocked(command.packetID, command.expected);
      if current.Err? {
        return Err(current.error);
      }
      var moved := Metadata(stamps[0].id, stamps[0].at, command.actor);
      var events := [PacketTransitioned(moved, command.packetID, current.value.status, command.to, command.evidence)];
      if command.to == Done {
        var closed := Metadata(stamps[1].id, stamps[1].at, command.actor);
        events := events + [PacketClosed(closed, command.packetID, ReasonDone)];
      }
      r := AppendCommand(command, now, stamps, events);
    }

    /** One mutation issues the replacement, links the parent to it and closes the parent. */
    method Supersede(command: Command, now: Time, stamps: seq<Stamp>) returns (r: Result<(Packet, Packet), Error>)
      requires Valid() && Replays(store.records) && command.Supersede? && |stamps| >= 3
      modifies this, store
      ensures Valid() && Replays(store.records) && projectionReady == old(projectionReady)
      ensures Outcome(old(store.records), store.records, old(projectionReady), command, tenantRule, now, stamps, r.Ok?)
      ensures r.Ok? ==> Replay(Stream(store.records, command.packetID)) == Ok(r.value.0)
      ensures r.Ok? ==> Replay(Stream(store.records, command.replacementID)) == Ok(r.value.1)
    {
      var prepared := PrepareNamed(command);
      if prepared.Err? {
        return Err(prepared.error);
      }
      ghost var c, log := Cached(), store.records;
      r := SupersedePrepared(command, now, stamps);
      RanFresh(c, Cached(), log, store.records, command, tenantRule, now, stamps, r.Ok?);
    }

    method SupersedePrepared(command: Command, now: Time, stamps: seq<Stamp>)
      returns (r: Result<(Packet, Packet), Error>)
      requires Valid() && projectionReady && command.Supersede? && |stamps| >= 3 && "" !in Named(command)
      modifies this, store
      ensures Valid() && projectionReady
      ensures Ran(old(Cached()), Cached(), old(store.records), store.records, command, tenantRule, now, stamps, r.Ok?)
      ensures r.Ok? ==> command.packetID in projection && r.value.0 == projection[command.packetID]
      ensures r.Ok? ==> command.replacementID in projection && r.value.1 == projection[command.replacementID]
    {
      var current := CurrentLocked(command.packetID, command.expected);
      if current.Err? {
        return Err(current.error);
      }
      if command.replacementID in streams {
        return Err(AlreadyExists);
      }
      if !tenantRule(command.tenantID, now) {
        return Err(TenantRefused);
      }
      var issued := Metadata(stamps[0].id, stamps[0].at, command.actor);
      var linked := Metadata(stamps[1].id, stamps[1].at, command.actor);
      var closed := Metadata(stamps[2].id, stamps[2].at, command.actor);
      var appended := AppendCommand(command, now, stamps, [
        PacketIssued(issued, command.replacementID, command.tenantID, command.body, command.packetID),
        PacketSuperseded(linked, command.packetID, command.replacementID),
        PacketClosed(closed, command.packetID, ReasonSuperseded)]);
      if appended.Err? {
        return Err(appended.error);
      }
      assert command.replacementID in Named(command);
      return Ok((appended.value, projection[command.replacementID]));
    }

    /** The current projection of one packet. */
    method Packet(id: PacketID) returns (r: Result<Packet, Error>)
      requires Valid() && Replays(store.records)
      modifies this
      ensures Valid() && projectionReady == old(projectionReady)
      ensures r.Ok? <==> old(projectionReady) && id != "" && Stream(store.records, id) != []
      ensures r.Ok? ==> Replay(Stream(store.records, id)) == Ok(r.value)
    {
      var prepared := PrepareLocked([id]);
      if prepared.Err? {
        return Err(prepared.error);
      }
      assert StreamIn(streams, id) == Stream(store.records, id);
      if id !in projection {
        return Err(NotFound);
      }
      return Ok(projection[id]);
    }

    /** Every packet of the log, sorted by id. */
    method Packets() returns (r: Result<seq<Packet>, Error>)
      requires Valid() && Replays(store.records)
      modifies this
      ensures Valid() && projectionReady == old(projectionReady)
      ensures r.Ok? <==> old(projectionReady)
      ensures r.Ok? ==> IsSnapshot(store.records, r.value)
    {
      var prepared := PrepareLocked([]);
      if prepared.Err? {
        return Err(prepared.error);
      }
      var ids := SortKeys(projection.Keys);
      var packets := ListPackets(projection, ids);
      SnapshotListed(Cached(), store.records, ids, packets);
      return Ok(packets);
    }

    /** The events of one packet, which a dropped projection does not hide. */
    method History(id: PacketID) returns (r: Result<seq<Event>, Error>)
      requires Valid()
      modifies this
      ensures Valid() && projectionReady == old(projectionReady)
      ensures r.Ok? <==> (id != "" && Stream(store.records, id) != []
        && (old(projectionReady) ==> Replay(Stream(store.records, id)).Ok?))
      ensures r.Ok? ==> r.value == Stream(store.records, id)
    {
      var refreshed := RefreshLocked(projectionReady, [id]);
      assert Targets([id], id);
      if refreshed.Err? {
        return Err(refreshed.error);
      }
      assert StreamIn(streams, id) == Stream(store.records, id);
      if id !in streams {
        return Err(NotFound);
      }
      return Ok(streams[id]);
    }
  }

  /** The packets of a log, each once, sorted by id. */
  ghost predicate IsSnapshot(log: seq<EventRecord>, packets: seq<Packet>) {
    && (forall i, j :: 0 <= i < j < |packets| ==> Less(packets[i].id, packets[j].id))
    && (forall i :: 0 <= i < |packets| ==> Replay(Stream(log, packets[i].id)) == Ok(packets[i]))
    && (forall p :: Stream(log, p) != [] <==> exists i :: 0 <= i < |packets| && packets[i].id == p)
  }

  lemma ProjectionIDs(c: Cache)
    requires Coherent(c) && c.ready
    ensures forall p :: p in c.projection ==> c.projection[p].id == p
  {
    forall p | p in c.projection
      ensures c.projection[p].id == p
    {
      ReplayLawful(c.streams[p]);
      assert c.streams[p][0] in c.streams[p];
    }
  }

  method ListPackets(projection: map<PacketID, Packet>, ids: seq<PacketID>) returns (packets: seq<Packet>)
    requires forall p :: p in ids ==> p in projection
    ensures |packets| == |ids| && forall i :: 0 <= i < |ids| ==> packets[i] == projection[ids[i]]
  {
    packets := [];
    for i := 0 to |ids|
      invariant |packets| == i && forall k :: 0 <= k < i ==> packets[k] == projection[ids[k]]
    {
      packets := packets + [projection[ids[i]]];
    }
  }

  lemma SnapshotListed(c: Cache, log: seq<EventRecord>, ids: seq<PacketID>, packets: seq<Packet>)
    requires Coherent(c) && c.ready && forall p :: StreamIn(c.streams, p) == Stream(log, p)
    requires StrictlySorted(ids) && forall p :: p in ids <==> p in c.projection
    requires |packets| == |ids| && forall i :: 0 <= i < |ids| ==> packets[i] == c.projection[ids[i]]
    ensures IsSnapshot(log, packets)
  {
    ProjectionIDs(c);
    forall i | 0 <= i < |packets|
      ensures packets[i].id == ids[i] && Replay(Stream(log, packets[i].id)) == Ok(packets[i])
    {
      assert ids[i] in ids;
      assert StreamIn(c.streams, ids[i]) == Stream(log, ids[i]);
    }
    forall p
      ensures Stream(log, p) != [] <==> exists i :: 0 <= i < |packets| && packets[i].id == p
    {
      assert StreamIn(c.streams, p) == Stream(log, p);
      assert p in ids <==> exists i :: 0 <= i < |packets| && packets[i].id == p;
    }
  }

  lemma InstalledIDs(kept: Streams, found: Streams)
    requires kept.Keys !! found.Keys
    ensures StreamEventIDs(kept + found) == StreamEventIDs(kept) + StreamEventIDs(found)
  {
    forall id | id in StreamEventIDs(kept) + StreamEventIDs(found)
      ensures id in StreamEventIDs(kept + found)
    {
      if id in StreamEventIDs(kept) {
        var p, e :| p in kept && e in kept[p] && e.meta.id == id;
        assert p in kept + found && e in (kept + found)[p];
      } else {
        var p, e :| p in found && e in found[p] && e.meta.id == id;
        assert p in kept + found && e in (kept + found)[p];
      }
    }
  }
}
