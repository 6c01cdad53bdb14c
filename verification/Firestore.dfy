/** eventstore/firestore.go: the same log kept as unordered documents and per-packet counters. */
module FirestoreStore {
  import opened Basics
  import opened PacketTypes
  import opened Lifecycle
  import opened EventLog
  import opened EventStore
  import opened TrackerCache

  const EVENT_SCHEMA := 1

  datatype Kind = IssuedKind | TakenKind | CommentedKind | TransitionedKind | SupersededKind | ClosedKind
                | UnknownKind(text: string)

  // The JSON object an event is stored as. A field an event type lacks keeps its zero value.
  datatype Payload = Payload(
    meta: Metadata, packetID: PacketID, tenantID: TenantID, body: Body, parentID: PacketID, text: string,
    from: Status, to: Status, evidence: seq<Evidence>, replacementID: PacketID, reason: CloseReason)

  datatype EventDocument = EventDocument(
    schemaVersion: int, packetID: PacketID, streamVersion: int, kind: Kind, payload: Payload)

  function Kinded(event: Event): Kind {
    match event
    case PacketIssued(_, _, _, _, _) => IssuedKind
    case PacketTaken(_, _) => TakenKind
    case PacketCommented(_, _, _) => CommentedKind
    case PacketTransitioned(_, _, _, _, _) => TransitionedKind
    case PacketSuperseded(_, _, _) => SupersededKind
    case PacketClosed(_, _, _) => ClosedKind
    case Foreign(_) => UnknownKind("")
  }

  function Marshal(event: Event): Payload {
    var bare := Payload(event.meta, EventPacketID(event), "", Body("", "", "", "", ""), "", "",
                        Unset, Unset, [], "", OtherReason(""));
    match event
    case PacketIssued(_, _, tenant, body, parent) => bare.(tenantID := tenant, body := body, parentID := parent)
    case PacketCommented(_, _, text) => bare.(text := text)
    case PacketTransitioned(_, _, from, to, evidence) => bare.(from := from, to := to, evidence := evidence)
    case PacketSuperseded(_, _, replacement) => bare.(replacementID := replacement)
    case PacketClosed(_, _, reason) => bare.(reason := reason)
    case _ => bare
  }

  function DecodeEvent(kind: Kind, p: Payload): Option<Event> {
    match kind
    case IssuedKind => Some(PacketIssued(p.meta, p.packetID, p.tenantID, p.body, p.parentID))
    case TakenKind => Some(PacketTaken(p.meta, p.packetID))
    case CommentedKind => Some(PacketCommented(p.meta, p.packetID, p.text))
    case TransitionedKind => Some(PacketTransitioned(p.meta, p.packetID, p.from, p.to, p.evidence))
    case SupersededKind => Some(PacketSuperseded(p.meta, p.packetID, p.replacementID))
    case ClosedKind => Some(PacketClosed(p.meta, p.packetID, p.reason))
    case UnknownKind(_) => None
  }

  function DocumentOf(record: EventRecord): EventDocument {
    EventDocument(EVENT_SCHEMA, record.packetID, record.streamVersion, Kinded(record.event), Marshal(record.event))
  }

  function DecodeRecord(document: EventDocument): Option<EventRecord> {
    if document.schemaVersion != EVENT_SCHEMA || document.packetID == "" || document.streamVersion < 1 then None
    else
      var event := DecodeEvent(document.kind, document.payload);
      if event.None? || EventPacketID(event.value) != document.packetID then None
      else Some(EventRecord(document.packetID, document.streamVersion, event.value))
  }

  /** A document is readable exactly when its record could be stored, and reads back as it. */
  lemma DocumentRoundTrip(record: EventRecord)
    ensures DecodeRecord(DocumentOf(record)) == Some(record)
       <==> record.packetID != "" && record.streamVersion >= 1 && EventPacketID(record.event) == record.packetID
  {
  }

  ghost predicate Complete(records: seq<EventRecord>) {
    forall i :: 0 <= i < |records| ==> MetadataComplete(records[i].event.meta)
  }

  /** One document per record, under the record's event id. */
  ghost predicate Documents(events: map<EventID, EventDocument>, log: seq<EventRecord>) {
    && events.Keys == EventIDs(log)
    && forall i :: 0 <= i < |log| ==>
         log[i].event.meta.id in events && events[log[i].event.meta.id] == DocumentOf(log[i])
  }

  function Counter(streams: map<PacketID, int>, id: PacketID): int {
    if id in streams then streams[id] else 0
  }

  ghost predicate Counters(streams: map<PacketID, int>, log: seq<EventRecord>) {
    forall p :: Counter(streams, p) == |Stream(log, p)|
  }

  /** Packets whose counter document says zero. Every later read of that counter fails. */
  ghost function Poisoned(streams: map<PacketID, int>): set<PacketID> {
    set p | p in streams && streams[p] < 1
  }

  /** Packets a batch expects to be absent and yet writes nothing for. */
  ghost function Unwritten(expected: map<PacketID, Version>, batch: seq<EventRecord>): set<PacketID> {
    set p | p in expected && expected[p] == 0 && Stream(batch, p) == []
  }

  /** The counters a batch leaves for the packets it expects a version of. */
  ghost function FinalVersions(expected: map<PacketID, Version>, batch: seq<EventRecord>): map<PacketID, int> {
    map p | p in expected :: expected[p] + |Stream(batch, p)|
  }

  // The slice and the two maps encodeAppend builds.
  datatype Encoding = Encoding(documents: seq<EventDocument>, seen: set<EventID>, next: map<PacketID, int>)
  {
    predicate Takes(record: EventRecord) {
      && record.packetID in next && EventPacketID(record.event) == record.packetID
      && record.streamVersion == next[record.packetID]
      && MetadataComplete(record.event.meta) && record.event.meta.id !in seen
    }

    function With(record: EventRecord): Encoding
      requires Takes(record)
    {
      Encoding(documents + [DocumentOf(record)], seen + {record.event.meta.id},
               next[record.packetID := next[record.packetID] + 1])
    }
  }

  ghost predicate EncodedAt(documents: seq<EventDocument>, expected: map<PacketID, Version>, records: seq<EventRecord>,
                            k: nat)
    requires k < |records| && k < |documents|
  {
    && PositionedAt(expected, records, k) && MetadataComplete(records[k].event.meta)
    && documents[k] == DocumentOf(records[k])
  }

  ghost predicate EncodedSoFar(e: Encoding, expected: map<PacketID, Version>, records: seq<EventRecord>, i: nat)
    requires i <= |records|
  {
    && |e.documents| == i && (forall k :: 0 <= k < i ==> EncodedAt(e.documents, expected, records, k))
    && UniqueEventIDs(records[..i]) && e.seen == EventIDs(records[..i])
  }

  lemma TakesExactly(e: Encoding, expected: map<PacketID, Version>, records: seq<EventRecord>, i: nat)
    requires i < |records| && EncodedSoFar(e, expected, records, i) && NextVersions(e.next, expected, records[..i])
    ensures e.Takes(records[i])
       <==> (PositionedAt(expected, records, i) && MetadataComplete(records[i].event.meta)
             && records[i].event.meta.id !in EventIDs(records[..i]))
    ensures UniqueEventIDs(records) ==> records[i].event.meta.id !in EventIDs(records[..i])
  {
    if UniqueEventIDs(records) {
      forall r | r in records[..i]
        ensures r.event.meta.id != records[i].event.meta.id
      {
        var k :| 0 <= k < i && records[k] == r;
      }
    }
  }

  lemma EncodeStep(e: Encoding, expected: map<PacketID, Version>, records: seq<EventRecord>, i: nat)
    requires i < |records| && EncodedSoFar(e, expected, records, i) && e.Takes(records[i])
    requires PositionedAt(expected, records, i)
    ensures EncodedSoFar(e.With(records[i]), expected, records, i + 1)
  {
    var after := e.With(records[i]);
    assert UniqueEventIDs(records[..i + 1]) && after.seen == EventIDs(records[..i + 1]) by {
      UniqueSnoc(records, i);
    }
    forall k | 0 <= k < i + 1
      ensures EncodedAt(after.documents, expected, records, k)
    {
      assert k < i ==> EncodedAt(e.documents, expected, records, k);
    }
  }

  lemma TakesGood(e: Encoding, expected: map<PacketID, Version>, records: seq<EventRecord>, i: nat)
    requires i < |records| && EncodedSoFar(e, expected, records, i) && NextVersions(e.next, expected, records[..i])
    requires Positioned(expected, records) && Complete(records) && UniqueEventIDs(records)
    ensures e.Takes(records[i])
  {
    TakesExactly(e, expected, records, i);
    assert PositionedAt(expected, records, i);
  }

  lemma AllEncoded(e: Encoding, expected: map<PacketID, Version>, records: seq<EventRecord>)
    requires EncodedSoFar(e, expected, records, |records|) && records != [] && "" !in expected
    ensures Positioned(expected, records) && Complete(records) && UniqueEventIDs(records)
    ensures forall i :: 0 <= i < |records| ==> e.documents[i] == DocumentOf(records[i])
  {
    assert records[..|records|] == records;
    forall i | 0 <= i < |records|
      ensures PositionedAt(expected, records, i) && MetadataComplete(records[i].event.meta)
      ensures e.documents[i] == DocumentOf(records[i])
    {
      assert EncodedAt(e.documents, expected, records, i);
    }
  }

  lemma CountedBack(next: map<PacketID, int>, expected: map<PacketID, Version>, records: seq<EventRecord>)
    requires NextVersions(next, expected, records)
    ensures (map p | p in next :: next[p] - 1) == FinalVersions(expected, records)
  {
  }

  // The checks and the encoding that precede the transaction.
  method EncodeAppend(expected: map<PacketID, Version>, records: seq<EventRecord>)
    returns (r: Result<(seq<EventDocument>, map<PacketID, int>), Error>)
    ensures r.Ok? <==> Positioned(expected, records) && Complete(records) && UniqueEventIDs(records)
    ensures r.Ok? ==> |r.value.0| == |records|
    ensures r.Ok? ==> forall i :: 0 <= i < |records| ==> r.value.0[i] == DocumentOf(records[i])
    ensures r.Ok? ==> r.value.1 == FinalVersions(expected, records)
  {
    if |records| == 0 || "" in expected {
      return Err(InvalidEvent);
    }
    var e := Encoding([], {}, map p | p in expected :: expected[p] + 1);
    for i := 0 to |records|
      invariant EncodedSoFar(e, expected, records, i)
      invariant NextVersions(e.next, expected, records[..i])
    {
      if Positioned(expected, records) && Complete(records) && UniqueEventIDs(records) {
        TakesGood(e, expected, records, i);
      }
      if !e.Takes(records[i]) {
        return Err(InvalidEvent);
      }
      TakesExactly(e, expected, records, i);
      EncodeStep(e, expected, records, i);
      NextSnoc(e.next, expected, records, i);
      e := e.With(records[i]);
    }
    AllEncoded(e, expected, records);
    assert records[..|records|] == records;
    CountedBack(e.next, expected, records);
    return Ok((e.documents, map p | p in e.next :: e.next[p] - 1));
  }

  lemma UniqueSnoc(records: seq<EventRecord>, i: nat)
    requires i < |records| && UniqueEventIDs(records[..i]) && records[i].event.meta.id !in EventIDs(records[..i])
    ensures UniqueEventIDs(records[..i + 1])
    ensures EventIDs(records[..i + 1]) == EventIDs(records[..i]) + {records[i].event.meta.id}
  {
    assert records[..i + 1] == records[..i] + [records[i]];
    forall k | 0 <= k < i
      ensures records[k].event.meta.id != records[i].event.meta.id
    {
      assert records[k] in records[..i];
    }
  }

  class Firestore {
    var events: map<EventID, EventDocument>
    var streams: map<PacketID, int>
    /** The ordered log these unordered documents stand for. */
    ghost var log: seq<EventRecord>

    ghost predicate Valid()
      reads this
    {
      StoreLog(log) && Complete(log) && Documents(events, log) && Counters(streams, log)
    }

    constructor ()
      ensures Valid() && log == [] && Poisoned(streams) == {}
    {
      events, streams, log := map[], map[], [];
    }

    // decodeStreamVersion for every packet the batch names.
    method CountersCurrent(expected: map<PacketID, Version>) returns (r: Result<(), Error>)
      requires Valid()
      ensures r.Ok? <==> Current(log, expected) && Poisoned(streams) !! expected.Keys
    {
      var unread := expected.Keys;
      while unread != {}
        invariant unread <= expected.Keys
        invariant forall p :: p in expected && p !in unread ==>
                    |Stream(log, p)| == expected[p] && p !in Poisoned(streams)
        decreases unread
      {
        var p :| p in unread;
        if p in streams && streams[p] < 1 {
          return Err(StoreRefused);
        }
        if Counter(streams, p) != expected[p] {
          return Err(Conflict);
        }
        unread := unread - {p};
      }
      return Ok(());
    }

    /** One transaction: read every counter, create every document, advance every counter, or
        leave all of them as they were. */
    method Append(expected: map<PacketID, Version>, batch: seq<EventRecord>) returns (r: Result<(), Error>)
      requires Valid()
      modifies this
      ensures Valid()
      ensures r.Ok? <==>
              Accepts(old(log), expected, batch) && Complete(batch) && old(Poisoned(streams)) !! expected.Keys
      ensures log == old(log) + (if r.Ok? then batch else [])
      ensures streams == if r.Ok? then old(streams) + FinalVersions(expected, batch) else old(streams)
      ensures Poisoned(streams) == old(Poisoned(streams)) + (if r.Ok? then Unwritten(expected, batch) else {})
    {
      var encoded := EncodeAppend(expected, batch);
      if encoded.Err? {
        return Err(encoded.error);
      }
      var current := CountersCurrent(expected);
      if current.Err? {
        return current;
      }
      var created := CreateAll(events, encoded.value.0, batch, log);
      if created.Err? {
        return Err(created.error);
      }
      AcceptKeepsStoreLog(log, expected, batch);
      CountersAdvance(streams, log, expected, batch);
      events, streams := created.value, streams + encoded.value.1;
      log := log + batch;
      return Ok(());
    }

    /** The same records as the ordered log's, in an order nobody promised. */
    method Load(packetIDs: seq<PacketID>) returns (r: Result<seq<EventRecord>, Error>)
      requires Valid()
      ensures r.Ok? <==> "" !in packetIDs
      ensures r.Ok? ==> multiset(r.value) == multiset(LoadOf(log, packetIDs))
    {
      var wanted := {};
      var found: seq<EventRecord> := [];
      if packetIDs == [] {
        found := ReadWhere(events, None, log);
      } else {
        assert LoadOf(log, packetIDs[..0]) == LoadOf(log, packetIDs[..0]);
        for i := 0 to |packetIDs|
          invariant "" !in packetIDs[..i]
          invariant wanted == set p | p in packetIDs[..i]
          invariant NoRepeats(found)
          invariant forall e: EventRecord :: e in found <==> e in log && e.packetID in wanted
        {
          if packetIDs[i] == "" {
            return Err(InvalidEvent);
          }
          if packetIDs[i] !in wanted {
            var more := ReadWhere(events, Some(packetIDs[i]), log);
            found := found + more;
            wanted := wanted + {packetIDs[i]};
          }
          assert packetIDs[..i + 1] == packetIDs[..i] + [packetIDs[i]];
        }
        assert packetIDs[..|packetIDs|] == packetIDs;
        OnlyDistinct(log, wanted);
      }
      SameRecords(found, LoadOf(log, packetIDs));
      return Ok(found);
    }
  }

  // One query: the decoded documents of one packet, or of all, in any order.
  method ReadWhere(events: map<EventID, EventDocument>, packetID: Option<PacketID>, ghost log: seq<EventRecord>)
    returns (records: seq<EventRecord>)
    requires Documents(events, log) && StoreLog(log)
    ensures NoRepeats(records)
    ensures forall e: EventRecord :: e in records <==> e in log && (packetID == None || e.packetID == packetID.value)
  {
    records := [];
    var rest := set id | id in events && (packetID == None || events[id].packetID == packetID.value);
    while rest != {}
      invariant forall id :: id in rest ==> id in events && (packetID == None || events[id].packetID == packetID.value)
      invariant NoRepeats(records)
      invariant forall e: EventRecord :: e in records <==>
        e in log && (packetID == None || e.packetID == packetID.value) && e.event.meta.id !in rest
      decreases rest
    {
      var id :| id in rest;
      var record := DecodeLogged(events, id, log);
      rest := rest - {id};
      records := records + [record];
    }
  }

  // Every document the store itself wrote decodes to the record it was written for.
  method DecodeLogged(events: map<EventID, EventDocument>, id: EventID, ghost log: seq<EventRecord>)
    returns (record: EventRecord)
    requires Documents(events, log) && StoreLog(log) && id in events
    ensures record in log && record.event.meta.id == id && record.packetID == events[id].packetID
    ensures forall e :: e in log && e.event.meta.id == id ==> e == record
  {
    ghost var e :| e in log && e.event.meta.id == id;
    ghost var k :| 0 <= k < |log| && log[k] == e;
    assert PlacedAt(log, k);
    DocumentRoundTrip(e);
    record := DecodeRecord(events[id]).value;
    forall d | d in log && d.event.meta.id == id
      ensures d == record
    {
      var j :| 0 <= j < |log| && log[j] == d;
    }
  }

  lemma {:induction false} OnlyDistinct(log: seq<EventRecord>, ids: set<PacketID>)
    requires UniqueEventIDs(log)
    ensures NoRepeats(Only(log, ids))
    ensures forall e :: e in Only(log, ids) <==> e in log && e.packetID in ids
    decreases |log|
  {
    if |log| > 0 {
      var n := |log| - 1;
      OnlyDistinct(log[..n], ids);
      LastIsNew(log);
      assert Only(log, ids) == Only(log[..n], ids) + (if log[n].packetID in ids then [log[n]] else []);
      assert log == log[..n] + [log[n]];
    }
  }

  lemma LastIsNew(log: seq<EventRecord>)
    requires UniqueEventIDs(log) && |log| > 0
    ensures log[|log| - 1] !in log[..|log| - 1]
  {
    var init := log[..|log| - 1];
    forall k | 0 <= k < |init|
      ensures init[k] != log[|log| - 1]
    {
      assert log[k].event.meta.id != log[|log| - 1].event.meta.id;
    }
  }

  lemma SameRecords(a: seq<EventRecord>, b: seq<EventRecord>)
    requires NoRepeats(a) && NoRepeats(b) && forall e :: e in a <==> e in b
    ensures multiset(a) == multiset(b)
  {
    forall e
      ensures multiset(a)[e] == multiset(b)[e]
    {
      NoRepeatsCount(a, e);
      NoRepeatsCount(b, e);
    }
  }

  // ---- the two stores agree -----------------------------------------------------------------

  /** Exactly when Firestore takes a batch, as its Append promises. */
  ghost predicate FirestoreTakes(log: seq<EventRecord>, streams: map<PacketID, int>, expected: map<PacketID, Version>,
                                 batch: seq<EventRecord>)
  {
    Accepts(log, expected, batch) && Complete(batch) && Poisoned(streams) !! expected.Keys
  }

  /** A tracker's batches carry complete metadata and write something for every packet they
      expect a version of, so a sound Firestore takes exactly what the in-memory store takes
      and stays sound. */
  lemma StoresAgree(c: Cache, log: seq<EventRecord>, events: seq<Event>, streams: map<PacketID, int>)
    requires Foldable(c, events) && |events| > 0 && Counters(streams, log) && Poisoned(streams) == {}
    ensures FirestoreTakes(log, streams, VersionsSeen(c.streams, events), RecordsFor(c.streams, events))
       <==> Accepts(log, VersionsSeen(c.streams, events), RecordsFor(c.streams, events))
    ensures Unwritten(VersionsSeen(c.streams, events), RecordsFor(c.streams, events)) == {}
  {
    var expected, batch := VersionsSeen(c.streams, events), RecordsFor(c.streams, events);
    forall i | 0 <= i < |batch|
      ensures MetadataComplete(batch[i].event.meta)
    {
      RecordAt(c.streams, events, i);
      FoldableMetadata(c, events, i);
    }
    forall p | p in expected
      ensures Stream(batch, p) != []
    {
      TouchedMember(events, p);
      RecordStream(c.streams, events, p);
    }
  }

  /** A tracker over either store: whatever order the records come back in, a refresh fails only
      for an empty id or a stream that does not replay, and otherwise holds the log's streams. */
  lemma RefreshOverEither(c: Cache, log: seq<EventRecord>, ids: seq<PacketID>, rebuild: bool,
                          returned: seq<EventRecord>, after: Cache)
    requires StoreLog(log) && Behind(c.streams, log) && multiset(returned) == multiset(LoadOf(log, ids))
    ensures Loadable(c, multiset(returned), ids, rebuild)
       <==> ("" !in ids && (rebuild ==> forall p :: Targets(ids, p) ==> Replay(Stream(log, p)).Ok?))
    ensures LoadedInto(c, multiset(returned), ids, rebuild, after) ==> RefreshedFrom(c.streams, log, ids, after.streams)
  {
    LogLoadable(c, log, ids, rebuild);
    if LoadedInto(c, multiset(returned), ids, rebuild, after) {
      RefreshStaysBehind(c, log, ids, rebuild, after);
    }
  }

  lemma FoldableMetadata(c: Cache, events: seq<Event>, i: nat)
    requires Foldable(c, events) && i < |events|
    ensures MetadataComplete(events[i].meta)
  {
    var p := EventPacketID(events[i]);
    GoodEvent(c, events, i);
    EventsForSnoc(events, i, p);
    var stream := StreamIn(c.streams, p) + EventsFor(events[..i], p);
    assert StreamIn(c.streams, p) + EventsFor(events[..i + 1], p) == stream + [events[i]];
    FoldSnoc(NO_PACKET, stream, events[i]);
  }

  // ---- where the stores part ----------------------------------------------------------------

  /** An append that a sound Firestore takes leaves it able to serve every packet again exactly
      when no packet expected at version zero goes unwritten. The in-memory store always is. */
  lemma SoundExactlyWhenWritten(log: seq<EventRecord>, streams: map<PacketID, int>, expected: map<PacketID, Version>,
                                batch: seq<EventRecord>)
    requires Counters(streams, log) && Poisoned(streams) == {} && FirestoreTakes(log, streams, expected, batch)
    ensures Poisoned(streams + FinalVersions(expected, batch)) == {}
       <==> forall p :: p in expected && expected[p] == 0 ==> Stream(batch, p) != []
  {
    CountersAdvance(streams, log, expected, batch);
    assert forall p :: p in Unwritten(expected, batch) <==> p in expected && expected[p] == 0 && Stream(batch, p) == [];
  }

  /** Any batch over an empty Firestore that issues a and also expects b to be absent. */
  lemma OneOfTwo(a: PacketID, b: PacketID, e: Event, expected: map<PacketID, Version>, batch: seq<EventRecord>)
    requires a != "" && b != "" && a != b && EventPacketID(e) == a && MetadataComplete(e.meta)
    requires expected.Keys == {a, b} && expected[a] == 0 && expected[b] == 0 && batch == [EventRecord(a, 1, e)]
    ensures FirestoreTakes([], map[], expected, batch)
    ensures FinalVersions(expected, batch).Keys == {a, b}
    ensures FinalVersions(expected, batch)[a] == 1 && FinalVersions(expected, batch)[b] == 0
  {
    assert batch[..0] == [];
    StreamSnoc([], batch[0], a);
    StreamSnoc([], batch[0], b);
    assert [] + [batch[0]] == batch;
    assert PositionedAt(expected, batch, 0);
  }

  /** A batch that an empty Firestore takes and that leaves a counter of zero: packets a and b are
      both expected absent, and only a is issued. */
  lemma ZeroCounterWritten() returns (expected: map<PacketID, Version>, batch: seq<EventRecord>)
    ensures expected == map["a" := 0, "b" := 0] && |batch| == 1 && batch[0].packetID == "a"
    ensures FirestoreTakes([], map[], expected, batch)
    ensures Poisoned(map[] + FinalVersions(expected, batch)) == {"b"}
  {
    var event := PacketIssued(Metadata("1", 1, "someone"), "a", "tenant", Body("", "", "", "", ""), "");
    expected, batch := map["a" := 0, "b" := 0], [EventRecord("a", 1, event)];
    assert "a"[0] != "b"[0];
    OneOfTwo("a", "b", event, expected, batch);
    assert map[] + FinalVersions(expected, batch) == FinalVersions(expected, batch);
  }

  // The counters and the log they count, as appends leave them.
  datatype Books = Books(log: seq<EventRecord>, streams: map<PacketID, int>)

  datatype Posting = Posting(expected: map<PacketID, Version>, batch: seq<EventRecord>)

  /** What one append does, taken or refused. */
  ghost function Posted(b: Books, posting: Posting): Books {
    if FirestoreTakes(b.log, b.streams, posting.expected, posting.batch) then
      Books(b.log + posting.batch, b.streams + FinalVersions(posting.expected, posting.batch))
    else b
  }

  ghost predicate Ledger(books: seq<Books>, postings: seq<Posting>) {
    && |books| == |postings| + 1
    && StoreLog(books[0].log) && Counters(books[0].streams, books[0].log)
    && forall i :: 0 <= i < |postings| ==> books[i + 1] == Posted(books[i], postings[i])
  }

  lemma {:induction false} LedgerSound(books: seq<Books>, postings: seq<Posting>, i: nat)
    requires Ledger(books, postings) && i < |books|
    ensures StoreLog(books[i].log) && Counters(books[i].streams, books[i].log)
    decreases i
  {
    if i > 0 {
      LedgerSound(books, postings, i - 1);
      var b, posting := books[i - 1], postings[i - 1];
      assert books[i] == Posted(b, posting);
      if FirestoreTakes(b.log, b.streams, posting.expected, posting.batch) {
        AcceptKeepsStoreLog(b.log, posting.expected, posting.batch);
        CountersAdvance(b.streams, b.log, posting.expected, posting.batch);
      }
    }
  }

  /** A poisoned counter stays poisoned whatever is appended afterwards. */
  lemma {:induction false} PoisonStays(books: seq<Books>, postings: seq<Posting>, i: nat, j: nat, p: PacketID)
    requires Ledger(books, postings) && i <= j < |books| && p in Poisoned(books[i].streams)
    ensures p in Poisoned(books[j].streams)
    decreases j
  {
    if i < j {
      PoisonStays(books, postings, i, j - 1, p);
      assert books[j] == Posted(books[j - 1], postings[j - 1]);
    }
  }

  /** From the moment a counter says zero, no append that names its packet is ever taken again, at
      whatever version, and the packet never gets an event; the in-memory store, over the very
      same log, would take its first event at any time. */
  lemma PoisonedPacketIsLost(books: seq<Books>, postings: seq<Posting>, i: nat, j: nat, p: PacketID, e: Event)
    requires Ledger(books, postings) && i <= j < |books| && p in Poisoned(books[i].streams) && p != ""
    requires EventPacketID(e) == p && e.meta.id !in EventIDs(books[j].log)
    ensures Stream(books[j].log, p) == []
    ensures forall expected: map<PacketID, Version>, batch: seq<EventRecord> ::
              p in expected ==> !FirestoreTakes(books[j].log, books[j].streams, expected, batch)
    ensures Accepts(books[j].log, map[p := 0], [EventRecord(p, 1, e)])
  {
    LedgerSound(books, postings, j);
    PoisonStays(books, postings, i, j, p);
    assert Counter(books[j].streams, p) == |Stream(books[j].log, p)|;
    FirstEventAccepted(books[j].log, p, e);
  }

  lemma FirstEventAccepted(log: seq<EventRecord>, p: PacketID, e: Event)
    requires Stream(log, p) == [] && p != "" && EventPacketID(e) == p && e.meta.id !in EventIDs(log)
    ensures Accepts(log, map[p := 0], [EventRecord(p, 1, e)])
  {
    var batch := [EventRecord(p, 1, e)];
    assert batch[..0] == [];
    assert PositionedAt(map[p := 0], batch, 0);
  }

  // The transaction's creates: each fails if its document exists.
  method CreateAll(events: map<EventID, EventDocument>, documents: seq<EventDocument>, batch: seq<EventRecord>,
                   ghost log: seq<EventRecord>)
    returns (r: Result<map<EventID, EventDocument>, Error>)
    requires Documents(events, log) && UniqueEventIDs(batch)
    requires |documents| == |batch| && forall i :: 0 <= i < |batch| ==> documents[i] == DocumentOf(batch[i])
    ensures r.Ok? <==> EventIDs(log) !! EventIDs(batch)
    ensures r.Ok? ==> Documents(r.value, log + batch)
  {
    var created := events;
    assert log + batch[..0] == log;
    for i := 0 to |batch|
      invariant Documents(created, log + batch[..i])
      invariant EventIDs(log) !! EventIDs(batch[..i])
    {
      var id := batch[i].event.meta.id;
      assert batch[i] in batch && id in EventIDs(batch);
      BatchIDNew(log, batch, i);
      if id in created {
        return Err(StoreRefused);
      }
      CreateStep(created, log, batch, i);
      created := created[id := documents[i]];
    }
    assert batch[..|batch|] == batch;
    return Ok(created);
  }

  lemma CreateStep(created: map<EventID, EventDocument>, log: seq<EventRecord>, batch: seq<EventRecord>, i: nat)
    requires i < |batch| && Documents(created, log + batch[..i]) && batch[i].event.meta.id !in created
    ensures Documents(created[batch[i].event.meta.id := DocumentOf(batch[i])], log + batch[..i + 1])
    ensures EventIDs(batch[..i + 1]) == EventIDs(batch[..i]) + {batch[i].event.meta.id}
  {
    TakeOneMore(batch, i);
    assert log + batch[..i + 1] == (log + batch[..i]) + [batch[i]];
    DocumentsSnoc(created, log + batch[..i], batch[i]);
  }

  lemma BatchIDNew(log: seq<EventRecord>, batch: seq<EventRecord>, i: nat)
    requires i < |batch| && UniqueEventIDs(batch)
    ensures batch[i].event.meta.id in EventIDs(log + batch[..i]) <==> batch[i].event.meta.id in EventIDs(log)
  {
    forall r | r in batch[..i]
      ensures r.event.meta.id != batch[i].event.meta.id
    {
      var k :| 0 <= k < i && batch[k] == r;
    }
    assert forall r :: r in log + batch[..i] <==> r in log || r in batch[..i];
  }

  lemma DocumentsSnoc(events: map<EventID, EventDocument>, log: seq<EventRecord>, r: EventRecord)
    requires Documents(events, log) && r.event.meta.id !in events
    ensures Documents(events[r.event.meta.id := DocumentOf(r)], log + [r])
  {
    assert forall q :: q in log + [r] <==> q in log || q == r;
  }

  lemma CountersAdvance(streams: map<PacketID, int>, log: seq<EventRecord>, expected: map<PacketID, Version>,
                        batch: seq<EventRecord>)
    requires Counters(streams, log) && Current(log, expected) && Positioned(expected, batch)
    requires Poisoned(streams) !! expected.Keys
    ensures Counters(streams + FinalVersions(expected, batch), log + batch)
    ensures Poisoned(streams + FinalVersions(expected, batch)) == Poisoned(streams) + Unwritten(expected, batch)
  {
    forall p
      ensures Counter(streams + FinalVersions(expected, batch), p) == |Stream(log + batch, p)|
    {
      CounterAdvances(streams, log, expected, batch, p);
    }
  }

  lemma CounterAdvances(streams: map<PacketID, int>, log: seq<EventRecord>, expected: map<PacketID, Version>,
                        batch: seq<EventRecord>, p: PacketID)
    requires Counter(streams, p) == |Stream(log, p)| && Current(log, expected) && Positioned(expected, batch)
    ensures Counter(streams + FinalVersions(expected, batch), p) == |Stream(log + batch, p)|
  {
    StreamConcat(log, batch, p);
    if Stream(batch, p) != [] {
      var i := StreamPosition(batch, p, 0);
      assert PositionedAt(expected, batch, i);
    }
  }
}
