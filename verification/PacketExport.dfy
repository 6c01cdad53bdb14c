/** packetexport/export.go: projecting packets into records, merging sources, and the checks
    that let a record out. */
module PacketExport {
  import opened Basics
  import opened PacketTypes
  import opened Lifecycle
  import opened EventLog
  import opened EventStore
  import opened TrackerCache
  import opened Commands
  import opened Tracking
  import Envelopes

  type Rules = Envelopes.Rules

  // Times are text here, as formatTime writes them.
  datatype HistoryEvent = HistoryEvent(
    kind: string, eventID: string, timestamp: string, actor: string,
    tenantID: Option<string>, body: Option<Body>, parentID: Option<string>, text: Option<string>,
    from: Option<string>, to: Option<string>, evidence: seq<string>,
    replacementID: Option<string>, reason: Option<string>)

  datatype RecordComment = RecordComment(eventID: string, timestamp: string, actor: string, text: string)

  datatype RecordClosure = RecordClosure(eventID: string, timestamp: string, actor: string, reason: string)

  // A slice that a published file gives as null is None: it is published as null again.
  datatype Record = Record(
    id: string, tenantID: string, body: Body, status: string, version: nat, takenBy: Option<string>,
    comments: Option<seq<RecordComment>>, evidence: Option<seq<string>>, parentID: Option<string>,
    supersededBy: Option<string>, closure: Option<RecordClosure>, history: Option<seq<HistoryEvent>>)

  type Format = Time -> string

  function StatusText(status: Status): string {
    match status
    case Unset => ""
    case NotStarted => "not started"
    case InProgress => "in progress"
    case Done => "done"
    case Blocked => "blocked"
    case OtherStatus(text) => text
  }

  function ReasonText(reason: CloseReason): string {
    match reason
    case ReasonDone => "done"
    case ReasonSuperseded => "superseded"
    case OtherReason(text) => text
  }

  function Present(text: string): Option<string> {
    if text == "" then None else Some(text)
  }

  function MakeHistoryEvent(event: Event, format: Format): HistoryEvent {
    var bare := HistoryEvent("", event.meta.id, format(event.meta.at), event.meta.actor,
                             None, None, None, None, None, None, [], None, None);
    match event
    case PacketIssued(_, _, tenant, body, parent) =>
      bare.(kind := "packet issued", tenantID := Some(tenant), body := Some(body), parentID := Present(parent))
    case PacketTaken(_, _) => bare.(kind := "packet taken")
    case PacketCommented(_, _, text) => bare.(kind := "packet commented", text := Some(text))
    case PacketTransitioned(_, _, from, to, evidence) =>
      bare.(kind := "packet status transitioned", from := Some(StatusText(from)), to := Some(StatusText(to)),
            evidence := evidence)
    case PacketSuperseded(_, _, replacement) =>
      bare.(kind := "packet superseded", replacementID := Some(replacement))
    case PacketClosed(_, _, reason) => bare.(kind := "packet closed", reason := Some(ReasonText(reason)))
    case Foreign(_) => bare
  }

  function MakeHistory(events: seq<Event>, format: Format): (history: seq<HistoryEvent>)
    ensures |history| == |events|
    ensures forall i :: 0 <= i < |events| ==> history[i] == MakeHistoryEvent(events[i], format)
    decreases |events|
  {
    if |events| == 0 then []
    else MakeHistory(events[..|events| - 1], format) + [MakeHistoryEvent(events[|events| - 1], format)]
  }

  function MakeComments(comments: seq<Comment>, format: Format): (made: seq<RecordComment>)
    ensures |made| == |comments|
    ensures forall i :: 0 <= i < |comments| ==>
              made[i] == RecordComment(comments[i].eventID, format(comments[i].at), comments[i].actor, comments[i].text)
    decreases |comments|
  {
    if |comments| == 0 then []
    else
      var last := comments[|comments| - 1];
      MakeComments(comments[..|comments| - 1], format)
      + [RecordComment(last.eventID, format(last.at), last.actor, last.text)]
  }

  function MakeRecord(p: Packet, history: seq<Event>, format: Format): Record {
    Record(p.id, p.tenantID, p.body, StatusText(p.status), p.version, Present(p.takenBy),
           Some(MakeComments(p.comments, format)), Some(p.evidence), Present(p.parentID), Present(p.supersededBy),
           if p.closure.None? then None
           else Some(RecordClosure(p.closure.value.eventID, format(p.closure.value.at), p.closure.value.actor,
                                   ReasonText(p.closure.value.reason))),
           Some(MakeHistory(history, format)))
  }

  /** How many events a record's history holds. A null history holds none. */
  function Events(record: Record): nat {
    |record.history.GetOr([])|
  }

  predicate ValidEvent(event: HistoryEvent, rules: Rules) {
    event.kind != "" && event.eventID != "" && event.actor != "" && rules.parse(event.timestamp).Some?
  }

  const UINT64 := 0x1_0000_0000_0000_0000

  // The version is a uint64.
  predicate ValidRecord(record: Record, rules: Rules) {
    && !Blank(record.id) && !Blank(record.tenantID)
    && record.status in {"not started", "in progress", "done", "blocked"}
    && record.version == Events(record) && record.version < UINT64
    && forall i :: 0 <= i < Events(record) ==> ValidEvent(record.history.GetOr([])[i], rules)
  }

  predicate DistinctIDs(records: seq<Record>) {
    forall i, j :: 0 <= i < j < |records| ==> records[i].id != records[j].id
  }

  // decodeVerified's checks over a whole payload.
  predicate Publishable(records: seq<Record>, rules: Rules) {
    DistinctIDs(records) && forall i :: 0 <= i < |records| ==> ValidRecord(records[i], rules)
  }

  // ---- one consistent cut -----------------------------------------------------------------

  /** A packet as one state of the log has it: its projection and the events it folds. */
  ghost function RecordIn(log: seq<EventRecord>, id: PacketID, format: Format): Record {
    MakeRecord(PacketIn(log, id), Stream(log, id), format)
  }

  /** Records of every packet of the log, sorted, of which each that passes the version check
      is exactly the log's, projection and history alike. */
  ghost predicate CutOf(log: seq<EventRecord>, records: seq<Record>, format: Format) {
    && (forall i, j :: 0 <= i < j < |records| ==> Less(records[i].id, records[j].id))
    && (forall p :: Stream(log, p) != [] <==> exists i :: 0 <= i < |records| && records[i].id == p)
    && (forall i :: 0 <= i < |records| && records[i].version == Events(records[i]) ==>
          records[i] == RecordIn(log, records[i].id, format))
  }

  /** A projection read from one state and a history read from a later one agree exactly when
      their lengths do. */
  lemma TornRecord(log: seq<EventRecord>, later: seq<EventRecord>, p: Packet, format: Format)
    requires StoreLog(log) && Replays(log) && log <= later && Stream(log, p.id) != []
    requires Replay(Stream(log, p.id)) == Ok(p)
    ensures var record := MakeRecord(p, Stream(later, p.id), format);
            record.version == Events(record) <==> record == RecordIn(log, p.id, format)
  {
    ReplayLawful(Stream(log, p.id));
    StreamConcat(log, later[|log|..], p.id);
    assert later == log + later[|log|..];
    if Stream(later, p.id) != Stream(log, p.id) {
      assert |Stream(later, p.id)| > |Stream(log, p.id)|;
      assert Events(RecordIn(log, p.id, format)) == |Stream(log, p.id)|;
    }
  }

  /** What another writer tries to append while an export is being read. */
  datatype Attempt = Attempt(expected: map<PacketID, Version>, batch: seq<EventRecord>)

  method Interfere(tracker: Tracker, attempts: seq<Attempt>)
    requires tracker.Valid()
    modifies tracker.store
    ensures tracker.Valid() && old(tracker.store.records) <= tracker.store.records
    ensures tracker.Cached() == old(tracker.Cached())
  {
    for i := 0 to |attempts|
      invariant tracker.Valid() && old(tracker.store.records) <= tracker.store.records
      invariant tracker.Cached() == old(tracker.Cached())
    {
      ghost var log := tracker.store.records;
      var _ := tracker.store.Append(attempts[i].expected, attempts[i].batch);
      GrowthKeepsBehind(tracker.streams, log, tracker.store.records);
    }
  }

  lemma StillLogged(log: seq<EventRecord>, later: seq<EventRecord>, id: PacketID)
    requires StoreLog(log) && log <= later && Stream(log, id) != []
    ensures id != "" && Stream(later, id) != []
  {
    LogOwns(log, id, 0);
    StreamConcat(log, later[|log|..], id);
    assert later == log + later[|log|..];
  }

  // One turn of the loop of Records, after whatever others appended.
  method ReadOne(tracker: Tracker, others: seq<Attempt>, p: Packet, format: Format, ghost log: seq<EventRecord>)
    returns (r: Result<Record, Error>)
    requires tracker.Valid() && StoreLog(log) && Replays(log) && log <= tracker.store.records
    requires Stream(log, p.id) != [] && Replay(Stream(log, p.id)) == Ok(p)
    modifies tracker, tracker.store
    ensures tracker.Valid() && tracker.projectionReady == old(tracker.projectionReady)
    ensures log <= tracker.store.records && old(tracker.store.records) <= tracker.store.records
    ensures r.Ok? ==> ReadFrom(log, p, r.value, format)
    ensures r.Err? ==> !Replays(tracker.store.records)
  {
    Interfere(tracker, others);
    StillLogged(log, tracker.store.records, p.id);
    var history := tracker.History(p.id);
    if history.Err? {
      return Err(history.error);
    }
    TornRecord(log, tracker.store.records, p, format);
    return Ok(MakeRecord(p, history.value, format));
  }

  /** Every packet's record. The projections come from one load and each history from a later
      one, and other trackers may append before each of those. */
  method Records(tracker: Tracker, others: int -> seq<Attempt>, format: Format)
    returns (r: Result<seq<Record>, Error>)
    requires tracker.Valid() && Replays(tracker.store.records)
    modifies tracker, tracker.store
    ensures tracker.Valid() && tracker.projectionReady == old(tracker.projectionReady)
    ensures old(tracker.store.records) <= tracker.store.records
    ensures r.Ok? ==> old(tracker.projectionReady) && CutOf(old(tracker.store.records), r.value, format)
    ensures r.Err? && old(tracker.projectionReady) ==> !Replays(tracker.store.records)
  {
    ghost var log := tracker.store.records;
    var packets := tracker.Packets();
    if packets.Err? {
      return Err(packets.error);
    }
    var records: seq<Record> := [];
    for i := 0 to |packets.value|
      invariant tracker.Valid() && tracker.projectionReady == old(tracker.projectionReady)
      invariant log <= tracker.store.records
      invariant |records| == i && AllRead(log, packets.value, records, format)
    {
      SnapshotMember(log, packets.value, i);
      var record := ReadOne(tracker, others(i), packets.value[i], format, log);
      if record.Err? {
        return Err(record.error);
      }
      AllReadSnoc(log, packets.value, records, record.value, format);
      records := records + [record.value];
    }
    SnapshotCut(log, packets.value, records, format);
    return Ok(records);
  }

  ghost predicate ReadFrom(log: seq<EventRecord>, p: Packet, record: Record, format: Format) {
    record.id == p.id && (record.version == Events(record) ==> record == RecordIn(log, p.id, format))
  }

  ghost predicate AllRead(log: seq<EventRecord>, packets: seq<Packet>, records: seq<Record>, format: Format) {
    |records| <= |packets| && forall k :: 0 <= k < |records| ==> ReadFrom(log, packets[k], records[k], format)
  }

  lemma AllReadSnoc(log: seq<EventRecord>, packets: seq<Packet>, records: seq<Record>, record: Record, format: Format)
    requires AllRead(log, packets, records, format) && |records| < |packets|
    requires ReadFrom(log, packets[|records|], record, format)
    ensures AllRead(log, packets, records + [record], format)
  {
    forall k | 0 <= k < |records + [record]|
      ensures ReadFrom(log, packets[k], (records + [record])[k], format)
    {
    }
  }

  lemma SnapshotMember(log: seq<EventRecord>, packets: seq<Packet>, i: nat)
    requires IsSnapshot(log, packets) && i < |packets|
    ensures Stream(log, packets[i].id) != [] && Replay(Stream(log, packets[i].id)) == Ok(packets[i])
  {
  }

  lemma SnapshotCut(log: seq<EventRecord>, packets: seq<Packet>, records: seq<Record>, format: Format)
    requires IsSnapshot(log, packets) && |records| == |packets|
    requires forall k :: 0 <= k < |packets| ==> ReadFrom(log, packets[k], records[k], format)
    ensures CutOf(log, records, format)
  {
    forall p
      ensures Stream(log, p) != [] <==> exists i :: 0 <= i < |records| && records[i].id == p
    {
      if Stream(log, p) != [] {
        var i :| 0 <= i < |packets| && packets[i].id == p;
        assert ReadFrom(log, packets[i], records[i], format);
      }
      if i :| 0 <= i < |records| && records[i].id == p {
        assert ReadFrom(log, packets[i], records[i], format);
        assert packets[i].id == p;
      }
    }
    forall i, j | 0 <= i < j < |records|
      ensures Less(records[i].id, records[j].id)
    {
      assert ReadFrom(log, packets[i], records[i], format) && ReadFrom(log, packets[j], records[j], format);
    }
    forall i | 0 <= i < |records| && records[i].version == Events(records[i])
      ensures records[i] == RecordIn(log, records[i].id, format)
    {
      assert ReadFrom(log, packets[i], records[i], format);
    }
  }

  // ---- merging ----------------------------------------------------------------------------

  /** Records by id; of two with one id the later wins. */
  ghost function ByID(records: seq<Record>): map<string, Record>
    decreases |records|
  {
    if |records| == 0 then map[]
    else ByID(records[..|records| - 1])[records[|records| - 1].id := records[|records| - 1]]
  }

  /** The records of a map, each once, sorted by id. */
  ghost predicate Lists(records: seq<Record>, m: map<string, Record>) {
    && (forall i, j :: 0 <= i < j < |records| ==> Less(records[i].id, records[j].id))
    && (forall i :: 0 <= i < |records| ==> records[i].id in m && m[records[i].id] == records[i])
    && (forall id :: id in m ==> exists i :: 0 <= i < |records| && records[i].id == id)
  }

  function IDs(records: seq<Record>): (ids: seq<string>)
    ensures |ids| == |records| && forall i :: 0 <= i < |records| ==> ids[i] == records[i].id
  {
    seq(|records|, i requires 0 <= i < |records| => records[i].id)
  }

  /** There is one sorted listing, so equal maps publish equal payloads. */
  lemma ListingUnique(a: seq<Record>, b: seq<Record>, m: map<string, Record>)
    requires Lists(a, m) && Lists(b, m)
    ensures a == b
  {
    forall id
      ensures id in IDs(a) <==> id in m
      ensures id in IDs(b) <==> id in m
    {
      if id in m {
        var i :| 0 <= i < |a| && a[i].id == id;
        var j :| 0 <= j < |b| && b[j].id == id;
        assert IDs(a)[i] == id && IDs(b)[j] == id;
      }
    }
    SortedListingUnique(IDs(a), IDs(b));
    forall i | 0 <= i < |a|
      ensures a[i] == b[i]
    {
      assert IDs(a)[i] == IDs(b)[i];
    }
  }

  lemma ByIDSnoc(records: seq<Record>, record: Record)
    ensures ByID(records + [record]) == ByID(records)[record.id := record]
  {
    assert (records + [record])[..|records|] == records;
  }

  lemma IndexSnoc(start: map<string, Record>, records: seq<Record>, i: nat)
    requires i < |records|
    ensures start + ByID(records[..i + 1]) == (start + ByID(records[..i]))[records[i].id := records[i]]
  {
    TakeOneMore(records, i);
    ByIDSnoc(records[..i], records[i]);
  }

  method Index(records: seq<Record>, start: map<string, Record>) returns (m: map<string, Record>)
    ensures m == start + ByID(records)
  {
    m := start;
    assert records[..0] == [];
    for i := 0 to |records|
      invariant m == start + ByID(records[..i])
    {
      IndexSnoc(start, records, i);
      m := m[records[i].id := records[i]];
    }
    assert records[..|records|] == records;
  }

  // The loop that lists a map: all but the rest, each once.
  ghost predicate Collected(merged: seq<Record>, byID: map<string, Record>, rest: set<string>) {
    && DistinctIDs(merged) && ByID(merged) == byID - rest
    && forall i :: 0 <= i < |merged| ==> merged[i].id !in rest
  }

  lemma CollectStep(merged: seq<Record>, byID: map<string, Record>, rest: set<string>, id: string)
    requires Collected(merged, byID, rest) && id in rest && id in byID && byID[id].id == id
    ensures Collected(merged + [byID[id]], byID, rest - {id})
  {
    ByIDSnoc(merged, byID[id]);
    assert byID - (rest - {id}) == (byID - rest)[id := byID[id]];
  }

  /** The union of two sources, the second winning ids in both, in no particular order. */
  method Reconcile(first: seq<Record>, second: seq<Record>) returns (merged: seq<Record>)
    ensures DistinctIDs(merged) && ByID(merged) == ByID(first) + ByID(second)
  {
    var byID := Index(first, map[]);
    byID := Index(second, byID);
    OwnKeys(first);
    OwnKeys(second);
    merged := [];
    var rest := byID.Keys;
    while rest != {}
      invariant rest <= byID.Keys && Collected(merged, byID, rest)
      decreases rest
    {
      var id :| id in rest;
      CollectStep(merged, byID, rest, id);
      merged := merged + [byID[id]];
      rest := rest - {id};
    }
  }

  lemma {:induction false} OwnKeys(records: seq<Record>)
    ensures forall id :: id in ByID(records) ==> ByID(records)[id].id == id && ByID(records)[id] in records
    decreases |records|
  {
    if |records| > 0 {
      OwnKeys(records[..|records| - 1]);
    }
  }

  lemma {:induction false} DistinctByID(records: seq<Record>)
    requires DistinctIDs(records)
    ensures forall i :: 0 <= i < |records| ==>
              records[i].id in ByID(records) && ByID(records)[records[i].id] == records[i]
    decreases |records|
  {
    if |records| > 0 {
      DistinctByID(records[..|records| - 1]);
    }
  }

  /** BuildRecords: the payload, sorted by id. */
  method SortRecords(records: seq<Record>) returns (payload: seq<Record>)
    requires DistinctIDs(records)
    ensures Lists(payload, ByID(records))
  {
    var byID := Index(records, map[]);
    assert byID == ByID(records);
    OwnKeys(records);
    var ids := SortKeys(byID.Keys);
    payload := [];
    for i := 0 to |ids|
      invariant |payload| == i && forall k :: 0 <= k < i ==> payload[k] == byID[ids[k]]
    {
      assert ids[i] in ids;
      payload := payload + [byID[ids[i]]];
    }
    ListsSorted(payload, ids, byID);
  }

  lemma ListsSorted(payload: seq<Record>, ids: seq<string>, byID: map<string, Record>)
    requires StrictlySorted(ids) && forall id :: id in ids <==> id in byID
    requires forall id :: id in byID ==> byID[id].id == id
    requires |payload| == |ids| && forall k :: 0 <= k < |ids| ==> ids[k] in byID && payload[k] == byID[ids[k]]
    ensures Lists(payload, byID)
  {
    forall id | id in byID
      ensures exists i :: 0 <= i < |payload| && payload[i].id == id
    {
      var k :| 0 <= k < |ids| && ids[k] == id;
      assert payload[k].id == id;
    }
  }

  ghost predicate AllValid(m: map<string, Record>, rules: Rules) {
    forall id :: id in m ==> ValidRecord(m[id], rules)
  }

  lemma ListedValid(payload: seq<Record>, m: map<string, Record>, rules: Rules)
    requires Lists(payload, m)
    ensures Publishable(payload, rules) <==> AllValid(m, rules)
  {
    ListsBack(payload, m);
    if Publishable(payload, rules) {
      forall id | id in m
        ensures ValidRecord(m[id], rules)
      {
        var i :| 0 <= i < |payload| && payload[i].id == id;
        assert payload[i] == m[id];
      }
    }
  }

  /** A cut whose records all pass the version check is the only such cut of its log. */
  lemma CutIsOne(log: seq<EventRecord>, a: seq<Record>, b: seq<Record>, format: Format)
    requires CutOf(log, a, format) && forall i :: 0 <= i < |a| ==> a[i] == RecordIn(log, a[i].id, format)
    requires CutOf(log, b, format) && forall i :: 0 <= i < |b| ==> b[i] == RecordIn(log, b[i].id, format)
    ensures a == b
  {
    forall id
      ensures id in IDs(a) <==> id in IDs(b)
    {
      CutIDs(log, a, id, format);
      CutIDs(log, b, id, format);
    }
    SortedListingUnique(IDs(a), IDs(b));
    forall i | 0 <= i < |a|
      ensures a[i] == b[i]
    {
      assert IDs(a)[i] == IDs(b)[i];
    }
  }

  lemma CutIDs(log: seq<EventRecord>, records: seq<Record>, id: PacketID, format: Format)
    requires CutOf(log, records, format)
    ensures id in IDs(records) <==> Stream(log, id) != []
    ensures StrictlySorted(IDs(records))
  {
    if i :| 0 <= i < |records| && records[i].id == id {
      assert IDs(records)[i] == id;
    }
  }

  /** A listing indexes back to the map it lists. */
  lemma ListsBack(payload: seq<Record>, m: map<string, Record>)
    requires Lists(payload, m)
    ensures DistinctIDs(payload) && ByID(payload) == m
  {
    forall i, j | 0 <= i < j < |payload|
      ensures payload[i].id != payload[j].id
    {
      LessTotal(payload[i].id, payload[j].id);
    }
    DistinctByID(payload);
    OwnKeys(payload);
    forall id
      ensures id in ByID(payload) <==> id in m
      ensures id in m ==> ByID(payload)[id] == m[id]
    {
      IndexedBack(payload, m, ByID(payload), id);
    }
  }

  lemma IndexedBack(payload: seq<Record>, m: map<string, Record>, byID: map<string, Record>, id: string)
    requires Lists(payload, m)
    requires forall k :: k in byID ==> byID[k].id == k && byID[k] in payload
    requires forall i :: 0 <= i < |payload| ==> payload[i].id in byID && byID[payload[i].id] == payload[i]
    ensures id in byID <==> id in m
    ensures id in m ==> byID[id] == m[id]
  {
    if id in m {
      var i :| 0 <= i < |payload| && payload[i].id == id;
    }
    if id in byID {
      var i :| 0 <= i < |payload| && payload[i] == byID[id];
    }
  }
}
