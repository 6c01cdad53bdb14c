/** packetexport/export.go: the JSON of a record, and the packet export as a text. */
module RecordJson {
  import opened Basics
  import opened PacketTypes
  import opened CanonicalJson
  import opened CanonicalProofs
  import opened StructJson
  import opened PacketExport

  // ---- bodies, comments and closures -----------------------------------------------------------

  const BODY_NAMES := ["goal", "boundary", "done_when", "check", "context"]

  const BODY_PLAIN: set<string> := set k | k in BODY_NAMES

  function BodyValues(b: Body): seq<Option<Json>> {
    [Some(Str(b.goal)), Some(Str(b.boundary)), Some(Str(b.doneWhen)), Some(Str(b.check)),
     Some(Str(b.context))]
  }

  function WriteBody(b: Body): Json {
    Struct(BODY_NAMES, BodyValues(b))
  }

  function ReadBody(v: Json): Option<Body> {
    var f := ReadStruct(v, BODY_NAMES, BODY_PLAIN);
    if f.None? then None
    else
      var goal, boundary, doneWhen := Text(f.value[0]), Text(f.value[1]), Text(f.value[2]);
      var check, context := Text(f.value[3]), Text(f.value[4]);
      if goal.None? || boundary.None? || doneWhen.None? || check.None? || context.None? then None
      else Some(Body(goal.value, boundary.value, doneWhen.value, check.value, context.value))
  }

  const COMMENT_NAMES := ["event_id", "timestamp", "actor", "text"]

  const COMMENT_PLAIN: set<string> := set k | k in COMMENT_NAMES

  function CommentValues(c: RecordComment): seq<Option<Json>> {
    [Some(Str(c.eventID)), Some(Str(c.timestamp)), Some(Str(c.actor)), Some(Str(c.text))]
  }

  function WriteComment(c: RecordComment): Json {
    Struct(COMMENT_NAMES, CommentValues(c))
  }

  function ReadComment(v: Json): Option<RecordComment> {
    var f := ReadStruct(v, COMMENT_NAMES, COMMENT_PLAIN);
    if f.None? then None
    else
      var id, timestamp, actor, text := Text(f.value[0]), Text(f.value[1]), Text(f.value[2]), Text(f.value[3]);
      if id.None? || timestamp.None? || actor.None? || text.None? then None
      else Some(RecordComment(id.value, timestamp.value, actor.value, text.value))
  }

  const CLOSURE_NAMES := ["event_id", "timestamp", "actor", "reason"]

  const CLOSURE_PLAIN: set<string> := set k | k in CLOSURE_NAMES

  function ClosureValues(c: RecordClosure): seq<Option<Json>> {
    [Some(Str(c.eventID)), Some(Str(c.timestamp)), Some(Str(c.actor)), Some(Str(c.reason))]
  }

  function WriteClosure(c: RecordClosure): Json {
    Struct(CLOSURE_NAMES, ClosureValues(c))
  }

  function ReadClosure(v: Json): Option<RecordClosure> {
    var f := ReadStruct(v, CLOSURE_NAMES, CLOSURE_PLAIN);
    if f.None? then None
    else
      var id, timestamp, actor, reason := Text(f.value[0]), Text(f.value[1]), Text(f.value[2]), Text(f.value[3]);
      if id.None? || timestamp.None? || actor.None? || reason.None? then None
      else Some(RecordClosure(id.value, timestamp.value, actor.value, reason.value))
  }

  // ---- history events ---------------------------------------------------------------------------

  const EVENT_NAMES := [
    "kind", "event_id", "timestamp", "actor", "tenant_id", "body", "parent_id", "text", "from", "to", "evidence",
    "replacement_id", "reason"]

  const EVENT_PLAIN := {"kind", "event_id", "timestamp", "actor"}

  function EventValues(e: HistoryEvent): seq<Option<Json>> {
    [Some(Str(e.kind)), Some(Str(e.eventID)), Some(Str(e.timestamp)), Some(Str(e.actor)),
     Optional(e.tenantID), if e.body.None? then None else Some(WriteBody(e.body.value)),
     Optional(e.parentID), Optional(e.text), Optional(e.from), Optional(e.to),
     if e.evidence == [] then None else Some(Arr(WriteAll(e.evidence, TextJson))),
     Optional(e.replacementID), Optional(e.reason)]
  }

  function WriteEvent(e: HistoryEvent): Json {
    Struct(EVENT_NAMES, EventValues(e))
  }

  function ParseEvent(f: seq<Option<Json>>): Option<HistoryEvent>
    requires |f| == 13
  {
    var kind, id, timestamp, actor := Text(f[0]), Text(f[1]), Text(f[2]), Text(f[3]);
    var tenant, body, parent, text := TextPointer(f[4]), Pointer(f[5], ReadBody), TextPointer(f[6]), TextPointer(f[7]);
    var from, to, evidence := TextPointer(f[8]), TextPointer(f[9]), Slice(f[10], TextItem);
    var replacement, reason := TextPointer(f[11]), TextPointer(f[12]);
    if kind.None? || id.None? || timestamp.None? || actor.None? || tenant.None? || body.None? || parent.None?
       || text.None? || from.None? || to.None? || evidence.None? || replacement.None? || reason.None? then None
    else
      Some(HistoryEvent(kind.value, id.value, timestamp.value, actor.value, tenant.value, body.value, parent.value,
                        text.value, from.value, to.value, evidence.value.GetOr([]), replacement.value, reason.value))
  }

  function ReadEvent(v: Json): Option<HistoryEvent> {
    var f := ReadStruct(v, EVENT_NAMES, EVENT_PLAIN);
    if f.None? then None else ParseEvent(f.value)
  }

  // ---- records ----------------------------------------------------------------------------------

  const RECORD_NAMES := [
    "id", "tenant_id", "goal", "boundary", "done_when", "check", "context", "status", "version", "taken_by",
    "comments", "evidence", "parent_id", "superseded_by", "closure", "history"]

  const RECORD_PLAIN := {
    "id", "tenant_id", "goal", "boundary", "done_when", "check", "context", "status", "version"}

  function RecordValues(r: Record): seq<Option<Json>> {
    [Some(Str(r.id)), Some(Str(r.tenantID)), Some(Str(r.body.goal)), Some(Str(r.body.boundary)),
     Some(Str(r.body.doneWhen)), Some(Str(r.body.check)), Some(Str(r.body.context)), Some(Str(r.status)),
     Some(Num(Decimal(r.version))), Nullable(r.takenBy), NullableSlice(r.comments, WriteComment),
     NullableSlice(r.evidence, TextJson), Nullable(r.parentID), Nullable(r.supersededBy),
     Some(if r.closure.None? then Null else WriteClosure(r.closure.value)), NullableSlice(r.history, WriteEvent)]
  }

  function WriteRecord(r: Record): Json {
    Struct(RECORD_NAMES, RecordValues(r))
  }

  function ParseRecord(f: seq<Option<Json>>): Option<Record>
    requires |f| == 16
  {
    var id, tenant, goal, boundary, doneWhen := Text(f[0]), Text(f[1]), Text(f[2]), Text(f[3]), Text(f[4]);
    var check, context, status, version := Text(f[5]), Text(f[6]), Text(f[7]), Unsigned(f[8], UINT64);
    var taken, comments, evidence := TextPointer(f[9]), Slice(f[10], ReadComment), Slice(f[11], TextItem);
    var parent, superseded := TextPointer(f[12]), TextPointer(f[13]);
    var closure, history := Pointer(f[14], ReadClosure), Slice(f[15], ReadEvent);
    if id.None? || tenant.None? || goal.None? || boundary.None? || doneWhen.None? || check.None? || context.None?
       || status.None? || version.None? || taken.None? || comments.None? || evidence.None? || parent.None?
       || superseded.None? || closure.None? || history.None? then None
    else
      Some(Record(id.value, tenant.value,
                  Body(goal.value, boundary.value, doneWhen.value, check.value, context.value),
                  status.value, version.value, taken.value, comments.value, evidence.value, parent.value,
                  superseded.value, closure.value, history.value))
  }

  function ReadRecord(v: Json): Option<Record> {
    var f := ReadStruct(v, RECORD_NAMES, RECORD_PLAIN);
    if f.None? then None else ParseRecord(f.value)
  }

  // ---- each reads back ----------------------------------------------------------------------------

  lemma NamesApart()
    ensures NoRepeats(BODY_NAMES) && NoRepeats(COMMENT_NAMES) && NoRepeats(CLOSURE_NAMES)
  {
  }

  lemma BodyReads(b: Body, floats: Floats)
    ensures ReadBody(Canon(WriteBody(b), floats)) == Some(b)
    ensures WellFormed(WriteBody(b)) && Printable(WriteBody(b), floats)
  {
    NamesApart();
    BodyIsWellFormed(b, floats);
    StructReads(BODY_NAMES, BodyValues(b), BODY_PLAIN, floats);
  }

  lemma BodyIsWellFormed(b: Body, floats: Floats)
    requires NoRepeats(BODY_NAMES)
    ensures WellFormed(WriteBody(b)) && Printable(WriteBody(b), floats)
  {
    StructIsWellFormed(BODY_NAMES, BodyValues(b), floats);
  }

  lemma CommentReads(c: RecordComment, floats: Floats)
    ensures ReadComment(Canon(WriteComment(c), floats)) == Some(c)
    ensures WellFormed(WriteComment(c)) && Printable(WriteComment(c), floats)
  {
    NamesApart();
    CommentIsWellFormed(c, floats);
    StructReads(COMMENT_NAMES, CommentValues(c), COMMENT_PLAIN, floats);
  }

  lemma CommentIsWellFormed(c: RecordComment, floats: Floats)
    requires NoRepeats(COMMENT_NAMES)
    ensures WellFormed(WriteComment(c)) && Printable(WriteComment(c), floats)
  {
    StructIsWellFormed(COMMENT_NAMES, CommentValues(c), floats);
  }

  lemma ClosureReads(c: RecordClosure, floats: Floats)
    ensures ReadClosure(Canon(WriteClosure(c), floats)) == Some(c)
    ensures WellFormed(WriteClosure(c)) && Printable(WriteClosure(c), floats)
  {
    NamesApart();
    ClosureIsWellFormed(c, floats);
    StructReads(CLOSURE_NAMES, ClosureValues(c), CLOSURE_PLAIN, floats);
  }

  lemma ClosureIsWellFormed(c: RecordClosure, floats: Floats)
    requires NoRepeats(CLOSURE_NAMES)
    ensures WellFormed(WriteClosure(c)) && Printable(WriteClosure(c), floats)
  {
    StructIsWellFormed(CLOSURE_NAMES, ClosureValues(c), floats);
  }

  lemma TextsRead(texts: seq<string>, floats: Floats)
    ensures Slice(Some(Canon(Arr(WriteAll(texts, TextJson)), floats)), TextItem) == Some(Some(texts))
    ensures WellFormed(Arr(WriteAll(texts, TextJson))) && Printable(Arr(WriteAll(texts, TextJson)), floats)
  {
    forall text
      ensures TextItem(Canon(TextJson(text), floats)) == Some(text)
    {
    }
    ListReads(texts, TextJson, TextItem, floats);
  }

  lemma EventNamesApart()
    ensures NoRepeats(EVENT_NAMES)
  {
  }

  lemma RecordNamesApart()
    ensures NoRepeats(RECORD_NAMES)
  {
  }

  lemma EventReads(e: HistoryEvent, floats: Floats)
    ensures ReadEvent(Canon(WriteEvent(e), floats)) == Some(e)
  {
    var values := EventValues(e);
    EventNamesApart();
    StructReads(EVENT_NAMES, values, EVENT_PLAIN, floats);
    TextsRead(e.evidence, floats);
    if e.body.Some? {
      BodyReads(e.body.value, floats);
    }
    var f := ReadStruct(Canon(WriteEvent(e), floats), EVENT_NAMES, EVENT_PLAIN).value;
    forall i | 0 <= i < 13
      ensures f[i] == CanonOption(values[i], floats)
    {
      EventHasNoNull(e, i, floats);
    }
    EventFields(e, f, floats);
    EventParses(e, f);
  }

  lemma EventHasNoNull(e: HistoryEvent, i: nat, floats: Floats)
    requires i < 13
    ensures CanonOption(EventValues(e)[i], floats) != Some(Null)
  {
  }

  // What each field of an event finds in its canonical form.
  ghost predicate EventGiven(e: HistoryEvent, f: seq<Option<Json>>) {
    && |f| == 13
    && Text(f[0]) == Some(e.kind) && Text(f[1]) == Some(e.eventID) && Text(f[2]) == Some(e.timestamp)
    && Text(f[3]) == Some(e.actor) && TextPointer(f[4]) == Some(e.tenantID) && Pointer(f[5], ReadBody) == Some(e.body)
    && TextPointer(f[6]) == Some(e.parentID) && TextPointer(f[7]) == Some(e.text)
    && TextPointer(f[8]) == Some(e.from) && TextPointer(f[9]) == Some(e.to)
    && (Slice(f[10], TextItem) == Some(if e.evidence == [] then None else Some(e.evidence)))
    && TextPointer(f[11]) == Some(e.replacementID) && TextPointer(f[12]) == Some(e.reason)
  }

  lemma EventPointers(e: HistoryEvent, f: seq<Option<Json>>, floats: Floats)
    requires |f| == 13 && forall i :: 0 <= i < 13 ==> f[i] == CanonOption(EventValues(e)[i], floats)
    ensures TextPointer(f[4]) == Some(e.tenantID) && TextPointer(f[6]) == Some(e.parentID)
    ensures TextPointer(f[7]) == Some(e.text) && TextPointer(f[8]) == Some(e.from) && TextPointer(f[9]) == Some(e.to)
    ensures TextPointer(f[11]) == Some(e.replacementID) && TextPointer(f[12]) == Some(e.reason)
  {
    OptionalReads(e.tenantID, floats);
    OptionalReads(e.parentID, floats);
    OptionalReads(e.text, floats);
    OptionalReads(e.from, floats);
    OptionalReads(e.to, floats);
    OptionalReads(e.replacementID, floats);
    OptionalReads(e.reason, floats);
  }

  lemma EventFields(e: HistoryEvent, f: seq<Option<Json>>, floats: Floats)
    requires |f| == 13 && forall i :: 0 <= i < 13 ==> f[i] == CanonOption(EventValues(e)[i], floats)
    requires Slice(Some(Canon(Arr(WriteAll(e.evidence, TextJson)), floats)), TextItem) == Some(Some(e.evidence))
    requires e.body.Some? ==> ReadBody(Canon(WriteBody(e.body.value), floats)) == Some(e.body.value)
    ensures EventGiven(e, f)
  {
    EventPointers(e, f, floats);
    EventNested(e, f, floats);
    var values := EventValues(e);
    assert f[0] == CanonOption(values[0], floats) && f[1] == CanonOption(values[1], floats);
    assert f[2] == CanonOption(values[2], floats) && f[3] == CanonOption(values[3], floats);
  }

  lemma EventNested(e: HistoryEvent, f: seq<Option<Json>>, floats: Floats)
    requires |f| == 13 && forall i :: 0 <= i < 13 ==> f[i] == CanonOption(EventValues(e)[i], floats)
    requires Slice(Some(Canon(Arr(WriteAll(e.evidence, TextJson)), floats)), TextItem) == Some(Some(e.evidence))
    requires e.body.Some? ==> ReadBody(Canon(WriteBody(e.body.value), floats)) == Some(e.body.value)
    ensures Pointer(f[5], ReadBody) == Some(e.body)
    ensures Slice(f[10], TextItem) == Some(if e.evidence == [] then None else Some(e.evidence))
  {
    var values := EventValues(e);
    assert f[5] == CanonOption(values[5], floats) && f[10] == CanonOption(values[10], floats);
  }

  lemma EventParses(e: HistoryEvent, f: seq<Option<Json>>)
    requires EventGiven(e, f)
    ensures ParseEvent(f) == Some(e)
  {
  }

  lemma EventIsWellFormed(e: HistoryEvent, floats: Floats)
    ensures WellFormed(WriteEvent(e)) && Printable(WriteEvent(e), floats)
  {
    var values := EventValues(e);
    EventNamesApart();
    TextsRead(e.evidence, floats);
    if e.body.Some? {
      BodyReads(e.body.value, floats);
    }
    StructIsWellFormed(EVENT_NAMES, values, floats);
  }

  lemma CommentsRead(comments: Option<seq<RecordComment>>, floats: Floats)
    ensures Slice(CanonOption(NullableSlice(comments, WriteComment), floats), ReadComment) == Some(comments)
    ensures WellFormed(NullableSlice(comments, WriteComment).value)
    ensures Printable(NullableSlice(comments, WriteComment).value, floats)
  {
    forall c
      ensures ReadComment(Canon(WriteComment(c), floats)) == Some(c)
      ensures WellFormed(WriteComment(c)) && Printable(WriteComment(c), floats)
    {
      CommentReads(c, floats);
    }
    NullableListReads(comments, WriteComment, ReadComment, floats);
  }

  lemma EvidenceReads(evidence: Option<seq<string>>, floats: Floats)
    ensures Slice(CanonOption(NullableSlice(evidence, TextJson), floats), TextItem) == Some(evidence)
    ensures WellFormed(NullableSlice(evidence, TextJson).value)
    ensures Printable(NullableSlice(evidence, TextJson).value, floats)
  {
    forall text
      ensures TextItem(Canon(TextJson(text), floats)) == Some(text)
    {
    }
    NullableListReads(evidence, TextJson, TextItem, floats);
  }

  lemma HistoryReads(history: Option<seq<HistoryEvent>>, floats: Floats)
    ensures Slice(CanonOption(NullableSlice(history, WriteEvent), floats), ReadEvent) == Some(history)
    ensures WellFormed(NullableSlice(history, WriteEvent).value)
    ensures Printable(NullableSlice(history, WriteEvent).value, floats)
  {
    forall e
      ensures ReadEvent(Canon(WriteEvent(e), floats)) == Some(e)
      ensures WellFormed(WriteEvent(e)) && Printable(WriteEvent(e), floats)
    {
      EventReads(e, floats);
      EventIsWellFormed(e, floats);
    }
    NullableListReads(history, WriteEvent, ReadEvent, floats);
  }

  // Only fields that are never null are left as they were by one.
  lemma RecordKept(r: Record, i: nat, floats: Floats)
    requires i < 16
    ensures Kept(CanonOption(RecordValues(r)[i], floats), RECORD_NAMES[i], RECORD_PLAIN)
         == CanonOption(RecordValues(r)[i], floats)
  {
    if i >= 9 {
      NullableNames(i);
    }
  }

  lemma NullableNames(i: nat)
    requires 9 <= i < 16
    ensures RECORD_NAMES[i] !in RECORD_PLAIN
  {
  }

  ghost predicate RecordGiven(r: Record, f: seq<Option<Json>>) {
    && |f| == 16
    && f[0] == Some(Str(r.id)) && f[1] == Some(Str(r.tenantID)) && f[2] == Some(Str(r.body.goal))
    && f[3] == Some(Str(r.body.boundary)) && f[4] == Some(Str(r.body.doneWhen)) && f[5] == Some(Str(r.body.check))
    && f[6] == Some(Str(r.body.context)) && f[7] == Some(Str(r.status))
    && Unsigned(f[8], UINT64) == (if r.version < UINT64 then Some(r.version) else None)
    && TextPointer(f[9]) == Some(r.takenBy) && Slice(f[10], ReadComment) == Some(r.comments)
    && Slice(f[11], TextItem) == Some(r.evidence) && TextPointer(f[12]) == Some(r.parentID)
    && TextPointer(f[13]) == Some(r.supersededBy) && Pointer(f[14], ReadClosure) == Some(r.closure)
    && Slice(f[15], ReadEvent) == Some(r.history)
  }

  lemma RecordParses(r: Record, f: seq<Option<Json>>)
    requires RecordGiven(r, f)
    ensures ParseRecord(f) == if r.version < UINT64 then Some(r) else None
  {
  }

  lemma RecordTexts(r: Record, f: seq<Option<Json>>, floats: Floats)
    requires |f| == 16 && forall i :: 0 <= i < 16 ==> f[i] == CanonOption(RecordValues(r)[i], floats)
    ensures f[0] == Some(Str(r.id)) && f[1] == Some(Str(r.tenantID)) && f[2] == Some(Str(r.body.goal))
    ensures f[3] == Some(Str(r.body.boundary)) && f[4] == Some(Str(r.body.doneWhen)) && f[5] == Some(Str(r.body.check))
    ensures f[6] == Some(Str(r.body.context)) && f[7] == Some(Str(r.status))
  {
    var values := RecordValues(r);
    assert f[0] == CanonOption(values[0], floats) && f[1] == CanonOption(values[1], floats);
    assert f[2] == CanonOption(values[2], floats) && f[3] == CanonOption(values[3], floats);
    assert f[4] == CanonOption(values[4], floats) && f[5] == CanonOption(values[5], floats);
    assert f[6] == CanonOption(values[6], floats) && f[7] == CanonOption(values[7], floats);
  }

  lemma VersionReads(n: nat, floats: Floats)
    ensures Unsigned(CanonOption(Some(Num(Decimal(n))), floats), UINT64) == if n < UINT64 then Some(n) else None
  {
    DecimalIsNumber(n, floats);
    DecimalReads(n);
  }

  lemma RecordLists(r: Record, f: seq<Option<Json>>, floats: Floats)
    requires |f| == 16 && forall i :: 0 <= i < 16 ==> f[i] == CanonOption(RecordValues(r)[i], floats)
    ensures Slice(f[10], ReadComment) == Some(r.comments) && Slice(f[11], TextItem) == Some(r.evidence)
    ensures Slice(f[15], ReadEvent) == Some(r.history)
  {
    var values := RecordValues(r);
    assert f[10] == CanonOption(values[10], floats) && f[11] == CanonOption(values[11], floats);
    assert f[15] == CanonOption(values[15], floats);
    CommentsRead(r.comments, floats);
    EvidenceReads(r.evidence, floats);
    HistoryReads(r.history, floats);
  }

  lemma RecordPointers(r: Record, f: seq<Option<Json>>, floats: Floats)
    requires |f| == 16 && forall i :: 0 <= i < 16 ==> f[i] == CanonOption(RecordValues(r)[i], floats)
    ensures Unsigned(f[8], UINT64) == if r.version < UINT64 then Some(r.version) else None
    ensures TextPointer(f[9]) == Some(r.takenBy) && TextPointer(f[12]) == Some(r.parentID)
    ensures TextPointer(f[13]) == Some(r.supersededBy) && Pointer(f[14], ReadClosure) == Some(r.closure)
  {
    var values := RecordValues(r);
    assert f[8] == CanonOption(values[8], floats) && f[9] == CanonOption(values[9], floats);
    assert f[12] == CanonOption(values[12], floats) && f[13] == CanonOption(values[13], floats);
    assert f[14] == CanonOption(values[14], floats);
    VersionReads(r.version, floats);
    NullableReads(r.takenBy, floats);
    NullableReads(r.parentID, floats);
    NullableReads(r.supersededBy, floats);
    if r.closure.Some? {
      ClosureReads(r.closure.value, floats);
    }
  }

  /** The canonical form of a record decodes to that record, null slices and all, exactly when its
      version fits. */
  lemma RecordReads(r: Record, floats: Floats)
    ensures ReadRecord(Canon(WriteRecord(r), floats)) == if r.version < UINT64 then Some(r) else None
  {
    var values := RecordValues(r);
    RecordNamesApart();
    StructReads(RECORD_NAMES, values, RECORD_PLAIN, floats);
    var f := ReadStruct(Canon(WriteRecord(r), floats), RECORD_NAMES, RECORD_PLAIN).value;
    forall i | 0 <= i < 16
      ensures f[i] == CanonOption(values[i], floats)
    {
      RecordKept(r, i, floats);
    }
    RecordTexts(r, f, floats);
    RecordLists(r, f, floats);
    RecordPointers(r, f, floats);
    RecordParses(r, f);
  }

  lemma RecordValueIsWellFormed(r: Record, i: nat, floats: Floats)
    requires i < 16
    ensures var v := RecordValues(r)[i]; v.Some? && WellFormed(v.value) && Printable(v.value, floats)
  {
    if i == 8 {
      DecimalIsNumber(r.version, floats);
    } else if i == 14 {
      if r.closure.Some? {
        ClosureReads(r.closure.value, floats);
      }
    } else if i in {10, 11, 15} {
      CommentsRead(r.comments, floats);
      EvidenceReads(r.evidence, floats);
      HistoryReads(r.history, floats);
    }
  }

  lemma RecordIsWellFormed(r: Record, floats: Floats)
    ensures WellFormed(WriteRecord(r)) && Printable(WriteRecord(r), floats)
  {
    RecordNamesApart();
    forall i | 0 <= i < 16
      ensures var v := RecordValues(r)[i]; v.Some? && WellFormed(v.value) && Printable(v.value, floats)
    {
      RecordValueIsWellFormed(r, i, floats);
    }
    StructIsWellFormed(RECORD_NAMES, RecordValues(r), floats);
  }
}
