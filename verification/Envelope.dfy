/** contract/envelope.go: building, serializing and verifying the shared export envelope. */
module Envelopes {
  import opened Basics
  import opened PacketTypes
  import opened CanonicalJson
  import opened CanonicalProofs
  import opened CanonicalPrinter
  import opened StructJson

  const HOUR: Time := 3_600_000_000_000
  const FRESHNESS_BOUND: Time := 48 * HOUR

  datatype Source = Source(repository: string, commit: string)

  // Payload is the raw JSON text; the empty text is a nil one.
  datatype Envelope = Envelope(
    schema: string, publishedAt: string, expiresAt: string, source: Source, digest: string, payload: string)

  datatype Refusal = InvalidExport | StaleExport | DigestMismatch | InvalidProvenance

  /** What the Go library supplies: floats, RFC 3339 times, SHA-256, and the provenance patterns. */
  datatype Rules = Rules(
    floats: Floats,
    format: Time -> string,
    parse: string -> Option<Time>,
    digest: string -> string,
    provenance: Source -> bool)

  // ---- producing ------------------------------------------------------------------------------

  function Build(schema: string, payload: Json, publishedAt: Time, source: Source, rules: Rules): Result<Envelope,
                 Refusal> {
    if Blank(schema) || publishedAt == 0 then Err(InvalidExport)
    else if !rules.provenance(source) then Err(InvalidProvenance)
    else
      var text := Canonicalized(Print(payload, ""), rules.floats);
      if text.None? then Err(InvalidExport)
      else
        Ok(Envelope(schema, rules.format(publishedAt), rules.format(publishedAt + FRESHNESS_BOUND), source,
                    rules.digest(text.value), text.value))
  }

  function SourceJson(source: Source): Json {
    Obj([Member("repository", Str(source.repository)), Member("commit", Str(source.commit))])
  }

  // An envelope as json.Marshal lists its fields.
  function EnvelopeJson(e: Envelope, payload: Json): Json {
    Obj([Member("schema", Str(e.schema)), Member("published_at", Str(e.publishedAt)),
         Member("expires_at", Str(e.expiresAt)), Member("source", SourceJson(e.source)),
         Member("digest", Str(e.digest)), Member("payload", payload)])
  }

  function Serialize(e: Envelope, rules: Rules): Option<string> {
    var payload := if e.payload == "" then Some(Null) else Decode(e.payload);
    if payload.None? then None else Canonicalized(Print(EnvelopeJson(e, payload.value), ""), rules.floats)
  }

  // ---- decoding into the struct ---------------------------------------------------------------

  datatype Fields = Fields(
    schema: string, publishedAt: string, expiresAt: string, source: Source, digest: string, payload: Option<Json>)

  const NO_FIELDS := Fields("", "", "", Source("", ""), "", None)

  const NAMES := ["schema", "published_at", "expires_at", "source", "digest", "payload"]

  // Null leaves a string field as it was; anything but a string is an error.
  function ReadText(v: Json, was: string): Option<string> {
    match v
    case Null => Some(was)
    case Str(s) => Some(s)
    case _ => None
  }

  function ReadSource(members: seq<Member>, was: Source): Option<Source> {
    if |members| == 0 then Some(was)
    else
      match Field(members[0].key, ["repository", "commit"])
      case None => None
      case Some(name) =>
        var text := ReadText(members[0].value, if name == "repository" then was.repository else was.commit);
        if text.None? then None
        else ReadSource(members[1..], if name == "repository" then was.(repository := text.value)
                                      else was.(commit := text.value))
  }

  // One key of the envelope. An unknown one is an error.
  function ReadField(m: Member, was: Fields): Option<Fields> {
    var field := Field(m.key, NAMES).GetOr("");
    if field == "schema" then
      var text := ReadText(m.value, was.schema);
      if text.None? then None else Some(was.(schema := text.value))
    else if field == "published_at" then
      var text := ReadText(m.value, was.publishedAt);
      if text.None? then None else Some(was.(publishedAt := text.value))
    else if field == "expires_at" then
      var text := ReadText(m.value, was.expiresAt);
      if text.None? then None else Some(was.(expiresAt := text.value))
    else if field == "digest" then
      var text := ReadText(m.value, was.digest);
      if text.None? then None else Some(was.(digest := text.value))
    else if field == "payload" then Some(was.(payload := Some(m.value)))
    else if field == "source" then
      var source := match m.value
        case Null => Some(was.source)
        case Obj(members) => ReadSource(members, was.source)
        case _ => None;
      if source.None? then None else Some(was.(source := source.value))
    else None
  }

  function ReadFields(members: seq<Member>, was: Fields): Option<Fields> {
    if |members| == 0 then Some(was)
    else
      var next := ReadField(members[0], was);
      if next.None? then None else ReadFields(members[1..], next.value)
  }

  // Decoding with unknown fields refused. Null decodes to the zero struct.
  function ReadEnvelope(contents: string): Option<Fields> {
    var v := Decode(contents);
    if v == Some(Null) then Some(NO_FIELDS)
    else if v.None? || !v.value.Obj? then None
    else ReadFields(v.value.members, NO_FIELDS)
  }

  // Decoding into a struct whose one field is expires_at; every other key is skipped.
  function ReadExpiry(members: seq<Member>, was: string): Option<string> {
    if |members| == 0 then Some(was)
    else if Field(members[0].key, ["expires_at"]).None? then ReadExpiry(members[1..], was)
    else
      var text := ReadText(members[0].value, was);
      if text.None? then None else ReadExpiry(members[1..], text.value)
  }

  // ---- verifying ------------------------------------------------------------------------------

  function Judge(f: Fields, schema: string, now: Time, rules: Rules): Result<Envelope, Refusal> {
    var publishedAt, expiresAt := rules.parse(f.publishedAt), rules.parse(f.expiresAt);
    if f.schema != schema || publishedAt.None? || expiresAt.None? then Err(InvalidExport)
    else if expiresAt.value - publishedAt.value != FRESHNESS_BOUND || now == 0 then Err(InvalidExport)
    else if now >= expiresAt.value then Err(StaleExport)
    else if f.payload.None? || !Printable(f.payload.value, rules.floats) then Err(InvalidExport)
    else
      var text := Encode(f.payload.value, rules.floats);
      if f.digest != rules.digest(text) then Err(DigestMismatch)
      else if !rules.provenance(f.source) then Err(InvalidProvenance)
      else Ok(Envelope(f.schema, f.publishedAt, f.expiresAt, f.source, f.digest, text))
  }

  function Verify(contents: string, schema: string, now: Time, rules: Rules): Result<Envelope, Refusal> {
    var f := ReadEnvelope(contents);
    if f.None? then Err(InvalidExport) else Judge(f.value, schema, now, rules)
  }

  // The last nanosecond before a text's own expiry.
  function LastInstant(contents: string, rules: Rules): Option<Time> {
    var v := Decode(contents);
    var expires :=
      if v == Some(Null) then Some("")
      else if v.None? || !v.value.Obj? then None
      else ReadExpiry(v.value.members, "");
    var at := if expires.None? then None else rules.parse(expires.value);
    if at.None? then None else Some(at.value - 1)
  }

  function VerifyIntegrity(contents: string, schema: string, rules: Rules): Result<Envelope, Refusal> {
    var last := LastInstant(contents, rules);
    if last.None? then Err(InvalidExport) else Verify(contents, schema, last.value, rules)
  }

  // ---- a serialized envelope reads back -------------------------------------------------------

  // The two objects as the canonical form orders them.
  ghost function SortedSource(source: Source): seq<Member> {
    [Member("commit", Str(source.commit)), Member("repository", Str(source.repository))]
  }

  ghost function SortedEnvelope(e: Envelope, payload: Json): seq<Member> {
    [Member("digest", Str(e.digest)), Member("expires_at", Str(e.expiresAt)), Member("payload", payload),
     Member("published_at", Str(e.publishedAt)), Member("schema", Str(e.schema)),
     Member("source", Obj(SortedSource(e.source)))]
  }

  lemma NamesInOrder()
    ensures StrictlySorted(["commit", "repository"])
    ensures StrictlySorted(["digest", "expires_at", "payload", "published_at", "schema", "source"])
  {
    assert "payload"[1..][0] == 'a' && "published_at"[1..][0] == 'u';
    assert Less("payload"[1..], "published_at"[1..]) && Less("payload", "published_at");
    assert "schema"[1..][0] == 'c' && "source"[1..][0] == 'o';
    assert Less("schema"[1..], "source"[1..]) && Less("schema", "source");
  }

  lemma SourceInOrder(source: Source, floats: Floats)
    ensures Canon(SourceJson(source), floats) == Obj(SortedSource(source))
    ensures WellFormed(SourceJson(source)) && Printable(SourceJson(source), floats)
  {
    var listed := SourceJson(source).members;
    assert Keys(listed) == ["repository", "commit"];
    CanonMembersAt(listed, 0, floats);
    CanonMembersAt(listed, 1, floats);
    assert CanonMembers(listed, floats) == listed;
    assert Keys(SortedSource(source)) == ["commit", "repository"];
    NamesInOrder();
    SortedAs(listed, SortedSource(source));
  }

  lemma EnvelopeInOrder(e: Envelope, payload: Json, floats: Floats)
    ensures Canon(EnvelopeJson(e, payload), floats) == Obj(SortedEnvelope(e, Canon(payload, floats)))
  {
    var listed := EnvelopeJson(e, payload).members;
    var sorted := SortedEnvelope(e, Canon(payload, floats));
    var canon := CanonMembers(listed, floats);
    assert NoRepeats(Keys(canon)) by {
      EnvelopeKeys(e, payload);
      CanonKeys(listed, floats);
    }
    SixCanon(e, payload, floats);
    SixSorted(e, Canon(payload, floats));
    SameSix(canon, sorted);
    SortedAs(canon, sorted);
  }

  lemma SixSorted(e: Envelope, payload: Json)
    ensures StrictlySorted(Keys(SortedEnvelope(e, payload)))
  {
    assert Keys(SortedEnvelope(e, payload)) == ["digest", "expires_at", "payload", "published_at", "schema", "source"];
    NamesInOrder();
  }

  lemma SixCanon(e: Envelope, payload: Json, floats: Floats)
    ensures var canon := CanonMembers(EnvelopeJson(e, payload).members, floats);
            var sorted := SortedEnvelope(e, Canon(payload, floats));
            && |canon| == 6 && canon[0] == sorted[4] && canon[1] == sorted[3] && canon[2] == sorted[1]
            && canon[3] == sorted[5] && canon[4] == sorted[0] && canon[5] == sorted[2]
  {
    SourceInOrder(e.source, floats);
    CanonOfSix(EnvelopeJson(e, payload).members, floats);
  }

  lemma CanonOfSix(listed: seq<Member>, floats: Floats)
    requires |listed| == 6
    ensures forall i :: 0 <= i < 6 ==>
              CanonMembers(listed, floats)[i] == Member(listed[i].key, Canon(listed[i].value, floats))
  {
    forall i | 0 <= i < 6
      ensures CanonMembers(listed, floats)[i] == Member(listed[i].key, Canon(listed[i].value, floats))
    {
      CanonMembersAt(listed, i, floats);
    }
  }

  lemma SameSix(canon: seq<Member>, sorted: seq<Member>)
    requires |canon| == 6 && |sorted| == 6
    requires canon[0] == sorted[4] && canon[1] == sorted[3] && canon[2] == sorted[1]
    requires canon[3] == sorted[5] && canon[4] == sorted[0] && canon[5] == sorted[2]
    ensures forall m :: m in canon <==> m in sorted
  {
  }

  lemma EnvelopeKeys(e: Envelope, payload: Json)
    ensures Keys(EnvelopeJson(e, payload).members) == NAMES && NoRepeats(NAMES)
  {
  }

  lemma EnvelopeIsWellFormed(e: Envelope, payload: Json, floats: Floats)
    requires WellFormed(payload) && Printable(payload, floats)
    ensures WellFormed(EnvelopeJson(e, payload)) && Printable(EnvelopeJson(e, payload), floats)
  {
    var listed := EnvelopeJson(e, payload).members;
    EnvelopeKeys(e, payload);
    SourceInOrder(e.source, floats);
    forall i | 0 <= i < |listed|
      ensures WellFormed(listed[i].value) && Printable(listed[i].value, floats)
    {
    }
  }

  /** Sorting gives any strictly sorted listing of the same members. */
  lemma SortedAs(members: seq<Member>, sorted: seq<Member>)
    requires NoRepeats(Keys(members)) && StrictlySorted(Keys(sorted))
    requires forall m :: m in members <==> m in sorted
    ensures SortMembers(members) == sorted
  {
    var r := SortMembers(members);
    Sorted(members);
    SameKeys(r, sorted);
    SortedListingUnique(Keys(r), Keys(sorted));
    forall i | 0 <= i < |r|
      ensures r[i] == sorted[i]
    {
      assert r[i] in sorted;
      var j :| 0 <= j < |sorted| && sorted[j] == r[i];
      assert Keys(r)[i] == Keys(sorted)[i];
      SortedOnce(sorted, i, j);
    }
  }

  lemma SourceReads(source: Source)
    ensures ReadSource(SortedSource(source), Source("", "")) == Some(source)
  {
    var members := SortedSource(source);
    assert members[1..] == [members[1]];
    assert ReadSource(members[1..], Source("", source.commit)) == Some(source);
  }

  lemma FieldsRead(e: Envelope, payload: Json)
    ensures ReadFields(SortedEnvelope(e, payload), NO_FIELDS)
         == Some(Fields(e.schema, e.publishedAt, e.expiresAt, e.source, e.digest, Some(payload)))
  {
    var m := SortedEnvelope(e, payload);
    var f := NO_FIELDS.(digest := e.digest, expiresAt := e.expiresAt, payload := Some(payload));
    assert ReadFields(m, NO_FIELDS) == ReadFields(m[3..], f) by {
      ThreeFields(m, NO_FIELDS);
    }
    LastFieldsRead(e, m[3..], f);
  }

  lemma LastFieldsRead(e: Envelope, m: seq<Member>, was: Fields)
    requires m == [Member("published_at", Str(e.publishedAt)), Member("schema", Str(e.schema)),
                   Member("source", Obj(SortedSource(e.source)))]
    requires was.source == Source("", "")
    ensures ReadFields(m, was) == Some(was.(publishedAt := e.publishedAt, schema := e.schema, source := e.source))
  {
    SourceReads(e.source);
    ThreeFields(m, was);
    assert m[3..] == [];
  }

  lemma ThreeFields(members: seq<Member>, was: Fields)
    requires |members| >= 3
    ensures var a := ReadField(members[0], was);
            var b := if a.None? then None else ReadField(members[1], a.value);
            var c := if b.None? then None else ReadField(members[2], b.value);
            ReadFields(members, was) == if c.None? then None else ReadFields(members[3..], c.value)
  {
    assert members[1..][1..] == members[2..] && members[2..][1..] == members[3..];
    var a := ReadField(members[0], was);
    if a.Some? {
      var b := ReadField(members[1], a.value);
      assert ReadFields(members[1..], a.value) == if b.None? then None else ReadFields(members[2..], b.value);
    }
  }

  /** An envelope around canonical bytes serializes, and its text decodes to its own fields. */
  lemma SerializedReadsBack(e: Envelope, payload: Json, rules: Rules)
    requires LawfulFloats(rules.floats) && WellFormed(payload) && Printable(payload, rules.floats)
    requires e.payload == Encode(payload, rules.floats)
    ensures Serialize(e, rules).Some?
    ensures var text := Serialize(e, rules).value;
            Decode(text) == Some(Obj(SortedEnvelope(e, Canon(payload, rules.floats))))
            && ReadEnvelope(text) == Some(Fields(e.schema, e.publishedAt, e.expiresAt, e.source, e.digest,
                                                 Some(Canon(payload, rules.floats))))
  {
    var canon := Canon(payload, rules.floats);
    ReprintIsIdentity(payload, rules.floats);
    CanonIsTidy(payload, rules.floats);
    TidyIsWellFormed(canon, rules.floats);
    TidyIsCanon(canon, rules.floats);
    assert e.payload != "";
    EnvelopeIsWellFormed(e, canon, rules.floats);
    CanonicalizedPrint(EnvelopeJson(e, canon), rules.floats);
    ReprintIsIdentity(EnvelopeJson(e, canon), rules.floats);
    EnvelopeInOrder(e, canon, rules.floats);
    FieldsRead(e, canon);
  }

  lemma ExpiryReads(e: Envelope, payload: Json)
    ensures ReadExpiry(SortedEnvelope(e, payload), "") == Some(e.expiresAt)
  {
    FieldsRead(e, payload);
    ExpiryAgrees(SortedEnvelope(e, payload), NO_FIELDS);
  }

  lemma OnlyExpiry(key: string)
    ensures Field(key, NAMES) == Some("expires_at") <==> Field(key, ["expires_at"]).Some?
  {
    // No other name has ten characters.
    assert FirstFolded(key, ["expires_at"][1..]) == None;
    assert |Fold(NAMES[0])| == 6 && |Fold(NAMES[1])| == 12 && |Fold(NAMES[2])| == 10 && |Fold(key)| == |key|;
    if |key| == 10 && key !in NAMES {
      assert FirstFolded(key, NAMES) == FirstFolded(key, NAMES[1..]);
      assert NAMES[1..][0] == NAMES[1] && NAMES[1..][1..] == NAMES[2..];
      assert FirstFolded(key, NAMES[1..]) == FirstFolded(key, NAMES[2..]);
      assert NAMES[2..][0] == "expires_at";
      assert FirstFolded(key, NAMES[2..]) ==
        if Fold("expires_at") == Fold(key) then Some("expires_at") else FirstFolded(key, NAMES[2..][1..]);
    }
  }

  /** The lenient reading of the expiry agrees with the strict reading of the whole envelope. */
  lemma {:induction false} ExpiryAgrees(members: seq<Member>, was: Fields)
    requires ReadFields(members, was).Some?
    ensures ReadExpiry(members, was.expiresAt) == Some(ReadFields(members, was).value.expiresAt)
    decreases |members|
  {
    if |members| > 0 {
      OnlyExpiry(members[0].key);
      ExpiryAgrees(members[1..], ReadField(members[0], was).value);
    }
  }

  // ---- main results ---------------------------------------------------------------------------

  /** Times this clock writes so that it can read them. */
  ghost predicate Readable(t: Time, rules: Rules) {
    rules.parse(rules.format(t)) == Some(t)
  }

  /** Verify accepts what Build and Serialize make at every nonzero instant before the expiry and
      no other. VerifyIntegrity accepts it at any age, unless it judges at the zero time itself. */
  lemma BuiltIsAccepted(schema: string, payload: Json, at: Time, source: Source, rules: Rules)
    requires LawfulFloats(rules.floats) && WellFormed(payload)
    requires Build(schema, payload, at, source, rules).Ok?
    requires Readable(at, rules) && Readable(at + FRESHNESS_BOUND, rules)
    ensures var e := Build(schema, payload, at, source, rules).value;
            Serialize(e, rules).Some?
            && (forall now :: Verify(Serialize(e, rules).value, schema, now, rules)
                  == if now == 0 then Err(InvalidExport)
                     else if now >= at + FRESHNESS_BOUND then Err(StaleExport)
                     else Ok(e))
            && VerifyIntegrity(Serialize(e, rules).value, schema, rules)
               == if at + FRESHNESS_BOUND == 1 then Err(InvalidExport) else Ok(e)
  {
    CanonicalizedPrint(payload, rules.floats);
    MadeIsAccepted(Build(schema, payload, at, source, rules).value, payload, at, rules);
  }

  lemma BuiltHolds(schema: string, payload: Json, at: Time, source: Source, rules: Rules)
    requires WellFormed(payload) && Build(schema, payload, at, source, rules).Ok?
    ensures var e := Build(schema, payload, at, source, rules).value;
            && e.payload == Encode(payload, rules.floats) && e.digest == rules.digest(e.payload)
            && e.publishedAt == rules.format(at) && e.source == source
  {
    CanonicalizedPrint(payload, rules.floats);
  }

  lemma MadeIsAccepted(e: Envelope, payload: Json, at: Time, rules: Rules)
    requires LawfulFloats(rules.floats) && WellFormed(payload) && Printable(payload, rules.floats)
    requires e.payload == Encode(payload, rules.floats)
    requires e.digest == rules.digest(e.payload) && rules.provenance(e.source)
    requires rules.parse(e.publishedAt) == Some(at) && rules.parse(e.expiresAt) == Some(at + FRESHNESS_BOUND)
    ensures Serialize(e, rules).Some?
    ensures forall now :: Verify(Serialize(e, rules).value, e.schema, now, rules) == JudgedAt(e, at, now)
    ensures VerifyIntegrity(Serialize(e, rules).value, e.schema, rules) == JudgedAt(e, at, at + FRESHNESS_BOUND - 1)
  {
    var canon := Canon(payload, rules.floats);
    var f := Fields(e.schema, e.publishedAt, e.expiresAt, e.source, e.digest, Some(canon));
    SerializedReadsBack(e, payload, rules);
    CanonReprints(payload, rules.floats);
    var text := Serialize(e, rules).value;
    forall now
      ensures Verify(text, e.schema, now, rules) == JudgedAt(e, at, now)
    {
      BuiltIsJudged(f, e, at, now, rules);
    }
    assert LastInstant(text, rules) == Some(at + FRESHNESS_BOUND - 1) by {
      ExpiryReads(e, canon);
    }
  }

  // The verdict on an envelope built at a time.
  ghost function JudgedAt(e: Envelope, at: Time, now: Time): Result<Envelope, Refusal> {
    if now == 0 then Err(InvalidExport) else if now >= at + FRESHNESS_BOUND then Err(StaleExport) else Ok(e)
  }

  lemma BuiltIsJudged(f: Fields, e: Envelope, at: Time, now: Time, rules: Rules)
    requires f.payload.Some? && f == Fields(e.schema, e.publishedAt, e.expiresAt, e.source, e.digest, f.payload)
    requires Printable(f.payload.value, rules.floats) && Encode(f.payload.value, rules.floats) == e.payload
    requires e.digest == rules.digest(e.payload) && rules.provenance(e.source)
    requires rules.parse(e.publishedAt) == Some(at) && rules.parse(e.expiresAt) == Some(at + FRESHNESS_BOUND)
    ensures Judge(f, e.schema, now, rules) == JudgedAt(e, at, now)
  {
  }

  lemma CanonReprints(payload: Json, floats: Floats)
    requires LawfulFloats(floats) && WellFormed(payload) && Printable(payload, floats)
    ensures Printable(Canon(payload, floats), floats)
    ensures Encode(Canon(payload, floats), floats) == Encode(payload, floats)
  {
    CanonIsTidy(payload, floats);
    TidyIsWellFormed(Canon(payload, floats), floats);
    TidyIsCanon(Canon(payload, floats), floats);
  }

  /** Build fails exactly on a blank schema, an unset time, bad provenance or a number out of range. */
  lemma BuildsExactly(schema: string, payload: Json, at: Time, source: Source, rules: Rules)
    requires WellFormed(payload)
    ensures Build(schema, payload, at, source, rules).Ok?
       <==> (!Blank(schema) && at != 0 && rules.provenance(source) && Printable(payload, rules.floats))
  {
    CanonicalizedPrint(payload, rules.floats);
  }

  /** What Verify returns for any accepted text serializes to a text it accepts with that result. */
  lemma AcceptedStaysAccepted(contents: string, schema: string, now: Time, rules: Rules)
    requires LawfulFloats(rules.floats) && Verify(contents, schema, now, rules).Ok?
    ensures var e := Verify(contents, schema, now, rules).value;
            Serialize(e, rules).Some? && Verify(Serialize(e, rules).value, schema, now, rules) == Ok(e)
  {
    var e := Verify(contents, schema, now, rules).value;
    var payload := ReadEnvelope(contents).value.payload.value;
    ReadIsWellFormed(contents);
    PayloadIsWellFormed(Decode(contents).value.members, NO_FIELDS);
    SerializedReadsBack(e, payload, rules);
    JudgedAgain(ReadEnvelope(contents).value, schema, now, rules);
  }

  // Judging what was accepted once more, its payload canonical by then.
  lemma JudgedAgain(f: Fields, schema: string, now: Time, rules: Rules)
    requires LawfulFloats(rules.floats) && Judge(f, schema, now, rules).Ok? && WellFormed(f.payload.value)
    ensures Judge(f.(payload := Some(Canon(f.payload.value, rules.floats))), schema, now, rules)
         == Judge(f, schema, now, rules)
  {
    CanonReprints(f.payload.value, rules.floats);
  }

  lemma {:induction false} PayloadIsWellFormed(members: seq<Member>, was: Fields)
    requires forall i :: 0 <= i < |members| ==> WellFormed(members[i].value)
    requires was.payload.Some? ==> WellFormed(was.payload.value)
    requires ReadFields(members, was).Some?
    ensures var f := ReadFields(members, was).value; f.payload.Some? ==> WellFormed(f.payload.value)
    decreases |members|
  {
    if |members| > 0 {
      var next := ReadField(members[0], was).value;
      PayloadFieldIsWellFormed(members[0], was);
      assert ReadFields(members, was) == ReadFields(members[1..], next);
      PayloadIsWellFormed(members[1..], next);
    }
  }

  lemma PayloadFieldIsWellFormed(m: Member, was: Fields)
    requires WellFormed(m.value) && (was.payload.Some? ==> WellFormed(was.payload.value)) && ReadField(m, was).Some?
    ensures var f := ReadField(m, was).value; f.payload.Some? ==> WellFormed(f.payload.value)
  {
  }

  /** VerifyIntegrity accepts exactly what Verify accepts at some instant, and returns the same. The
      exception is a text that expires one nanosecond after the zero time. */
  lemma IntegrityIsVerifyAtSomeInstant(contents: string, schema: string, rules: Rules)
    ensures VerifyIntegrity(contents, schema, rules).Ok?
       <==> (LastInstant(contents, rules) != Some(0) && exists now :: Verify(contents, schema, now, rules).Ok?)
    ensures forall now :: VerifyIntegrity(contents, schema, rules).Ok? && Verify(contents, schema, now, rules).Ok? ==>
      Verify(contents, schema, now, rules) == VerifyIntegrity(contents, schema, rules)
  {
    forall now | Verify(contents, schema, now, rules).Ok? && LastInstant(contents, rules) != Some(0)
      ensures VerifyIntegrity(contents, schema, rules) == Verify(contents, schema, now, rules)
    {
      LastInstantReads(contents, rules);
    }
  }

  lemma LastInstantReads(contents: string, rules: Rules)
    requires ReadEnvelope(contents).Some?
    ensures var at := rules.parse(ReadEnvelope(contents).value.expiresAt);
            LastInstant(contents, rules) == if at.None? then None else Some(at.value - 1)
  {
    if Decode(contents) != Some(Null) {
      ExpiryAgrees(Decode(contents).value.members, NO_FIELDS);
    }
  }

  /** Two accepted texts with one digest carry equal payloads, when the digest is injective. */
  lemma DigestNamesPayload(a: string, b: string, schema: string, now: Time, rules: Rules)
    requires forall x, y :: rules.digest(x) == rules.digest(y) ==> x == y
    requires LawfulFloats(rules.floats)
    requires Verify(a, schema, now, rules).Ok? && Verify(b, schema, now, rules).Ok?
    ensures Verify(a, schema, now, rules).value.digest == Verify(b, schema, now, rules).value.digest
       <==> Same(ReadEnvelope(a).value.payload.value, ReadEnvelope(b).value.payload.value, rules.floats)
  {
    ReadIsWellFormed(a);
    ReadIsWellFormed(b);
    PayloadIsWellFormed(Decode(a).value.members, NO_FIELDS);
    PayloadIsWellFormed(Decode(b).value.members, NO_FIELDS);
    SameBytesIffSameValue(ReadEnvelope(a).value.payload.value, ReadEnvelope(b).value.payload.value, rules.floats);
  }
}
