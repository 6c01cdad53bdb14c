/** packetexport/export.go: the packet export as a file, made and verified. */
module PacketFile {
  import opened Basics
  import opened PacketTypes
  import opened CanonicalJson
  import opened CanonicalProofs
  import opened StructJson
  import opened PacketExport
  import opened RecordJson
  import Envelopes

  const SCHEMA := "martcoca.tracker.packets/1"

  /** What a verified file holds: published_at, as text and as the instant it names, the digest,
      and the records. */
  datatype Export = Export(stamp: string, publishedAt: Time, digest: string, payload: seq<Record>)

  function RecordsJson(records: seq<Record>): Json {
    Arr(WriteAll(records, WriteRecord))
  }

  function DigestOf(records: seq<Record>, rules: Rules): string {
    rules.digest(Encode(RecordsJson(records), rules.floats))
  }

  // ---- making -----------------------------------------------------------------------------------

  /** BuildRecords and Serialize, over records already sorted. */
  function MakeFile(records: seq<Record>, at: Time, source: Envelopes.Source, rules: Rules): Option<string> {
    var built := Envelopes.Build(SCHEMA, RecordsJson(records), at, source, rules);
    if built.Err? then None else Envelopes.Serialize(built.value, rules)
  }

  // ---- verifying --------------------------------------------------------------------------------

  // Decoding into a []Record with unknown fields refused.
  function DecodeRecords(payload: string): Option<seq<Record>> {
    match Decode(payload)
    case Some(Null) => Some([])
    case Some(Arr(items)) => ReadAll(items, ReadRecord)
    case _ => None
  }

  // decodeVerified. The envelope's published_at has been parsed by then.
  function DecodeVerified(e: Envelopes.Envelope, rules: Rules): Result<Export, Envelopes.Refusal> {
    var records := DecodeRecords(e.payload);
    if records.None? || !Publishable(records.value, rules) then Err(Envelopes.InvalidExport)
    else Ok(Export(e.publishedAt, rules.parse(e.publishedAt).GetOr(0), e.digest, records.value))
  }

  function Verify(contents: string, now: Time, rules: Rules): Result<Export, Envelopes.Refusal> {
    var e := Envelopes.Verify(contents, SCHEMA, now, rules);
    if e.Err? then Err(e.error) else DecodeVerified(e.value, rules)
  }

  function VerifyIntegrity(contents: string, rules: Rules): Result<Export, Envelopes.Refusal> {
    var e := Envelopes.VerifyIntegrity(contents, SCHEMA, rules);
    if e.Err? then Err(e.error) else DecodeVerified(e.value, rules)
  }

  // ---- what is made verifies ----------------------------------------------------------------------

  /** An instant of the service's clock. Its format writes years of four digits, which it reads. */
  ghost predicate ClockReads(now: Time, rules: Rules) {
    now >= 0 && Envelopes.Readable(now, rules) && Envelopes.Readable(now + Envelopes.FRESHNESS_BOUND, rules)
  }

  function ExportOf(records: seq<Record>, at: Time, rules: Rules): Export {
    Export(rules.format(at), at, DigestOf(records, rules), records)
  }

  predicate VersionFits(r: Record) {
    r.version < UINT64
  }

  lemma RecordsAreWellFormed(records: seq<Record>, floats: Floats)
    ensures WellFormed(RecordsJson(records)) && Printable(RecordsJson(records), floats)
  {
    forall r
      ensures WellFormed(WriteRecord(r)) && Printable(WriteRecord(r), floats)
    {
      RecordIsWellFormed(r, floats);
    }
    ListIsWellFormed(records, WriteRecord, floats);
  }

  lemma RecordsRead(records: seq<Record>, floats: Floats)
    ensures ReadAll(CanonItems(WriteAll(records, WriteRecord), floats), ReadRecord)
         == if forall r :: r in records ==> VersionFits(r) then Some(records) else None
  {
    forall r
      ensures ReadRecord(Canon(WriteRecord(r), floats)) == if VersionFits(r) then Some(r) else None
    {
      RecordReads(r, floats);
    }
    ItemsRead(records, WriteRecord, ReadRecord, VersionFits, floats);
  }

  /** The canonical print of any records decodes to those records exactly when their versions fit. */
  lemma RecordsReadBack(records: seq<Record>, floats: Floats)
    requires LawfulFloats(floats)
    ensures WellFormed(RecordsJson(records)) && Printable(RecordsJson(records), floats)
    ensures DecodeRecords(Encode(RecordsJson(records), floats))
         == if forall r :: r in records ==> VersionFits(r) then Some(records) else None
  {
    RecordsAreWellFormed(records, floats);
    RecordsRead(records, floats);
    ReprintIsIdentity(RecordsJson(records), floats);
  }

  lemma DecodedAgain(records: seq<Record>, e: Envelopes.Envelope, at: Time, rules: Rules)
    requires LawfulFloats(rules.floats) && e.payload == Encode(RecordsJson(records), rules.floats)
    requires e.publishedAt == rules.format(at) && Envelopes.Readable(at, rules) && e.digest == rules.digest(e.payload)
    ensures DecodeVerified(e, rules)
         == if Publishable(records, rules) then Ok(ExportOf(records, at, rules)) else Err(Envelopes.InvalidExport)
  {
    RecordsReadBack(records, rules.floats);
    if r :| r in records && !VersionFits(r) {
      var i :| 0 <= i < |records| && records[i] == r;
      assert !ValidRecord(records[i], rules);
    }
  }

  /** A file is made from any records at any set time. It verifies, while it is fresh, to exactly
      the records it was made from when they are publishable, and to nothing otherwise. A merge
      may read it at any age. */
  lemma FileReadsBack(records: seq<Record>, at: Time, source: Envelopes.Source, rules: Rules)
    requires LawfulFloats(rules.floats) && rules.provenance(source) && ClockReads(at, rules) && at != 0
    ensures MakeFile(records, at, source, rules).Some?
    ensures var contents := MakeFile(records, at, source, rules).value;
            var read := if Publishable(records, rules) then Ok(ExportOf(records, at, rules))
                        else Err(Envelopes.InvalidExport);
            && VerifyIntegrity(contents, rules) == read
            && forall now ::
                 Verify(contents, now, rules)
                 == if now == 0 then Err(Envelopes.InvalidExport)
                    else if now >= at + Envelopes.FRESHNESS_BOUND then Err(Envelopes.StaleExport)
                    else read
  {
    var payload := RecordsJson(records);
    RecordsReadBack(records, rules.floats);
    SchemaIsSet();
    Envelopes.BuildsExactly(SCHEMA, payload, at, source, rules);
    Envelopes.BuiltIsAccepted(SCHEMA, payload, at, source, rules);
    Envelopes.BuiltHolds(SCHEMA, payload, at, source, rules);
    DecodedAgain(records, Envelopes.Build(SCHEMA, payload, at, source, rules).value, at, rules);
  }

  lemma SchemaIsSet()
    ensures !Blank(SCHEMA)
  {
    assert SCHEMA[0] in SCHEMA && !IsSpace(SCHEMA[0]);
  }

  /** A file is made from any records, exactly at a set time and from a source that validates. */
  lemma MadeExactly(records: seq<Record>, at: Time, source: Envelopes.Source, rules: Rules)
    requires LawfulFloats(rules.floats)
    ensures MakeFile(records, at, source, rules).Some? <==> at != 0 && rules.provenance(source)
  {
    var payload := RecordsJson(records);
    RecordsReadBack(records, rules.floats);
    SchemaIsSet();
    Envelopes.BuildsExactly(SCHEMA, payload, at, source, rules);
    if at != 0 && rules.provenance(source) {
      Envelopes.BuiltHolds(SCHEMA, payload, at, source, rules);
      Envelopes.SerializedReadsBack(Envelopes.Build(SCHEMA, payload, at, source, rules).value, payload, rules);
    }
  }

  /** A merge loses nothing: the records read from any intact file, however it was written, make a
      file that holds those records again, null slices and all. */
  lemma AcceptedRepublishes(contents: string, at: Time, source: Envelopes.Source, rules: Rules)
    requires LawfulFloats(rules.floats) && rules.provenance(source) && ClockReads(at, rules) && at != 0
    requires VerifyIntegrity(contents, rules).Ok?
    ensures var records := VerifyIntegrity(contents, rules).value.payload;
            && MakeFile(records, at, source, rules).Some?
            && VerifyIntegrity(MakeFile(records, at, source, rules).value, rules) == Ok(ExportOf(records, at, rules))
  {
    FileReadsBack(VerifyIntegrity(contents, rules).value.payload, at, source, rules);
  }

  /** Different payloads of valid records have different canonical bytes, so different digests if
      the digest has no collision between the two. */
  lemma PayloadsApart(a: seq<Record>, b: seq<Record>, rules: Rules)
    requires LawfulFloats(rules.floats) && Publishable(a, rules) && Publishable(b, rules) && a != b
    ensures Encode(RecordsJson(a), rules.floats) != Encode(RecordsJson(b), rules.floats)
  {
    RecordsReadBack(a, rules.floats);
    RecordsReadBack(b, rules.floats);
    assert (forall r :: r in a ==> VersionFits(r)) && forall r :: r in b ==> VersionFits(r) by {
      VersionsFit(a, rules);
      VersionsFit(b, rules);
    }
  }

  lemma VersionsFit(records: seq<Record>, rules: Rules)
    requires Publishable(records, rules)
    ensures forall r :: r in records ==> VersionFits(r)
  {
    forall r | r in records
      ensures VersionFits(r)
    {
      var i :| 0 <= i < |records| && records[i] == r;
      assert ValidRecord(records[i], rules);
    }
  }

  // ---- as the publisher sees it -------------------------------------------------------------------

  /** SerializeRecords, Verify, VerifyIntegrity and the payload's digest, for one source. */
  datatype Files = Files(
    make: (seq<Record>, Time) -> Option<string>,
    verify: (string, Time) -> Result<Export, Envelopes.Refusal>,
    integrity: string -> Result<Export, Envelopes.Refusal>,
    digest: seq<Record> -> string)

  function FilesOf(source: Envelopes.Source, rules: Rules): Files {
    Files((records, at) => MakeFile(records, at, source, rules), (contents, now) => Verify(contents, now, rules),
          contents => VerifyIntegrity(contents, rules), records => DigestOf(records, rules))
  }

  /** A file made of a payload: every later merge, and every reader until it expires, finds in it
      exactly that payload. */
  ghost predicate FileOf(payload: seq<Record>, now: Time, files: Files, rules: Rules, contents: string) {
    var read := Ok(Export(rules.format(now), now, files.digest(payload), payload));
    && files.make(payload, now) == Some(contents) && files.integrity(contents) == read
    && forall at :: 0 < at < now + Envelopes.FRESHNESS_BOUND ==> files.verify(contents, at) == read
  }

  /** What the publisher relies on: a file comes of every payload at a set time, and verifies then
      exactly when the payload is publishable. */
  ghost predicate LawfulFiles(files: Files, rules: Rules) {
    forall payload, now ::
      && (files.make(payload, now).Some? <==> now != 0)
      && (ClockReads(now, rules) && now != 0 ==>
            var contents := files.make(payload, now).value;
            if Publishable(payload, rules) then FileOf(payload, now, files, rules, contents)
            else files.verify(contents, now).Err?)
  }

  lemma FilesAreLawful(source: Envelopes.Source, rules: Rules)
    requires LawfulFloats(rules.floats) && rules.provenance(source)
    ensures LawfulFiles(FilesOf(source, rules), rules)
  {
    var files := FilesOf(source, rules);
    forall payload, now
      ensures files.make(payload, now).Some? <==> now != 0
      ensures ClockReads(now, rules) && now != 0 ==>
                var contents := files.make(payload, now).value;
                if Publishable(payload, rules) then FileOf(payload, now, files, rules, contents)
                else files.verify(contents, now).Err?
    {
      MadeExactly(payload, now, source, rules);
      if ClockReads(now, rules) && now != 0 {
        FileReadsBack(payload, now, source, rules);
      }
    }
  }
}
