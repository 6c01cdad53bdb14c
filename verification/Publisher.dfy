/** packetpublisher/publisher.go: building the public union, releasing it, renewing it. */
module Publishing {
  import opened Basics
  import opened PacketTypes
  import opened CanonicalJson
  import opened EventLog
  import opened EventStore
  import opened TrackerCache
  import opened Tracking
  import opened PacketExport
  import opened StructJson
  import opened PacketFile
  import Envelopes

  const RENEWAL_AGE: Time := Envelopes.FRESHNESS_BOUND / 2

  // The digest and the text of published_at, as the source joins them.
  datatype Observation = Observation(digest: string, stamp: string)

  function Observe(live: Export): Observation {
    Observation(live.digest, live.stamp)
  }

  predicate RenewalDue(live: Export, now: Time) {
    now >= live.publishedAt + RENEWAL_AGE
  }

  datatype Release = Release(digest: string, count: nat, publishedAt: Time)

  // observed and releasedOver are None where Go has the empty string.
  datatype Memory = Memory(observed: Option<Observation>, released: Release, releasedOver: Option<Observation>)

  const NOTHING_RELEASED := Release("", 0, 0)

  datatype Failure = NoBaseline | InvalidBaseline | InvalidRepository | StoreUnavailable | Unverifiable | PublishFailed

  // The public file. Publish replaces it whole or leaves it.
  class Hosting {
    var public: string

    constructor (first: string)
      ensures public == first
    {
      public := first;
    }

    method Publish(contents: string, succeeds: bool) returns (ok: bool)
      modifies this
      ensures ok == succeeds && public == if ok then contents else old(public)
    {
      if succeeds {
        public := contents;
      }
      return succeeds;
    }
  }

  // liveExport: the last public file, intact at any age. None is one that could not be read.
  function Baseline(live: Option<string>, files: Files): Result<Export, Failure> {
    if live.None? then Err(NoBaseline)
    else
      var read := files.integrity(live.value);
      if read.Err? then Err(InvalidBaseline) else Ok(read.value)
  }

  /** The repository's migration source, read like the live copy. */
  function Repository(file: Option<string>, files: Files): Option<seq<Record>> {
    if file.None? then None
    else
      var read := files.integrity(file.value);
      if read.Err? then None else Some(read.value.payload)
  }

  /** What a build publishes: the app over the repository over the live copy. */
  ghost function Union(live: seq<Record>, repository: seq<Record>, app: seq<Record>): map<string, Record> {
    ByID(live) + ByID(repository) + ByID(app)
  }

  /** A file and what it verifies to. */
  datatype Built = Built(contents: string, read: Export)

  /** A file built from its three sources. It holds the sorted union of their records, and the app's
      among them are one consistent cut of the log, each the log's own, projection and history
      alike. */
  ghost predicate BuiltFrom(log: seq<EventRecord>, live: Export, repository: Option<string>, app: seq<Record>,
                            now: Time, files: Files, rules: Rules, built: Built)
  {
    && built.read == Export(rules.format(now), now, files.digest(built.read.payload), built.read.payload)
    && FileOf(built.read.payload, now, files, rules, built.contents)
    && Repository(repository, files).Some?
    && Lists(built.read.payload, Union(live.payload, Repository(repository, files).value, app))
    && CutOf(log, app, rules.format)
    && forall i :: 0 <= i < |app| ==> app[i] == RecordIn(log, app[i].id, rules.format)
  }

  /** What a build asks of its sources once the app's records are read. A torn record is not valid. */
  ghost predicate Buildable(live: Export, repository: Option<string>, app: seq<Record>, now: Time, files: Files,
                            rules: Rules) {
    && Repository(repository, files).Some? && now != 0
    && AllValid(Union(live.payload, Repository(repository, files).value, app), rules)
  }

  /** What a check concludes. Quiet checks do not even look at the store. */
  datatype Verdict = Quiet | UpToDate | CatchingUp | ReleaseNow

  predicate IsQuiet(m: Memory, live: Export, now: Time) {
    m.observed == Some(Observe(live)) && !RenewalDue(live, now)
  }

  function Judge(m: Memory, live: Export, digest: string, now: Time): Verdict {
    if IsQuiet(m, live, now) then Quiet
    else if digest == live.digest && !RenewalDue(live, now) then UpToDate
    else if digest == m.released.digest && m.releasedOver == Some(Observe(live))
            && now < m.released.publishedAt + RENEWAL_AGE then CatchingUp
    else ReleaseNow
  }

  function Looked(m: Memory, live: Export): Memory {
    m.(observed := Some(Observe(live)))
  }

  function Released(m: Memory, live: Export, built: Export): Memory {
    m.(released := Release(built.digest, |built.payload|, built.publishedAt), releasedOver := Some(Observe(live)))
  }

  class Publisher {
    const tracker: Tracker
    const destination: Hosting
    const files: Files
    const rules: Rules
    var memory: Memory

    ghost predicate Valid()
      reads this, tracker, tracker.store
    {
      tracker.Valid() && LawfulFiles(files, rules)
    }

    constructor (tracker: Tracker, destination: Hosting, source: Envelopes.Source, rules: Rules)
      requires tracker.Valid() && rules.provenance(source) && LawfulFloats(rules.floats)
      ensures Valid() && this.tracker == tracker && this.destination == destination
      ensures files == FilesOf(source, rules) && this.rules == rules
      ensures memory == Memory(None, NOTHING_RELEASED, None)
    {
      FilesAreLawful(source, rules);
      this.tracker, this.destination, this.files, this.rules := tracker, destination, FilesOf(source, rules), rules;
      memory := Memory(None, NOTHING_RELEASED, None);
    }

    static method New(tracker: Tracker, destination: Hosting, source: Envelopes.Source, rules: Rules)
      returns (r: Option<Publisher>)
      requires tracker.Valid() && LawfulFloats(rules.floats)
      ensures r.Some? <==> rules.provenance(source)
      ensures r.Some? ==>
                && fresh(r.value) && r.value.Valid() && r.value.tracker == tracker && r.value.destination == destination
                && r.value.files == FilesOf(source, rules) && r.value.rules == rules
                && r.value.memory == Memory(None, NOTHING_RELEASED, None)
    {
      if !rules.provenance(source) {
        return None;
      }
      var made := new Publisher(tracker, destination, source, rules);
      return Some(made);
    }

    /** A build is a file of the sorted union of its three sources, with the log's own app records.
        While the log replays it comes out exactly when its sources are intact and its records
        valid. */
    method Build(live: Export, repository: Option<string>, others: int -> seq<Attempt>, now: Time)
      returns (r: Result<Built, Failure>, ghost app: seq<Record>)
      requires Valid() && Replays(tracker.store.records) && ClockReads(now, rules)
      modifies tracker, tracker.store
      ensures Valid() && old(tracker.store.records) <= tracker.store.records
      ensures r.Ok? ==> old(tracker.projectionReady)
      ensures r.Ok? ==> BuiltFrom(old(tracker.store.records), live, repository, app, now, files, rules, r.value)
      ensures old(tracker.projectionReady) && Replays(tracker.store.records) ==>
                (r.Ok? <==> Buildable(live, repository, app, now, files, rules))
      ensures r.Err? ==> r.error in {InvalidRepository, StoreUnavailable, Unverifiable}
    {
      app := [];
      ghost var log := tracker.store.records;
      var migrated := Repository(repository, files);
      if migrated.None? {
        return Err(InvalidRepository), app;
      }
      var records := Records(tracker, others, rules.format);
      if records.Err? {
        return Err(StoreUnavailable), app;
      }
      app := records.value;
      var payload := Merge(live.payload, migrated.value, records.value, rules);
      var built := MakeBuilt(payload, now, files, rules);
      if built.None? {
        return Err(Unverifiable), app;
      }
      AppPublished(log, payload, Union(live.payload, migrated.value, app), app, rules);
      return Ok(built.value), app;
    }

    method Release(live: Export, built: Built, succeeds: bool) returns (ok: bool)
      modifies this, destination
      ensures ok == succeeds
      ensures destination.public == if ok then built.contents else old(destination.public)
      ensures memory == if ok then Released(old(memory), live, built.read) else old(memory)
    {
      ok := destination.Publish(built.contents, succeeds);
      if ok {
        memory := Released(memory, live, built.read);
      }
    }

    /** Publish rebuilds and releases; any failure before the release changes nothing. */
    method Publish(live: Option<string>, repository: Option<string>, others: int -> seq<Attempt>, now: Time,
                   succeeds: bool)
      returns (r: Result<Built, Failure>, ghost app: seq<Record>)
      requires Valid() && Replays(tracker.store.records) && ClockReads(now, rules)
      modifies this, tracker, tracker.store, destination
      ensures Valid() && old(tracker.store.records) <= tracker.store.records
      ensures r.Ok? ==> Baseline(live, files).Ok? && succeeds
      ensures r.Ok? ==> BuiltFrom(old(tracker.store.records), Baseline(live, files).value, repository, app, now, files,
                                  rules, r.value)
      ensures old(tracker.projectionReady) && Replays(tracker.store.records) && Baseline(live, files).Ok? ==>
                (r.Ok? <==> Buildable(Baseline(live, files).value, repository, app, now, files, rules) && succeeds)
      ensures destination.public == if r.Ok? then r.value.contents else old(destination.public)
      ensures memory == if r.Ok? then Released(old(memory), Baseline(live, files).value, r.value.read) else old(memory)
    {
      app := [];
      var baseline := Baseline(live, files);
      if baseline.Err? {
        return Err(baseline.error), app;
      }
      ghost var public, before := destination.public, memory;
      var built, cut := Build(baseline.value, repository, others, now);
      app := cut;
      if built.Err? {
        return Err(built.error), app;
      }
      var ok := Release(baseline.value, built.value, succeeds);
      if !ok {
        return Err(PublishFailed), app;
      }
      return built, app;
    }

    /** One renewal check: what it concludes, what it built if it looked, and what it releases. A
        release that fails is remembered only as a live copy observed. */
    method Renew(live: Option<string>, repository: Option<string>, others: int -> seq<Attempt>, now: Time,
                 succeeds: bool)
      returns (r: Result<(Verdict, Option<Built>), Failure>, ghost app: seq<Record>, ghost tried: Option<Built>)
      requires Valid() && Replays(tracker.store.records) && ClockReads(now, rules)
      modifies this, tracker, tracker.store, destination
      ensures Valid() && old(tracker.store.records) <= tracker.store.records
      ensures r.Ok? || r.error == PublishFailed ==> Baseline(live, files).Ok?
      ensures r.Ok? ==> r.value.1 == tried && (r.value.0 == Quiet <==> tried == None)
      ensures r.Ok? && r.value.0 == Quiet ==>
                IsQuiet(old(memory), Baseline(live, files).value, now) && memory == old(memory)
      ensures tried.Some? ==> Baseline(live, files).Ok? && !IsQuiet(old(memory), Baseline(live, files).value, now)
      ensures tried.Some? ==> BuiltFrom(old(tracker.store.records), Baseline(live, files).value, repository, app, now,
                                        files, rules, tried.value)
      ensures r.Ok? && tried.Some? ==>
                r.value.0 == Judge(old(memory), Baseline(live, files).value, tried.value.read.digest, now)
      ensures r.Err? ==> (r.error == PublishFailed <==> tried.Some?)
      ensures r.Err? && tried.Some? ==>
                Judge(old(memory), Baseline(live, files).value, tried.value.read.digest, now) == ReleaseNow && !succeeds
      ensures r.Ok? && r.value.0 == ReleaseNow ==> succeeds
      ensures memory == if tried.None? then old(memory)
                        else if r.Ok? && r.value.0 == ReleaseNow then
                          Released(Looked(old(memory), Baseline(live, files).value), Baseline(live, files).value,
                                   tried.value.read)
                        else Looked(old(memory), Baseline(live, files).value)
      ensures destination.public == if r.Ok? && r.value.0 == ReleaseNow then tried.value.contents
                                    else old(destination.public)
      ensures old(tracker.projectionReady) && Replays(tracker.store.records) && Baseline(live, files).Ok?
              && !IsQuiet(old(memory), Baseline(live, files).value, now) ==>
                (tried.Some? <==> Buildable(Baseline(live, files).value, repository, app, now, files, rules))
    {
      app, tried := [], None;
      var baseline := Baseline(live, files);
      if baseline.Err? {
        return Err(baseline.error), app, tried;
      }
      var due := RenewalDue(baseline.value, now);
      var observed := Observe(baseline.value);
      if Some(observed) == memory.observed && !due {
        return Ok((Quiet, None)), app, tried;
      }
      var built, cut := Build(baseline.value, repository, others, now);
      app := cut;
      if built.Err? {
        return Err(built.error), app, tried;
      }
      tried := Some(built.value);
      memory := memory.(observed := Some(observed));
      if built.value.read.digest == baseline.value.digest && !due {
        return Ok((UpToDate, Some(built.value))), app, tried;
      }
      if built.value.read.digest == memory.released.digest && Some(observed) == memory.releasedOver
         && now < memory.released.publishedAt + RENEWAL_AGE
      {
        return Ok((CatchingUp, Some(built.value))), app, tried;
      }
      var ok := Release(baseline.value, built.value, succeeds);
      if !ok {
        return Err(PublishFailed), app, tried;
      }
      return Ok((ReleaseNow, Some(built.value))), app, tried;
    }
  }

  // The serialized union, verified with the shipped reader before any network write.
  method MakeBuilt(payload: seq<Record>, now: Time, files: Files, rules: Rules) returns (built: Option<Built>)
    requires LawfulFiles(files, rules) && ClockReads(now, rules)
    ensures built.Some? <==> now != 0 && Publishable(payload, rules)
    ensures built.Some? ==>
              && built.value.read == Export(rules.format(now), now, files.digest(payload), payload)
              && FileOf(payload, now, files, rules, built.value.contents)
  {
    var contents := files.make(payload, now);
    if contents.None? {
      return None;
    }
    var read := files.verify(contents.value, now);
    if read.Err? {
      return None;
    }
    return Some(Built(contents.value, read.value));
  }

  // The newest repository export wins over the last public union, and the app's log over both.
  method Merge(live: seq<Record>, repository: seq<Record>, app: seq<Record>, rules: Rules)
    returns (payload: seq<Record>)
    ensures Lists(payload, Union(live, repository, app))
    ensures Publishable(payload, rules) <==> AllValid(Union(live, repository, app), rules)
  {
    var reconciled := Reconcile(live, repository);
    reconciled := Reconcile(reconciled, app);
    payload := SortRecords(reconciled);
    ListedValid(payload, Union(live, repository, app), rules);
  }

  lemma AppPublished(log: seq<EventRecord>, payload: seq<Record>, m: map<string, Record>, app: seq<Record>,
                     rules: Rules)
    requires CutOf(log, app, rules.format) && Publishable(payload, rules) && Lists(payload, m)
    requires forall id :: id in ByID(app) ==> id in m && m[id] == ByID(app)[id]
    ensures forall i :: 0 <= i < |app| ==> app[i] == RecordIn(log, app[i].id, rules.format)
  {
    SortedDistinctIDs(app);
    DistinctByID(app);
    forall i | 0 <= i < |app|
      ensures app[i] == RecordIn(log, app[i].id, rules.format)
    {
      var k :| 0 <= k < |payload| && payload[k].id == app[i].id;
      assert payload[k] == app[i] && ValidRecord(payload[k], rules);
    }
  }

  lemma SortedDistinctIDs(records: seq<Record>)
    requires forall i, j :: 0 <= i < j < |records| ==> Less(records[i].id, records[j].id)
    ensures DistinctIDs(records)
  {
    forall i, j | 0 <= i < j < |records|
      ensures records[i].id != records[j].id
    {
      LessTotal(records[i].id, records[j].id);
    }
  }

  // ---- rebuilding is idempotent -------------------------------------------------------------

  /** A build over its own file with an unchanged log and repository holds the same payload again,
      and at the same instant is the same file. */
  lemma RebuildIsSame(log: seq<EventRecord>, live: Export, repository: Option<string>, app: seq<Record>, at: Time,
                      appAgain: seq<Record>, now: Time, files: Files, rules: Rules, built: Built, rebuilt: Built)
    requires BuiltFrom(log, live, repository, app, at, files, rules, built)
    requires BuiltFrom(log, files.integrity(built.contents).value, repository, appAgain, now, files, rules,
                       rebuilt)
    ensures rebuilt.read.payload == built.read.payload && rebuilt.read.digest == built.read.digest
    ensures now == at ==> rebuilt == built
  {
    CutIsOne(log, app, appAgain, rules.format);
    var migrated := Repository(repository, files).value;
    var union := Union(live.payload, migrated, app);
    ListsBack(built.read.payload, union);
    OverlayTwice(ByID(live.payload), ByID(migrated), ByID(app));
    ListingUnique(rebuilt.read.payload, built.read.payload, union);
  }

  lemma OverlayTwice(l: map<string, Record>, r: map<string, Record>, a: map<string, Record>)
    ensures l + r + a + r + a == l + r + a
  {
  }

  /** Once a build is live, checks over an unchanged log and repository release nothing before
      RENEWAL_AGE. */
  lemma StableUntilDue(m: Memory, log: seq<EventRecord>, live: Export, repository: Option<string>, app: seq<Record>,
                       at: Time, appAgain: seq<Record>, now: Time, files: Files, rules: Rules,
                       public: Built, again: Built)
    requires BuiltFrom(log, live, repository, app, at, files, rules, public)
    requires Baseline(Some(public.contents), files).Ok?
    requires BuiltFrom(log, Baseline(Some(public.contents), files).value, repository, appAgain, now, files, rules,
                       again)
    requires now < at + RENEWAL_AGE
    ensures Judge(m, Baseline(Some(public.contents), files).value, again.read.digest, now) in {Quiet, UpToDate}
  {
    RebuildIsSame(log, live, repository, app, at, appAgain, now, files, rules, public, again);
  }

  // ---- after a release that failed ------------------------------------------------------------

  /** While the live copy stays the same, a failed release of a payload is tried again exactly
      when the copy is due; until then checks are quiet. */
  lemma FailedReleaseRetried(m: Memory, live: Export, later: Export, digest: string, at: Time, now: Time)
    requires Judge(m, live, digest, at) == ReleaseNow && at <= now && Observe(later) == Observe(live)
    ensures Judge(Looked(m, live), later, digest, now) == if RenewalDue(later, now) then ReleaseNow else Quiet
  {
  }

  /** Once the live copy has changed, a check releases exactly when the sources differ from the
      new copy or it is due, unless that very payload was released over it less than RENEWAL_AGE ago. */
  lemma ChangedCopyReleased(m: Memory, live: Export, later: Export, digest: string, now: Time)
    requires Observe(later) != Observe(live)
    ensures Judge(Looked(m, live), later, digest, now) == ReleaseNow
       <==> (digest != later.digest || RenewalDue(later, now))
            && !(digest == m.released.digest && m.releasedOver == Some(Observe(later))
                 && now < m.released.publishedAt + RENEWAL_AGE)
  {
  }

  // ---- runs -----------------------------------------------------------------------------------

  /** The public file's versions, oldest first, and the one publisher's memory. */
  datatype World = World(versions: seq<Export>, memory: Memory)

  // A check reads any version the public file has ever had: copies lag. Announce is a
  // publication on another path. Either release may fail. Missed is a check or a publication
  // that found no live copy to read or nothing to build.
  datatype Turn =
    | Check(now: Time, held: nat, built: Export, succeeds: bool)
    | Announce(now: Time, held: nat, built: Export, succeeds: bool)
    | Missed(now: Time)

  function Last(w: World): Export
    requires |w.versions| > 0
  {
    w.versions[|w.versions| - 1]
  }

  /** The copy a turn reads. */
  function Live(w: World, turn: Turn): Export
    requires !turn.Missed? && turn.held < |w.versions|
  {
    w.versions[turn.held]
  }

  /** A check, as Renew's contract has it, or an announcement, as Publish's does. */
  ghost predicate Turned(w: World, v: World, turn: Turn) {
    && |w.versions| > 0
    && (!turn.Missed? ==>
          turn.held < |w.versions| && turn.built.publishedAt == turn.now)
    && match turn
       case Check(now, _, built, succeeds) =>
         var live := Live(w, turn);
         var verdict := Judge(w.memory, live, built.digest, now);
         if verdict == ReleaseNow && succeeds then
           v == World(w.versions + [built], Released(Looked(w.memory, live), live, built))
         else
           v == World(w.versions, if verdict == Quiet then w.memory else Looked(w.memory, live))
       case Announce(_, _, built, succeeds) =>
         v == if succeeds then World(w.versions + [built], Released(w.memory, Live(w, turn), built)) else w
       case Missed(_) => v == w
  }

  /** What Renew promises of a check of the copy held, from the memory of w to the memory after, is a
      turn: a check, unless it failed before it built anything. It fails as a turn exactly when its
      release does. */
  lemma RenewIsTurn(w: World, held: nat, now: Time, succeeds: bool, r: Result<(Verdict, Option<Built>), Failure>,
                    tried: Option<Built>, after: Memory) returns (turn: Turn)
    requires held < |w.versions|
    requires r.Ok? ==> r.value.1 == tried && (r.value.0 == Quiet <==> tried == None)
    requires r.Ok? && r.value.0 == Quiet ==> IsQuiet(w.memory, w.versions[held], now) && after == w.memory
    requires tried.Some? ==> !IsQuiet(w.memory, w.versions[held], now) && tried.value.read.publishedAt == now
    requires r.Ok? && tried.Some? ==> r.value.0 == Judge(w.memory, w.versions[held], tried.value.read.digest, now)
    requires r.Err? && tried.Some? ==>
               Judge(w.memory, w.versions[held], tried.value.read.digest, now) == ReleaseNow && !succeeds
    requires r.Ok? && r.value.0 == ReleaseNow ==> succeeds
    requires after == if tried.None? then w.memory
                      else if r.Ok? && r.value.0 == ReleaseNow then
                        Released(Looked(w.memory, w.versions[held]), w.versions[held], tried.value.read)
                      else Looked(w.memory, w.versions[held])
    ensures Turned(w, World(if r.Ok? && r.value.0 == ReleaseNow then w.versions + [tried.value.read] else w.versions,
                            after), turn)
    ensures if r.Ok? || tried.Some? then turn.Check? && turn.now == now && turn.held == held else turn == Missed(now)
    ensures tried.Some? ==> turn.built == tried.value.read
    ensures Fails(w, turn) <==> r.Err? && tried.Some?
  {
    turn := if tried.Some? then Check(now, held, tried.value.read, succeeds)
            else if r.Ok? then Check(now, held, Export("", now, "", []), succeeds)
            else Missed(now);
  }

  /** A check that decided to release and could not. */
  ghost predicate Fails(w: World, turn: Turn) {
    && turn.Check? && turn.held < |w.versions| && !turn.succeeds
    && Judge(w.memory, Live(w, turn), turn.built.digest, turn.now) == ReleaseNow
  }

  ghost predicate IsHistory(worlds: seq<World>, turns: seq<Turn>) {
    && |worlds| == |turns| + 1
    && |worlds[0].versions| == 1 && worlds[0].memory == Memory(None, NOTHING_RELEASED, None)
    && (|turns| > 0 ==> Last(worlds[0]).publishedAt <= turns[0].now)
    && (forall i :: 0 <= i < |turns| ==> Turned(worlds[i], worlds[i + 1], turns[i]))
    && (forall i :: 0 <= i < |turns| - 1 ==> turns[i].now <= turns[i + 1].now)
  }

  /** Versions are dated in order, none later than now, and the memory is of the last. */
  ghost predicate Consistent(w: World, now: Time) {
    && |w.versions| > 0
    && (forall i, j :: 0 <= i <= j < |w.versions| ==> w.versions[i].publishedAt <= w.versions[j].publishedAt)
    && Last(w).publishedAt <= now
    && (w.memory.releasedOver.Some? ==>
          w.memory.released.digest == Last(w).digest && w.memory.released.publishedAt == Last(w).publishedAt)
  }

  lemma TurnConsistent(w: World, v: World, turn: Turn)
    requires Consistent(w, turn.now) && Turned(w, v, turn)
    ensures Consistent(v, turn.now)
  {
  }

  /** However old a copy it judged by, a check whose release does not fail leaves the public file
      younger than RENEWAL_AGE. */
  lemma CheckLeavesYoung(w: World, v: World, turn: Turn)
    requires turn.Check? && !Fails(w, turn) && Consistent(w, turn.now) && Turned(w, v, turn)
    ensures turn.now < Last(v).publishedAt + RENEWAL_AGE
  {
  }

  lemma {:induction false} HistoryConsistent(worlds: seq<World>, turns: seq<Turn>, i: nat)
    requires IsHistory(worlds, turns) && i < |turns|
    ensures Consistent(worlds[i], turns[i].now) && Consistent(worlds[i + 1], turns[i].now)
    decreases i
  {
    if i > 0 {
      HistoryConsistent(worlds, turns, i - 1);
      assert turns[i - 1].now <= turns[i].now;
    }
    TurnConsistent(worlds[i], worlds[i + 1], turns[i]);
  }

  lemma {:induction false} TimeOrdered(worlds: seq<World>, turns: seq<Turn>, i: nat, j: nat)
    requires IsHistory(worlds, turns) && i <= j < |turns|
    ensures turns[i].now <= turns[j].now
    ensures Last(worlds[i + 1]).publishedAt <= Last(worlds[j + 1]).publishedAt
    decreases j
  {
    HistoryConsistent(worlds, turns, j);
    HistoryConsistent(worlds, turns, i);
    if i < j {
      TimeOrdered(worlds, turns, i, j - 1);
      HistoryConsistent(worlds, turns, j - 1);
      assert turns[j - 1].now <= turns[j].now;
      LastAdvances(worlds[j], worlds[j + 1], turns[j]);
    }
  }

  lemma LastAdvances(w: World, v: World, turn: Turn)
    requires Consistent(w, turn.now) && Turned(w, v, turn)
    ensures Last(w).publishedAt <= Last(v).publishedAt
  {
  }

  /** Timed freshness. After any check that does not fail the public file is younger than
      RENEWAL_AGE; and while such checks come no further apart than the rest of its life, it is
      never found expired: at every instant up to the next of them, whatever turns lie between,
      failed ones included, it is still fresh. */
  lemma NeverExpired(worlds: seq<World>, turns: seq<Turn>, i: nat, j: nat, at: Time)
    requires IsHistory(worlds, turns) && i <= j < |turns| && turns[i].Check? && !Fails(worlds[i], turns[i])
    requires turns[j].now <= at <= turns[i].now + (Envelopes.FRESHNESS_BOUND - RENEWAL_AGE)
    ensures turns[i].now < Last(worlds[i + 1]).publishedAt + RENEWAL_AGE
    ensures at < Last(worlds[j + 1]).publishedAt + Envelopes.FRESHNESS_BOUND
  {
    HistoryConsistent(worlds, turns, i);
    CheckLeavesYoung(worlds[i], worlds[i + 1], turns[i]);
    TimeOrdered(worlds, turns, i, j);
  }

  ghost predicate Releases(worlds: seq<World>, turns: seq<Turn>, i: nat)
    requires IsHistory(worlds, turns) && i < |turns|
  {
    |worlds[i + 1].versions| > |worlds[i].versions|
  }

  lemma {:induction false} QuietBetween(worlds: seq<World>, turns: seq<Turn>, i: nat, j: nat)
    requires IsHistory(worlds, turns) && i < j < |turns|
    requires forall k :: i < k < j ==> !Releases(worlds, turns, k)
    ensures worlds[j].memory.released == worlds[i + 1].memory.released
    ensures worlds[j].memory.releasedOver == worlds[i + 1].memory.releasedOver
    decreases j
  {
    if i + 1 < j {
      QuietBetween(worlds, turns, i, j - 1);
      assert !Releases(worlds, turns, j - 1);
      assert Turned(worlds[j - 1], worlds[j], turns[j - 1]);
    }
  }

  /** A check never releases the same payload over the same live copy within RENEWAL_AGE of the
      release before it: a copy that has not caught up costs no second version. */
  lemma RepeatsAreApart(worlds: seq<World>, turns: seq<Turn>, i: nat, j: nat)
    requires IsHistory(worlds, turns) && i < j < |turns| && turns[j].Check?
    requires Releases(worlds, turns, i) && Releases(worlds, turns, j)
    requires forall k :: i < k < j ==> !Releases(worlds, turns, k)
    requires !turns[i].Missed? && turns[i].built.digest == turns[j].built.digest
    requires turns[i].held < |worlds[i].versions| && turns[j].held < |worlds[j].versions|
    requires Observe(Live(worlds[i], turns[i])) == Observe(Live(worlds[j], turns[j]))
    ensures turns[j].now >= turns[i].now + RENEWAL_AGE
  {
    QuietBetween(worlds, turns, i, j);
    assert Turned(worlds[i], worlds[i + 1], turns[i]) && Turned(worlds[j], worlds[j + 1], turns[j]);
  }

  /** Every check after i up to j reads the copy observed by i's, and that copy is not due. */
  ghost predicate SameCopy(worlds: seq<World>, turns: seq<Turn>, i: nat, j: nat)
    requires IsHistory(worlds, turns) && i < j <= |turns| && Fails(worlds[i], turns[i])
  {
    forall k :: i < k < j && turns[k].Check? ==>
      && turns[k].held < |worlds[k].versions|
      && Observe(Live(worlds[k], turns[k])) == Observe(Live(worlds[i], turns[i]))
      && !RenewalDue(Live(worlds[k], turns[k]), turns[k].now)
  }

  /** After a failed release checks do nothing at all while the live copy stays the same and is
      not due, whatever their sources say and whatever else is announced. */
  lemma {:induction false} FailedStaysQuiet(worlds: seq<World>, turns: seq<Turn>, i: nat, j: nat)
    requires IsHistory(worlds, turns) && i < j <= |turns| && Fails(worlds[i], turns[i])
    requires SameCopy(worlds, turns, i, j)
    ensures worlds[j].memory.observed == Some(Observe(Live(worlds[i], turns[i])))
    ensures forall k :: i < k < j && turns[k].Check? ==> worlds[k + 1] == worlds[k]
    decreases j
  {
    assert Turned(worlds[j - 1], worlds[j], turns[j - 1]);
    if i + 1 < j {
      FailedStaysQuiet(worlds, turns, i, j - 1);
    }
  }

  /** The check that finds the same copy due does try the payload again, if nothing has been
      announced since. */
  lemma RetriedOnceDue(worlds: seq<World>, turns: seq<Turn>, i: nat, j: nat)
    requires IsHistory(worlds, turns) && i < j < |turns| && Fails(worlds[i], turns[i])
    requires SameCopy(worlds, turns, i, j) && forall k :: i < k < j && turns[k].Announce? ==> !turns[k].succeeds
    requires turns[j].Check? && turns[j].built.digest == turns[i].built.digest && turns[j].held < |worlds[j].versions|
    requires Observe(Live(worlds[j], turns[j])) == Observe(Live(worlds[i], turns[i]))
    ensures RenewalDue(Live(worlds[j], turns[j]), turns[j].now) ==>
              Judge(worlds[j].memory, Live(worlds[j], turns[j]), turns[j].built.digest, turns[j].now) == ReleaseNow
    ensures !RenewalDue(Live(worlds[j], turns[j]), turns[j].now) ==> worlds[j + 1] == worlds[j]
  {
    FailedStaysQuiet(worlds, turns, i, j);
    UnannouncedKeeps(worlds, turns, i, j);
    TimeOrdered(worlds, turns, i, j);
    var live := Live(worlds[i], turns[i]);
    assert worlds[j].memory == Looked(worlds[i].memory, live);
    FailedReleaseRetried(worlds[i].memory, live, Live(worlds[j], turns[j]), turns[i].built.digest, turns[i].now,
                         turns[j].now);
    assert Turned(worlds[j], worlds[j + 1], turns[j]);
  }

  lemma {:induction false} UnannouncedKeeps(worlds: seq<World>, turns: seq<Turn>, i: nat, j: nat)
    requires IsHistory(worlds, turns) && i < j <= |turns| && Fails(worlds[i], turns[i])
    requires SameCopy(worlds, turns, i, j) && forall k :: i < k < j && turns[k].Announce? ==> !turns[k].succeeds
    ensures worlds[j] == World(worlds[i].versions, Looked(worlds[i].memory, Live(worlds[i], turns[i])))
    decreases j
  {
    assert Turned(worlds[j - 1], worlds[j], turns[j - 1]);
    if i + 1 < j {
      UnannouncedKeeps(worlds, turns, i, j - 1);
      FailedStaysQuiet(worlds, turns, i, j);
    }
  }

  // A clock that counts nanoseconds, and the library rules of the history below.
  function Ticks(t: Time): string {
    if t < 0 then "" else Decimal(t)
  }

  function ReadTicks(text: string): Option<Time> {
    if text != "" && forall c :: c in text ==> IsDigit(c) then Some(DecimalValue(text)) else None
  }

  const TICKING := Envelopes.Rules(_ => None, Ticks, ReadTicks, text => text, _ => true)

  const UNTOUCHED := Record("P", "T", Body("", "", "", "", ""), "not started", 0, None, Some([]), Some([]), None, None,
                            None, Some([]))

  lemma TicksRead(t: Time)
    requires t >= 0
    ensures ClockReads(t, TICKING)
  {
    DecimalReads(t);
    DecimalReads(t + Envelopes.FRESHNESS_BOUND);
  }

  lemma UntouchedIsValid()
    ensures Publishable([UNTOUCHED], TICKING) && Publishable([], TICKING)
  {
    assert UNTOUCHED.id[0] in UNTOUCHED.id && UNTOUCHED.tenantID[0] in UNTOUCHED.tenantID;
  }

  lemma DigestsApart(a: seq<Record>, b: seq<Record>)
    requires Publishable(a, TICKING) && Publishable(b, TICKING) && a != b
    ensures DigestOf(a, TICKING) != DigestOf(b, TICKING)
  {
    PayloadsApart(a, b, TICKING);
  }

  lemma FileAt(payload: seq<Record>, at: Time) returns (contents: string, read: Export)
    requires at > 0 && Publishable(payload, TICKING)
    ensures VerifyIntegrity(contents, TICKING) == Ok(read)
    ensures read.publishedAt == at && read.digest == DigestOf(payload, TICKING)
  {
    var source := Envelopes.Source("", "");
    TicksRead(at);
    FileReadsBack(payload, at, source, TICKING);
    contents, read := MakeFile(payload, at, source, TICKING).value, ExportOf(payload, at, TICKING);
  }

  /** A failed release that the next check does not retry, although its sources still differ from
      the public file. The public file, and the file each check builds, are intact. */
  lemma FailedAndNotRetried()
    returns (public: string, built: string, again: string, worlds: seq<World>, turns: seq<Turn>)
    ensures LawfulFloats(TICKING.floats) && ClockReads(2, TICKING) && ClockReads(3, TICKING)
    ensures IsHistory(worlds, turns) && |turns| == 2 && Fails(worlds[0], turns[0])
    ensures turns[1].Check? && turns[1].succeeds && worlds[2] == worlds[1] && Last(worlds[2]) == Last(worlds[0])
    ensures VerifyIntegrity(public, TICKING) == Ok(Last(worlds[0]))
    ensures VerifyIntegrity(built, TICKING) == Ok(turns[0].built)
    ensures VerifyIntegrity(again, TICKING) == Ok(turns[1].built)
    ensures turns[0].built.digest == turns[1].built.digest != Last(worlds[2]).digest
  {
    UntouchedIsValid();
    DigestsApart([], [UNTOUCHED]);
    TicksRead(2);
    TicksRead(3);
    var first, second, third;
    public, first := FileAt([], 1);
    built, second := FileAt([UNTOUCHED], 2);
    again, third := FileAt([UNTOUCHED], 3);
    worlds, turns := Unretried(first, second, third);
  }

  lemma Unretried(first: Export, second: Export, third: Export) returns (worlds: seq<World>, turns: seq<Turn>)
    requires first.publishedAt == 1 && second.publishedAt == 2 && third.publishedAt == 3
    requires first.digest != second.digest
    ensures IsHistory(worlds, turns) && |turns| == 2 && Fails(worlds[0], turns[0])
    ensures Last(worlds[0]) == first && turns[0].built == second
    ensures turns[1] == Check(3, 0, third, true) && worlds[2] == worlds[1] && Last(worlds[2]) == first
  {
    var before := World([first], Memory(None, NOTHING_RELEASED, None));
    var after := World([first], Looked(before.memory, first));
    worlds := [before, after, after];
    turns := [Check(2, 0, second, false), Check(3, 0, third, true)];
    assert Turned(before, after, turns[0]) && Turned(after, after, turns[1]);
  }
}
