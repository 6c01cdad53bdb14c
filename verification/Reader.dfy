/** runtimeexport/reader.go: three held copies, one snapshot derived from two of them, and
    refreshes in which each fetch may end in any way. */
module Reading {
  import opened Basics
  import opened PacketTypes
  import opened PacketNames
  import Envelopes
  import PacketFile
  import Tenants

  datatype ExportName = Packets | TenantDirectory | AgentGrants

  const ALL_EXPORTS := [Packets, TenantDirectory, AgentGrants]

  function Position(name: ExportName): (k: nat)
    ensures k < |ALL_EXPORTS| && ALL_EXPORTS[k] == name
  {
    match name
    case Packets => 0
    case TenantDirectory => 1
    case AgentGrants => 2
  }

  predicate ServiceOwned(name: ExportName) { name == Packets }

  predicate RequiredAtStartup(name: ExportName) { name != Packets }

  datatype Trouble = Unavailable | Refused | Unbuildable | Missing | Stale | AuthorityOnlyFresh

  // The zero HeldCopy holds nothing: its contents are empty.
  datatype HeldCopy = HeldCopy(
    contents: string, publishedAt: Time, expiresAt: Time, lastAttempt: Time, lastSuccess: Time,
    refreshError: Option<Trouble>)

  const NOTHING_HELD := HeldCopy("", 0, 0, 0, 0, None)

  /** How a request for an export ended: with a body, or with nothing to verify. */
  datatype Response = Body(contents: string) | NoBody(trouble: Trouble)

  datatype Responses = Responses(packets: Response, directory: Response, grants: Response)

  /** How a fetch ended: a copy that passed verification, with its times, or a failure. */
  datatype Fetched = Verified(contents: string, publishedAt: Time, expiresAt: Time) | Failed(trouble: Trouble)

  datatype Fetches = Fetches(packets: Fetched, directory: Fetched, grants: Fetched)
  {
    function Of(name: ExportName): Fetched {
      match name
      case Packets => packets
      case TenantDirectory => directory
      case AgentGrants => grants
    }
  }

  /** A snapshot is named by what it was built from. */
  datatype Snapshot = FullSnapshot(packets: string, directory: string) | EmptySnapshot(directory: string)

  // ---- verifying and building ------------------------------------------------------------------

  const GRANTS_SCHEMA := "martcoca.identity.agent-grants/1"

  /** The tracker's own export is held at any age; an authority's only while it is fresh. */
  function VerifyExport(name: ExportName, contents: string, now: Time, rules: Envelopes.Rules)
    : Result<Envelopes.Envelope, Envelopes.Refusal>
  {
    match name
    case Packets =>
      var verified := PacketFile.VerifyIntegrity(contents, rules);
      if verified.Err? then Err(verified.error) else Envelopes.VerifyIntegrity(contents, PacketFile.SCHEMA, rules)
    case TenantDirectory =>
      var e := Envelopes.Verify(contents, Tenants.SCHEMA, now, rules);
      if e.Ok? && Tenants.Parse(e.value.payload, rules).None? then Err(Envelopes.InvalidExport) else e
    case AgentGrants => Envelopes.Verify(contents, GRANTS_SCHEMA, now, rules)
  }

  function Times(e: Envelopes.Envelope, rules: Envelopes.Rules): (Time, Time) {
    (rules.parse(e.publishedAt).GetOr(0), rules.parse(e.expiresAt).GetOr(0))
  }

  /** NewEmptySnapshot: the directory verifies one nanosecond before its own expiry, and parses. */
  predicate BuildsEmpty(directory: string, rules: Envelopes.Rules) {
    var e := Envelopes.VerifyIntegrity(directory, Tenants.SCHEMA, rules);
    e.Ok? && Tenants.Parse(e.value.payload, rules).Some?
  }

  /** The records of an intact packet export all name tasks. */
  predicate Indexable(packets: string, rules: Envelopes.Rules) {
    var verified := PacketFile.VerifyIntegrity(packets, rules);
    verified.Ok? && forall i :: 0 <= i < |verified.value.payload| ==> NamesTask(verified.value.payload[i].id)
  }

  /** The checks a reader makes: a verification, which yields the times of what it accepts, and
      whether surface.NewSnapshot and surface.NewEmptySnapshot accept these bytes. */
  datatype Checks = Checks(
    verify: (ExportName, string, Time) -> Option<(Time, Time)>,
    indexable: string -> bool,
    full: (string, string) -> bool,
    empty: string -> bool)

  function ChecksOf(rules: Envelopes.Rules): Checks {
    Checks((name, contents, now) => var e := VerifyExport(name, contents, now, rules);
                                    if e.Err? then None else Some(Times(e.value, rules)),
           packets => Indexable(packets, rules),
           (packets, directory) => Indexable(packets, rules) && BuildsEmpty(directory, rules),
           directory => BuildsEmpty(directory, rules))
  }

  /** What a reader relies on. Nothing empty verifies. What verifies at two moments has the same
      times. A directory that ever verified builds an empty snapshot, unless it expires one
      nanosecond after the zero time; with such a directory packets build a full one exactly when
      their ids name tasks. */
  ghost predicate LawfulChecks(checks: Checks) {
    && (forall name, now :: checks.verify(name, "", now) == None)
    && (forall contents, now :: checks.verify(TenantDirectory, contents, now).Some? ==>
          && now != 0 && now < checks.verify(TenantDirectory, contents, now).value.1
          && (checks.empty(contents) <==> checks.verify(TenantDirectory, contents, now).value.1 != 1))
    && (forall packets, directory ::
          checks.full(packets, directory) <==> checks.indexable(packets) && checks.empty(directory))
  }

  lemma DirectoryBuilds(directory: string, now: Time, rules: Envelopes.Rules)
    requires VerifyExport(TenantDirectory, directory, now, rules).Ok?
    ensures var expiresAt := Times(VerifyExport(TenantDirectory, directory, now, rules).value, rules).1;
            && now != 0 && now < expiresAt && (BuildsEmpty(directory, rules) <==> expiresAt != 1)
  {
    Envelopes.IntegrityIsVerifyAtSomeInstant(directory, Tenants.SCHEMA, rules);
    Envelopes.LastInstantReads(directory, rules);
  }

  lemma NothingEmptyVerifies(name: ExportName, now: Time, rules: Envelopes.Rules)
    ensures VerifyExport(name, "", now, rules).Err?
  {
  }

  lemma ChecksAreLawful(rules: Envelopes.Rules)
    ensures LawfulChecks(ChecksOf(rules))
  {
    var checks := ChecksOf(rules);
    forall name, now
      ensures checks.verify(name, "", now) == None
    {
      NothingEmptyVerifies(name, now, rules);
    }
    forall contents, now | checks.verify(TenantDirectory, contents, now).Some?
      ensures now != 0 && now < checks.verify(TenantDirectory, contents, now).value.1
      ensures checks.empty(contents) <==> checks.verify(TenantDirectory, contents, now).value.1 != 1
    {
      DirectoryBuilds(contents, now, rules);
    }
  }

  function Fetch(name: ExportName, response: Response, checks: Checks, now: Time): Fetched {
    match response
    case NoBody(trouble) => Failed(trouble)
    case Body(contents) =>
      var times := checks.verify(name, contents, now);
      if times.None? then Failed(Refused) else Verified(contents, times.value.0, times.value.1)
  }

  function FetchAll(responses: Responses, checks: Checks, now: Time): Fetches {
    Fetches(Fetch(Packets, responses.packets, checks, now), Fetch(TenantDirectory, responses.directory, checks, now),
            Fetch(AgentGrants, responses.grants, checks, now))
  }

  // ---- the copies held ---------------------------------------------------------------------------

  type Copies = map<ExportName, HeldCopy>

  function Held(copies: Copies, name: ExportName): HeldCopy {
    if name in copies then copies[name] else NOTHING_HELD
  }

  function HeldContents(copies: Copies, name: ExportName): string {
    Held(copies, name).contents
  }

  // ---- what one refresh does ----------------------------------------------------------------

  function Candidate(copies: Copies, fetches: Fetches, name: ExportName): string {
    if fetches.Of(name).Verified? then fetches.Of(name).contents else HeldContents(copies, name)
  }

  /** A verified copy is turned away only when no snapshot can be built with it. */
  predicate TurnedAway(copies: Copies, fetches: Fetches, checks: Checks, name: ExportName) {
    var p, d := Candidate(copies, fetches, Packets), Candidate(copies, fetches, TenantDirectory);
    if p != "" && d != "" then name != AgentGrants && !checks.full(p, d)
    else d != "" && fetches.packets == Failed(Unavailable) && name == TenantDirectory && !checks.empty(d)
  }

  predicate Accepted(copies: Copies, fetches: Fetches, checks: Checks, name: ExportName) {
    fetches.Of(name).Verified? && !TurnedAway(copies, fetches, checks, name)
  }

  /** The snapshot a refresh leaves: one built from both candidates when it can be, an empty one
      when packets were found absent before any were held, the old one when there is no news. */
  function NextSnapshot(copies: Copies, snapshot: Option<Snapshot>, fetches: Fetches,
                        checks: Checks): Option<Snapshot> {
    var p, d := Candidate(copies, fetches, Packets), Candidate(copies, fetches, TenantDirectory);
    if p != "" && d != "" then
      if checks.full(p, d) then Some(FullSnapshot(p, d))
      else if HeldContents(copies, Packets) == "" then None
      else snapshot
    else if d != "" then
      if fetches.packets == Failed(Unavailable) && checks.empty(d) then Some(EmptySnapshot(d)) else None
    else snapshot
  }

  /** Each held copy is the one fetched, if that was accepted, and otherwise as it was. */
  ghost predicate CopiesAfter(before: Copies, fetches: Fetches, checks: Checks, now: Time, after: Copies) {
    forall name ::
      var was, held, fetched := Held(before, name), Held(after, name), fetches.Of(name);
      held.lastAttempt == now
      && if Accepted(before, fetches, checks, name) then
           held.contents == fetched.contents && held.publishedAt == fetched.publishedAt
           && held.expiresAt == fetched.expiresAt && held.lastSuccess == now && held.refreshError == None
         else
           held.contents == was.contents && held.publishedAt == was.publishedAt && held.expiresAt == was.expiresAt
           && held.lastSuccess == was.lastSuccess
           && held.refreshError == Some(if fetched.Failed? then fetched.trouble else Unbuildable)
  }

  /** Contents that verified at some moment, with these times. */
  ghost predicate Verifies(checks: Checks, name: ExportName, contents: string, times: (Time, Time)) {
    exists now :: checks.verify(name, contents, now) == Some(times)
  }

  /** Each fetch that succeeded, and each copy held, verified. */
  ghost predicate Genuine(fetches: Fetches, checks: Checks) {
    forall name :: fetches.Of(name).Verified? ==>
      Verifies(checks, name, fetches.Of(name).contents, (fetches.Of(name).publishedAt, fetches.Of(name).expiresAt))
  }

  ghost predicate Vouched(copies: Copies, checks: Checks) {
    forall name :: HeldContents(copies, name) != "" ==>
      Verifies(checks, name, HeldContents(copies, name), (Held(copies, name).publishedAt, Held(copies, name).expiresAt))
  }

  lemma FetchedVerifies(responses: Responses, checks: Checks, now: Time)
    requires LawfulChecks(checks)
    ensures Genuine(FetchAll(responses, checks, now), checks)
  {
  }

  lemma GenuineHolds(fetches: Fetches, checks: Checks)
    requires LawfulChecks(checks) && Genuine(fetches, checks)
    ensures forall name :: fetches.Of(name).Verified? ==> fetches.Of(name).contents != ""
  {
  }

  /** What the snapshot and the copies say of one another. */
  ghost predicate SnapshotMatches(copies: Copies, snapshot: Option<Snapshot>, checks: Checks) {
    var p, d := HeldContents(copies, Packets), HeldContents(copies, TenantDirectory);
    && (p != "" && d != "" ==> snapshot == Some(FullSnapshot(p, d)))
    && match snapshot
       case None => true
       case Some(FullSnapshot(sp, sd)) => sp == p && sd == d && p != "" && d != "" && checks.full(p, d)
       case Some(EmptySnapshot(sd)) => sd == d && p == "" && d != "" && checks.empty(d)
  }

  class Reader {
    const checks: Checks
    var copies: Copies
    var snapshot: Option<Snapshot>

    ghost predicate Valid()
      reads this
    {
      LawfulChecks(checks) && Vouched(copies, checks) && SnapshotMatches(copies, snapshot, checks)
    }

    constructor (rules: Envelopes.Rules)
      ensures Valid() && copies == map[] && snapshot == None && checks == ChecksOf(rules)
    {
      ChecksAreLawful(rules);
      checks, copies, snapshot := ChecksOf(rules), map[], None;
    }

    // What Refresh derives before it takes the write lock: the next snapshot, and which
    // verified copies turned out to be unusable.
    method Derive(fetches: Fetches) returns (next: Option<Snapshot>, results: Fetches)
      requires Valid() && Genuine(fetches, checks)
      ensures forall name :: results.Of(name) ==
                if fetches.Of(name).Verified? && TurnedAway(copies, fetches, checks, name) then Failed(Unbuildable)
                else fetches.Of(name)
      ensures next == NextSnapshot(copies, snapshot, fetches, checks)
    {
      GenuineHolds(fetches, checks);
      next, results := snapshot, fetches;
      var hadPreviousPacket := HeldContents(copies, Packets) != "";
      var packets := Candidate(copies, fetches, Packets);
      var directory := Candidate(copies, fetches, TenantDirectory);
      if packets != "" && directory != "" {
        if checks.full(packets, directory) {
          next := Some(FullSnapshot(packets, directory));
        } else {
          if results.packets.Verified? {
            results := results.(packets := Failed(Unbuildable));
          }
          if results.directory.Verified? {
            results := results.(directory := Failed(Unbuildable));
          }
          if !hadPreviousPacket {
            next := None;
          }
        }
      } else if directory != "" {
        if fetches.packets == Failed(Unavailable) {
          if checks.empty(directory) {
            next := Some(EmptySnapshot(directory));
          } else {
            if results.directory.Verified? {
              results := results.(directory := Failed(Unbuildable));
            }
            next := None;
          }
        } else if !hadPreviousPacket {
          next := None;
        }
      }
    }

    /** One refresh: only copies that verify and fit are swapped in, and the snapshot is always
        the one the held copies build. It reports success exactly when every fetch was taken,
        bar a packet export that was never there. */
    method Refresh(responses: Responses, now: Time) returns (ok: bool)
      requires Valid()
      modifies this
      ensures Valid()
      ensures RefreshStep(State(old(copies), old(snapshot)), State(copies, snapshot), responses, checks, now)
      ensures ok <==> forall name :: Accepted(old(copies), FetchAll(responses, checks, now), checks, name)
                                     || NeverThere(old(copies), FetchAll(responses, checks, now), name)
    {
      var fetches := FetchAll(responses, checks, now);
      var hadPreviousPacket := HeldContents(copies, Packets) != "";
      FetchedVerifies(responses, checks, now);
      var next, results := Derive(fetches);
      ghost var before, was := copies, snapshot;
      copies := SwapAll(copies, results, now);
      snapshot := next;
      SwappedCopies(before, fetches, results, checks, now, copies);
      StepKeepsValid(State(before, was), State(copies, snapshot), responses, checks, now);
      ok := Reported(results, hadPreviousPacket);
      forall name
        ensures Excused(results, hadPreviousPacket, name)
           <==> Accepted(before, fetches, checks, name) || NeverThere(before, fetches, name)
      {
        assert results.Of(Packets) == results.packets;
      }
    }

    method VerifiedCopy(name: ExportName, at: Time) returns (r: Result<string, Trouble>)
      ensures r.Ok? <==> HeldContents(copies, name) != "" && at < Held(copies, name).expiresAt
      ensures r.Ok? ==> r.value == HeldContents(copies, name)
      ensures r.Err? ==> r.error == (if HeldContents(copies, name) == "" then Missing else Stale)
    {
      var held := Held(copies, name);
      if held.contents == "" {
        return Err(Missing);
      }
      if at >= held.expiresAt {
        return Err(Stale);
      }
      return Ok(held.contents);
    }

    method IntactCopy(name: ExportName) returns (r: Result<string, Trouble>)
      ensures r.Ok? <==> name == Packets && HeldContents(copies, name) != ""
      ensures r.Ok? ==> r.value == HeldContents(copies, name)
    {
      if !ServiceOwned(name) {
        return Err(AuthorityOnlyFresh);
      }
      if HeldContents(copies, name) == "" {
        return Err(Missing);
      }
      return Ok(HeldContents(copies, name));
    }

    /** Ready asks fresh copies of the authorities, and of the tracker's own export only that it
        is held, however old, or was found absent. */
    method Ready(at: Time) returns (ok: bool)
      ensures ok <==> forall name :: ReadyFor(copies, name, at)
    {
      for i := 0 to |ALL_EXPORTS|
        invariant forall k :: 0 <= k < i ==> ReadyFor(copies, ALL_EXPORTS[k], at)
      {
        var name := ALL_EXPORTS[i];
        var verified := VerifiedCopy(name, at);
        if verified.Err? {
          if RequiredAtStartup(name) {
            assert !ReadyFor(copies, name, at);
            return false;
          }
          var absent := verified.error == Missing && Held(copies, name).refreshError == Some(Unavailable);
          if verified.error != Stale && !absent {
            assert !ReadyFor(copies, name, at);
            return false;
          }
        }
      }
      forall name
        ensures ReadyFor(copies, name, at)
      {
        assert ReadyFor(copies, ALL_EXPORTS[Position(name)], at);
      }
      return true;
    }

    /** Start refreshes once and then insists on being ready. A start that succeeds, first or late,
        leaves a snapshot of the copies it holds, at any clock after the zero time. At one before
        it, it lacks a snapshot exactly when packets are absent everywhere and the directory this
        refresh was to use builds none, while an older copy keeps the reader ready. */
    method Start(responses: Responses, now: Time, at: Time) returns (ok: bool)
      requires Valid()
      modifies this
      ensures Valid()
      ensures RefreshStep(State(old(copies), old(snapshot)), State(copies, snapshot), responses, checks, now)
      ensures ok <==> forall name :: ReadyFor(copies, name, at)
      ensures ok && now > 0 && at > 0 ==> snapshot.Some?
      ensures ok ==> (snapshot == None <==>
                HeldContents(old(copies), TenantDirectory) != "" && HeldContents(copies, Packets) == ""
                && !checks.empty(Candidate(old(copies), FetchAll(responses, checks, now), TenantDirectory)))
      ensures ok ==> HeldContents(copies, TenantDirectory) != "" && HeldContents(copies, AgentGrants) != ""
    {
      ghost var before, was := copies, snapshot;
      var _ := Refresh(responses, now);
      ok := Ready(at);
      assert ok ==> ReadyFor(copies, Packets, at) && ReadyFor(copies, TenantDirectory, at)
                    && ReadyFor(copies, AgentGrants, at);
      if ok {
        StartedWith(before, was, responses, checks, now, copies, snapshot, at);
      }
    }
  }

  /** A packet export that no refresh has ever held, absent again. */
  predicate NeverThere(copies: Copies, fetches: Fetches, name: ExportName) {
    name == Packets && HeldContents(copies, Packets) == "" && fetches.packets == Failed(Unavailable)
  }

  ghost predicate Derived(copies: Copies, fetches: Fetches, checks: Checks, results: Fetches) {
    forall name :: results.Of(name) ==
      if fetches.Of(name).Verified? && TurnedAway(copies, fetches, checks, name) then Failed(Unbuildable)
      else fetches.Of(name)
  }

  // The loop that writes every entry.
  method SwapAll(copies: Copies, results: Fetches, now: Time) returns (after: Copies)
    ensures forall name :: Held(after, name) == Swapped(copies, results, now, name)
  {
    after := copies;
    for i := 0 to |ALL_EXPORTS|
      invariant forall k :: 0 <= k < i ==> Held(after, ALL_EXPORTS[k]) == Swapped(copies, results, now, ALL_EXPORTS[k])
      invariant forall k :: i <= k < |ALL_EXPORTS| ==> Held(after, ALL_EXPORTS[k]) == Held(copies, ALL_EXPORTS[k])
    {
      after := after[ALL_EXPORTS[i] := Swapped(copies, results, now, ALL_EXPORTS[i])];
    }
    forall name
      ensures Held(after, name) == Swapped(copies, results, now, name)
    {
      assert Held(after, ALL_EXPORTS[Position(name)]) == Swapped(copies, results, now, ALL_EXPORTS[Position(name)]);
    }
  }

  // Nothing to report of this export: it verified, or it is the absence a first run expects.
  predicate Excused(results: Fetches, hadPreviousPacket: bool, name: ExportName) {
    results.Of(name).Verified?
    || (name == Packets && !hadPreviousPacket && results.packets == Failed(Unavailable))
  }

  // The loop that gathers failures.
  method Reported(results: Fetches, hadPreviousPacket: bool) returns (ok: bool)
    ensures ok <==> forall name :: Excused(results, hadPreviousPacket, name)
  {
    ok := true;
    for i := 0 to |ALL_EXPORTS|
      invariant ok <==> forall k :: 0 <= k < i ==> Excused(results, hadPreviousPacket, ALL_EXPORTS[k])
    {
      if !Excused(results, hadPreviousPacket, ALL_EXPORTS[i]) {
        ok := false;
      }
    }
    forall name
      ensures ok ==> Excused(results, hadPreviousPacket, name)
    {
      assert ok ==> Excused(results, hadPreviousPacket, ALL_EXPORTS[Position(name)]);
    }
  }

  lemma SwappedCopies(copies: Copies, fetches: Fetches, results: Fetches, checks: Checks, now: Time, after: Copies)
    requires Derived(copies, fetches, checks, results)
    requires forall name :: Held(after, name) == Swapped(copies, results, now, name)
    ensures CopiesAfter(copies, fetches, checks, now, after)
  {
  }

  /** The invariant over one refresh: the next snapshot is built from what is then held. */
  lemma SnapshotKept(copies: Copies, snapshot: Option<Snapshot>, fetches: Fetches, checks: Checks, now: Time,
                     after: Copies)
    requires SnapshotMatches(copies, snapshot, checks)
    requires forall name :: fetches.Of(name).Verified? ==> fetches.Of(name).contents != ""
    requires CopiesAfter(copies, fetches, checks, now, after)
    ensures SnapshotMatches(after, NextSnapshot(copies, snapshot, fetches, checks), checks)
  {
    assert Held(after, Packets).lastAttempt == now && Held(after, TenantDirectory).lastAttempt == now;
  }

  lemma CopiesVouched(copies: Copies, fetches: Fetches, checks: Checks, now: Time, after: Copies)
    requires Vouched(copies, checks) && Genuine(fetches, checks) && CopiesAfter(copies, fetches, checks, now, after)
    ensures Vouched(after, checks)
  {
    forall name | HeldContents(after, name) != ""
      ensures Verifies(checks, name, HeldContents(after, name),
                       (Held(after, name).publishedAt, Held(after, name).expiresAt))
    {
      assert Held(after, name).lastAttempt == now;
    }
  }

  /** A refresh keeps what Valid promises. */
  lemma StepKeepsValid(s: State, t: State, responses: Responses, checks: Checks, now: Time)
    requires LawfulChecks(checks) && Vouched(s.copies, checks) && SnapshotMatches(s.copies, s.snapshot, checks)
    requires RefreshStep(s, t, responses, checks, now)
    ensures Vouched(t.copies, checks) && SnapshotMatches(t.copies, t.snapshot, checks)
  {
    var fetches := FetchAll(responses, checks, now);
    FetchedVerifies(responses, checks, now);
    CopiesVouched(s.copies, fetches, checks, now, t.copies);
    GenuineHolds(fetches, checks);
    SnapshotKept(s.copies, s.snapshot, fetches, checks, now, t.copies);
  }

  /** A directory held, or verified by this refresh, builds an empty snapshot unless it expires one
      nanosecond after the zero time. */
  lemma CandidateBuilds(copies: Copies, fetches: Fetches, checks: Checks)
    requires LawfulChecks(checks) && Vouched(copies, checks) && Genuine(fetches, checks)
    ensures var d, fetched := Candidate(copies, fetches, TenantDirectory), fetches.Of(TenantDirectory);
            var expiresAt := if fetched.Verified? then fetched.expiresAt else Held(copies, TenantDirectory).expiresAt;
            d != "" ==> (checks.empty(d) <==> expiresAt != 1)
  {
    var d := Candidate(copies, fetches, TenantDirectory);
    if fetches.Of(TenantDirectory).Verified? {
      var times := (fetches.Of(TenantDirectory).publishedAt, fetches.Of(TenantDirectory).expiresAt);
      assert Verifies(checks, TenantDirectory, d, times);
    } else if d != "" {
      var times := (Held(copies, TenantDirectory).publishedAt, Held(copies, TenantDirectory).expiresAt);
      assert Verifies(checks, TenantDirectory, HeldContents(copies, TenantDirectory), times);
    }
  }

  lemma StartedWith(before: Copies, was: Option<Snapshot>, responses: Responses, checks: Checks, now: Time,
                    after: Copies, snapshot: Option<Snapshot>, at: Time)
    requires LawfulChecks(checks) && Vouched(before, checks) && SnapshotMatches(before, was, checks)
    requires RefreshStep(State(before, was), State(after, snapshot), responses, checks, now)
    requires forall name :: ReadyFor(after, name, at)
    ensures now > 0 && at > 0 ==> snapshot.Some?
    ensures snapshot == None <==>
              HeldContents(before, TenantDirectory) != "" && HeldContents(after, Packets) == ""
              && !checks.empty(Candidate(before, FetchAll(responses, checks, now), TenantDirectory))
  {
    var fetches := FetchAll(responses, checks, now);
    StepKeepsValid(State(before, was), State(after, snapshot), responses, checks, now);
    FetchedVerifies(responses, checks, now);
    GenuineHolds(fetches, checks);
    CandidateBuilds(before, fetches, checks);
    assert ReadyFor(after, Packets, at) && ReadyFor(after, TenantDirectory, at);
    assert Held(after, Packets).lastAttempt == now && Held(after, TenantDirectory).lastAttempt == now;
  }

  predicate ReadyFor(copies: Copies, name: ExportName, at: Time) {
    if RequiredAtStartup(name) then HeldContents(copies, name) != "" && at < Held(copies, name).expiresAt
    else HeldContents(copies, name) == "" ==> Held(copies, name).refreshError == Some(Unavailable)
  }

  // The entry written for one export under the lock.
  function Swapped(copies: Copies, results: Fetches, now: Time, name: ExportName): HeldCopy {
    match results.Of(name)
    case Verified(contents, publishedAt, expiresAt) => HeldCopy(contents, publishedAt, expiresAt, now, now, None)
    case Failed(trouble) => Held(copies, name).(lastAttempt := now, refreshError := Some(trouble))
  }

  // ---- runs -------------------------------------------------------------------------------------

  datatype State = State(copies: Copies, snapshot: Option<Snapshot>)

  /** A refresh: the copies that verify and fit are swapped in, and the next snapshot derived. */
  ghost predicate RefreshStep(s: State, t: State, responses: Responses, checks: Checks, now: Time) {
    && CopiesAfter(s.copies, FetchAll(responses, checks, now), checks, now, t.copies)
    && t.snapshot == NextSnapshot(s.copies, s.snapshot, FetchAll(responses, checks, now), checks)
  }

  ghost predicate IsRun(states: seq<State>, responses: seq<Responses>, times: seq<Time>, checks: Checks) {
    && |states| == |responses| + 1 && |times| == |responses| && states[0] == State(map[], None)
    && LawfulChecks(checks)
    && forall i :: 0 <= i < |responses| ==> RefreshStep(states[i], states[i + 1], responses[i], checks, times[i])
  }

  /** In every state of every run the snapshot is exactly what the held copies build. */
  lemma {:induction false} RunMatches(states: seq<State>, responses: seq<Responses>, times: seq<Time>, checks: Checks,
                                      i: nat)
    requires IsRun(states, responses, times, checks) && i < |states|
    ensures SnapshotMatches(states[i].copies, states[i].snapshot, checks) && Vouched(states[i].copies, checks)
  {
    if i > 0 {
      RunMatches(states, responses, times, checks, i - 1);
      assert RefreshStep(states[i - 1], states[i], responses[i - 1], checks, times[i - 1]);
      StepKeepsValid(states[i - 1], states[i], responses[i - 1], checks, times[i - 1]);
    }
  }

  // A clock after the zero time.
  ghost predicate Clocked(times: seq<Time>) {
    forall i :: 0 <= i < |times| ==> times[i] > 0
  }

  ghost predicate DirectoryFits(copies: Copies, checks: Checks) {
    HeldContents(copies, TenantDirectory) != "" ==> checks.empty(HeldContents(copies, TenantDirectory))
  }

  lemma CandidateFits(copies: Copies, responses: Responses, checks: Checks, now: Time)
    requires LawfulChecks(checks) && DirectoryFits(copies, checks) && now > 0
    ensures var d := Candidate(copies, FetchAll(responses, checks, now), TenantDirectory);
            d != "" ==> checks.empty(d)
  {
  }

  lemma {:induction false} DirectoriesFit(states: seq<State>, responses: seq<Responses>, times: seq<Time>,
                                          checks: Checks, i: nat)
    requires IsRun(states, responses, times, checks) && Clocked(times) && i < |states|
    ensures DirectoryFits(states[i].copies, checks)
  {
    if i > 0 {
      DirectoriesFit(states, responses, times, checks, i - 1);
      assert RefreshStep(states[i - 1], states[i], responses[i - 1], checks, times[i - 1]);
      CandidateFits(states[i - 1].copies, responses[i - 1], checks, times[i - 1]);
      assert Held(states[i].copies, TenantDirectory).lastAttempt == times[i - 1];
    }
  }

  /** In every run a copy that verified is turned away for one reason only: the packets it was to be
      shown with have an id that names no task. */
  lemma OnlyIDsTurnAway(states: seq<State>, responses: seq<Responses>, times: seq<Time>, checks: Checks, i: nat,
                        name: ExportName)
    requires IsRun(states, responses, times, checks) && Clocked(times) && i < |responses|
    ensures var copies, fetches := states[i].copies, FetchAll(responses[i], checks, times[i]);
            var p, d := Candidate(copies, fetches, Packets), Candidate(copies, fetches, TenantDirectory);
            (TurnedAway(copies, fetches, checks, name)
             <==> name != AgentGrants && p != "" && d != "" && !checks.indexable(p))
  {
    DirectoriesFit(states, responses, times, checks, i);
    CandidateFits(states[i].copies, responses[i], checks, times[i]);
  }

  /** In every run, whenever a directory is held, and packets are either held or were just found
      absent, there is a snapshot of exactly the held copies. */
  lemma ServedWhenHeld(states: seq<State>, responses: seq<Responses>, times: seq<Time>, checks: Checks, i: nat)
    requires IsRun(states, responses, times, checks) && Clocked(times) && 0 < i < |states|
    requires HeldContents(states[i].copies, TenantDirectory) != ""
    requires HeldContents(states[i].copies, Packets) != "" || responses[i - 1].packets == NoBody(Unavailable)
    ensures var p, d := HeldContents(states[i].copies, Packets), HeldContents(states[i].copies, TenantDirectory);
            states[i].snapshot == Some(if p != "" then FullSnapshot(p, d) else EmptySnapshot(d))
  {
    RunMatches(states, responses, times, checks, i);
    DirectoriesFit(states, responses, times, checks, i - 1);
    CandidateFits(states[i - 1].copies, responses[i - 1], checks, times[i - 1]);
    assert RefreshStep(states[i - 1], states[i], responses[i - 1], checks, times[i - 1]);
    assert Held(states[i].copies, TenantDirectory).lastAttempt == times[i - 1];
    assert Held(states[i].copies, Packets).lastAttempt == times[i - 1];
  }

  lemma StillHeld(s: State, t: State, responses: Responses, checks: Checks, now: Time, name: ExportName)
    requires LawfulChecks(checks) && RefreshStep(s, t, responses, checks, now) && HeldContents(s.copies, name) != ""
    ensures HeldContents(t.copies, name) != ""
  {
    FetchedVerifies(responses, checks, now);
    GenuineHolds(FetchAll(responses, checks, now), checks);
    assert Held(t.copies, name).lastAttempt == now;
  }

  lemma {:induction false} HeldForGood(states: seq<State>, responses: seq<Responses>, times: seq<Time>, checks: Checks,
                                       i: nat, j: nat, name: ExportName)
    requires IsRun(states, responses, times, checks) && i <= j < |states| && HeldContents(states[i].copies, name) != ""
    ensures HeldContents(states[j].copies, name) != ""
    decreases j
  {
    if i < j {
      HeldForGood(states, responses, times, checks, i, j - 1, name);
      StillHeld(states[j - 1], states[j], responses[j - 1], checks, times[j - 1], name);
    }
  }

  /** Once packets and directory are both held there is a full snapshot of exactly the held
      copies at every later moment, whatever the fetches bring. */
  lemma SnapshotForGood(states: seq<State>, responses: seq<Responses>, times: seq<Time>, checks: Checks, i: nat, j: nat)
    requires IsRun(states, responses, times, checks) && i <= j < |states|
    requires HeldContents(states[i].copies, Packets) != "" && HeldContents(states[i].copies, TenantDirectory) != ""
    ensures states[j].snapshot == Some(FullSnapshot(HeldContents(states[j].copies, Packets),
                                                    HeldContents(states[j].copies, TenantDirectory)))
    ensures checks.full(HeldContents(states[j].copies, Packets), HeldContents(states[j].copies, TenantDirectory))
  {
    HeldForGood(states, responses, times, checks, i, j, Packets);
    HeldForGood(states, responses, times, checks, i, j, TenantDirectory);
    RunMatches(states, responses, times, checks, j);
  }
}
