/** surface/view.go: the initiative, epic and packet views of one snapshot. */
module Views {
  import opened Basics
  import opened PacketTypes
  import opened PacketNames
  import opened EventLog
  import opened TrackerCache
  import opened Commands
  import opened Supersession
  import Lifecycle
  import opened PacketExport

  datatype IndexedPacket = IndexedPacket(record: Record, initiative: string, epic: string)

  datatype Snapshot = Snapshot(
    directory: TenantRule,
    directoryExpires: Time,
    packetAvailable: bool,
    packetExpires: Time,
    packets: seq<IndexedPacket>)

  datatype Counts = Counts(packets: int, blocked: int, unclaimed: int)

  const NOTHING := Counts(0, 0, 0)

  datatype PacketSummary = PacketSummary(
    id: string, status: string, supersededBy: Option<string>, takenBy: Option<string>, blocked: bool, unclaimed: bool)

  datatype EpicSummary = EpicSummary(id: string, counts: Counts)

  datatype InitiativeSummary = InitiativeSummary(id: string, epicCount: nat, counts: Counts)

  datatype ViewError = DirectoryStale | TenantUnknown | PacketsStale | TenantIsolation | ViewNotFound

  /** The record loop of NewSnapshot: one id that names no task refuses the whole export. */
  method IndexPackets(records: seq<Record>) returns (r: Option<seq<IndexedPacket>>)
    ensures r.Some? <==> forall i :: 0 <= i < |records| ==> NamesTask(records[i].id)
    ensures r.Some? ==> |r.value| == |records|
    ensures r.Some? ==> forall i :: 0 <= i < |records| ==>
              r.value[i].record == records[i] && InScope(records[i].id, r.value[i].initiative, r.value[i].epic)
  {
    var indexed: seq<IndexedPacket> := [];
    for n := 0 to |records|
      invariant |indexed| == n
      invariant forall i :: 0 <= i < n ==> NamesTask(records[i].id) && indexed[i].record == records[i]
      invariant forall i :: 0 <= i < n ==> InScope(records[i].id, indexed[i].initiative, indexed[i].epic)
    {
      var id := records[n].id;
      if !NamesTask(id) {
        return None;
      }
      ScopeIsNamed(id, InitiativeOf(id), EpicOf(id));
      indexed := indexed + [IndexedPacket(records[n], InitiativeOf(id), EpicOf(id))];
    }
    return Some(indexed);
  }

  // ---- one record ---------------------------------------------------------------------------------

  function IsUnclaimed(record: Record): bool {
    var superseded := record.supersededBy.Some? && record.supersededBy.value != "";
    record.status == "not started" && record.takenBy == None && !superseded
  }

  // One packet more, and countWaiting's two counters.
  function Bumped(c: Counts, record: Record): Counts {
    Counts(c.packets + 1, c.blocked + (if record.status == "blocked" then 1 else 0),
           c.unclaimed + (if IsUnclaimed(record) then 1 else 0))
  }

  function Summarize(record: Record): PacketSummary {
    PacketSummary(record.id, record.status, record.supersededBy, record.takenBy, record.status == "blocked",
                  IsUnclaimed(record))
  }

  /** "Unclaimed" is exactly "can be taken": at its current version, by anyone with a name. */
  lemma UnclaimedIsTakeable(log: seq<EventRecord>, p: PacketID, actor: Actor, rule: TenantRule, now: Time,
                            stamps: seq<Stamp>, format: Format)
    requires LogInvariant(log) && Stream(log, p) != []
    requires |stamps| >= 3 && FreshStamps(log, actor, stamps, 2)
    ensures IsUnclaimed(RecordIn(log, p, format))
       <==> Admits(log, Command.Take(p, RecordIn(log, p, format).version, actor), rule, now, stamps)
  {
    var packet := PacketIn(log, p);
    PacketInLawful(log, p);
    LogOwns(log, p, 0);
    assert Lifecycle.Settled(packet);
    TakeAdmitted(log, Command.Take(p, packet.version, actor), rule, now, stamps, packet);
  }

  // ---- scopes and their counts ----------------------------------------------------------------------

  /** What a view is about. Each level's parts are the scopes of the next. */
  datatype Scope = OfTenant(tenant: TenantID) | OfInitiative(tenant: TenantID, initiative: string)
                 | OfEpic(tenant: TenantID, initiative: string, epic: string)

  predicate In(x: IndexedPacket, scope: Scope) {
    match scope
    case OfTenant(t) => x.record.tenantID == t
    case OfInitiative(t, i) => x.record.tenantID == t && x.initiative == i
    case OfEpic(t, i, e) => x.record.tenantID == t && x.initiative == i && x.epic == e
  }

  function Part(scope: Scope, key: string): Scope
    requires !scope.OfEpic?
  {
    if scope.OfTenant? then OfInitiative(scope.tenant, key) else OfEpic(scope.tenant, scope.initiative, key)
  }

  function KeyOf(x: IndexedPacket, scope: Scope): string {
    if scope.OfTenant? then x.initiative else x.epic
  }

  ghost function Tally(packets: seq<IndexedPacket>, scope: Scope): Counts
    decreases |packets|
  {
    if |packets| == 0 then NOTHING
    else
      var before, last := Tally(packets[..|packets| - 1], scope), packets[|packets| - 1];
      if In(last, scope) then Bumped(before, last.record) else before
  }

  ghost function PartKeys(packets: seq<IndexedPacket>, scope: Scope): set<string> {
    set x | x in packets && In(x, scope) :: KeyOf(x, scope)
  }

  ghost function Selected(packets: seq<IndexedPacket>, scope: Scope): seq<IndexedPacket>
    decreases |packets|
  {
    if |packets| == 0 then []
    else
      var before, last := Selected(packets[..|packets| - 1], scope), packets[|packets| - 1];
      if In(last, scope) then before + [last] else before
  }

  lemma TallySnoc(packets: seq<IndexedPacket>, x: IndexedPacket, scope: Scope)
    ensures Tally(packets + [x], scope)
         == if In(x, scope) then Bumped(Tally(packets, scope), x.record) else Tally(packets, scope)
  {
    assert (packets + [x])[..|packets|] == packets;
  }

  lemma SelectedSnoc(packets: seq<IndexedPacket>, x: IndexedPacket, scope: Scope)
    ensures Selected(packets + [x], scope) == Selected(packets, scope) + (if In(x, scope) then [x] else [])
  {
    assert (packets + [x])[..|packets|] == packets;
  }

  lemma {:induction false} SelectedMember(packets: seq<IndexedPacket>, scope: Scope, x: IndexedPacket)
    ensures x in Selected(packets, scope) <==> x in packets && In(x, scope)
    decreases |packets|
  {
    if |packets| > 0 {
      SelectedMember(packets[..|packets| - 1], scope, x);
      assert packets == packets[..|packets| - 1] + [packets[|packets| - 1]];
    }
  }

  /** Within one tenant's packets every narrower scope counts and names the same. */
  lemma {:induction false} SelectedTally(packets: seq<IndexedPacket>, tenant: TenantID, scope: Scope)
    requires scope.tenant == tenant
    ensures Tally(Selected(packets, OfTenant(tenant)), scope) == Tally(packets, scope)
    ensures Selected(Selected(packets, OfTenant(tenant)), scope) == Selected(packets, scope)
    decreases |packets|
  {
    if |packets| > 0 {
      var rest, last := packets[..|packets| - 1], packets[|packets| - 1];
      SelectedTally(rest, tenant, scope);
      if In(last, OfTenant(tenant)) {
        TallySnoc(Selected(rest, OfTenant(tenant)), last, scope);
        SelectedSnoc(Selected(rest, OfTenant(tenant)), last, scope);
      }
    }
  }

  lemma SelectedKeys(packets: seq<IndexedPacket>, tenant: TenantID, scope: Scope)
    requires scope.tenant == tenant
    ensures PartKeys(Selected(packets, OfTenant(tenant)), scope) == PartKeys(packets, scope)
  {
    forall x
      ensures x in Selected(packets, OfTenant(tenant)) && In(x, scope) <==> x in packets && In(x, scope)
    {
      SelectedMember(packets, OfTenant(tenant), x);
    }
  }

  // ---- the parts add up to the whole ----------------------------------------------------------------

  ghost function SumOver(packets: seq<IndexedPacket>, scope: Scope, keys: seq<string>): Counts
    requires !scope.OfEpic?
    decreases |keys|
  {
    if |keys| == 0 then NOTHING
    else
      var before := SumOver(packets, scope, keys[..|keys| - 1]);
      var part := Tally(packets, Part(scope, keys[|keys| - 1]));
      Counts(before.packets + part.packets, before.blocked + part.blocked, before.unclaimed + part.unclaimed)
  }

  lemma {:induction false} SumSnoc(packets: seq<IndexedPacket>, x: IndexedPacket, scope: Scope, keys: seq<string>)
    requires !scope.OfEpic? && NoRepeats(keys)
    ensures SumOver(packets + [x], scope, keys)
         == if In(x, scope) && KeyOf(x, scope) in keys then Bumped(SumOver(packets, scope, keys), x.record)
            else SumOver(packets, scope, keys)
    decreases |keys|
  {
    if |keys| > 0 {
      var rest, key := keys[..|keys| - 1], keys[|keys| - 1];
      SumSnoc(packets, x, scope, rest);
      TallySnoc(packets, x, Part(scope, key));
      LastIsOther(keys);
      assert In(x, Part(scope, key)) <==> In(x, scope) && KeyOf(x, scope) == key;
    }
  }

  lemma LastIsOther(keys: seq<string>)
    requires NoRepeats(keys) && |keys| > 0
    ensures keys[|keys| - 1] !in keys[..|keys| - 1] && NoRepeats(keys[..|keys| - 1])
    ensures forall key :: key in keys <==> key in keys[..|keys| - 1] || key == keys[|keys| - 1]
  {
    assert keys == keys[..|keys| - 1] + [keys[|keys| - 1]];
  }

  lemma {:induction false} SumOfNothing(packets: seq<IndexedPacket>, scope: Scope, keys: seq<string>)
    requires !scope.OfEpic? && |packets| == 0
    ensures SumOver(packets, scope, keys) == NOTHING
    decreases |keys|
  {
    if |keys| > 0 {
      SumOfNothing(packets, scope, keys[..|keys| - 1]);
    }
  }

  /** Counting a scope and summing the counts of its parts, each once, is the same. */
  lemma {:induction false} PartsAddUp(packets: seq<IndexedPacket>, scope: Scope, keys: seq<string>)
    requires !scope.OfEpic? && NoRepeats(keys)
    requires forall x :: x in packets && In(x, scope) ==> KeyOf(x, scope) in keys
    ensures SumOver(packets, scope, keys) == Tally(packets, scope)
    decreases |packets|
  {
    if |packets| == 0 {
      SumOfNothing(packets, scope, keys);
    } else {
      var rest, last := packets[..|packets| - 1], packets[|packets| - 1];
      assert packets == rest + [last];
      PartsAddUp(rest, scope, keys);
      SumSnoc(rest, last, scope, keys);
      TallySnoc(rest, last, scope);
    }
  }

  ghost function Total(counts: seq<Counts>): Counts
    decreases |counts|
  {
    if |counts| == 0 then NOTHING
    else
      var before, last := Total(counts[..|counts| - 1]), counts[|counts| - 1];
      Counts(before.packets + last.packets, before.blocked + last.blocked, before.unclaimed + last.unclaimed)
  }

  lemma {:induction false} TotalIsSum(packets: seq<IndexedPacket>, scope: Scope, keys: seq<string>, counts: seq<Counts>)
    requires !scope.OfEpic? && |keys| == |counts|
    requires forall i :: 0 <= i < |keys| ==> counts[i] == Tally(packets, Part(scope, keys[i]))
    ensures Total(counts) == SumOver(packets, scope, keys)
    decreases |keys|
  {
    if |keys| > 0 {
      TotalIsSum(packets, scope, keys[..|keys| - 1], counts[..|keys| - 1]);
    }
  }

  // ---- counting while listing -------------------------------------------------------------------------

  lemma KeysSnoc(packets: seq<IndexedPacket>, x: IndexedPacket, scope: Scope)
    ensures PartKeys(packets + [x], scope)
         == PartKeys(packets, scope) + (if In(x, scope) then {KeyOf(x, scope)} else {})
  {
  }

  lemma {:induction false} EmptyPart(packets: seq<IndexedPacket>, scope: Scope, key: string)
    requires !scope.OfEpic? && key !in PartKeys(packets, scope)
    ensures Tally(packets, Part(scope, key)) == NOTHING
    decreases |packets|
  {
    if |packets| > 0 {
      var rest, last := packets[..|packets| - 1], packets[|packets| - 1];
      assert packets == rest + [last];
      KeysSnoc(rest, last, scope);
      EmptyPart(rest, scope, key);
    }
  }

  /** A map from each part that occurs to its counts. */
  ghost predicate Tallied(byID: map<string, Counts>, packets: seq<IndexedPacket>, scope: Scope)
    requires !scope.OfEpic?
  {
    && byID.Keys == PartKeys(packets, scope)
    && forall key :: key in byID ==> byID[key] == Tally(packets, Part(scope, key))
  }

  function Counted(byID: map<string, Counts>, key: string, record: Record): map<string, Counts> {
    byID[key := Bumped(if key in byID then byID[key] else NOTHING, record)]
  }

  lemma TalliedSnoc(byID: map<string, Counts>, packets: seq<IndexedPacket>, x: IndexedPacket, scope: Scope)
    requires !scope.OfEpic? && Tallied(byID, packets, scope)
    ensures Tallied(if In(x, scope) then Counted(byID, KeyOf(x, scope), x.record) else byID, packets + [x], scope)
  {
    var after := if In(x, scope) then Counted(byID, KeyOf(x, scope), x.record) else byID;
    assert after.Keys == PartKeys(packets + [x], scope) by {
      KeysSnoc(packets, x, scope);
    }
    forall key | key in after
      ensures after[key] == Tally(packets + [x], Part(scope, key))
    {
      TalliedAt(byID, packets, x, scope, key);
      assert key != KeyOf(x, scope) ==> key in byID && after[key] == byID[key];
    }
  }

  lemma TalliedAt(byID: map<string, Counts>, packets: seq<IndexedPacket>, x: IndexedPacket, scope: Scope, key: string)
    requires !scope.OfEpic? && Tallied(byID, packets, scope)
    ensures var before := if key in byID then byID[key] else NOTHING;
            Tally(packets + [x], Part(scope, key))
              == if In(x, scope) && KeyOf(x, scope) == key then Bumped(before, x.record) else before
  {
    TallySnoc(packets, x, Part(scope, key));
    if key !in byID {
      EmptyPart(packets, scope, key);
    }
  }

  // ---- the views ----------------------------------------------------------------------------------------

  /** Why a snapshot may show a tenant nothing at all at some time. */
  function Refused(snapshot: Snapshot, tenant: TenantID, now: Time): Option<ViewError> {
    if now >= snapshot.directoryExpires then Some(DirectoryStale)
    else if !snapshot.directory(tenant, now) then Some(TenantUnknown)
    else if snapshot.packetAvailable && now >= snapshot.packetExpires then Some(PacketsStale)
    else None
  }

  method TenantPackets(snapshot: Snapshot, tenant: TenantID, now: Time)
    returns (r: Result<seq<IndexedPacket>, ViewError>)
    ensures var refused := Refused(snapshot, tenant, now);
            r == if refused.Some? then Err(refused.value) else Ok(Selected(snapshot.packets, OfTenant(tenant)))
  {
    var refused := Refused(snapshot, tenant, now);
    if refused.Some? {
      return Err(refused.value);
    }
    var packets: seq<IndexedPacket> := [];
    for n := 0 to |snapshot.packets|
      invariant packets == Selected(snapshot.packets[..n], OfTenant(tenant))
    {
      var x := snapshot.packets[n];
      assert snapshot.packets[..n + 1] == snapshot.packets[..n] + [x];
      SelectedSnoc(snapshot.packets[..n], x, OfTenant(tenant));
      if x.record.tenantID == tenant {
        packets := packets + [x];
      }
    }
    assert snapshot.packets[..|snapshot.packets|] == snapshot.packets;
    return Ok(packets);
  }

  /** What an address names, whoever owns it. */
  predicate Addressed(x: IndexedPacket, initiative: string, epic: string, packetID: string) {
    && x.initiative == initiative && (epic == "" || x.epic == epic) && (packetID == "" || x.record.id == packetID)
  }

  /** The answer for an address that names nothing of the tenant's own. */
  ghost function Missing(snapshot: Snapshot, tenant: TenantID, initiative: string, epic: string,
                         packetID: string): ViewError {
    if exists x :: x in snapshot.packets && Addressed(x, initiative, epic, packetID) && x.record.tenantID != tenant
    then TenantIsolation else ViewNotFound
  }

  method NotFoundOrIsolated(snapshot: Snapshot, tenant: TenantID, initiative: string, epic: string, packetID: string)
    returns (e: ViewError)
    ensures e == Missing(snapshot, tenant, initiative, epic, packetID)
  {
    for n := 0 to |snapshot.packets|
      invariant forall m :: 0 <= m < n ==>
        !(Addressed(snapshot.packets[m], initiative, epic, packetID) && snapshot.packets[m].record.tenantID != tenant)
    {
      var x := snapshot.packets[n];
      if Addressed(x, initiative, epic, packetID) && x.record.tenantID != tenant {
        return TenantIsolation;
      }
    }
    return ViewNotFound;
  }

  function InitiativeIDs(view: seq<InitiativeSummary>): (ids: seq<string>)
    ensures |ids| == |view| && forall i :: 0 <= i < |view| ==> ids[i] == view[i].id
  {
    seq(|view|, i requires 0 <= i < |view| => view[i].id)
  }

  function EpicIDs(view: seq<EpicSummary>): (ids: seq<string>)
    ensures |ids| == |view| && forall i :: 0 <= i < |view| ==> ids[i] == view[i].id
  {
    seq(|view|, i requires 0 <= i < |view| => view[i].id)
  }

  /** Keys listed once each, in order. */
  ghost predicate Listed(ids: seq<string>, keys: set<string>) {
    StrictlySorted(ids) && forall id :: id in ids <==> id in keys
  }

  ghost predicate ShowsInitiatives(packets: seq<IndexedPacket>, tenant: TenantID, view: seq<InitiativeSummary>) {
    && Listed(InitiativeIDs(view), PartKeys(packets, OfTenant(tenant)))
    && forall i :: 0 <= i < |view| ==>
         && view[i].counts == Tally(packets, OfInitiative(tenant, view[i].id))
         && view[i].epicCount == |PartKeys(packets, OfInitiative(tenant, view[i].id))|
  }

  ghost predicate ShowsEpics(packets: seq<IndexedPacket>, tenant: TenantID, initiative: string,
                             view: seq<EpicSummary>) {
    && Listed(EpicIDs(view), PartKeys(packets, OfInitiative(tenant, initiative)))
    && forall i :: 0 <= i < |view| ==> view[i].counts == Tally(packets, OfEpic(tenant, initiative, view[i].id))
  }

  ghost function Summaries(packets: seq<IndexedPacket>): (r: seq<PacketSummary>)
    ensures |r| == |packets| && forall i :: 0 <= i < |packets| ==> r[i] == Summarize(packets[i].record)
  {
    seq(|packets|, i requires 0 <= i < |packets| => Summarize(packets[i].record))
  }

  predicate ByID(a: PacketSummary, b: PacketSummary) {
    Less(a.id, b.id)
  }

  ghost predicate ShowsPackets(packets: seq<IndexedPacket>, tenant: TenantID, initiative: string, epic: string,
                               view: seq<PacketSummary>)
  {
    && multiset(view) == multiset(Summaries(Selected(packets, OfEpic(tenant, initiative, epic))))
    && Ordered(view, ByID)
  }

  // The first loop of Initiatives.
  method CountInitiatives(packets: seq<IndexedPacket>, tenant: TenantID)
    returns (byID: map<string, Counts>, epics: map<string, set<string>>)
    requires forall x :: x in packets ==> In(x, OfTenant(tenant))
    ensures Tallied(byID, packets, OfTenant(tenant)) && epics.Keys == byID.Keys
    ensures forall i :: i in epics ==> epics[i] == PartKeys(packets, OfInitiative(tenant, i))
  {
    byID, epics := map[], map[];
    for n := 0 to |packets|
      invariant Tallied(byID, packets[..n], OfTenant(tenant)) && epics.Keys == byID.Keys
      invariant forall i :: i in epics ==> epics[i] == PartKeys(packets[..n], OfInitiative(tenant, i))
    {
      var x := packets[n];
      assert packets[..n + 1] == packets[..n] + [x];
      assert x in packets;
      TalliedSnoc(byID, packets[..n], x, OfTenant(tenant));
      EpicsSnoc(epics, packets[..n], x, tenant);
      byID := Counted(byID, x.initiative, x.record);
      epics := epics[x.initiative := (if x.initiative in epics then epics[x.initiative] else {}) + {x.epic}];
    }
    assert packets[..|packets|] == packets;
  }

  lemma EpicsSnoc(epics: map<string, set<string>>, packets: seq<IndexedPacket>, x: IndexedPacket, tenant: TenantID)
    requires In(x, OfTenant(tenant)) && epics.Keys == PartKeys(packets, OfTenant(tenant))
    requires forall i :: i in epics ==> epics[i] == PartKeys(packets, OfInitiative(tenant, i))
    ensures var after := epics[x.initiative := (if x.initiative in epics then epics[x.initiative] else {}) + {x.epic}];
            forall i :: i in after ==> after[i] == PartKeys(packets + [x], OfInitiative(tenant, i))
  {
    forall i
      ensures PartKeys(packets + [x], OfInitiative(tenant, i))
           == PartKeys(packets, OfInitiative(tenant, i)) + (if i == x.initiative then {x.epic} else {})
    {
      KeysSnoc(packets, x, OfInitiative(tenant, i));
    }
    if x.initiative !in epics {
      forall y | y in packets
        ensures !In(y, OfInitiative(tenant, x.initiative))
      {
        assert In(y, OfTenant(tenant)) ==> KeyOf(y, OfTenant(tenant)) in PartKeys(packets, OfTenant(tenant));
      }
    }
  }

  method Initiatives(snapshot: Snapshot, tenant: TenantID, now: Time)
    returns (r: Result<seq<InitiativeSummary>, ViewError>)
    ensures r.Err? <==> Refused(snapshot, tenant, now).Some?
    ensures r.Err? ==> Some(r.error) == Refused(snapshot, tenant, now)
    ensures r.Ok? ==> ShowsInitiatives(snapshot.packets, tenant, r.value)
  {
    var found := TenantPackets(snapshot, tenant, now);
    if found.Err? {
      return Err(found.error);
    }
    forall x
      ensures x in found.value ==> In(x, OfTenant(tenant))
    {
      SelectedMember(snapshot.packets, OfTenant(tenant), x);
    }
    var byID, epics := CountInitiatives(found.value, tenant);
    var ids := SortKeys(byID.Keys);
    var view: seq<InitiativeSummary> := [];
    for n := 0 to |ids|
      invariant |view| == n
      invariant forall i :: 0 <= i < n ==>
        ids[i] in byID && view[i] == InitiativeSummary(ids[i], |epics[ids[i]]|, byID[ids[i]])
    {
      assert ids[n] in ids;
      view := view + [InitiativeSummary(ids[n], |epics[ids[n]]|, byID[ids[n]])];
    }
    InitiativesShown(snapshot.packets, found.value, tenant, byID, ids, view);
    return Ok(view);
  }

  lemma InitiativesShown(packets: seq<IndexedPacket>, own: seq<IndexedPacket>, tenant: TenantID,
                         byID: map<string, Counts>, ids: seq<string>, view: seq<InitiativeSummary>)
    requires own == Selected(packets, OfTenant(tenant)) && Tallied(byID, own, OfTenant(tenant))
    requires Listed(ids, byID.Keys) && |view| == |ids|
    requires forall i :: 0 <= i < |ids| ==>
      ids[i] in byID
      && view[i] == InitiativeSummary(ids[i], |PartKeys(own, OfInitiative(tenant, ids[i]))|, byID[ids[i]])
    ensures ShowsInitiatives(packets, tenant, view)
  {
    SelectedKeys(packets, tenant, OfTenant(tenant));
    assert InitiativeIDs(view) == ids;
    forall i | 0 <= i < |view|
      ensures view[i].counts == Tally(packets, OfInitiative(tenant, view[i].id))
      ensures view[i].epicCount == |PartKeys(packets, OfInitiative(tenant, view[i].id))|
    {
      SelectedTally(packets, tenant, OfInitiative(tenant, ids[i]));
      SelectedKeys(packets, tenant, OfInitiative(tenant, ids[i]));
    }
  }

  method Initiative(snapshot: Snapshot, tenant: TenantID, initiative: string, now: Time)
    returns (r: Result<seq<EpicSummary>, ViewError>)
    ensures r.Ok? <==> (Refused(snapshot, tenant, now) == None
                        && PartKeys(snapshot.packets, OfInitiative(tenant, initiative)) != {})
    ensures r.Ok? ==> ShowsEpics(snapshot.packets, tenant, initiative, r.value)
    ensures r.Err? && Refused(snapshot, tenant, now).Some? ==> Some(r.error) == Refused(snapshot, tenant, now)
    ensures r.Err? && Refused(snapshot, tenant, now) == None ==>
              (r.error == TenantIsolation <==> exists x :: x in snapshot.packets && x.initiative == initiative)
  {
    var found := TenantPackets(snapshot, tenant, now);
    if found.Err? {
      return Err(found.error);
    }
    var packets, scope := found.value, OfInitiative(tenant, initiative);
    forall x
      ensures x in packets ==> In(x, OfTenant(tenant))
    {
      SelectedMember(snapshot.packets, OfTenant(tenant), x);
    }
    var byID: map<string, Counts> := map[];
    for n := 0 to |packets|
      invariant Tallied(byID, packets[..n], scope)
    {
      var x := packets[n];
      assert packets[..n + 1] == packets[..n] + [x];
      assert x in packets;
      TalliedSnoc(byID, packets[..n], x, scope);
      if x.initiative == initiative {
        byID := Counted(byID, x.epic, x.record);
      }
    }
    assert packets[..|packets|] == packets;
    SelectedKeys(snapshot.packets, tenant, scope);
    if |byID| == 0 {
      var e := NotFoundOrIsolated(snapshot, tenant, initiative, "", "");
      NoneOfOwn(snapshot.packets, tenant, initiative, byID);
      return Err(e);
    }
    var ids := SortKeys(byID.Keys);
    var view: seq<EpicSummary> := [];
    for n := 0 to |ids|
      invariant |view| == n
      invariant forall i :: 0 <= i < n ==> ids[i] in byID && view[i] == EpicSummary(ids[i], byID[ids[i]])
    {
      assert ids[n] in ids;
      view := view + [EpicSummary(ids[n], byID[ids[n]])];
    }
    EpicsShown(snapshot.packets, packets, tenant, initiative, byID, ids, view);
    return Ok(view);
  }

  lemma NoneOfOwn(packets: seq<IndexedPacket>, tenant: TenantID, initiative: string, byID: map<string, Counts>)
    requires byID.Keys == PartKeys(packets, OfInitiative(tenant, initiative)) && |byID| == 0
    ensures PartKeys(packets, OfInitiative(tenant, initiative)) == {}
    ensures forall x :: x in packets && x.initiative == initiative ==> x.record.tenantID != tenant
  {
    assert byID.Keys == {};
    forall x | x in packets && In(x, OfInitiative(tenant, initiative))
      ensures KeyOf(x, OfInitiative(tenant, initiative)) in byID.Keys
    {
    }
  }

  lemma EpicsShown(packets: seq<IndexedPacket>, own: seq<IndexedPacket>, tenant: TenantID, initiative: string,
                   byID: map<string, Counts>, ids: seq<string>, view: seq<EpicSummary>)
    requires own == Selected(packets, OfTenant(tenant)) && Tallied(byID, own, OfInitiative(tenant, initiative))
    requires Listed(ids, byID.Keys) && |view| == |ids|
    requires forall i :: 0 <= i < |ids| ==> ids[i] in byID && view[i] == EpicSummary(ids[i], byID[ids[i]])
    ensures ShowsEpics(packets, tenant, initiative, view)
  {
    SelectedKeys(packets, tenant, OfInitiative(tenant, initiative));
    assert EpicIDs(view) == ids;
    forall i | 0 <= i < |view|
      ensures view[i].counts == Tally(packets, OfEpic(tenant, initiative, view[i].id))
    {
      SelectedTally(packets, tenant, OfEpic(tenant, initiative, ids[i]));
    }
  }

  method Epic(snapshot: Snapshot, tenant: TenantID, initiative: string, epic: string, now: Time)
    returns (r: Result<seq<PacketSummary>, ViewError>)
    ensures r.Ok? <==> (Refused(snapshot, tenant, now) == None
                        && Selected(snapshot.packets, OfEpic(tenant, initiative, epic)) != [])
    ensures r.Ok? ==> ShowsPackets(snapshot.packets, tenant, initiative, epic, r.value)
    ensures r.Err? ==> r.error == Refused(snapshot, tenant, now).GetOr(Missing(snapshot, tenant, initiative, epic, ""))
  {
    var found := TenantPackets(snapshot, tenant, now);
    if found.Err? {
      return Err(found.error);
    }
    var packets, scope := found.value, OfEpic(tenant, initiative, epic);
    var summaries: seq<PacketSummary> := [];
    for n := 0 to |packets|
      invariant summaries == Summaries(Selected(packets[..n], scope))
    {
      var x := packets[n];
      assert packets[..n + 1] == packets[..n] + [x];
      SelectedSnoc(packets[..n], x, scope);
      SelectedMember(snapshot.packets, OfTenant(tenant), x);
      assert x in packets;
      if x.initiative == initiative && x.epic == epic {
        summaries := summaries + [Summarize(x.record)];
      }
    }
    assert packets[..|packets|] == packets;
    SelectedTally(snapshot.packets, tenant, scope);
    if |summaries| == 0 {
      var e := NotFoundOrIsolated(snapshot, tenant, initiative, epic, "");
      return Err(e);
    }
    SummaryOrder();
    var view := SortSlice(summaries, ByID);
    return Ok(view);
  }

  lemma SummaryOrder()
    ensures StrictWeakOrder(ByID)
  {
    LessOrder();
    forall a: PacketSummary, b: PacketSummary | ByID(a, b)
      ensures !ByID(b, a)
    {
      LessTotal(a.id, b.id);
    }
    forall a: PacketSummary, b: PacketSummary, c: PacketSummary | !ByID(a, b) && !ByID(b, c)
      ensures !ByID(a, c)
    {
      assert !Less(a.id, b.id) && !Less(b.id, c.id);
    }
  }

  /** One packet's record, when the address names one of the tenant's own. */
  method PacketRecord(snapshot: Snapshot, tenant: TenantID, initiative: string, epic: string, packetID: string,
                      now: Time)
    returns (r: Result<Record, ViewError>)
    ensures r.Ok? <==> (Refused(snapshot, tenant, now) == None
      && exists x :: x in snapshot.packets && In(x, OfEpic(tenant, initiative, epic)) && x.record.id == packetID)
    ensures r.Ok? ==> r.value.tenantID == tenant && r.value.id == packetID
    ensures r.Ok? ==> IndexedPacket(r.value, initiative, epic) in snapshot.packets
    ensures r.Err? ==>
              r.error == Refused(snapshot, tenant, now).GetOr(Missing(snapshot, tenant, initiative, epic, packetID))
  {
    var found := TenantPackets(snapshot, tenant, now);
    if found.Err? {
      return Err(found.error);
    }
    forall x
      ensures x in found.value <==> x in snapshot.packets && In(x, OfTenant(tenant))
    {
      SelectedMember(snapshot.packets, OfTenant(tenant), x);
    }
    for n := 0 to |found.value|
      invariant forall m :: 0 <= m < n ==>
        !(found.value[m].record.id == packetID && In(found.value[m], OfEpic(tenant, initiative, epic)))
    {
      var x := found.value[n];
      assert x in found.value;
      if x.record.id == packetID && x.initiative == initiative && x.epic == epic {
        return Ok(x.record);
      }
    }
    var e := NotFoundOrIsolated(snapshot, tenant, initiative, epic, packetID);
    return Err(e);
  }

  // ---- the three levels agree ---------------------------------------------------------------------------

  ghost function BumpedBy(c: Counts, p: PacketSummary): Counts {
    Counts(c.packets + 1, c.blocked + (if p.blocked then 1 else 0), c.unclaimed + (if p.unclaimed then 1 else 0))
  }

  ghost function CountSummaries(view: seq<PacketSummary>): Counts
    decreases |view|
  {
    if |view| == 0 then NOTHING else BumpedBy(CountSummaries(view[..|view| - 1]), view[|view| - 1])
  }

  lemma {:induction false} CountWithout(view: seq<PacketSummary>, j: nat)
    requires j < |view|
    ensures CountSummaries(view) == BumpedBy(CountSummaries(view[..j] + view[j + 1..]), view[j])
    decreases |view|
  {
    var n := |view| - 1;
    if j < n {
      CountWithout(view[..n], j);
      assert view[..n][..j] == view[..j];
      assert (view[..j] + view[j + 1..])[..n - 1] == view[..j] + view[..n][j + 1..];
    } else {
      assert view[..j] + view[j + 1..] == view[..n];
    }
  }

  lemma Without(view: seq<PacketSummary>, j: nat)
    requires j < |view|
    ensures multiset(view[..j] + view[j + 1..]) == multiset(view) - multiset{view[j]}
  {
    assert view == view[..j] + [view[j]] + view[j + 1..];
  }

  /** Listing in another order counts the same. */
  lemma {:induction false} CountReordered(a: seq<PacketSummary>, b: seq<PacketSummary>)
    requires multiset(a) == multiset(b)
    ensures CountSummaries(a) == CountSummaries(b)
    decreases |a|
  {
    assert |a| == |multiset(a)| == |multiset(b)| == |b|;
    if |a| > 0 {
      var n := |a| - 1;
      assert a[n] in multiset(b);
      var j :| 0 <= j < |b| && b[j] == a[n];
      Without(a, n);
      Without(b, j);
      assert a[..n] + a[n + 1..] == a[..n];
      CountReordered(a[..n], b[..j] + b[j + 1..]);
      CountWithout(b, j);
    }
  }

  lemma {:induction false} TallyIsCount(packets: seq<IndexedPacket>, scope: Scope)
    ensures CountSummaries(Summaries(Selected(packets, scope))) == Tally(packets, scope)
    decreases |packets|
  {
    if |packets| > 0 {
      var rest, last := packets[..|packets| - 1], packets[|packets| - 1];
      TallyIsCount(rest, scope);
      if In(last, scope) {
        var before := Selected(rest, scope);
        assert Summaries(before + [last])[..|before|] == Summaries(before);
      }
    }
  }

  /** An epic's card counts what its page lists. */
  lemma EpicCardMatchesPage(packets: seq<IndexedPacket>, tenant: TenantID, initiative: string, cards: seq<EpicSummary>,
                            i: nat, page: seq<PacketSummary>)
    requires ShowsEpics(packets, tenant, initiative, cards) && i < |cards|
    requires ShowsPackets(packets, tenant, initiative, cards[i].id, page)
    ensures cards[i].counts == CountSummaries(page)
    ensures |page| > 0
  {
    var scope := OfEpic(tenant, initiative, cards[i].id);
    CountReordered(page, Summaries(Selected(packets, scope)));
    TallyIsCount(packets, scope);
    assert EpicIDs(cards)[i] in EpicIDs(cards);
    var x :| x in packets && In(x, OfInitiative(tenant, initiative)) && x.epic == cards[i].id;
    SelectedMember(packets, scope, x);
    assert |page| == |multiset(page)| == |multiset(Summaries(Selected(packets, scope)))|;
  }

  /** An initiative's card counts what its page lists: the epics, and the sums over them. */
  lemma InitiativeCardMatchesPage(packets: seq<IndexedPacket>, tenant: TenantID, cards: seq<InitiativeSummary>, i: nat,
                                  page: seq<EpicSummary>, counts: seq<Counts>)
    requires ShowsInitiatives(packets, tenant, cards) && i < |cards|
    requires ShowsEpics(packets, tenant, cards[i].id, page)
    requires |counts| == |page| && forall k :: 0 <= k < |page| ==> counts[k] == page[k].counts
    ensures cards[i].epicCount == |page|
    ensures cards[i].counts == Total(counts)
  {
    var scope := OfInitiative(tenant, cards[i].id);
    ListedCount(EpicIDs(page), PartKeys(packets, scope));
    PartsAddUp(packets, scope, EpicIDs(page));
    TotalIsSum(packets, scope, EpicIDs(page), counts);
  }

  /** All the initiatives together count the tenant's packets and no other tenant's. */
  lemma InitiativesCountTenant(packets: seq<IndexedPacket>, tenant: TenantID, cards: seq<InitiativeSummary>,
                               counts: seq<Counts>)
    requires ShowsInitiatives(packets, tenant, cards)
    requires |counts| == |cards| && forall k :: 0 <= k < |cards| ==> counts[k] == cards[k].counts
    ensures Total(counts) == CountSummaries(Summaries(Selected(packets, OfTenant(tenant))))
  {
    var scope := OfTenant(tenant);
    ListedCount(InitiativeIDs(cards), PartKeys(packets, scope));
    PartsAddUp(packets, scope, InitiativeIDs(cards));
    TotalIsSum(packets, scope, InitiativeIDs(cards), counts);
    TallyIsCount(packets, scope);
  }

  lemma ListedCount(ids: seq<string>, keys: set<string>)
    requires Listed(ids, keys)
    ensures NoRepeats(ids) && |ids| == |keys|
    decreases |ids|
  {
    forall i, j | 0 <= i < j < |ids|
      ensures ids[i] != ids[j]
    {
      LessTotal(ids[i], ids[j]);
    }
    SetOfSeq(ids, keys);
  }

  lemma {:induction false} SetOfSeq(ids: seq<string>, keys: set<string>)
    requires NoRepeats(ids) && forall id :: id in ids <==> id in keys
    ensures |ids| == |keys|
    decreases |ids|
  {
    if |ids| > 0 {
      var n := |ids| - 1;
      assert ids == ids[..n] + [ids[n]];
      assert ids[n] !in ids[..n];
      SetOfSeq(ids[..n], keys - {ids[n]});
    } else {
      assert keys == {};
    }
  }
}
