/** authoring/workspace.go: editable drafts, and the packets they are issued as. */
module Authoring {
  import opened Basics
  import opened PacketTypes
  import opened PacketNames
  import opened Lifecycle
  import opened EventLog
  import opened Commands
  import opened Supersession
  import opened Tracking
  import Protocol

  datatype Principal = Principal(subject: string, tenantID: TenantID)

  datatype State = StateDraft | StateIssued

  datatype Draft = Draft(
    id: string, packetID: PacketID, initiativeID: string, epicID: string, target: string,
    tenantID: TenantID, author: string, body: Body, parentID: PacketID, state: State, version: nat)

  type Drafts = map<string, Draft>

  // What a new draft is asked to be.
  datatype Plan = Plan(packetID: PacketID, initiativeID: string, epicID: string, target: string, body: Body)

  datatype EditCommand = EditCommand(draftID: string, expected: nat, packetID: PacketID, target: string, body: Body)

  datatype Refusal =
    | Unauthenticated
    | DraftNotFound
    | DraftIssued
    | DraftConflict
    | Incomplete
    | InvalidScope
    | PacketRefused

  // ValidateScope: tenant, initiative, epic and target are real at a time.
  type ScopeRule = (TenantID, string, string, string, Time) -> bool

  predicate ValidPrincipal(principal: Principal) {
    !Blank(principal.subject) && !Blank(principal.tenantID)
  }

  predicate ValidIdentity(packetID: PacketID, initiative: string, epic: string, target: string) {
    !Blank(target) && NamesTask(packetID) && InScope(packetID, initiative, epic)
  }

  predicate Complete(d: Draft) {
    && !Blank(d.packetID) && !Blank(d.initiativeID) && !Blank(d.epicID) && !Blank(d.target)
    && !Blank(d.body.goal) && !Blank(d.body.boundary) && !Blank(d.body.doneWhen) && !Blank(d.body.check)
    && !Blank(d.body.context)
  }

  predicate Owns(principal: Principal, d: Draft) {
    d.author == principal.subject && d.tenantID == principal.tenantID
  }

  function NewDraft(principal: Principal, plan: Plan, parentID: PacketID, draftID: string): Draft {
    Draft(draftID, plan.packetID, plan.initiativeID, plan.epicID, plan.target, principal.tenantID,
          principal.subject, plan.body, parentID, StateDraft, 1)
  }

  function Edited(d: Draft, e: EditCommand): Draft {
    d.(packetID := e.packetID, target := e.target, body := e.body, version := d.version + 1)
  }

  function IssuedDraft(d: Draft): Draft {
    d.(state := StateIssued, version := d.version + 1)
  }

  function CommandOf(d: Draft, subject: string, parentVersion: Version): Command {
    if d.parentID == "" then Command.Issue(d.packetID, d.tenantID, d.body, subject)
    else Command.Supersede(d.parentID, parentVersion, subject, d.packetID, d.tenantID, d.body)
  }

  // ---- exactly when each operation succeeds ------------------------------------------------------

  ghost predicate MayCreate(principal: Principal, plan: Plan) {
    ValidPrincipal(principal) && ValidIdentity(plan.packetID, plan.initiativeID, plan.epicID, plan.target)
  }

  ghost predicate MayReplace(log: seq<EventRecord>, principal: Principal, parentID: PacketID, plan: Plan) {
    && MayCreate(principal, plan) && plan.packetID != parentID && parentID != ""
    && Stream(log, parentID) != [] && PacketIn(log, parentID).tenantID == principal.tenantID
    && InScope(parentID, plan.initiativeID, plan.epicID)
  }

  /** An owned, unissued draft, unchanged since the caller read it. */
  ghost predicate Editable(drafts: Drafts, principal: Principal, draftID: string, expected: nat) {
    && draftID in drafts && Owns(principal, drafts[draftID])
    && drafts[draftID].state == StateDraft && drafts[draftID].version == expected
  }

  ghost predicate MayEdit(drafts: Drafts, principal: Principal, e: EditCommand) {
    && Editable(drafts, principal, e.draftID, e.expected)
    && var d := drafts[e.draftID];
       ValidIdentity(e.packetID, d.initiativeID, d.epicID, e.target) && e.packetID != d.parentID
  }

  ghost predicate MayIssue(drafts: Drafts, principal: Principal, draftID: string, expected: nat, scope: ScopeRule,
                           now: Time)
  {
    && Editable(drafts, principal, draftID, expected)
    && var d := drafts[draftID];
       Complete(d) && scope(d.tenantID, d.initiativeID, d.epicID, d.target, now)
  }

  ghost function VersionIn(log: seq<EventRecord>, id: PacketID): Version {
    if id == "" then 0 else |Stream(log, id)|
  }

  datatype IssueResult = IssueResult(draft: Draft, packet: Packet, parent: Option<Packet>)

  ghost function PacketsOf(r: Result<IssueResult, Refusal>): Option<(Packet, Option<Packet>)> {
    if r.Err? then None else Some((r.value.packet, r.value.parent))
  }

  function ResultOf(draft: Draft, issued: Option<(Packet, Option<Packet>)>): (r: Result<IssueResult, Refusal>)
    ensures PacketsOf(r) == issued
    ensures r.Ok? ==> r.value.draft == draft
  {
    if issued.None? then Err(PacketRefused) else Ok(IssueResult(draft, issued.value.0, issued.value.1))
  }

  /** What issuing a draft does to the log and what it returns: the packet and the parent it
      replaced as the new log projects them. */
  ghost predicate Issuance(before: seq<EventRecord>, after: seq<EventRecord>, ready: bool, d: Draft, subject: string,
                           rule: TenantRule, now: Time, stamps: seq<Stamp>, r: Option<(Packet, Option<Packet>)>)
    requires |stamps| >= 3
  {
    && Outcome(before, after, ready, CommandOf(d, subject, VersionIn(before, d.parentID)), rule, now, stamps, r.Some?)
    && (r.Some? ==> Replay(Stream(after, d.packetID)) == Ok(r.value.0))
    && (r.Some? ==> if d.parentID == "" then r.value.1 == None
                    else r.value.1.Some? && Replay(Stream(after, d.parentID)) == Ok(r.value.1.value))
  }

  class Workspace {
    var drafts: Drafts
    const tracker: Tracker
    const scope: ScopeRule

    ghost predicate Keyed()
      reads this
    {
      forall id :: id in drafts ==> drafts[id].id == id
    }

    ghost predicate Valid()
      reads this, tracker, tracker.store
    {
      Keyed() && tracker.Valid() && Replays(tracker.store.records)
    }

    constructor (tracker: Tracker, scope: ScopeRule)
      requires tracker.Valid() && Replays(tracker.store.records)
      ensures this.tracker == tracker && this.scope == scope && drafts == map[] && Valid()
    {
      this.tracker, this.scope := tracker, scope;
      drafts := map[];
    }

    // workspace.drafts[draft.ID] = draft.
    method Put(draft: Draft)
      requires Valid()
      modifies this
      ensures Valid() && drafts == old(drafts)[draft.id := draft]
    {
      drafts := drafts[draft.id := draft];
    }

    method Create(principal: Principal, plan: Plan, draftID: string) returns (r: Result<Draft, Refusal>)
      requires Keyed()
      modifies this
      ensures Keyed()
      ensures r.Ok? <==> MayCreate(principal, plan)
      ensures r.Ok? ==> r.value == NewDraft(principal, plan, "", draftID)
      ensures drafts == if r.Ok? then old(drafts)[draftID := r.value] else old(drafts)
    {
      if !ValidPrincipal(principal) {
        return Err(Unauthenticated);
      }
      if !ValidIdentity(plan.packetID, plan.initiativeID, plan.epicID, plan.target) {
        return Err(InvalidScope);
      }
      var draft := NewDraft(principal, plan, "", draftID);
      drafts := drafts[draftID := draft];
      return Ok(draft);
    }

    /** A draft that would replace a packet. The packet itself does not change. */
    method CreateSupersession(principal: Principal, parentID: PacketID, plan: Plan, draftID: string)
      returns (r: Result<Draft, Refusal>)
      requires Valid()
      modifies this, tracker
      ensures Valid() && tracker.projectionReady == old(tracker.projectionReady)
      ensures r.Ok? <==> old(tracker.projectionReady) && MayReplace(tracker.store.records, principal, parentID, plan)
      ensures r.Ok? ==> r.value == NewDraft(principal, plan, parentID, draftID)
      ensures drafts == if r.Ok? then old(drafts)[draftID := r.value] else old(drafts)
    {
      if !ValidPrincipal(principal) {
        return Err(Unauthenticated);
      }
      var parent := tracker.Packet(parentID);
      if parent.Err? || parent.value.tenantID != principal.tenantID {
        return Err(DraftNotFound);
      }
      if !InScope(parentID, plan.initiativeID, plan.epicID)
         || !ValidIdentity(plan.packetID, plan.initiativeID, plan.epicID, plan.target) || plan.packetID == parentID
      {
        return Err(InvalidScope);
      }
      var draft := NewDraft(principal, plan, parentID, draftID);
      drafts := drafts[draftID := draft];
      return Ok(draft);
    }

    method OwnedDraft(principal: Principal, draftID: string) returns (r: Result<Draft, Refusal>)
      ensures r.Ok? <==> draftID in drafts && Owns(principal, drafts[draftID])
      ensures r.Ok? ==> r.value == drafts[draftID]
    {
      if draftID !in drafts || !Owns(principal, drafts[draftID]) {
        return Err(DraftNotFound);
      }
      return Ok(drafts[draftID]);
    }

    // How Edit and Issue begin.
    method EditableDraft(principal: Principal, draftID: string, expected: nat) returns (r: Result<Draft, Refusal>)
      ensures r.Ok? <==> Editable(drafts, principal, draftID, expected)
      ensures r.Ok? ==> r.value == drafts[draftID]
    {
      r := OwnedDraft(principal, draftID);
      if r.Ok? && r.value.state == StateIssued {
        return Err(DraftIssued);
      }
      if r.Ok? && r.value.version != expected {
        return Err(DraftConflict);
      }
    }

    method Edit(principal: Principal, e: EditCommand) returns (r: Result<Draft, Refusal>)
      requires Keyed()
      modifies this
      ensures Keyed()
      ensures r.Ok? <==> MayEdit(old(drafts), principal, e)
      ensures r.Ok? ==> r.value == Edited(old(drafts)[e.draftID], e)
      ensures drafts == if r.Ok? then old(drafts)[e.draftID := r.value] else old(drafts)
    {
      r := EditableDraft(principal, e.draftID, e.expected);
      if r.Err? {
        return;
      }
      var draft := r.value;
      if !ValidIdentity(e.packetID, draft.initiativeID, draft.epicID, e.target) || e.packetID == draft.parentID {
        return Err(InvalidScope);
      }
      draft := Edited(draft, e);
      drafts := drafts[draft.id := draft];
      return Ok(draft);
    }

    method CurrentVersion(id: PacketID) returns (version: Version)
      requires tracker.Valid() && Replays(tracker.store.records)
      modifies tracker
      ensures tracker.Valid() && tracker.projectionReady == old(tracker.projectionReady)
      ensures old(tracker.projectionReady) ==> version == VersionIn(tracker.store.records, id)
    {
      var packet := tracker.Packet(id);
      if packet.Err? {
        return 0;
      }
      ReplayLawful(Stream(tracker.store.records, id));
      return packet.value.version;
    }

    // The tracker's half of Issue: a packet of its own, or one that replaces its parent.
    method IssuePacket(draft: Draft, subject: string, now: Time, stamps: seq<Stamp>)
      returns (r: Option<(Packet, Option<Packet>)>)
      requires tracker.Valid() && Replays(tracker.store.records) && |stamps| >= 3
      modifies tracker, tracker.store
      ensures tracker.Valid() && Replays(tracker.store.records)
      ensures tracker.projectionReady == old(tracker.projectionReady)
      ensures Issuance(old(tracker.store.records), tracker.store.records, old(tracker.projectionReady), draft, subject,
                       tracker.tenantRule, now, stamps, r)
    {
      if draft.parentID == "" {
        var issued := tracker.Issue(CommandOf(draft, subject, 0), now, stamps);
        return if issued.Err? then None else Some((issued.value, None));
      }
      var version := CurrentVersion(draft.parentID);
      var replaced := tracker.Supersede(CommandOf(draft, subject, version), now, stamps);
      return if replaced.Err? then None else Some((replaced.value.1, Some(replaced.value.0)));
    }

    // The checks of Issue before the tracker is asked.
    method Approve(principal: Principal, draftID: string, expected: nat, now: Time) returns (r: Result<Draft, Refusal>)
      ensures r.Ok? <==> MayIssue(drafts, principal, draftID, expected, scope, now)
      ensures r.Ok? ==> r.value == drafts[draftID]
    {
      r := EditableDraft(principal, draftID, expected);
      if r.Ok? && !Complete(r.value) {
        return Err(Incomplete);
      }
      if r.Ok? && !scope(r.value.tenantID, r.value.initiativeID, r.value.epicID, r.value.target, now) {
        return Err(InvalidScope);
      }
    }

    /** One complete draft becomes one packet, or nothing changes. */
    method Issue(principal: Principal, draftID: string, expected: nat, now: Time, stamps: seq<Stamp>)
      returns (r: Result<IssueResult, Refusal>)
      requires Valid() && |stamps| >= 3
      modifies this, tracker, tracker.store
      ensures Valid() && tracker.projectionReady == old(tracker.projectionReady)
      ensures r.Ok? ==> MayIssue(old(drafts), principal, draftID, expected, scope, now)
      ensures MayIssue(old(drafts), principal, draftID, expected, scope, now) ==>
                Issuance(old(tracker.store.records), tracker.store.records, old(tracker.projectionReady),
                         old(drafts)[draftID], principal.subject, tracker.tenantRule, now, stamps, PacketsOf(r))
      ensures r.Err? ==> tracker.store.records == old(tracker.store.records)
      ensures drafts == if r.Ok? then old(drafts)[draftID := r.value.draft] else old(drafts)
      ensures r.Ok? ==> r.value.draft == IssuedDraft(old(drafts)[draftID])
    {
      var approved := Approve(principal, draftID, expected, now);
      if approved.Err? {
        return Err(approved.error);
      }
      var draft := IssuedDraft(approved.value);
      var issued := IssuePacket(approved.value, principal.subject, now, stamps);
      r := ResultOf(draft, issued);
      if r.Ok? {
        Put(draft);
      }
    }

    /** An authored packet, for its own tenant only. */
    method Packet(principal: Principal, id: PacketID) returns (r: Result<Packet, Error>)
      requires Valid()
      modifies tracker
      ensures Valid() && tracker.projectionReady == old(tracker.projectionReady)
      ensures r.Ok? <==> (old(tracker.projectionReady) && id != "" && Stream(tracker.store.records, id) != []
                          && PacketIn(tracker.store.records, id).tenantID == principal.tenantID)
      ensures r.Ok? ==> r.value == PacketIn(tracker.store.records, id)
    {
      var projected := tracker.Packet(id);
      if projected.Err? || projected.value.tenantID != principal.tenantID {
        return Err(NotFound);
      }
      return projected;
    }
  }
}
