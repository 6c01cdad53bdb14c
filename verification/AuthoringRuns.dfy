/** Runs of any number of workspaces over one log, when packets are issued and superseded only
    through them: what drafts and supersession chains keep. */
module AuthoringRuns {
  import opened Basics
  import opened PacketTypes
  import opened PacketNames
  import opened Lifecycle
  import opened EventLog
  import opened TrackerCache
  import opened Commands
  import opened Supersession
  import opened Authoring
  import Protocol

  datatype World = World(log: seq<EventRecord>, spaces: seq<Drafts>)

  datatype Rules = Rules(scope: ScopeRule, tenant: TenantRule)

  // parentVersion is whatever version of the parent the workspace last read: others may have
  // appended since. Work is any command on a packet that makes no packet.
  datatype Act =
    | Open
    | Create(space: nat, principal: Principal, plan: Plan, draftID: string)
    | Replace(space: nat, principal: Principal, parentID: PacketID, plan: Plan, draftID: string)
    | Edit(space: nat, principal: Principal, edit: EditCommand)
    | Issue(space: nat, principal: Principal, draftID: string, expected: nat, parentVersion: Version, now: Time,
            stamps: seq<Stamp>)
    | Work(command: Command, now: Time, stamps: seq<Stamp>)

  ghost function Stored(w: World, k: nat, d: Draft): World
    requires k < |w.spaces|
  {
    w.(spaces := w.spaces[k := w.spaces[k][d.id := d]])
  }

  ghost predicate Goes(w: World, act: Act, rules: Rules) {
    match act
    case Open => true
    case Create(k, principal, plan, _) => k < |w.spaces| && MayCreate(principal, plan)
    case Replace(k, principal, parentID, plan, _) =>
      k < |w.spaces| && MayReplace(w.log, principal, parentID, plan)
    case Edit(k, principal, edit) => k < |w.spaces| && MayEdit(w.spaces[k], principal, edit)
    case Issue(k, principal, draftID, expected, parentVersion, now, stamps) =>
      && k < |w.spaces| && |stamps| >= 3
      && MayIssue(w.spaces[k], principal, draftID, expected, rules.scope, now)
      && Admits(w.log, CommandOf(w.spaces[k][draftID], principal.subject, parentVersion), rules.tenant, now, stamps)
    case Work(command, now, stamps) =>
      && !command.Issue? && !command.Supersede? && |stamps| >= 3
      && Admits(w.log, command, rules.tenant, now, stamps)
  }

  /** The world after one act. One that fails changes nothing. */
  ghost function Next(w: World, act: Act, rules: Rules): World {
    if !Goes(w, act, rules) then w
    else
      match act
      case Open => w.(spaces := w.spaces + [map[]])
      case Create(k, principal, plan, draftID) => Stored(w, k, NewDraft(principal, plan, "", draftID))
      case Replace(k, principal, parentID, plan, draftID) =>
        Stored(w, k, NewDraft(principal, plan, parentID, draftID))
      case Edit(k, principal, edit) =>
        w.(spaces := w.spaces[k := w.spaces[k][edit.draftID := Edited(w.spaces[k][edit.draftID], edit)]])
      case Issue(k, principal, draftID, _, parentVersion, _, stamps) =>
        var d := w.spaces[k][draftID];
        World(After(w.log, CommandOf(d, principal.subject, parentVersion), stamps),
              w.spaces[k := w.spaces[k][draftID := IssuedDraft(d)]])
      case Work(command, _, stamps) => w.(log := After(w.log, command, stamps))
  }

  /** A new draft gets an id its workspace does not use. */
  ghost predicate FreshID(w: World, act: Act) {
    (act.Create? || act.Replace?) && act.space < |w.spaces| ==> act.draftID !in w.spaces[act.space]
  }

  // ---- the invariant ----------------------------------------------------------------------------

  ghost predicate Has(w: World, k: nat, id: string) {
    k < |w.spaces| && id in w.spaces[k]
  }

  /** A packet's parent is of its tenant, its initiative and its epic. */
  ghost predicate Alike(log: seq<EventRecord>, a: PacketID, b: PacketID) {
    && NamesTask(a) && NamesTask(b) && InitiativeOf(a) == InitiativeOf(b) && EpicOf(a) == EpicOf(b)
    && PacketIn(log, a).tenantID == PacketIn(log, b).tenantID
  }

  ghost predicate Scoped(log: seq<EventRecord>, p: PacketID) {
    Stream(log, p) != [] ==>
      NamesTask(p) && (PacketIn(log, p).parentID != "" ==> Alike(log, PacketIn(log, p).parentID, p))
  }

  /** An issued draft says what its packet says. */
  ghost predicate Recorded(log: seq<EventRecord>, d: Draft) {
    && Stream(log, d.packetID) != []
    && var p := PacketIn(log, d.packetID);
       p.id == d.packetID && p.tenantID == d.tenantID && p.body == d.body && p.parentID == d.parentID
  }

  ghost predicate SoundDraft(log: seq<EventRecord>, d: Draft) {
    && NamesTask(d.packetID) && d.initiativeID == InitiativeOf(d.packetID) && d.epicID == EpicOf(d.packetID)
    && (d.parentID != "" ==>
          && NamesTask(d.parentID) && d.initiativeID == InitiativeOf(d.parentID) && d.epicID == EpicOf(d.parentID)
          && Stream(log, d.parentID) != [] && PacketIn(log, d.parentID).tenantID == d.tenantID)
    && (d.state == StateIssued ==> Recorded(log, d))
  }

  ghost predicate IssuedAt(w: World, k: nat, id: string, p: PacketID) {
    Has(w, k, id) && w.spaces[k][id].state == StateIssued && w.spaces[k][id].packetID == p
  }

  ghost predicate Authored(w: World, p: PacketID) {
    exists k: nat, id :: IssuedAt(w, k, id, p)
  }

  ghost predicate OneDraftEach(w: World) {
    forall k: nat, id, l: nat, other, p :: IssuedAt(w, k, id, p) && IssuedAt(w, l, other, p) ==> k == l && id == other
  }

  ghost predicate Sound(w: World) {
    && LogInvariant(w.log)
    && (forall p :: Scoped(w.log, p))
    && (forall k: nat, id :: Has(w, k, id) ==> w.spaces[k][id].id == id && SoundDraft(w.log, w.spaces[k][id]))
    && (forall p :: Stream(w.log, p) != [] ==> Authored(w, p))
    && OneDraftEach(w)
  }

  // ---- what a growing log keeps -------------------------------------------------------------------

  lemma GrowthFreezes(log: seq<EventRecord>, command: Command, rule: TenantRule, now: Time, stamps: seq<Stamp>,
                      p: PacketID)
    requires LogInvariant(log) && |stamps| >= 3 && Admits(log, command, rule, now, stamps) && Stream(log, p) != []
    ensures Stream(After(log, command, stamps), p) != []
    ensures Frozen(PacketIn(log, p), PacketIn(After(log, command, stamps), p))
  {
    var after := After(log, command, stamps);
    AfterStoreLog(log, command, rule, now, stamps);
    assert log <= after by {
      AppendedStream(log, BatchOver(log, command, stamps), p);
    }
    Protocol.StreamGrows(log, after, p);
    Protocol.FrozenBetween(log, after, p);
  }

  /** The one packet a command makes, if it makes one. */
  ghost function Made(command: Command): PacketID {
    if command.Issue? then command.packetID else if command.Supersede? then command.replacementID else ""
  }

  lemma OnlyMade(log: seq<EventRecord>, command: Command, rule: TenantRule, now: Time, stamps: seq<Stamp>, p: PacketID)
    requires LogInvariant(log) && |stamps| >= 3 && Admits(log, command, rule, now, stamps)
    requires Stream(log, p) == [] && Stream(After(log, command, stamps), p) != []
    ensures p == Made(command) && p != ""
  {
    if p in Named(command) {
      NamedExists(log, command, rule, now, p);
    } else {
      OthersUnchanged(log, command, stamps, p);
    }
  }

  lemma NamedExists(log: seq<EventRecord>, command: Command, rule: TenantRule, now: Time, p: PacketID)
    requires Asked(log, command, rule, now) && p in Named(command)
    ensures p != "" && (Stream(log, p) == [] ==> p == Made(command))
  {
  }

  lemma ScopedKept(log: seq<EventRecord>, command: Command, rule: TenantRule, now: Time, stamps: seq<Stamp>,
                   p: PacketID)
    requires LogInvariant(log) && |stamps| >= 3 && Admits(log, command, rule, now, stamps)
    requires Scoped(log, p) && Stream(log, p) != []
    ensures Scoped(After(log, command, stamps), p)
  {
    GrowthFreezes(log, command, rule, now, stamps, p);
    var parent := PacketIn(log, p).parentID;
    if parent != "" {
      assert ParentFirst(log, p);
      GrowthFreezes(log, command, rule, now, stamps, parent);
    }
  }

  lemma SoundDraftKept(log: seq<EventRecord>, command: Command, rule: TenantRule, now: Time, stamps: seq<Stamp>,
                       d: Draft)
    requires LogInvariant(log) && |stamps| >= 3 && Admits(log, command, rule, now, stamps) && SoundDraft(log, d)
    ensures SoundDraft(After(log, command, stamps), d)
  {
    if d.parentID != "" {
      GrowthFreezes(log, command, rule, now, stamps, d.parentID);
    }
    if d.state == StateIssued {
      GrowthFreezes(log, command, rule, now, stamps, d.packetID);
    }
  }

  // ---- issuing one draft ---------------------------------------------------------------------------

  /** A sound draft is issued exactly when its packet id is unused and the tenant is willing, and,
      for a replacement, when the parent is still open and unchanged since it was read. */
  lemma IssuesExactly(log: seq<EventRecord>, d: Draft, subject: string, parentVersion: Version, rule: TenantRule,
                      now: Time, stamps: seq<Stamp>)
    requires LogInvariant(log) && SoundDraft(log, d) && d.tenantID != "" && |stamps| >= 3
    ensures Admits(log, CommandOf(d, subject, parentVersion), rule, now, stamps)
       <==> (Stream(log, d.packetID) == [] && rule(d.tenantID, now)
             && FreshStamps(log, subject, stamps, if d.parentID == "" then 1 else 3)
             && (d.parentID != "" ==>
                   VersionIn(log, d.parentID) == parentVersion && PacketIn(log, d.parentID).closure == None))
  {
    var command := CommandOf(d, subject, parentVersion);
    if d.parentID == "" {
      IssueAdmitted(log, command, rule, now, stamps);
    } else {
      SupersedeAdmitted(log, command, rule, now, stamps, PacketIn(log, d.parentID));
      assert Settled(PacketIn(log, d.parentID));
    }
  }

  lemma IssueRecords(log: seq<EventRecord>, d: Draft, subject: string, parentVersion: Version, rule: TenantRule,
                     now: Time, stamps: seq<Stamp>)
    requires LogInvariant(log) && |stamps| >= 3 && SoundDraft(log, d)
    requires Admits(log, CommandOf(d, subject, parentVersion), rule, now, stamps)
    ensures Stream(log, d.packetID) == []
    ensures Recorded(After(log, CommandOf(d, subject, parentVersion), stamps), d)
    ensures Scoped(After(log, CommandOf(d, subject, parentVersion), stamps), d.packetID)
  {
    var command := CommandOf(d, subject, parentVersion);
    AdmittedEffect(log, command, rule, now, stamps, PacketIn(log, command.packetID));
    NamedGrows(log, command, stamps, d.packetID);
    if d.parentID != "" {
      GrowthFreezes(log, command, rule, now, stamps, d.parentID);
    }
  }

  lemma AuthoredStill(w: World, after: World, p: PacketID)
    requires Authored(w, p) && forall k: nat, id, q :: IssuedAt(w, k, id, q) ==> IssuedAt(after, k, id, q)
    ensures Authored(after, p)
  {
    var k: nat, id :| IssuedAt(w, k, id, p);
    assert IssuedAt(after, k, id, p);
  }

  // ---- one act ---------------------------------------------------------------------------------

  // Storing a draft that is not issued, over nothing or over another that is not.
  lemma StoreKeepsSound(w: World, k: nat, d: Draft)
    requires Sound(w) && k < |w.spaces| && SoundDraft(w.log, d) && d.state == StateDraft
    requires d.id in w.spaces[k] ==> w.spaces[k][d.id].state == StateDraft
    ensures Sound(Stored(w, k, d))
  {
    var after := Stored(w, k, d);
    assert forall l: nat, id, p :: IssuedAt(after, l, id, p) <==> IssuedAt(w, l, id, p);
    forall p | Stream(w.log, p) != []
      ensures Authored(after, p)
    {
      AuthoredStill(w, after, p);
    }
    forall l: nat, id | Has(after, l, id)
      ensures after.spaces[l][id].id == id && SoundDraft(w.log, after.spaces[l][id])
    {
      assert l != k || id != d.id ==> Has(w, l, id);
    }
  }

  lemma PlannedIsSound(log: seq<EventRecord>, principal: Principal, plan: Plan, parentID: PacketID, draftID: string)
    requires MayCreate(principal, plan)
    requires parentID != "" ==> MayReplace(log, principal, parentID, plan) && NamesTask(parentID)
    ensures SoundDraft(log, NewDraft(principal, plan, parentID, draftID))
  {
    ScopeIsNamed(plan.packetID, plan.initiativeID, plan.epicID);
    if parentID != "" {
      ScopeIsNamed(parentID, plan.initiativeID, plan.epicID);
    }
  }

  lemma GrowthKeepsScopes(log: seq<EventRecord>, command: Command, rule: TenantRule, now: Time, stamps: seq<Stamp>)
    requires LogInvariant(log) && (forall p :: Scoped(log, p))
    requires |stamps| >= 3 && Admits(log, command, rule, now, stamps)
    requires Made(command) != "" ==> Scoped(After(log, command, stamps), Made(command))
    ensures forall p :: Scoped(After(log, command, stamps), p)
  {
    forall p
      ensures Scoped(After(log, command, stamps), p)
    {
      if Stream(log, p) != [] {
        ScopedKept(log, command, rule, now, stamps, p);
      } else if Stream(After(log, command, stamps), p) != [] {
        OnlyMade(log, command, rule, now, stamps, p);
      }
    }
  }

  lemma WorkKeepsSound(w: World, command: Command, rule: TenantRule, now: Time, stamps: seq<Stamp>)
    requires Sound(w) && |stamps| >= 3 && Admits(w.log, command, rule, now, stamps) && Made(command) == ""
    ensures Sound(w.(log := After(w.log, command, stamps)))
  {
    var after := w.(log := After(w.log, command, stamps));
    assert LogInvariant(after.log) by {
      AdmittedKeepsInvariant(w.log, command, rule, now, stamps);
    }
    assert forall p :: Scoped(after.log, p) by {
      GrowthKeepsScopes(w.log, command, rule, now, stamps);
    }
    forall k: nat, id | Has(after, k, id)
      ensures after.spaces[k][id].id == id && SoundDraft(after.log, after.spaces[k][id])
    {
      assert Has(w, k, id);
      SoundDraftKept(w.log, command, rule, now, stamps, w.spaces[k][id]);
    }
    WorkKeepsAuthors(w, command, rule, now, stamps);
  }

  lemma SameIssued(w: World, after: World)
    requires after.spaces == w.spaces && OneDraftEach(w)
    ensures OneDraftEach(after)
    ensures forall p :: Authored(w, p) ==> Authored(after, p)
  {
    assert forall k: nat, id, p :: IssuedAt(after, k, id, p) <==> IssuedAt(w, k, id, p);
    forall p | Authored(w, p)
      ensures Authored(after, p)
    {
      AuthoredStill(w, after, p);
    }
  }

  lemma WorkKeepsAuthors(w: World, command: Command, rule: TenantRule, now: Time, stamps: seq<Stamp>)
    requires Sound(w) && |stamps| >= 3 && Admits(w.log, command, rule, now, stamps) && Made(command) == ""
    ensures var after := w.(log := After(w.log, command, stamps));
            OneDraftEach(after) && forall p :: Stream(after.log, p) != [] ==> Authored(after, p)
  {
    var after := w.(log := After(w.log, command, stamps));
    SameIssued(w, after);
    forall p | Stream(after.log, p) != []
      ensures Authored(after, p)
    {
      WorkMakesNothing(w.log, command, rule, now, stamps, p);
      assert Authored(w, p);
    }
  }

  lemma WorkMakesNothing(log: seq<EventRecord>, command: Command, rule: TenantRule, now: Time, stamps: seq<Stamp>,
                         p: PacketID)
    requires LogInvariant(log) && |stamps| >= 3 && Admits(log, command, rule, now, stamps) && Made(command) == ""
    requires Stream(After(log, command, stamps), p) != []
    ensures Stream(log, p) != []
  {
    if Stream(log, p) == [] {
      OnlyMade(log, command, rule, now, stamps, p);
    }
  }

  ghost function Asking(w: World, act: Act): Command
    requires act.Issue? && Has(w, act.space, act.draftID)
  {
    CommandOf(w.spaces[act.space][act.draftID], act.principal.subject, act.parentVersion)
  }

  lemma IssueKeepsLog(w: World, act: Act, rules: Rules)
    requires Sound(w) && act.Issue? && Goes(w, act, rules)
    ensures LogInvariant(Next(w, act, rules).log) && forall p :: Scoped(Next(w, act, rules).log, p)
    ensures Recorded(Next(w, act, rules).log, w.spaces[act.space][act.draftID])
    ensures Stream(w.log, w.spaces[act.space][act.draftID].packetID) == []
  {
    var d, command := w.spaces[act.space][act.draftID], Asking(w, act);
    assert SoundDraft(w.log, d) by {
      assert Has(w, act.space, act.draftID);
    }
    AdmittedKeepsInvariant(w.log, command, rules.tenant, act.now, act.stamps);
    IssueRecords(w.log, d, act.principal.subject, act.parentVersion, rules.tenant, act.now, act.stamps);
    GrowthKeepsScopes(w.log, command, rules.tenant, act.now, act.stamps);
  }

  lemma IssueKeepsDrafts(w: World, act: Act, rules: Rules, k: nat, id: string)
    requires Sound(w) && act.Issue? && Goes(w, act, rules) && Has(Next(w, act, rules), k, id)
    ensures var after := Next(w, act, rules);
            after.spaces[k][id].id == id && SoundDraft(after.log, after.spaces[k][id])
  {
    var d, after := w.spaces[k][id], Next(w, act, rules);
    assert d.id == id && SoundDraft(w.log, d) by {
      assert Has(w, k, id);
    }
    assert SoundDraft(after.log, d) by {
      SoundDraftKept(w.log, Asking(w, act), rules.tenant, act.now, act.stamps, d);
    }
    if k == act.space && id == act.draftID {
      assert Recorded(after.log, d) by {
        IssueKeepsLog(w, act, rules);
      }
      IssuedIsSound(after.log, d);
      assert after.spaces[k][id] == IssuedDraft(d);
    } else {
      assert after.spaces[k][id] == d;
    }
  }

  lemma IssuedIsSound(log: seq<EventRecord>, d: Draft)
    requires SoundDraft(log, d) && Recorded(log, d)
    ensures SoundDraft(log, IssuedDraft(d))
  {
  }

  lemma IssuedAfter(w: World, act: Act, rules: Rules)
    requires Sound(w) && act.Issue? && Goes(w, act, rules)
    ensures var p := w.spaces[act.space][act.draftID].packetID;
            forall k: nat, id, q :: IssuedAt(Next(w, act, rules), k, id, q)
                 <==> (IssuedAt(w, k, id, q) || (k == act.space && id == act.draftID && q == p))
  {
    var p, after := w.spaces[act.space][act.draftID].packetID, Next(w, act, rules);
    var d := w.spaces[act.space][act.draftID];
    assert after.spaces == w.spaces[act.space := w.spaces[act.space][act.draftID := IssuedDraft(d)]];
    forall k: nat, id, q
      ensures IssuedAt(after, k, id, q)
         <==> (IssuedAt(w, k, id, q) || (k == act.space && id == act.draftID && q == p))
    {
      MarkedIssued(w, after, act.space, act.draftID, k, id, q);
    }
  }

  lemma MarkedIssued(w: World, after: World, space: nat, draftID: string, k: nat, id: string, q: PacketID)
    requires Has(w, space, draftID) && w.spaces[space][draftID].state == StateDraft
    requires after.spaces == w.spaces[space := w.spaces[space][draftID := IssuedDraft(w.spaces[space][draftID])]]
    ensures IssuedAt(after, k, id, q)
       <==> (IssuedAt(w, k, id, q) || (k == space && id == draftID && q == w.spaces[space][draftID].packetID))
  {
  }

  lemma IssueKeepsAuthors(w: World, act: Act, rules: Rules, p: PacketID)
    requires Sound(w) && act.Issue? && Goes(w, act, rules) && Stream(Next(w, act, rules).log, p) != []
    ensures Authored(Next(w, act, rules), p)
  {
    IssuedAfter(w, act, rules);
    if Stream(w.log, p) == [] {
      OnlyMade(w.log, Asking(w, act), rules.tenant, act.now, act.stamps, p);
      assert IssuedAt(Next(w, act, rules), act.space, act.draftID, p);
    } else {
      AuthoredStill(w, Next(w, act, rules), p);
    }
  }

  lemma OneMore(w: World, after: World, s: nat, draftID: string, p: PacketID)
    requires OneDraftEach(w) && forall k: nat, id :: !IssuedAt(w, k, id, p)
    requires forall k: nat, id, q :: IssuedAt(after, k, id, q)
               ==> IssuedAt(w, k, id, q) || (k == s && id == draftID && q == p)
    ensures OneDraftEach(after)
  {
  }

  lemma IssueKeepsOneEach(w: World, act: Act, rules: Rules)
    requires Sound(w) && act.Issue? && Goes(w, act, rules)
    ensures OneDraftEach(Next(w, act, rules))
  {
    var p := w.spaces[act.space][act.draftID].packetID;
    IssuedAfter(w, act, rules);
    forall k: nat, id
      ensures !IssuedAt(w, k, id, p)
    {
      IssueKeepsLog(w, act, rules);
      IssuedIsLogged(w, k, id, p);
    }
    OneMore(w, Next(w, act, rules), act.space, act.draftID, p);
  }

  lemma IssueKeepsSound(w: World, act: Act, rules: Rules)
    requires Sound(w) && act.Issue? && Goes(w, act, rules)
    ensures Sound(Next(w, act, rules))
  {
    var after := Next(w, act, rules);
    IssueKeepsLog(w, act, rules);
    IssueKeepsOneEach(w, act, rules);
    forall p | Stream(after.log, p) != []
      ensures Authored(after, p)
    {
      IssueKeepsAuthors(w, act, rules, p);
    }
    forall k: nat, id | Has(after, k, id)
      ensures after.spaces[k][id].id == id && SoundDraft(after.log, after.spaces[k][id])
    {
      IssueKeepsDrafts(w, act, rules, k, id);
    }
  }

  lemma IssuedIsLogged(w: World, k: nat, id: string, p: PacketID)
    requires Sound(w)
    ensures IssuedAt(w, k, id, p) ==> Stream(w.log, p) != []
  {
    if IssuedAt(w, k, id, p) {
      assert Has(w, k, id);
    }
  }

  /** Every act keeps every workspace sound, failed or not, given fresh draft ids. */
  lemma ActKeepsSound(w: World, act: Act, rules: Rules)
    requires Sound(w) && FreshID(w, act)
    ensures Sound(Next(w, act, rules))
  {
    if Goes(w, act, rules) {
      match act
      case Open => OpenKeepsSound(w);
      case Create(k, principal, plan, draftID) =>
        PlannedIsSound(w.log, principal, plan, "", draftID);
        StoreKeepsSound(w, k, NewDraft(principal, plan, "", draftID));
      case Replace(k, principal, parentID, plan, draftID) =>
        assert Scoped(w.log, parentID);
        PlannedIsSound(w.log, principal, plan, parentID, draftID);
        StoreKeepsSound(w, k, NewDraft(principal, plan, parentID, draftID));
      case Edit(k, principal, edit) =>
        var d := w.spaces[k][edit.draftID];
        assert Has(w, k, edit.draftID);
        ScopeIsNamed(edit.packetID, d.initiativeID, d.epicID);
        StoreKeepsSound(w, k, Edited(d, edit));
      case Issue(_, _, _, _, _, _, _) => IssueKeepsSound(w, act, rules);
      case Work(command, now, stamps) => WorkKeepsSound(w, command, rules.tenant, now, stamps);
    }
  }

  lemma OpenKeepsSound(w: World)
    requires Sound(w)
    ensures Sound(w.(spaces := w.spaces + [map[]]))
  {
    var after := w.(spaces := w.spaces + [map[]]);
    assert forall k: nat, id, p :: IssuedAt(after, k, id, p) <==> IssuedAt(w, k, id, p);
    forall p | Stream(w.log, p) != []
      ensures Authored(after, p)
    {
      AuthoredStill(w, after, p);
    }
    assert forall k: nat, id :: Has(after, k, id) ==> Has(w, k, id);
  }

  // ---- whole runs ---------------------------------------------------------------------------------

  ghost predicate IsRun(worlds: seq<World>, acts: seq<Act>, rules: Rules) {
    && |worlds| == |acts| + 1 && worlds[0] == World([], [])
    && forall i :: 0 <= i < |acts| ==> FreshID(worlds[i], acts[i]) && worlds[i + 1] == Next(worlds[i], acts[i], rules)
  }

  lemma OneAct(worlds: seq<World>, acts: seq<Act>, rules: Rules, j: nat)
    requires IsRun(worlds, acts, rules) && 0 < j < |worlds|
    ensures FreshID(worlds[j - 1], acts[j - 1]) && worlds[j] == Next(worlds[j - 1], acts[j - 1], rules)
  {
  }

  lemma {:induction false} RunsAreSound(worlds: seq<World>, acts: seq<Act>, rules: Rules, i: nat)
    requires IsRun(worlds, acts, rules) && i < |worlds|
    ensures Sound(worlds[i])
    decreases i
  {
    if i == 0 {
      EmptyLogInvariant();
    } else {
      RunsAreSound(worlds, acts, rules, i - 1);
      OneAct(worlds, acts, rules, i);
      ActKeepsSound(worlds[i - 1], acts[i - 1], rules);
    }
  }

  /** An issued draft never changes again. */
  lemma {:induction false} IssuedDraftsStay(worlds: seq<World>, acts: seq<Act>, rules: Rules, i: nat, j: nat, k: nat,
                                            id: string)
    requires IsRun(worlds, acts, rules) && i <= j < |worlds|
    requires Has(worlds[i], k, id) && worlds[i].spaces[k][id].state == StateIssued
    ensures Has(worlds[j], k, id) && worlds[j].spaces[k][id] == worlds[i].spaces[k][id]
    decreases j
  {
    if i < j {
      IssuedDraftsStay(worlds, acts, rules, i, j - 1, k, id);
      OneAct(worlds, acts, rules, j);
      ActKeepsIssued(worlds[j - 1], worlds[j], acts[j - 1], rules, k, id);
    }
  }

  lemma ActKeepsIssued(w: World, v: World, act: Act, rules: Rules, k: nat, id: string)
    requires v == Next(w, act, rules) && FreshID(w, act) && Has(w, k, id) && w.spaces[k][id].state == StateIssued
    ensures Has(v, k, id) && v.spaces[k][id] == w.spaces[k][id]
  {
  }

  /** The issue event of a packet, which the log keeps for good, says what its draft says; and no
      other draft issued that packet. */
  lemma IssuedDraftsAreRecorded(worlds: seq<World>, acts: seq<Act>, rules: Rules, i: nat, k: nat, id: string)
    requires IsRun(worlds, acts, rules) && i < |worlds|
    requires Has(worlds[i], k, id) && worlds[i].spaces[k][id].state == StateIssued
    ensures var d := worlds[i].spaces[k][id];
            var stream := Stream(worlds[i].log, d.packetID);
            && stream != [] && stream[0].PacketIssued?
            && stream[0] == PacketIssued(stream[0].meta, d.packetID, d.tenantID, d.body, d.parentID)
            && forall l: nat, other :: IssuedAt(worlds[i], l, other, d.packetID) ==> l == k && other == id
  {
    RunsAreSound(worlds, acts, rules, i);
    var d := worlds[i].spaces[k][id];
    assert IssuedAt(worlds[i], k, id, d.packetID);
    IssueEvent(worlds[i].log, d.packetID);
  }

  lemma IssueEvent(log: seq<EventRecord>, p: PacketID)
    requires StoreLog(log) && Replays(log) && Stream(log, p) != []
    ensures var first, packet := Stream(log, p)[0], PacketIn(log, p);
            first.PacketIssued?
            && first == PacketIssued(first.meta, packet.id, packet.tenantID, packet.body, packet.parentID)
  {
    var stream := Stream(log, p);
    assert stream == [stream[0]] + stream[1..];
    FoldConcat(NO_PACKET, [stream[0]], stream[1..]);
    FoldOf1(NO_PACKET, stream[0]);
    FoldFrozen(Fold(NO_PACKET, [stream[0]]).value, stream[1..]);
  }

  /** Every packet along a chain of replacements is of one tenant, one initiative, one epic. */
  lemma ChainsStayInScope(worlds: seq<World>, acts: seq<Act>, rules: Rules, i: nat, p: PacketID, n: nat)
    requires IsRun(worlds, acts, rules) && i < |worlds| && Stream(worlds[i].log, p) != []
    requires LogInvariant(worlds[i].log) ==> n < |Chain(worlds[i].log, p)|
    ensures LogInvariant(worlds[i].log) && Alike(worlds[i].log, p, Chain(worlds[i].log, p)[n])
  {
    RunsAreSound(worlds, acts, rules, i);
    ChainAlike(worlds[i].log, p, n);
  }

  lemma {:induction false} ChainAlike(log: seq<EventRecord>, p: PacketID, n: nat)
    requires LogInvariant(log) && (forall q :: Scoped(log, q)) && Stream(log, p) != [] && n < |Chain(log, p)|
    ensures Alike(log, p, Chain(log, p)[n])
    decreases n
  {
    assert Scoped(log, p);
    if n > 0 {
      NextBorn(log, p);
      var next := PacketIn(log, p).supersededBy;
      assert Scoped(log, next);
      ChainAlike(log, next, n - 1);
    }
  }

  /** A supersession keeps to scope exactly when it stays in its parent's tenant, initiative and
      epic. A tracker compares none of them; the workspace compares all. */
  lemma TrackersCrossTenants(log: seq<EventRecord>, command: Command, rule: TenantRule, now: Time, stamps: seq<Stamp>)
    requires LogInvariant(log) && |stamps| >= 3 && command.Supersede? && Admits(log, command, rule, now, stamps)
    ensures Scoped(After(log, command, stamps), command.replacementID)
       <==> (NamesTask(command.packetID) && NamesTask(command.replacementID)
             && InitiativeOf(command.packetID) == InitiativeOf(command.replacementID)
             && EpicOf(command.packetID) == EpicOf(command.replacementID)
             && command.tenantID == PacketIn(log, command.packetID).tenantID)
  {
    AdmittedEffect(log, command, rule, now, stamps, PacketIn(log, command.packetID));
    NamedGrows(log, command, stamps, command.replacementID);
  }

  // One packet issued into an empty log: every check it passes, and what the log then holds of it.
  lemma FirstIssued(issue: Command, rule: TenantRule, now: Time, stamps: seq<Stamp>)
    requires issue.Issue? && |stamps| >= 3 && issue.packetID != "" && issue.tenantID != "" && issue.actor != ""
    requires rule(issue.tenantID, now) && stamps[0].id != "" && stamps[0].at != 0
    ensures var log := After([], issue, stamps);
            && LogInvariant(log) && |Stream(log, issue.packetID)| == 1 && EventIDs(log) == {stamps[0].id}
            && PacketIn(log, issue.packetID)
                 == Packet(issue.packetID, issue.tenantID, issue.body, NotStarted, 1, "", [], [], "", "", None)
            && forall q :: q != issue.packetID ==> Stream(log, q) == []
  {
    EmptyLogInvariant();
    var events := BatchOver([], issue, stamps);
    assert Admits([], issue, rule, now, stamps) by {
      IssueAdmitted([], issue, rule, now, stamps);
    }
    AdmittedKeepsInvariant([], issue, rule, now, stamps);
    IssueAdmitted([], issue, rule, now, stamps);
    AppendedIDs([], events);
    assert |events| == 1 && IDsOf(events) == {stamps[0].id};
    FirstStream(issue, stamps);
    forall q | q != issue.packetID
      ensures Stream(After([], issue, stamps), q) == []
    {
      OthersUnchanged([], issue, stamps, q);
    }
  }

  lemma FirstStream(issue: Command, stamps: seq<Stamp>)
    requires issue.Issue? && |stamps| >= 3
    ensures |Stream(After([], issue, stamps), issue.packetID)| == 1
  {
    var events := BatchOver([], issue, stamps);
    AppendedStream([], events, issue.packetID);
    ForOne(events[0], issue.packetID);
    assert events == [events[0]];
  }

  /** A tracker's supersession into any other tenant is admitted, within one initiative and epic as
      anywhere, and leaves scope. */
  lemma SupersededAcrossTenants(issue: Command, command: Command, rule: TenantRule, now: Time, stamps: seq<Stamp>,
                                more: seq<Stamp>)
    requires issue.Issue? && issue.packetID != "" && issue.tenantID != "" && issue.actor != ""
    requires command.Supersede? && command.packetID == issue.packetID && command.expected == 1 && command.actor != ""
    requires command.replacementID !in {"", issue.packetID} && command.tenantID !in {"", issue.tenantID}
    requires rule(issue.tenantID, now) && rule(command.tenantID, now) && |stamps| >= 3 && |more| >= 3
    requires stamps[0].id != "" && stamps[0].at != 0
    requires FreshStamps(After([], issue, stamps), command.actor, more, 3)
    ensures var log := After([], issue, stamps);
            && LogInvariant(log) && Admits(log, command, rule, now, more)
            && !Scoped(After(log, command, more), command.replacementID)
  {
    var log := After([], issue, stamps);
    FirstIssued(issue, rule, now, stamps);
    SupersedeAdmitted(log, command, rule, now, more, PacketIn(log, command.packetID));
    TrackersCrossTenants(log, command, rule, now, more);
  }

  /** Any two packet names of one epic and any two tenants do: a log and an admitted command. */
  lemma CrossTenantWitness(parent: PacketID, child: PacketID, tenant: TenantID, other: TenantID)
    returns (log: seq<EventRecord>, command: Command, stamps: seq<Stamp>)
    requires NamesTask(parent) && NamesTask(child) && parent != child && tenant != "" && other !in {"", tenant}
    requires InitiativeOf(parent) == InitiativeOf(child) && EpicOf(parent) == EpicOf(child)
    ensures LogInvariant(log) && PacketIn(log, parent).tenantID == tenant && |stamps| == 3
    ensures command == Command.Supersede(parent, 1, "ben", child, other, Body("", "", "", "", ""))
    ensures Admits(log, command, (owner, at) => true, 1, stamps) && !Scoped(After(log, command, stamps), child)
  {
    var rule: TenantRule := (owner, at) => true;
    var body := Body("", "", "", "", "");
    var issue := Command.Issue(parent, tenant, body, "ann");
    var first := [Stamp("1", 1), Stamp("1", 1), Stamp("1", 1)];
    command := Command.Supersede(parent, 1, "ben", child, other, body);
    stamps := [Stamp("2", 2), Stamp("3", 3), Stamp("4", 4)];
    log := After([], issue, first);
    FirstIssued(issue, rule, 1, first);
    ThreeFresh(log, stamps);
    SupersededAcrossTenants(issue, command, rule, 1, first, stamps);
  }

  lemma ThreeFresh(log: seq<EventRecord>, stamps: seq<Stamp>)
    requires EventIDs(log) == {"1"} && stamps == [Stamp("2", 2), Stamp("3", 3), Stamp("4", 4)]
    ensures FreshStamps(log, "ben", stamps, 3)
  {
  }

  /** Exactly what loses an issued draft: a new draft in its workspace under its own id. */
  lemma OnlyReusedIDsForget(w: World, act: Act, rules: Rules, k: nat, id: string)
    requires Sound(w) && Has(w, k, id) && w.spaces[k][id].state == StateIssued
    ensures Has(Next(w, act, rules), k, id)
    ensures Next(w, act, rules).spaces[k][id] != w.spaces[k][id]
       <==> (act.Create? || act.Replace?) && Goes(w, act, rules) && act.space == k && act.draftID == id
  {
    if Goes(w, act, rules) {
      match act
      case Open =>
      case Create(space, principal, plan, draftID) =>
        StoredForgets(w, space, NewDraft(principal, plan, "", draftID), k, id);
      case Replace(space, principal, parentID, plan, draftID) =>
        StoredForgets(w, space, NewDraft(principal, plan, parentID, draftID), k, id);
      case Edit(_, _, _) => ActKeepsIssued(w, Next(w, act, rules), act, rules, k, id);
      case Issue(_, _, _, _, _, _, _) => ActKeepsIssued(w, Next(w, act, rules), act, rules, k, id);
      case Work(_, _, _) =>
    }
  }

  lemma StoredForgets(w: World, space: nat, d: Draft, k: nat, id: string)
    requires Has(w, k, id) && w.spaces[k][id].state == StateIssued && d.state == StateDraft && space < |w.spaces|
    ensures Has(Stored(w, space, d), k, id)
    ensures Stored(w, space, d).spaces[k][id] != w.spaces[k][id] <==> space == k && d.id == id
  {
  }
}
