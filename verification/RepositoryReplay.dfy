/** repositorypacket/load.go: replaying a table of specifications through the tracker. */
module RepositoryReplay {
  import opened Basics
  import opened PacketTypes
  import opened Lifecycle
  import opened EventLog
  import opened EventStore
  import opened TrackerCache
  import opened Commands
  import opened Supersession
  import opened Tracking

  const IMPORT_ACTOR: Actor := "repository-import"

  // parse admits these five texts and no others.
  datatype Declared = DeclaredNotStarted | DeclaredInProgress | DeclaredDone | DeclaredBlocked | DeclaredSuperseded

  datatype Specification = Specification(id: PacketID, status: Declared, supersedes: PacketID, body: Body)

  type Specifications = map<PacketID, Specification>

  // What readSpecifications guarantees of the table it returns.
  predicate Table(specs: Specifications) {
    forall id :: id in specs ==> specs[id].id == id && id != ""
  }

  // ---- when a table can be replayed -----------------------------------------------------

  ghost predicate ParentsRetired(specs: Specifications) {
    forall id :: id in specs && specs[id].supersedes != "" ==>
      specs[id].supersedes in specs && specs[specs[id].supersedes].status == DeclaredSuperseded
  }

  ghost predicate OneReplacement(specs: Specifications) {
    forall a, b :: a in specs && b in specs && specs[a].supersedes == specs[b].supersedes ==>
      specs[a].supersedes != "" ==> a == b
  }

  ghost predicate RetiredReplaced(specs: Specifications) {
    forall id :: id in specs && specs[id].status == DeclaredSuperseded ==>
      exists child :: child in specs && specs[child].supersedes == id
  }

  /** Some of these packets supersede one another in a circle. */
  ghost predicate Circular(specs: Specifications, among: set<PacketID>) {
    among != {} && among <= specs.Keys
    && forall id :: id in among ==> specs[id].supersedes in among
  }

  ghost predicate Acyclic(specs: Specifications) {
    forall among :: !Circular(specs, among)
  }

  ghost predicate Replayable(specs: Specifications) {
    ParentsRetired(specs) && OneReplacement(specs) && RetiredReplaced(specs) && Acyclic(specs)
  }

  ghost predicate EvidencePresent(specs: Specifications, evidence: set<PacketID>) {
    forall id :: id in specs && specs[id].status == DeclaredDone ==> id in evidence
  }

  // ---- an endless supply of fresh stamps --------------------------------------------------

  ghost predicate Supplies(supply: nat -> Stamp) {
    && (forall k :: supply(k).id != "" && supply(k).at != 0)
    && (forall k, l :: k != l ==> supply(k).id != supply(l).id)
  }

  ghost predicate UnusedFrom(supply: nat -> Stamp, log: seq<EventRecord>, n: nat) {
    forall k :: k >= n ==> supply(k).id !in EventIDs(log)
  }

  function Three(supply: nat -> Stamp, n: nat): seq<Stamp> {
    [supply(n), supply(n + 1), supply(n + 2)]
  }

  lemma ThreeFresh(supply: nat -> Stamp, log: seq<EventRecord>, n: nat)
    requires Supplies(supply) && UnusedFrom(supply, log, n)
    ensures FreshStamps(log, IMPORT_ACTOR, Three(supply, n), 3)
    ensures FreshStamps(log, IMPORT_ACTOR, Three(supply, n), 2) && FreshStamps(log, IMPORT_ACTOR, Three(supply, n), 1)
  {
  }

  lemma StillUnused(supply: nat -> Stamp, log: seq<EventRecord>, n: nat, command: Command)
    requires Supplies(supply) && UnusedFrom(supply, log, n)
    ensures UnusedFrom(supply, After(log, command, Three(supply, n)), n + 3)
  {
    var events := BatchOver(log, command, Three(supply, n));
    AppendedIDs(log, events);
    forall k | k >= n + 3
      ensures supply(k).id !in IDsOf(events)
    {
      LaterStamp(supply, n, events, command.actor, k);
    }
  }

  lemma LaterStamp(supply: nat -> Stamp, n: nat, events: seq<Event>, actor: Actor, k: nat)
    requires Supplies(supply) && Stamped(events, actor, Three(supply, n)) && k >= n + 3
    ensures supply(k).id !in IDsOf(events)
  {
    forall e | e in events
      ensures e.meta.id != supply(k).id
    {
      var i :| 0 <= i < |events| && events[i] == e;
      assert events[i].meta.id == supply(n + i).id;
    }
  }

  // ---- after the chains are issued ----------------------------------------------------------

  /** A packet that has been issued, and perhaps superseded, and nothing else. */
  ghost predicate IssuedAs(log: seq<EventRecord>, specs: Specifications, tenant: TenantID, id: PacketID)
    requires id in specs
  {
    var p := PacketIn(log, id);
    && Stream(log, id) != []
    && p.tenantID == tenant && p.body == specs[id].body && p.parentID == specs[id].supersedes
    && p.status == NotStarted && p.takenBy == "" && p.comments == []
    && p.version == (if p.supersededBy == "" then 1 else 3)
  }

  /** The log holds exactly the packets issued so far, parents before their replacements. */
  ghost predicate Issued(log: seq<EventRecord>, specs: Specifications, tenant: TenantID, issued: set<PacketID>) {
    && LogInvariant(log) && issued <= specs.Keys
    && (forall id :: Stream(log, id) != [] ==> id in issued)
    && (forall id :: id in issued ==> IssuedAs(log, specs, tenant, id))
  }

  lemma RootAdmitted(log: seq<EventRecord>, specs: Specifications, tenant: TenantID, issued: set<PacketID>,
                     id: PacketID, rule: TenantRule, now: Time, stamps: seq<Stamp>, command: Command)
    requires Table(specs) && Issued(log, specs, tenant, issued) && id in specs && id !in issued
    requires specs[id].supersedes == "" && tenant != "" && rule(tenant, now)
    requires |stamps| >= 3 && FreshStamps(log, IMPORT_ACTOR, stamps, 1)
    requires command == Command.Issue(id, tenant, specs[id].body, IMPORT_ACTOR)
    ensures Admits(log, command, rule, now, stamps)
    ensures IssuedAs(After(log, command, stamps), specs, tenant, id)
  {
    assert Stream(log, id) == [];
    IssueAdmitted(log, command, rule, now, stamps);
    NamedGrows(log, command, stamps, id);
  }

  lemma ReplacementAdmitted(log: seq<EventRecord>, specs: Specifications, tenant: TenantID, issued: set<PacketID>,
                            id: PacketID, rule: TenantRule, now: Time, stamps: seq<Stamp>, command: Command)
    requires Table(specs) && OneReplacement(specs) && Issued(log, specs, tenant, issued) && id in specs && id !in issued
    requires specs[id].supersedes in issued && tenant != "" && rule(tenant, now)
    requires |stamps| >= 3 && FreshStamps(log, IMPORT_ACTOR, stamps, 3)
    requires command == Command.Supersede(specs[id].supersedes, PacketIn(log, specs[id].supersedes).version,
                                          IMPORT_ACTOR,
                                          id, tenant, specs[id].body)
    ensures Admits(log, command, rule, now, stamps)
    ensures IssuedAs(After(log, command, stamps), specs, tenant, id)
    ensures IssuedAs(After(log, command, stamps), specs, tenant, specs[id].supersedes)
  {
    var parent := specs[id].supersedes;
    assert Stream(log, id) == [] && IssuedAs(log, specs, tenant, parent);
    assert PacketIn(log, parent).supersededBy == "" && PacketIn(log, parent).closure == None by {
      ParentOpen(log, specs, tenant, issued, id);
    }
    assert PacketIn(log, parent).version == |Stream(log, parent)| by {
      PacketInLawful(log, parent);
    }
    SupersedeAdmitted(log, command, rule, now, stamps, PacketIn(log, parent));
    NamedGrows(log, command, stamps, id);
    NamedGrows(log, command, stamps, parent);
  }

  lemma IssuedExtends(log: seq<EventRecord>, specs: Specifications, tenant: TenantID, issued: set<PacketID>,
                      id: PacketID, rule: TenantRule, now: Time, stamps: seq<Stamp>, command: Command)
    requires Issued(log, specs, tenant, issued) && id in specs
    requires |stamps| >= 3 && Admits(log, command, rule, now, stamps)
    requires forall p :: p in Named(command) ==>
               p in issued + {id} && IssuedAs(After(log, command, stamps), specs, tenant, p)
    requires id in Named(command)
    ensures Issued(After(log, command, stamps), specs, tenant, issued + {id})
  {
    AdmittedKeepsInvariant(log, command, rule, now, stamps);
    forall q
      ensures Stream(After(log, command, stamps), q) != [] ==> q in issued + {id}
      ensures q in issued + {id} ==> q in specs && IssuedAs(After(log, command, stamps), specs, tenant, q)
    {
      if q !in Named(command) {
        OtherIssued(log, specs, tenant, issued, command, stamps, q);
      }
    }
  }

  lemma ReplacementStep(log: seq<EventRecord>, specs: Specifications, tenant: TenantID, issued: set<PacketID>,
                        id: PacketID, rule: TenantRule, now: Time, supply: nat -> Stamp, n: nat, command: Command)
    requires Table(specs) && OneReplacement(specs) && Issued(log, specs, tenant, issued) && id in specs && id !in issued
    requires specs[id].supersedes in issued && tenant != "" && rule(tenant, now)
    requires Supplies(supply) && UnusedFrom(supply, log, n)
    requires command == Command.Supersede(specs[id].supersedes, PacketIn(log, specs[id].supersedes).version,
                                          IMPORT_ACTOR,
                                          id, tenant, specs[id].body)
    ensures Admits(log, command, rule, now, Three(supply, n))
    ensures Issued(After(log, command, Three(supply, n)), specs, tenant, issued + {id})
    ensures UnusedFrom(supply, After(log, command, Three(supply, n)), n + 3)
  {
    ThreeFresh(supply, log, n);
    ReplacementAdmitted(log, specs, tenant, issued, id, rule, now, Three(supply, n), command);
    IssuedExtends(log, specs, tenant, issued, id, rule, now, Three(supply, n), command);
    StillUnused(supply, log, n, command);
  }

  lemma ParentLogged(log: seq<EventRecord>, specs: Specifications, tenant: TenantID, issued: set<PacketID>,
                     id: PacketID)
    requires Table(specs) && Issued(log, specs, tenant, issued) && id in specs && specs[id].supersedes in issued
    ensures specs[id].supersedes != "" && Stream(log, specs[id].supersedes) != []
  {
    assert IssuedAs(log, specs, tenant, specs[id].supersedes);
  }

  lemma RootStep(log: seq<EventRecord>, specs: Specifications, tenant: TenantID, issued: set<PacketID>, id: PacketID,
                 rule: TenantRule, now: Time, supply: nat -> Stamp, n: nat, command: Command)
    requires Table(specs) && Issued(log, specs, tenant, issued) && id in specs && id !in issued
    requires specs[id].supersedes == "" && tenant != "" && rule(tenant, now)
    requires Supplies(supply) && UnusedFrom(supply, log, n)
    requires command == Command.Issue(id, tenant, specs[id].body, IMPORT_ACTOR)
    ensures Admits(log, command, rule, now, Three(supply, n))
    ensures Issued(After(log, command, Three(supply, n)), specs, tenant, issued + {id})
    ensures UnusedFrom(supply, After(log, command, Three(supply, n)), n + 3)
  {
    ThreeFresh(supply, log, n);
    RootAdmitted(log, specs, tenant, issued, id, rule, now, Three(supply, n), command);
    IssuedExtends(log, specs, tenant, issued, id, rule, now, Three(supply, n), command);
    StillUnused(supply, log, n, command);
  }

  lemma OtherIssued(log: seq<EventRecord>, specs: Specifications, tenant: TenantID, issued: set<PacketID>,
                    command: Command, stamps: seq<Stamp>, q: PacketID)
    requires Issued(log, specs, tenant, issued) && |stamps| >= 3 && q !in Named(command)
    ensures Stream(After(log, command, stamps), q) != [] ==> q in issued
    ensures q in issued ==> q in specs && IssuedAs(After(log, command, stamps), specs, tenant, q)
  {
    OthersUnchanged(log, command, stamps, q);
  }

  /** A parent is still open when its one replacement comes to be issued. */
  lemma ParentOpen(log: seq<EventRecord>, specs: Specifications, tenant: TenantID, issued: set<PacketID>, id: PacketID)
    requires Table(specs) && OneReplacement(specs) && Issued(log, specs, tenant, issued)
    requires id in specs && id !in issued && specs[id].supersedes in issued
    ensures PacketIn(log, specs[id].supersedes).supersededBy == ""
    ensures PacketIn(log, specs[id].supersedes).closure == None
  {
    var parent := specs[id].supersedes;
    assert IssuedAs(log, specs, tenant, parent);
    var child := PacketIn(log, parent).supersededBy;
    if child != "" {
      NextBorn(log, parent);
    }
  }

  // ---- cycles ---------------------------------------------------------------------------------

  /** Of the packets of a log, some set's earliest-born. */
  lemma {:induction false} Earliest(log: seq<EventRecord>, among: set<PacketID>) returns (first: PacketID)
    requires among != {} && forall id :: id in among ==> Stream(log, id) != []
    ensures first in among && forall id :: id in among ==> Born(log, first) <= Born(log, id)
    decreases among
  {
    first :| first in among;
    var rest := among - {first};
    if rest != {} {
      var other := Earliest(log, rest);
      if Born(log, other) < Born(log, first) {
        first := other;
      }
    }
  }

  /** Once every packet is issued no set of them can have been circular. */
  lemma IssuedIsAcyclic(log: seq<EventRecord>, specs: Specifications, tenant: TenantID)
    requires Table(specs) && Issued(log, specs, tenant, specs.Keys)
    ensures Acyclic(specs)
  {
    forall among
      ensures !Circular(specs, among)
    {
      if among != {} && among <= specs.Keys {
        forall id | id in among
          ensures Stream(log, id) != []
        {
          assert IssuedAs(log, specs, tenant, id);
        }
        var first := Earliest(log, among);
        assert IssuedAs(log, specs, tenant, first) && ParentFirst(log, first);
        assert "" !in among;
        assert specs[first].supersedes !in among;
      }
    }
  }

  // ---- declared statuses ---------------------------------------------------------------------

  function EvidenceFile(id: PacketID): Evidence {
    "evidence/" + id + ".md"
  }

  /** What stays of a packet's specification whatever its status. */
  ghost predicate Described(log: seq<EventRecord>, specs: Specifications, tenant: TenantID, id: PacketID)
    requires id in specs
  {
    var p := PacketIn(log, id);
    && Stream(log, id) != [] && |Stream(log, id)| == p.version
    && p.tenantID == tenant && p.body == specs[id].body && p.parentID == specs[id].supersedes && p.comments == []
  }

  /** The shape a declared status dictates: how many events, and what they left. */
  ghost predicate Shaped(p: Packet, specs: Specifications, id: PacketID)
    requires id in specs
  {
    match specs[id].status
    case DeclaredNotStarted => p.status == NotStarted && p.takenBy == "" && p.closure == None && p.version == 1
    case DeclaredBlocked => p.status == Blocked && p.takenBy == "" && p.closure == None && p.version == 2
    case DeclaredInProgress =>
      p.status == InProgress && p.takenBy == IMPORT_ACTOR && p.closure == None && p.version == 3
    case DeclaredDone =>
      p.status == Done && p.takenBy == IMPORT_ACTOR && p.evidence == [EvidenceFile(id)] && p.version == 5
    case DeclaredSuperseded =>
      p.status == NotStarted && p.takenBy == "" && p.version == 3
      && p.supersededBy in specs && specs[p.supersededBy].supersedes == id
  }

  /** A packet nobody has worked on or replaced. */
  ghost predicate Untouched(p: Packet) {
    p.status == NotStarted && p.takenBy == "" && p.closure == None && p.version == 1
  }

  ghost predicate AppliedAt(log: seq<EventRecord>, specs: Specifications, tenant: TenantID, done: set<PacketID>,
                            id: PacketID)
    requires id in specs
  {
    && Described(log, specs, tenant, id)
    && if id in done || specs[id].status == DeclaredSuperseded then Shaped(PacketIn(log, id), specs, id)
       else Untouched(PacketIn(log, id))
  }

  /** Every packet of the table and no other, with some statuses already applied. */
  ghost predicate Applied(log: seq<EventRecord>, specs: Specifications, tenant: TenantID, done: set<PacketID>) {
    && LogInvariant(log)
    && (forall id :: Stream(log, id) != [] ==> id in specs)
    && (forall id :: id in specs ==> AppliedAt(log, specs, tenant, done, id))
  }

  lemma IssuedShape(log: seq<EventRecord>, specs: Specifications, tenant: TenantID, id: PacketID)
    requires Table(specs) && ParentsRetired(specs) && RetiredReplaced(specs) && id in specs
    requires Issued(log, specs, tenant, specs.Keys)
    ensures Described(log, specs, tenant, id)
    ensures if specs[id].status == DeclaredSuperseded then Shaped(PacketIn(log, id), specs, id)
            else Untouched(PacketIn(log, id))
  {
    assert IssuedAs(log, specs, tenant, id);
    PacketInLawful(log, id);
    assert Settled(PacketIn(log, id));
    if specs[id].status == DeclaredSuperseded {
      var child :| child in specs && specs[child].supersedes == id;
      assert IssuedAs(log, specs, tenant, child) && LinkedPair(log, id, child);
    } else {
      var child := PacketIn(log, id).supersededBy;
      if child != "" {
        NextBorn(log, id);
      }
      assert child != "" ==> IssuedAs(log, specs, tenant, child);
    }
  }

  lemma IssuedApplies(log: seq<EventRecord>, specs: Specifications, tenant: TenantID)
    requires Table(specs) && ParentsRetired(specs) && RetiredReplaced(specs)
    requires Issued(log, specs, tenant, specs.Keys)
    ensures Applied(log, specs, tenant, {})
  {
    forall id | id in specs
      ensures AppliedAt(log, specs, tenant, {}, id)
    {
      IssuedShape(log, specs, tenant, id);
    }
  }

  /** The same for every packet but the one being worked on. */
  ghost predicate AppliedBut(log: seq<EventRecord>, specs: Specifications, tenant: TenantID, done: set<PacketID>,
                             id: PacketID)
  {
    && id in specs && LogInvariant(log) && Described(log, specs, tenant, id)
    && (forall q :: Stream(log, q) != [] ==> q in specs)
    && (forall q :: q in specs && q != id ==> AppliedAt(log, specs, tenant, done, q))
  }

  lemma DescribedStill(log: seq<EventRecord>, specs: Specifications, tenant: TenantID, id: PacketID, command: Command,
                       rule: TenantRule, now: Time, stamps: seq<Stamp>)
    requires id in specs && LogInvariant(log) && Described(log, specs, tenant, id)
    requires (command.Take? || command.Transition?) && command.packetID == id && |stamps| >= 3
    requires Admits(log, command, rule, now, stamps) && LogInvariant(After(log, command, stamps))
    ensures Described(After(log, command, stamps), specs, tenant, id)
  {
    NamedGrows(log, command, stamps, id);
    PacketInLawful(After(log, command, stamps), id);
    AdmittedEffect(log, command, rule, now, stamps, PacketIn(log, id));
  }

  lemma CommandOnOne(log: seq<EventRecord>, specs: Specifications, tenant: TenantID, done: set<PacketID>, id: PacketID,
                     command: Command, rule: TenantRule, now: Time, stamps: seq<Stamp>)
    requires AppliedBut(log, specs, tenant, done, id)
    requires (command.Take? || command.Transition?) && command.packetID == id
    requires |stamps| >= 3 && Admits(log, command, rule, now, stamps)
    ensures AppliedBut(After(log, command, stamps), specs, tenant, done, id)
  {
    AdmittedKeepsInvariant(log, command, rule, now, stamps);
    DescribedStill(log, specs, tenant, id, command, rule, now, stamps);
    forall q | q != id
      ensures Stream(After(log, command, stamps), q) != [] ==> q in specs
      ensures q in specs ==> AppliedAt(After(log, command, stamps), specs, tenant, done, q)
    {
      assert q in specs ==> AppliedAt(log, specs, tenant, done, q);
      OthersUnchanged(log, command, stamps, q);
    }
  }

  lemma StatusApplied(log: seq<EventRecord>, specs: Specifications, tenant: TenantID, done: set<PacketID>, id: PacketID)
    requires AppliedBut(log, specs, tenant, done, id) && Shaped(PacketIn(log, id), specs, id)
    ensures Applied(log, specs, tenant, done + {id})
  {
    forall q | q in specs
      ensures AppliedAt(log, specs, tenant, done + {id}, q)
    {
      assert q != id ==> AppliedAt(log, specs, tenant, done, q);
    }
  }

  lemma EvidenceNamed(id: PacketID)
    ensures EvidenceProven([EvidenceFile(id)])
  {
    assert EvidenceFile(id)[0] == 'e' && !IsSpace('e');
    assert 'e' in EvidenceFile(id);
  }

  /** Taking an untouched packet, as the import does. */
  lemma TakeStep(log: seq<EventRecord>, specs: Specifications, tenant: TenantID, done: set<PacketID>, id: PacketID,
                 rule: TenantRule, now: Time, supply: nat -> Stamp, n: nat, command: Command)
    requires Table(specs) && AppliedBut(log, specs, tenant, done, id) && Untouched(PacketIn(log, id))
    requires Supplies(supply) && UnusedFrom(supply, log, n)
    requires command == Command.Take(id, PacketIn(log, id).version, IMPORT_ACTOR)
    ensures Admits(log, command, rule, now, Three(supply, n))
    ensures var after := After(log, command, Three(supply, n));
            && AppliedBut(after, specs, tenant, done, id) && UnusedFrom(supply, after, n + 3)
            && PacketIn(after, id) == PacketIn(log, id).(takenBy := IMPORT_ACTOR, status := InProgress, version := 3)
  {
    ThreeFresh(supply, log, n);
    TakeAdmitted(log, command, rule, now, Three(supply, n), PacketIn(log, id));
    CommandOnOne(log, specs, tenant, done, id, command, rule, now, Three(supply, n));
    StillUnused(supply, log, n, command);
  }

  /** What a transition leaves of a packet. */
  ghost predicate Moved(p: Packet, q: Packet, to: Status, evidence: seq<Evidence>) {
    && q.status == to && q.takenBy == p.takenBy
    && (if to == Done then q.version == p.version + 2 && q.evidence == evidence
        else q.version == p.version + 1 && q.closure == None)
  }

  /** Moving an open packet on, as the import does. */
  lemma MoveStep(log: seq<EventRecord>, specs: Specifications, tenant: TenantID, done: set<PacketID>, id: PacketID,
                 rule: TenantRule, now: Time, supply: nat -> Stamp, n: nat, command: Command)
    requires Table(specs) && AppliedBut(log, specs, tenant, done, id) && PacketIn(log, id).closure == None
    requires Supplies(supply) && UnusedFrom(supply, log, n)
    requires command.Transition? && command.packetID == id && command.expected == PacketIn(log, id).version
    requires command.actor == IMPORT_ACTOR && LegalTransition(PacketIn(log, id).status, command.to)
    requires if command.to == Done then EvidenceProven(command.evidence) else command.evidence == []
    ensures Admits(log, command, rule, now, Three(supply, n))
    ensures AppliedBut(After(log, command, Three(supply, n)), specs, tenant, done, id)
    ensures UnusedFrom(supply, After(log, command, Three(supply, n)), n + 3)
    ensures Moved(PacketIn(log, id), PacketIn(After(log, command, Three(supply, n)), id), command.to, command.evidence)
  {
    ThreeFresh(supply, log, n);
    TransitionAdmitted(log, command, rule, now, Three(supply, n), PacketIn(log, id));
    CommandOnOne(log, specs, tenant, done, id, command, rule, now, Three(supply, n));
    StillUnused(supply, log, n, command);
  }

  // ---- issuing -------------------------------------------------------------------------------

  // What the closure issueChain captures.
  class Importer {
    const tracker: Tracker
    const specs: Specifications
    const tenantID: TenantID
    const supply: nat -> Stamp
    var issued: set<PacketID>
    var visiting: set<PacketID>
    var used: nat

    ghost predicate Ready()
      reads this, tracker, tracker.store
    {
      && tracker.Valid() && tracker.projectionReady
      && Table(specs) && Supplies(supply) && UnusedFrom(supply, tracker.store.records, used)
      && tenantID != "" && forall now :: tracker.tenantRule(tenantID, now)
    }

    ghost predicate Valid()
      reads this, tracker, tracker.store
    {
      Ready() && Issued(tracker.store.records, specs, tenantID, issued)
    }

    constructor (tracker: Tracker, specs: Specifications, tenantID: TenantID, supply: nat -> Stamp)
      requires tracker.Valid() && tracker.projectionReady && tracker.store.records == []
      requires Table(specs) && Supplies(supply)
      requires tenantID != "" && forall now :: tracker.tenantRule(tenantID, now)
      ensures this.tracker == tracker && this.specs == specs && this.tenantID == tenantID && this.supply == supply
      ensures Valid() && issued == {} && visiting == {}
    {
      this.tracker, this.specs, this.tenantID, this.supply := tracker, specs, tenantID, supply;
      issued, visiting, used := {}, {}, 0;
      new;
      EmptyLogInvariant();
    }

    /** One command that the log admits, with the next three stamps. */
    method Perform(command: Command, now: Time)
      requires Ready() && Replays(tracker.store.records)
      requires Admits(tracker.store.records, command, tracker.tenantRule, now, Three(supply, used))
      requires UnusedFrom(supply, After(tracker.store.records, command, Three(supply, used)), used + 3)
      modifies this`used, tracker, tracker.store
      ensures Ready() && Replays(tracker.store.records)
      ensures tracker.store.records == After(old(tracker.store.records), command, Three(supply, old(used)))
    {
      var stamps := Three(supply, used);
      used := used + 3;
      match command {
        case Issue(_, _, _, _) =>
          var _ := tracker.Issue(command, now, stamps);
        case Take(_, _, _) =>
          var _ := tracker.Take(command, now, stamps);
        case AddComment(_, _, _, _) =>
          var _ := tracker.AddComment(command, now, stamps);
        case Transition(_, _, _, _, _) =>
          var _ := tracker.Transition(command, now, stamps);
        case Supersede(_, _, _, _, _, _) =>
          var _ := tracker.Supersede(command, now, stamps);
      }
    }

    method PerformIssue(id: PacketID, command: Command, now: Time)
      requires Valid() && Admits(tracker.store.records, command, tracker.tenantRule, now, Three(supply, used))
      requires UnusedFrom(supply, After(tracker.store.records, command, Three(supply, used)), used + 3)
      requires Issued(After(tracker.store.records, command, Three(supply, used)), specs, tenantID, issued + {id})
      modifies this`used, this`issued, tracker, tracker.store
      ensures Valid() && issued == old(issued) + {id}
    {
      Perform(command, now);
      issued := issued + {id};
    }

    // The version the next command on a packet will name.
    method VersionOf(id: PacketID) returns (version: Version)
      requires Ready() && Replays(tracker.store.records) && id != "" && Stream(tracker.store.records, id) != []
      modifies tracker
      ensures Ready() && Replays(tracker.store.records)
      ensures version == PacketIn(tracker.store.records, id).version
    {
      var current := tracker.Packet(id);
      return current.value.version;
    }

    method IssueRoot(id: PacketID, now: Time)
      requires Valid() && id in specs && id !in issued && specs[id].supersedes == ""
      modifies this`used, this`issued, tracker, tracker.store
      ensures Valid() && issued == old(issued) + {id}
    {
      var command := Command.Issue(id, tenantID, specs[id].body, IMPORT_ACTOR);
      RootStep(tracker.store.records, specs, tenantID, issued, id, tracker.tenantRule, now, supply, used, command);
      PerformIssue(id, command, now);
    }

    method IssueReplacement(id: PacketID, now: Time)
      requires Valid() && OneReplacement(specs) && id in specs && id !in issued && specs[id].supersedes in issued
      modifies this`used, this`issued, tracker, tracker.store
      ensures Valid() && issued == old(issued) + {id}
    {
      ParentLogged(tracker.store.records, specs, tenantID, issued, id);
      var version := VersionOf(specs[id].supersedes);
      SupersedeAt(id, version, now);
    }

    method SupersedeAt(id: PacketID, version: Version, now: Time)
      requires Valid() && OneReplacement(specs) && id in specs && id !in issued && specs[id].supersedes in issued
      requires version == PacketIn(tracker.store.records, specs[id].supersedes).version
      modifies this`used, this`issued, tracker, tracker.store
      ensures Valid() && issued == old(issued) + {id}
    {
      var command := Command.Supersede(specs[id].supersedes, version, IMPORT_ACTOR, id, tenantID, specs[id].body);
      ReplacementStep(tracker.store.records, specs, tenantID, issued, id, tracker.tenantRule, now, supply, used,
                      command);
      PerformIssue(id, command, now);
    }

    /** Parents first. It stops for one reason only: coming back to a packet it is still
        issuing, which happens only in a circle of supersessions. */
    method IssueChain(id: PacketID, now: Time) returns (ok: bool)
      requires Valid() && ParentsRetired(specs) && OneReplacement(specs) && id in specs
      requires visiting !! issued && visiting <= specs.Keys
      requires forall v :: v in visiting ==> specs[v].supersedes == id || specs[v].supersedes in visiting
      modifies this, tracker, tracker.store
      ensures ok ==> Valid() && id in issued && old(issued) <= issued
      ensures ok ==> visiting == old(visiting) && visiting !! issued
      ensures !ok ==> !Acyclic(specs)
      decreases specs.Keys - visiting, 1
    {
      if id in issued {
        return true;
      }
      if id in visiting {
        assert Circular(specs, visiting);
        return false;
      }
      ok := IssueNew(id, now);
    }

    // The rest of issueChain, for a packet it has not met.
    method IssueNew(id: PacketID, now: Time) returns (ok: bool)
      requires Valid() && ParentsRetired(specs) && OneReplacement(specs) && id in specs
      requires visiting !! issued && visiting <= specs.Keys && id !in visiting && id !in issued
      requires forall v :: v in visiting ==> specs[v].supersedes == id || specs[v].supersedes in visiting
      modifies this, tracker, tracker.store
      ensures ok ==> Valid() && id in issued && old(issued) <= issued
      ensures ok ==> visiting == old(visiting) && visiting !! issued
      ensures !ok ==> !Acyclic(specs)
      decreases specs.Keys - visiting, 0
    {
      ghost var was := visiting;
      visiting := visiting + {id};
      assert visiting - {id} == was;
      ok := IssueInOrder(id, now);
      if ok {
        visiting := visiting - {id};
      }
    }

    method IssueInOrder(id: PacketID, now: Time) returns (ok: bool)
      requires Valid() && ParentsRetired(specs) && OneReplacement(specs) && id in specs && id !in issued
      requires visiting <= specs.Keys && id in visiting && visiting !! issued
      requires forall v :: v in visiting ==>
                 specs[v].supersedes == specs[id].supersedes || specs[v].supersedes in visiting
      modifies this, tracker, tracker.store
      ensures ok ==> Valid() && id in issued && old(issued) <= issued
      ensures ok ==> visiting == old(visiting) && visiting !! issued - {id}
      ensures !ok ==> !Acyclic(specs)
      decreases specs.Keys - visiting, 2
    {
      if specs[id].supersedes == "" {
        IssueRoot(id, now);
        return true;
      }
      ok := IssueChain(specs[id].supersedes, now);
      if ok {
        IssueReplacement(id, now);
      }
    }

    ghost predicate Importing(done: set<PacketID>)
      reads this, tracker, tracker.store
    {
      Ready() && Applied(tracker.store.records, specs, tenantID, done)
    }

    ghost predicate ImportingBut(done: set<PacketID>, id: PacketID)
      reads this, tracker, tracker.store
    {
      Ready() && AppliedBut(tracker.store.records, specs, tenantID, done, id)
    }

    method TakeOne(id: PacketID, now: Time, ghost done: set<PacketID>)
      requires ImportingBut(done, id) && Untouched(PacketIn(tracker.store.records, id))
      modifies this, tracker, tracker.store
      ensures ImportingBut(done, id)
      ensures PacketIn(tracker.store.records, id)
           == old(PacketIn(tracker.store.records, id)).(takenBy := IMPORT_ACTOR, status := InProgress, version := 3)
    {
      assert Described(tracker.store.records, specs, tenantID, id);
      var version := VersionOf(id);
      var command := Command.Take(id, version, IMPORT_ACTOR);
      TakeStep(tracker.store.records, specs, tenantID, done, id, tracker.tenantRule, now, supply, used, command);
      Perform(command, now);
    }

    method MoveOne(id: PacketID, to: Status, evidence: seq<Evidence>, now: Time, ghost done: set<PacketID>)
      requires ImportingBut(done, id) && PacketIn(tracker.store.records, id).closure == None
      requires LegalTransition(PacketIn(tracker.store.records, id).status, to)
      requires if to == Done then EvidenceProven(evidence) else evidence == []
      modifies this, tracker, tracker.store
      ensures ImportingBut(done, id)
      ensures Moved(old(PacketIn(tracker.store.records, id)), PacketIn(tracker.store.records, id), to, evidence)
    {
      assert Described(tracker.store.records, specs, tenantID, id);
      var version := VersionOf(id);
      var command := Command.Transition(id, version, IMPORT_ACTOR, to, evidence);
      MoveStep(tracker.store.records, specs, tenantID, done, id, tracker.tenantRule, now, supply, used, command);
      Perform(command, now);
    }

    // A done packet is taken, its evidence file looked for, and only then finished.
    method Finish(id: PacketID, evidence: set<PacketID>, now: Time, ghost done: set<PacketID>) returns (ok: bool)
      requires ImportingBut(done, id) && Untouched(PacketIn(tracker.store.records, id))
      modifies this, tracker, tracker.store
      ensures ok <==> id in evidence
      ensures ok ==> ImportingBut(done, id)
      ensures ok ==> var p := PacketIn(tracker.store.records, id);
                p.status == Done && p.takenBy == IMPORT_ACTOR && p.evidence == [EvidenceFile(id)] && p.version == 5
    {
      TakeOne(id, now, done);
      if id !in evidence {
        return false;
      }
      EvidenceNamed(id);
      MoveOne(id, Done, [EvidenceFile(id)], now, done);
      return true;
    }

    /** Bring one issued packet to its declared status. Only missing evidence stops it. */
    method ApplyStatus(id: PacketID, evidence: set<PacketID>, now: Time, ghost done: set<PacketID>) returns (ok: bool)
      requires Importing(done) && id in specs && id !in done
      modifies this, tracker, tracker.store
      ensures ok <==> (specs[id].status == DeclaredDone ==> id in evidence)
      ensures ok ==> Importing(done + {id})
    {
      ok := true;
      assert AppliedAt(tracker.store.records, specs, tenantID, done, id);
      match specs[id].status {
        case DeclaredSuperseded =>
        case DeclaredNotStarted =>
        case DeclaredInProgress =>
          TakeOne(id, now, done);
        case DeclaredBlocked =>
          MoveOne(id, Blocked, [], now, done);
        case DeclaredDone =>
          ok := Finish(id, evidence, now, done);
      }
      if ok {
        StatusApplied(tracker.store.records, specs, tenantID, done, id);
      }
    }

    // The first loop over the sorted ids.
    method IssueAll(ids: seq<PacketID>, now: Time) returns (ok: bool)
      requires Valid() && visiting == {} && ParentsRetired(specs) && OneReplacement(specs)
      requires forall id :: id in ids ==> id in specs
      modifies this, tracker, tracker.store
      ensures ok ==> Valid() && forall id :: id in ids ==> id in issued
      ensures !ok ==> !Acyclic(specs)
    {
      for i := 0 to |ids|
        invariant Valid() && visiting == {}
        invariant forall id :: id in ids[..i] ==> id in issued
      {
        assert ids[i] in ids && ids[..i + 1] == ids[..i] + [ids[i]];
        var issuedOne := IssueChain(ids[i], now);
        if !issuedOne {
          return false;
        }
      }
      assert ids[..|ids|] == ids;
      return true;
    }

    // The second, over declared statuses.
    method ApplyAll(ids: seq<PacketID>, evidence: set<PacketID>, now: Time) returns (ok: bool)
      requires Importing({}) && StrictlySorted(ids) && forall id :: id in ids <==> id in specs
      modifies this, tracker, tracker.store
      ensures ok <==> EvidencePresent(specs, evidence)
      ensures ok ==> Importing(specs.Keys)
    {
      ghost var done: set<PacketID> := {};
      for i := 0 to |ids|
        invariant Importing(done) && DoneSoFar(specs, evidence, ids[..i], done)
      {
        assert ids[i] in ids;
        DoneNext(specs, evidence, ids, i, done);
        var applied := ApplyStatus(ids[i], evidence, now, done);
        if !applied {
          return false;
        }
        done := done + {ids[i]};
      }
      assert ids[..|ids|] == ids;
      AllDone(specs, evidence, ids, done);
      return true;
    }
  }

  ghost predicate DoneSoFar(specs: Specifications, evidence: set<PacketID>, ids: seq<PacketID>, done: set<PacketID>) {
    && (forall id :: id in done <==> id in ids)
    && forall id :: id in done && id in specs && specs[id].status == DeclaredDone ==> id in evidence
  }

  lemma DoneNext(specs: Specifications, evidence: set<PacketID>, ids: seq<PacketID>, i: nat, done: set<PacketID>)
    requires StrictlySorted(ids) && i < |ids| && DoneSoFar(specs, evidence, ids[..i], done) && ids[i] in specs
    ensures ids[i] in ids && ids[i] !in done
    ensures (specs[ids[i]].status == DeclaredDone ==> ids[i] in evidence) ==>
              DoneSoFar(specs, evidence, ids[..i + 1], done + {ids[i]})
  {
    SortedDiffer(ids, i);
  }

  lemma AllDone(specs: Specifications, evidence: set<PacketID>, ids: seq<PacketID>, done: set<PacketID>)
    requires DoneSoFar(specs, evidence, ids, done) && forall id :: id in ids <==> id in specs
    ensures done == specs.Keys && EvidencePresent(specs, evidence)
  {
  }

  // The two loops over the table that come before any command. Go visits a map in no fixed
  // order, so neither does this.
  method CheckLinks(specs: Specifications) returns (ok: bool)
    requires Table(specs)
    ensures ok <==> ParentsRetired(specs) && OneReplacement(specs) && RetiredReplaced(specs)
  {
    var children: map<PacketID, PacketID> := map[];
    var rest := specs.Keys;
    while rest != {}
      invariant rest <= specs.Keys
      invariant ChildrenSoFar(specs, children, specs.Keys - rest)
      decreases rest
    {
      var id :| id in rest;
      var parent := specs[id].supersedes;
      if parent != "" {
        if parent !in specs || specs[parent].status != DeclaredSuperseded || parent in children {
          return false;
        }
        children := children[parent := id];
      }
      rest := rest - {id};
    }
    assert specs.Keys - rest == specs.Keys;
    rest := specs.Keys;
    while rest != {}
      invariant rest <= specs.Keys
      invariant forall id :: id in specs && id !in rest && specs[id].status == DeclaredSuperseded ==> id in children
      decreases rest
    {
      var id :| id in rest;
      if specs[id].status == DeclaredSuperseded && id !in children {
        return false;
      }
      rest := rest - {id};
    }
    return true;
  }

  /** Of the packets seen: each names a retired parent, which has it as its one child. */
  ghost predicate ChildrenSoFar(specs: Specifications, children: map<PacketID, PacketID>, seen: set<PacketID>) {
    && (forall id :: id in seen && id in specs && specs[id].supersedes != "" ==>
          specs[id].supersedes in specs && specs[specs[id].supersedes].status == DeclaredSuperseded
          && specs[id].supersedes in children && children[specs[id].supersedes] == id)
    && (forall p :: p in children ==>
          p != "" && children[p] in seen && children[p] in specs && specs[children[p]].supersedes == p)
  }

  /** Replays a table of specifications into an empty tracker. It succeeds exactly when the
      table describes disjoint chains of retired parents and every done packet has its
      evidence; then the tracker holds the table's packets, linked and shaped as declared, and
      no others. Sorting makes the order of the commands, and hence the log, reproducible. */
  method Replay(tracker: Tracker, specs: Specifications, tenantID: TenantID, evidence: set<PacketID>,
                supply: nat -> Stamp, now: Time)
    returns (ok: bool)
    requires tracker.Valid() && tracker.projectionReady && tracker.store.records == []
    requires Table(specs) && Supplies(supply)
    requires tenantID != "" && forall at :: tracker.tenantRule(tenantID, at)
    modifies tracker, tracker.store
    ensures ok <==> Replayable(specs) && EvidencePresent(specs, evidence)
    ensures ok ==> tracker.Valid() && Applied(tracker.store.records, specs, tenantID, specs.Keys)
  {
    var linked := CheckLinks(specs);
    if !linked {
      return false;
    }
    var ids := SortKeys(specs.Keys);
    var importer := new Importer(tracker, specs, tenantID, supply);
    var issued := importer.IssueAll(ids, now);
    if !issued {
      return false;
    }
    AllIssued(tracker.store.records, specs, tenantID, importer.issued, ids);
    ok := importer.ApplyAll(ids, evidence, now);
  }

  lemma AllIssued(log: seq<EventRecord>, specs: Specifications, tenant: TenantID, issued: set<PacketID>,
                  ids: seq<PacketID>)
    requires Table(specs) && ParentsRetired(specs) && OneReplacement(specs) && RetiredReplaced(specs)
    requires Issued(log, specs, tenant, issued)
    requires forall id :: id in ids <==> id in specs
    requires forall id :: id in ids ==> id in issued
    ensures Replayable(specs) && Applied(log, specs, tenant, {})
  {
    assert issued == specs.Keys;
    IssuedIsAcyclic(log, specs, tenant);
    IssuedApplies(log, specs, tenant);
  }

  lemma SortedDiffer(ids: seq<PacketID>, i: nat)
    requires StrictlySorted(ids) && i < |ids|
    ensures ids[i] in ids && ids[i] !in ids[..i]
    ensures forall id :: id in ids[..i + 1] <==> id in ids[..i] || id == ids[i]
  {
    forall k | 0 <= k < i
      ensures ids[k] != ids[i]
    {
      LessTotal(ids[k], ids[i]);
    }
    assert ids[..i + 1] == ids[..i] + [ids[i]];
  }
}
