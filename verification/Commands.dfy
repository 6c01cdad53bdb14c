/** What the five commands ask of the log, and when the log lets each through. */
module Commands {
  import opened Basics
  import opened PacketTypes
  import opened Lifecycle
  import opened EventLog
  import opened TrackerCache

  type TenantRule = (TenantID, Time) -> bool

  /** The packets a command refreshes before it looks at anything. */
  function Named(command: Command): seq<PacketID> {
    if command.Supersede? then [command.packetID, command.replacementID] else [command.packetID]
  }

  ghost function StatusIn(log: seq<EventRecord>, id: PacketID): Status {
    var packet := Replay(Stream(log, id));
    if packet.Ok? then packet.value.status else Unset
  }

  ghost function BatchOver(log: seq<EventRecord>, command: Command, stamps: seq<Stamp>): seq<Event>
    requires |stamps| >= 3
  {
    Batch(command, StatusIn(log, command.packetID), stamps)
  }

  /** The checks a command makes itself, against an up-to-date log. */
  ghost predicate Asked(log: seq<EventRecord>, command: Command, rule: TenantRule, now: Time) {
    && "" !in Named(command)
    && (command.Issue? ==> Stream(log, command.packetID) == [])
    && (!command.Issue? ==>
          Stream(log, command.packetID) != [] && |Stream(log, command.packetID)| == command.expected)
    && (command.Supersede? ==> Stream(log, command.replacementID) == [])
    && (command.Issue? || command.Supersede? ==> rule(command.tenantID, now))
  }

  /** Exactly when a command succeeds while nobody else writes. */
  ghost predicate Admits(log: seq<EventRecord>, command: Command, rule: TenantRule, now: Time, stamps: seq<Stamp>)
    requires |stamps| >= 3
  {
    Asked(log, command, rule, now) && FoldsOnto(log, BatchOver(log, command, stamps))
  }

  // ---- a command run from its tracker's cache, however stale -----------------------------

  /** The checks of a command against its own cache: prepareLocked's and currentLocked's. */
  ghost predicate LocallyAsked(c: Cache, command: Command, rule: TenantRule, now: Time) {
    && c.ready && "" !in Named(command)
    && (command.Issue? ==> command.packetID !in c.streams)
    && (!command.Issue? ==>
          command.packetID in c.projection && |StreamIn(c.streams, command.packetID)| == command.expected)
    && (command.Supersede? ==> command.replacementID !in c.streams)
    && (command.Issue? || command.Supersede? ==> rule(command.tenantID, now))
  }

  ghost function LocalBatch(c: Cache, command: Command, stamps: seq<Stamp>): seq<Event>
    requires |stamps| >= 3
  {
    Batch(command, if command.packetID in c.projection then c.projection[command.packetID].status else Unset, stamps)
  }

  /** Exactly when a command run from cache c reaches the log. */
  ghost predicate Succeeds(c: Cache, log: seq<EventRecord>, command: Command, rule: TenantRule, now: Time,
                           stamps: seq<Stamp>)
    requires |stamps| >= 3
  {
    LocallyAsked(c, command, rule, now) && Committable(c, log, LocalBatch(c, command, stamps))
  }

  /** What a refused append may do to the cache: nothing, or the touched streams catch up. */
  ghost predicate CaughtUp(before: Cache, after: Cache, log: seq<EventRecord>, events: seq<Event>) {
    after == before || forall p ::
      StreamIn(after.streams, p) == if Touches(events, p) then Stream(log, p) else StreamIn(before.streams, p)
  }

  /** A command after its refresh, from whatever its tracker then holds: it reaches the log
      exactly when it succeeds, with the batch its own cache calls for. */
  ghost predicate Ran(before: Cache, after: Cache, log: seq<EventRecord>, later: seq<EventRecord>, command: Command,
                      rule: TenantRule, now: Time, stamps: seq<Stamp>, ok: bool)
    requires |stamps| >= 3
  {
    var events := LocalBatch(before, command, stamps);
    && (ok <==> Succeeds(before, log, command, rule, now, stamps))
    && (ok ==> later == log + RecordsFor(before.streams, events) && after.streams == Extended(before.streams, events))
    && (!ok ==> later == log && CaughtUp(before, after, log, events))
  }

  lemma SameStatus(c: Cache, log: seq<EventRecord>, command: Command)
    requires Coherent(c) && c.ready && StreamIn(c.streams, command.packetID) == Stream(log, command.packetID)
    ensures (if command.packetID in c.projection then c.projection[command.packetID].status else Unset)
         == StatusIn(log, command.packetID)
  {
  }

  /** What a command does to the log: its whole batch, exactly when it is admitted. */
  ghost predicate Outcome(before: seq<EventRecord>, after: seq<EventRecord>, ready: bool, command: Command,
                          rule: TenantRule, now: Time, stamps: seq<Stamp>, ok: bool)
    requires |stamps| >= 3
  {
    && (ok <==> ready && Admits(before, command, rule, now, stamps))
    && after == if ok then Appended(before, BatchOver(before, command, stamps)) else before
  }

  lemma BatchTouches(command: Command, status: Status, stamps: seq<Stamp>, p: PacketID)
    requires |stamps| >= 3 && Touches(Batch(command, status, stamps), p)
    ensures p in Named(command)
  {
    var events := Batch(command, status, stamps);
    TouchedMember(events, p);
  }

  lemma NamedTouched(command: Command, status: Status, stamps: seq<Stamp>)
    requires |stamps| >= 3
    ensures forall p :: p in Named(command) ==> Touches(Batch(command, status, stamps), p)
  {
    var events := Batch(command, status, stamps);
    TouchesEach(events, 0);
    if command.Supersede? {
      TouchesEach(events, 1);
    }
  }

  /** A log whose streams all replay still does after a batch that folds onto it. */
  lemma AppendedReplays(log: seq<EventRecord>, events: seq<Event>)
    requires Replays(log) && FoldsOnto(log, events)
    ensures Replays(Appended(log, events))
  {
    forall p
      ensures Replay(Stream(Appended(log, events), p)).Ok?
    {
      AppendedStream(log, events, p);
      if !Touches(events, p) {
        assert Stream(log, p) + EventsFor(events, p) == Stream(log, p);
      }
    }
  }

  // ---- batches over one packet -----------------------------------------------------------

  /** The projection of a packet, or the zero packet when the log never mentions it. */
  ghost function PacketIn(log: seq<EventRecord>, id: PacketID): Packet {
    var packet := Replay(Stream(log, id));
    if packet.Ok? then packet.value else NO_PACKET
  }

  /** The first n stamps can name n new events. */
  ghost predicate FreshStamps(log: seq<EventRecord>, actor: Actor, stamps: seq<Stamp>, n: nat)
    requires n <= |stamps|
  {
    && actor != ""
    && (forall i :: 0 <= i < n ==> stamps[i].id != "" && stamps[i].at != 0 && stamps[i].id !in EventIDs(log))
    && (forall i, j :: 0 <= i < j < n ==> stamps[i].id != stamps[j].id)
  }

  lemma ForOne(a: Event, p: PacketID)
    ensures EventsFor([a], p) == if EventPacketID(a) == p then [a] else []
  {
    assert [a] == [] + [a];
    assert [a][..0] == [];
  }

  lemma ForTwo(a: Event, b: Event, p: PacketID)
    ensures EventsFor([a, b], p)
         == (if EventPacketID(a) == p then [a] else []) + (if EventPacketID(b) == p then [b] else [])
  {
    assert [a, b][..1] == [a];
    ForOne(a, p);
  }

  lemma ForThree(a: Event, b: Event, c: Event, p: PacketID)
    ensures EventsFor([a, b, c], p)
         == (if EventPacketID(a) == p then [a] else []) + (if EventPacketID(b) == p then [b] else [])
            + (if EventPacketID(c) == p then [c] else [])
  {
    assert [a, b, c][..2] == [a, b];
    ForTwo(a, b, p);
  }

  /** A packet the log mentions is projected under its own id. */
  lemma PacketInLawful(log: seq<EventRecord>, id: PacketID)
    requires StoreLog(log) && Replays(log) && Stream(log, id) != []
    ensures Lawful(PacketIn(log, id)) && PacketIn(log, id).id == id
    ensures PacketIn(log, id).version == |Stream(log, id)|
  {
    ReplayLawful(Stream(log, id));
    LogOwns(log, id, 0);
  }

  ghost predicate Stamped(events: seq<Event>, actor: Actor, stamps: seq<Stamp>) {
    && 1 <= |events| <= |stamps|
    && forall i :: 0 <= i < |events| ==> events[i].meta == Metadata(stamps[i].id, stamps[i].at, actor)
  }

  ghost predicate NewMetadata(log: seq<EventRecord>, events: seq<Event>) {
    && DistinctMeta(events) && IDsOf(events) !! EventIDs(log)
    && forall i :: 0 <= i < |events| ==> MetadataComplete(events[i].meta)
  }

  lemma FreshMeta(log: seq<EventRecord>, events: seq<Event>, actor: Actor, stamps: seq<Stamp>)
    requires Stamped(events, actor, stamps)
    ensures FreshStamps(log, actor, stamps, |events|) <==> NewMetadata(log, events)
  {
    assert forall i :: 0 <= i < |events| ==> events[i] in events;
    if NewMetadata(log, events) {
      assert MetadataComplete(events[0].meta);
      forall i | 0 <= i < |events|
        ensures stamps[i].id != "" && stamps[i].at != 0 && stamps[i].id !in EventIDs(log)
      {
        assert MetadataComplete(events[i].meta);
        assert events[i].meta.id in IDsOf(events);
      }
      forall i, j | 0 <= i < j < |events|
        ensures stamps[i].id != stamps[j].id
      {
        assert events[i].meta.id != events[j].meta.id;
      }
    }
  }

  lemma {:induction false} OneStream(events: seq<Event>, id: PacketID, p: PacketID)
    requires forall i :: 0 <= i < |events| ==> EventPacketID(events[i]) == id
    ensures EventsFor(events, p) == if p == id then events else []
    decreases |events|
  {
    if |events| > 0 {
      OneStream(events[..|events| - 1], id, p);
      assert events == events[..|events| - 1] + [events[|events| - 1]];
    }
  }

  lemma OnePacketTouches(events: seq<Event>, id: PacketID)
    requires |events| > 0 && forall i :: 0 <= i < |events| ==> EventPacketID(events[i]) == id
    ensures forall p :: Touches(events, p) <==> p == id
    ensures EventsFor(events, id) == events
  {
    forall p
      ensures EventsFor(events, p) == if p == id then events else []
    {
      OneStream(events, id, p);
    }
  }

  /** A batch all of one packet: the log lets it through when it is new and it folds. */
  lemma OnePacketBatch(log: seq<EventRecord>, events: seq<Event>, id: PacketID)
    requires |events| > 0 && id != ""
    requires forall i :: 0 <= i < |events| ==> EventPacketID(events[i]) == id
    ensures FoldsOnto(log, events)
       <==> DistinctMeta(events) && IDsOf(events) !! EventIDs(log) && Replay(Stream(log, id) + events).Ok?
  {
    OnePacketTouches(events, id);
    assert FoldsOnto(log, events) ==> Touches(events, id);
  }

  lemma {:induction false} FoldNeedsMetadata(packet: Packet, events: seq<Event>, i: nat)
    requires i < |events| && Fold(packet, events).Ok?
    ensures MetadataComplete(events[i].meta)
    decreases |events|
  {
    if i < |events| - 1 {
      FoldNeedsMetadata(packet, events[..|events| - 1], i);
    }
  }

  lemma ReplayNeedsMetadata(stream: seq<Event>, events: seq<Event>)
    requires Replay(stream + events).Ok?
    ensures forall i :: 0 <= i < |events| ==> MetadataComplete(events[i].meta)
  {
    forall i | 0 <= i < |events|
      ensures MetadataComplete(events[i].meta)
    {
      FoldNeedsMetadata(NO_PACKET, stream + events, |stream| + i);
      assert (stream + events)[|stream| + i] == events[i];
    }
  }

  /** The same, in terms of stamps and of the packet the events continue. */
  lemma OnePacketStamped(log: seq<EventRecord>, events: seq<Event>, id: PacketID, actor: Actor, stamps: seq<Stamp>)
    requires Replays(log) && Stamped(events, actor, stamps) && id != ""
    requires forall i :: 0 <= i < |events| ==> EventPacketID(events[i]) == id
    ensures FoldsOnto(log, events)
       <==> FreshStamps(log, actor, stamps, |events|) && Fold(PacketIn(log, id), events).Ok?
    ensures FoldsOnto(log, events) ==>
              Ok(PacketIn(Appended(log, events), id)) == Fold(PacketIn(log, id), events)
  {
    OnePacketBatch(log, events, id);
    OnePacketTouches(events, id);
    AppendedStream(log, events, id);
    FreshMeta(log, events, actor, stamps);
    FoldConcat(NO_PACKET, Stream(log, id), events);
    if Replay(Stream(log, id) + events).Ok? {
      ReplayNeedsMetadata(Stream(log, id), events);
    }
  }

  lemma FoldOf1(packet: Packet, a: Event)
    ensures Fold(packet, [a]) == ApplyEvent(packet, a)
  {
    assert [a][..0] == [];
  }

  lemma FoldOf2(packet: Packet, a: Event, b: Event)
    ensures Fold(packet, [a, b])
         == (var first := ApplyEvent(packet, a); if first.Err? then first else ApplyEvent(first.value, b))
  {
    assert [a, b][..1] == [a];
    FoldOf1(packet, a);
  }

  // ---- each command, in its own terms ---------------------------------------------------

  /** Issue: a new id, a willing directory, a tenant. */
  lemma IssueAdmitted(log: seq<EventRecord>, command: Command, rule: TenantRule, now: Time, stamps: seq<Stamp>)
    requires StoreLog(log) && Replays(log) && command.Issue? && |stamps| >= 3
    ensures Admits(log, command, rule, now, stamps)
       <==> (command.packetID != "" && Stream(log, command.packetID) == [] && rule(command.tenantID, now)
             && command.tenantID != "" && FreshStamps(log, command.actor, stamps, 1))
    ensures Admits(log, command, rule, now, stamps) ==>
              PacketIn(Appended(log, BatchOver(log, command, stamps)), command.packetID)
                == Packet(command.packetID, command.tenantID, command.body, NotStarted, 1, "", [], [], "", "", None)
  {
    assert Named(command) == [command.packetID];
    if command.packetID != "" && Stream(log, command.packetID) == [] {
      IssueOnto(log, command, stamps, BatchOver(log, command, stamps));
    }
  }

  lemma IssueOnto(log: seq<EventRecord>, command: Command, stamps: seq<Stamp>, events: seq<Event>)
    requires StoreLog(log) && Replays(log) && command.Issue? && |stamps| >= 3
    requires command.packetID != "" && Stream(log, command.packetID) == []
    requires events == BatchOver(log, command, stamps)
    ensures FoldsOnto(log, events) <==> command.tenantID != "" && FreshStamps(log, command.actor, stamps, 1)
    ensures FoldsOnto(log, events) ==>
              PacketIn(Appended(log, events), command.packetID)
                == Packet(command.packetID, command.tenantID, command.body, NotStarted, 1, "", [], [], "", "", None)
  {
    NoPacketYet(log, command.packetID);
    OnePacketStamped(log, events, command.packetID, command.actor, stamps);
    IssueFolds(command, events);
  }

  lemma NoPacketYet(log: seq<EventRecord>, id: PacketID)
    requires Stream(log, id) == []
    ensures PacketIn(log, id) == NO_PACKET
  {
  }

  lemma IssueFolds(command: Command, events: seq<Event>)
    requires command.Issue? && command.packetID != "" && |events| == 1
    requires events[0] == PacketIssued(events[0].meta, command.packetID, command.tenantID, command.body, "")
    ensures Fold(NO_PACKET, events).Ok? <==> command.tenantID != "" && MetadataComplete(events[0].meta)
    ensures Fold(NO_PACKET, events).Ok? ==>
              Fold(NO_PACKET, events).value
                == Packet(command.packetID, command.tenantID, command.body, NotStarted, 1, "", [], [], "", "", None)
  {
    assert events == [events[0]];
    FoldOf1(NO_PACKET, events[0]);
  }

  ghost predicate Existing(log: seq<EventRecord>, command: Command) {
    && !command.Issue? && command.packetID != "" && Stream(log, command.packetID) != []
    && |Stream(log, command.packetID)| == command.expected
  }

  /** Take: nobody has it, nothing closed it, work has not started. */
  lemma TakeAdmitted(log: seq<EventRecord>, command: Command, rule: TenantRule, now: Time, stamps: seq<Stamp>,
                     p: Packet)
    requires p == PacketIn(log, command.packetID)
    requires StoreLog(log) && Replays(log) && command.Take? && |stamps| >= 3
    ensures Admits(log, command, rule, now, stamps)
       <==> (Existing(log, command) && p.status == NotStarted && p.takenBy == "" && p.closure == None
             && FreshStamps(log, command.actor, stamps, 2))
    ensures Admits(log, command, rule, now, stamps) ==>
              PacketIn(Appended(log, BatchOver(log, command, stamps)), command.packetID)
                == p.(takenBy := command.actor, status := InProgress, version := p.version + 2)
  {
    var id, events := command.packetID, BatchOver(log, command, stamps);
    if Existing(log, command) {
      PacketInLawful(log, id);
      OnePacketStamped(log, events, id, command.actor, stamps);
      TakeFolds(p, command, stamps, events);
    }
  }

  lemma TakeFolds(p: Packet, command: Command, stamps: seq<Stamp>, events: seq<Event>)
    requires p.version > 0 && command.Take? && command.packetID == p.id && |stamps| >= 3
    requires events == Batch(command, p.status, stamps)
    ensures Fold(p, events).Ok?
       <==> (p.status == NotStarted && p.takenBy == "" && p.closure == None
             && MetadataComplete(events[0].meta) && MetadataComplete(events[1].meta))
    ensures Fold(p, events).Ok? ==>
              Fold(p, events).value == p.(takenBy := command.actor, status := InProgress, version := p.version + 2)
  {
    FoldOf2(p, events[0], events[1]);
  }

  /** Comment: the packet exists and the text says something, even after it closed. */
  lemma CommentAdmitted(log: seq<EventRecord>, command: Command, rule: TenantRule, now: Time, stamps: seq<Stamp>,
                        p: Packet)
    requires p == PacketIn(log, command.packetID)
    requires StoreLog(log) && Replays(log) && command.AddComment? && |stamps| >= 3
    ensures Admits(log, command, rule, now, stamps)
       <==> (Existing(log, command) && !Blank(command.text) && FreshStamps(log, command.actor, stamps, 1))
    ensures Admits(log, command, rule, now, stamps) ==>
              PacketIn(Appended(log, BatchOver(log, command, stamps)), command.packetID)
                == p.(version := p.version + 1,
                      comments := p.comments + [Comment(stamps[0].id, stamps[0].at, command.actor, command.text)])
  {
    var id, events := command.packetID, BatchOver(log, command, stamps);
    if Existing(log, command) {
      PacketInLawful(log, id);
      OnePacketStamped(log, events, id, command.actor, stamps);
      FoldOf1(PacketIn(log, id), events[0]);
    }
  }

  /** Transition: open, legal, and carrying evidence exactly when it finishes the work. */
  lemma TransitionAdmitted(log: seq<EventRecord>, command: Command, rule: TenantRule, now: Time, stamps: seq<Stamp>,
                           p: Packet)
    requires p == PacketIn(log, command.packetID)
    requires StoreLog(log) && Replays(log) && command.Transition? && |stamps| >= 3
    ensures Admits(log, command, rule, now, stamps)
       <==> (Existing(log, command) && p.closure == None && LegalTransition(p.status, command.to)
             && (if command.to == Done then EvidenceProven(command.evidence) else command.evidence == [])
             && FreshStamps(log, command.actor, stamps, if command.to == Done then 2 else 1))
    ensures Admits(log, command, rule, now, stamps) ==>
              PacketIn(Appended(log, BatchOver(log, command, stamps)), command.packetID)
                == Transitioned(p, command, stamps)
  {
    if Existing(log, command) {
      TransitionOnto(log, command, stamps, p, BatchOver(log, command, stamps));
    }
  }

  lemma TransitionOnto(log: seq<EventRecord>, command: Command, stamps: seq<Stamp>, p: Packet, events: seq<Event>)
    requires StoreLog(log) && Replays(log) && command.Transition? && |stamps| >= 3 && Existing(log, command)
    requires p == PacketIn(log, command.packetID) && events == BatchOver(log, command, stamps)
    ensures FoldsOnto(log, events)
       <==> (p.closure == None && LegalTransition(p.status, command.to)
             && (if command.to == Done then EvidenceProven(command.evidence) else command.evidence == [])
             && FreshStamps(log, command.actor, stamps, if command.to == Done then 2 else 1))
    ensures FoldsOnto(log, events) ==>
              PacketIn(Appended(log, events), command.packetID) == Transitioned(p, command, stamps)
  {
    PacketInLawful(log, command.packetID);
    OnePacketStamped(log, events, command.packetID, command.actor, stamps);
    assert events == Batch(command, p.status, stamps);
    TransitionFolds(p, command, stamps);
  }

  lemma TransitionFolds(p: Packet, command: Command, stamps: seq<Stamp>)
    requires p.version > 0 && command.Transition? && command.packetID == p.id && |stamps| >= 3
    ensures var result, m := Fold(p, Batch(command, p.status, stamps)), if command.to == Done then 2 else 1;
            && (result.Ok? <==>
                  (p.closure == None && LegalTransition(p.status, command.to)
                   && (if command.to == Done then EvidenceProven(command.evidence) else command.evidence == [])
                   && forall k :: 0 <= k < m ==> MetadataComplete(Metadata(stamps[k].id, stamps[k].at, command.actor))))
            && (result.Ok? ==> result.value == Transitioned(p, command, stamps))
  {
    var events := Batch(command, p.status, stamps);
    if command.to == Done {
      FinishFolds(p, command, stamps, events[0], events[1]);
      assert events == [events[0], events[1]];
    } else {
      assert events == [events[0]];
      FoldOf1(p, events[0]);
    }
  }

  ghost function Transitioned(p: Packet, command: Command, stamps: seq<Stamp>): Packet
    requires command.Transition? && |stamps| >= 3
  {
    if command.to == Done then
      p.(status := Done, evidence := command.evidence, version := p.version + 2,
         closure := Some(Closure(stamps[1].id, stamps[1].at, command.actor, ReasonDone)))
    else p.(status := command.to, version := p.version + 1)
  }

  lemma FinishFolds(p: Packet, command: Command, stamps: seq<Stamp>, moved: Event, closed: Event)
    requires p.version > 0 && command.Transition? && command.packetID == p.id && |stamps| >= 3 && command.to == Done
    requires Batch(command, p.status, stamps) == [moved, closed]
    ensures var result := Fold(p, [moved, closed]);
            && (result.Ok? <==> (p.closure == None && LegalTransition(p.status, Done)
                                 && EvidenceProven(command.evidence)
                                 && MetadataComplete(moved.meta) && MetadataComplete(closed.meta)))
            && (result.Ok? ==> result.value == Transitioned(p, command, stamps))
  {
    assert moved == PacketTransitioned(moved.meta, p.id, p.status, Done, command.evidence);
    assert closed == PacketClosed(closed.meta, p.id, ReasonDone);
    FoldOf2(p, moved, closed);
  }

  lemma SupersedeStreams(command: Command, status: Status, stamps: seq<Stamp>, q: PacketID)
    requires command.Supersede? && |stamps| >= 3 && command.packetID != command.replacementID
    ensures var events := Batch(command, status, stamps);
            EventsFor(events, q) == if q == command.replacementID then [events[0]]
                                    else if q == command.packetID then [events[1], events[2]] else []
  {
    var events := Batch(command, status, stamps);
    assert events == [events[0], events[1], events[2]];
    ForThree(events[0], events[1], events[2], q);
  }

  lemma SupersedeFolds(p: Packet, command: Command, stamps: seq<Stamp>)
    requires p.version > 0 && command.Supersede? && command.packetID == p.id && |stamps| >= 3
    requires command.replacementID != "" && command.replacementID != p.id
    ensures var events := Batch(command, p.status, stamps);
            var replacement, parent := Fold(NO_PACKET, [events[0]]), Fold(p, [events[1], events[2]]);
            && (replacement.Ok? <==> command.tenantID != "" && MetadataComplete(events[0].meta))
            && (replacement.Ok? ==>
                  replacement.value == Packet(command.replacementID, command.tenantID, command.body, NotStarted, 1,
                                              "", [], [], p.id, "", None))
            && (parent.Ok? <==> (p.closure == None && p.supersededBy == ""
                  && MetadataComplete(events[1].meta) && MetadataComplete(events[2].meta)))
            && (parent.Ok? ==> parent.value == Retired(p, command, stamps))
  {
    var events := Batch(command, p.status, stamps);
    FoldOf1(NO_PACKET, events[0]);
    assert events[0] == PacketIssued(events[0].meta, command.replacementID, command.tenantID, command.body, p.id);
    RetiredFolds(p, command, stamps, events[1], events[2]);
  }

  lemma RetiredFolds(p: Packet, command: Command, stamps: seq<Stamp>, linked: Event, closed: Event)
    requires p.version > 0 && command.Supersede? && command.packetID == p.id && |stamps| >= 3
    requires command.replacementID != "" && command.replacementID != p.id
    requires linked == Batch(command, p.status, stamps)[1] && closed == Batch(command, p.status, stamps)[2]
    ensures var parent := Fold(p, [linked, closed]);
            && (parent.Ok? <==> (p.closure == None && p.supersededBy == ""
                  && MetadataComplete(linked.meta) && MetadataComplete(closed.meta)))
            && (parent.Ok? ==> parent.value == Retired(p, command, stamps))
  {
    assert linked == PacketSuperseded(linked.meta, p.id, command.replacementID);
    assert closed == PacketClosed(closed.meta, p.id, ReasonSuperseded);
    FoldOf2(p, linked, closed);
  }

  /** A parent once its replacement is issued. */
  ghost function Retired(p: Packet, command: Command, stamps: seq<Stamp>): Packet
    requires command.Supersede? && |stamps| >= 3
  {
    p.(supersededBy := command.replacementID, version := p.version + 2,
       closure := Some(Closure(stamps[2].id, stamps[2].at, command.actor, ReasonSuperseded)))
  }

  lemma SupersedeTouches(command: Command, status: Status, stamps: seq<Stamp>)
    requires command.Supersede? && |stamps| >= 3 && command.packetID != command.replacementID
    ensures var events := Batch(command, status, stamps);
            && EventsFor(events, command.replacementID) == [events[0]]
            && EventsFor(events, command.packetID) == [events[1], events[2]]
            && forall q :: Touches(events, q) <==> q in Named(command)
  {
    var events := Batch(command, status, stamps);
    forall q
      ensures EventsFor(events, q) == if q == command.replacementID then [events[0]]
                                      else if q == command.packetID then [events[1], events[2]] else []
    {
      SupersedeStreams(command, status, stamps, q);
    }
  }

  lemma SupersedeBatch(log: seq<EventRecord>, command: Command, stamps: seq<Stamp>, events: seq<Event>)
    requires command.Supersede? && |stamps| >= 3 && events == BatchOver(log, command, stamps)
    requires "" !in Named(command) && command.packetID != command.replacementID
    requires Stream(log, command.replacementID) == []
    ensures FoldsOnto(log, events)
       <==> (DistinctMeta(events) && IDsOf(events) !! EventIDs(log)
             && Replay([events[0]]).Ok? && Replay(Stream(log, command.packetID) + [events[1], events[2]]).Ok?)
  {
    SupersedeTouches(command, StatusIn(log, command.packetID), stamps);
    assert Stream(log, command.replacementID) + EventsFor(events, command.replacementID) == [events[0]];
    assert events == [events[0], events[1], events[2]];
    TwoTouched(log, events, command.packetID, command.replacementID);
  }

  /** A batch over two packets: the log lets it through when it is new and both streams fold. */
  lemma TwoTouched(log: seq<EventRecord>, events: seq<Event>, a: PacketID, b: PacketID)
    requires forall q :: Touches(events, q) <==> q in [a, b]
    requires forall e :: e in events ==> EventPacketID(e) != ""
    ensures FoldsOnto(log, events)
       <==> (DistinctMeta(events) && IDsOf(events) !! EventIDs(log)
             && Replay(Stream(log, a) + EventsFor(events, a)).Ok? && Replay(Stream(log, b) + EventsFor(events, b)).Ok?)
  {
    assert a in [a, b] && b in [a, b];
  }

  lemma SupersedeAppends(log: seq<EventRecord>, command: Command, stamps: seq<Stamp>, events: seq<Event>)
    requires command.Supersede? && |stamps| >= 3 && events == BatchOver(log, command, stamps)
    requires command.packetID != command.replacementID && Stream(log, command.replacementID) == []
    ensures Stream(Appended(log, events), command.replacementID) == [events[0]]
    ensures Stream(Appended(log, events), command.packetID) == Stream(log, command.packetID) + [events[1], events[2]]
  {
    SupersedeTouches(command, StatusIn(log, command.packetID), stamps);
    AppendedStream(log, events, command.replacementID);
    AppendedStream(log, events, command.packetID);
  }

  /** Supersede: an open parent, and an id, tenant and directory fit for its replacement. */
  lemma SupersedeAdmitted(log: seq<EventRecord>, command: Command, rule: TenantRule, now: Time, stamps: seq<Stamp>,
                          p: Packet)
    requires p == PacketIn(log, command.packetID)
    requires StoreLog(log) && Replays(log) && command.Supersede? && |stamps| >= 3
    ensures Admits(log, command, rule, now, stamps)
       <==> (Existing(log, command) && p.closure == None && p.supersededBy == ""
             && command.replacementID != "" && Stream(log, command.replacementID) == []
             && rule(command.tenantID, now) && command.tenantID != "" && FreshStamps(log, command.actor, stamps, 3))
    ensures Admits(log, command, rule, now, stamps) ==>
              var after := Appended(log, BatchOver(log, command, stamps));
              && PacketIn(after, command.packetID) == Retired(p, command, stamps)
              && PacketIn(after, command.replacementID)
                   == Packet(command.replacementID, command.tenantID, command.body, NotStarted, 1,
                             "", [], [], command.packetID, "", None)
  {
    var id, events := command.packetID, BatchOver(log, command, stamps);
    if Existing(log, command) && command.replacementID != "" && Stream(log, command.replacementID) == [] {
      SupersedeOnto(log, command, stamps, p, events);
      if FoldsOnto(log, events) {
        SupersedeEffect(log, command, stamps, p, events);
      }
    }
  }

  lemma SupersedeOnto(log: seq<EventRecord>, command: Command, stamps: seq<Stamp>, p: Packet, events: seq<Event>)
    requires StoreLog(log) && Replays(log) && command.Supersede? && |stamps| >= 3 && Existing(log, command)
    requires command.replacementID != "" && Stream(log, command.replacementID) == []
    requires p == PacketIn(log, command.packetID) && events == BatchOver(log, command, stamps)
    ensures FoldsOnto(log, events)
       <==> (p.closure == None && p.supersededBy == "" && command.tenantID != ""
             && FreshStamps(log, command.actor, stamps, 3))
  {
    var stream := Stream(log, command.packetID);
    assert Replay([events[0]]).Ok? <==> command.tenantID != "" && MetadataComplete(events[0].meta) by {
      PacketInLawful(log, command.packetID);
      SupersedeFolds(p, command, stamps);
    }
    assert Replay(stream + [events[1], events[2]]).Ok?
      <==> (p.closure == None && p.supersededBy == ""
            && MetadataComplete(events[1].meta) && MetadataComplete(events[2].meta)) by {
      PacketInLawful(log, command.packetID);
      SupersedeFolds(p, command, stamps);
      FoldConcat(NO_PACKET, stream, [events[1], events[2]]);
    }
    SupersedeBatch(log, command, stamps, events);
    FreshMeta(log, events, command.actor, stamps);
    ThreeNew(log, events);
  }

  lemma ThreeNew(log: seq<EventRecord>, events: seq<Event>)
    requires |events| == 3
    ensures NewMetadata(log, events)
       <==> (DistinctMeta(events) && IDsOf(events) !! EventIDs(log) && MetadataComplete(events[0].meta)
             && MetadataComplete(events[1].meta) && MetadataComplete(events[2].meta))
  {
  }

  lemma SupersedeEffect(log: seq<EventRecord>, command: Command, stamps: seq<Stamp>, p: Packet, events: seq<Event>)
    requires StoreLog(log) && Replays(log) && command.Supersede? && |stamps| >= 3 && Existing(log, command)
    requires command.replacementID != "" && Stream(log, command.replacementID) == []
    requires p == PacketIn(log, command.packetID) && events == BatchOver(log, command, stamps)
    requires FoldsOnto(log, events)
    ensures PacketIn(Appended(log, events), command.packetID) == Retired(p, command, stamps)
    ensures PacketIn(Appended(log, events), command.replacementID)
         == Packet(command.replacementID, command.tenantID, command.body, NotStarted, 1,
                   "", [], [], command.packetID, "", None)
  {
    PacketInLawful(log, command.packetID);
    SupersedeBatch(log, command, stamps, events);
    SupersedeAppends(log, command, stamps, events);
    SupersedeFolds(p, command, stamps);
    FoldConcat(NO_PACKET, Stream(log, command.packetID), [events[1], events[2]]);
  }

  // ---- all five at once -----------------------------------------------------------------

  /** What the named packet must be like for a command to be admitted. */
  ghost predicate Permits(p: Packet, command: Command) {
    match command
    case Issue(_, _, _, _) => p == NO_PACKET
    case Take(_, _, actor) => p.status == NotStarted && p.takenBy == "" && p.closure == None && actor != ""
    case AddComment(_, _, _, _) => true
    case Transition(_, _, _, to, evidence) =>
      p.closure == None && LegalTransition(p.status, to)
      && (if to == Done then EvidenceProven(evidence) else evidence == [])
    case Supersede(_, _, _, replacement, _, _) => p.closure == None && p.supersededBy == "" && replacement != ""
  }

  /** What an admitted command makes of the packet it names. */
  ghost function Changed(p: Packet, command: Command, stamps: seq<Stamp>): Packet
    requires |stamps| >= 3
  {
    match command
    case Issue(id, tenant, body, _) => Packet(id, tenant, body, NotStarted, 1, "", [], [], "", "", None)
    case Take(_, _, actor) => p.(takenBy := actor, status := InProgress, version := p.version + 2)
    case AddComment(_, _, actor, text) =>
      p.(version := p.version + 1, comments := p.comments + [Comment(stamps[0].id, stamps[0].at, actor, text)])
    case Transition(_, _, actor, to, evidence) =>
      if to == Done then
        p.(status := Done, evidence := evidence, version := p.version + 2,
           closure := Some(Closure(stamps[1].id, stamps[1].at, actor, ReasonDone)))
      else p.(status := to, version := p.version + 1)
    case Supersede(_, _, _, _, _, _) => Retired(p, command, stamps)
  }

  ghost function Replacement(command: Command): Packet
    requires command.Supersede?
  {
    Packet(command.replacementID, command.tenantID, command.body, NotStarted, 1, "", [], [], command.packetID, "", None)
  }

  lemma AdmittedChange(log: seq<EventRecord>, command: Command, rule: TenantRule, now: Time, stamps: seq<Stamp>,
                       p: Packet)
    requires StoreLog(log) && Replays(log) && |stamps| >= 3 && Admits(log, command, rule, now, stamps)
    requires p == PacketIn(log, command.packetID)
    ensures Permits(p, command)
    ensures PacketIn(Appended(log, BatchOver(log, command, stamps)), command.packetID) == Changed(p, command, stamps)
  {
    match command
    case Issue(_, _, _, _) =>
      IssueAdmitted(log, command, rule, now, stamps);
      NoPacketYet(log, command.packetID);
    case Take(_, _, _) => TakeAdmitted(log, command, rule, now, stamps, p);
    case AddComment(_, _, _, _) => CommentAdmitted(log, command, rule, now, stamps, p);
    case Transition(_, _, _, _, _) => TransitionAdmitted(log, command, rule, now, stamps, p);
    case Supersede(_, _, _, _, _, _) => SupersedeAdmitted(log, command, rule, now, stamps, p);
  }

  lemma AdmittedEffect(log: seq<EventRecord>, command: Command, rule: TenantRule, now: Time, stamps: seq<Stamp>,
                       p: Packet)
    requires StoreLog(log) && Replays(log) && |stamps| >= 3 && Admits(log, command, rule, now, stamps)
    requires p == PacketIn(log, command.packetID)
    ensures Permits(p, command)
    ensures PacketIn(Appended(log, BatchOver(log, command, stamps)), command.packetID) == Changed(p, command, stamps)
    ensures command.Supersede? ==>
              PacketIn(log, command.replacementID) == NO_PACKET
              && PacketIn(Appended(log, BatchOver(log, command, stamps)), command.replacementID) == Replacement(command)
  {
    AdmittedChange(log, command, rule, now, stamps, p);
    if command.Supersede? {
      SupersedeAdmitted(log, command, rule, now, stamps, p);
      NoPacketYet(log, command.replacementID);
    }
  }
}
