/** What admitted commands keep of the whole log: settled packets, and replacement links that
    form disjoint finite chains. */
module Supersession {
  import opened Basics
  import opened PacketTypes
  import opened Lifecycle
  import opened EventLog
  import opened TrackerCache
  import opened Commands

  /** No packet is ever half way through a command. */
  ghost predicate SettledLog(log: seq<EventRecord>) {
    forall p :: Stream(log, p) != [] ==> Settled(PacketIn(log, p))
  }

  /** Where a packet's issue event lies. */
  ghost function Born(log: seq<EventRecord>, id: PacketID): (i: nat)
    requires Stream(log, id) != []
    ensures i < |log| && log[i].packetID == id
    decreases |log|
  {
    var n := |log| - 1;
    if Stream(log[..n], id) != [] then Born(log[..n], id) else n
  }

  lemma {:induction false} BornStays(log: seq<EventRecord>, more: seq<EventRecord>, id: PacketID)
    requires Stream(log, id) != []
    ensures Stream(log + more, id) != [] && Born(log + more, id) == Born(log, id)
    decreases |more|
  {
    if |more| == 0 {
      assert log + more == log;
    } else {
      var n := |more| - 1;
      BornStays(log, more[..n], id);
      assert (log + more)[..|log + more| - 1] == log + more[..n];
      StreamConcat(log, more, id);
    }
  }

  lemma {:induction false} BornLate(log: seq<EventRecord>, more: seq<EventRecord>, id: PacketID)
    requires Stream(log, id) == [] && Stream(log + more, id) != []
    ensures Born(log + more, id) >= |log|
    decreases |more|
  {
    assert log + [] == log;
    if |more| > 0 {
      var n := |more| - 1;
      assert (log + more)[..|log + more| - 1] == log + more[..n];
      if Stream(log + more[..n], id) != [] {
        BornLate(log, more[..n], id);
      }
    }
  }

  ghost predicate LinkedPair(log: seq<EventRecord>, parent: PacketID, child: PacketID) {
    PacketIn(log, child).parentID == parent <==> PacketIn(log, parent).supersededBy == child
  }

  ghost predicate ParentFirst(log: seq<EventRecord>, child: PacketID) {
    var parent := PacketIn(log, child).parentID;
    parent != "" ==>
      Stream(log, child) != [] && Stream(log, parent) != [] && Born(log, parent) < Born(log, child)
  }

  /** A packet names a parent exactly when that parent names it, and is born after it. */
  ghost predicate Linked(log: seq<EventRecord>) {
    && (forall parent, child :: parent != "" && child != "" ==> LinkedPair(log, parent, child))
    && (forall child :: ParentFirst(log, child))
  }

  /** What holds of the shared log between any two appends. */
  ghost predicate LogInvariant(log: seq<EventRecord>) {
    StoreLog(log) && Replays(log) && SettledLog(log) && Linked(log)
  }

  lemma EmptyLogInvariant()
    ensures LogInvariant([])
  {
  }

  // ---- one admitted command ---------------------------------------------------------------

  ghost function After(log: seq<EventRecord>, command: Command, stamps: seq<Stamp>): seq<EventRecord>
    requires |stamps| >= 3
  {
    Appended(log, BatchOver(log, command, stamps))
  }

  lemma OthersUnchanged(log: seq<EventRecord>, command: Command, stamps: seq<Stamp>, q: PacketID)
    requires |stamps| >= 3 && q !in Named(command)
    ensures Stream(After(log, command, stamps), q) == Stream(log, q)
    ensures PacketIn(After(log, command, stamps), q) == PacketIn(log, q)
  {
    var events := BatchOver(log, command, stamps);
    if Touches(events, q) {
      BatchTouches(command, StatusIn(log, command.packetID), stamps, q);
    }
    AppendedStream(log, events, q);
    assert Stream(log, q) + EventsFor(events, q) == Stream(log, q);
  }

  lemma NamedGrows(log: seq<EventRecord>, command: Command, stamps: seq<Stamp>, q: PacketID)
    requires |stamps| >= 3 && q in Named(command)
    ensures Stream(log, q) < Stream(After(log, command, stamps), q)
  {
    var events := BatchOver(log, command, stamps);
    NamedTouched(command, StatusIn(log, command.packetID), stamps);
    AppendedStream(log, events, q);
  }

  lemma AfterStoreLog(log: seq<EventRecord>, command: Command, rule: TenantRule, now: Time, stamps: seq<Stamp>)
    requires StoreLog(log) && Replays(log) && |stamps| >= 3 && Admits(log, command, rule, now, stamps)
    ensures StoreLog(After(log, command, stamps)) && Replays(After(log, command, stamps))
  {
    var events := BatchOver(log, command, stamps);
    AppendedReplays(log, events);
    AppendedStore(log, events);
  }

  /** The batch as records over the log's own streams. */
  lemma AppendedBatch(log: seq<EventRecord>, events: seq<Event>) returns (streams: Streams)
    ensures Appended(log, events) == log + RecordsFor(streams, events)
    ensures forall p :: Touches(events, p) ==> StreamIn(streams, p) == Stream(log, p)
  {
    streams := map p | p in TouchedBy(events) :: Stream(log, p);
    forall p
      ensures Touches(events, p) ==> StreamIn(streams, p) == Stream(log, p)
    {
      TouchedMember(events, p);
    }
    FreshRecords(streams, log, events);
  }

  lemma AppendedIDs(log: seq<EventRecord>, events: seq<Event>)
    ensures EventIDs(Appended(log, events)) == EventIDs(log) + IDsOf(events)
  {
    var streams := AppendedBatch(log, events);
    BatchUnique(streams, events);
    assert forall r :: r in Appended(log, events) <==> r in log || r in RecordsFor(streams, events);
  }

  lemma AppendedStore(log: seq<EventRecord>, events: seq<Event>)
    requires StoreLog(log) && FoldsOnto(log, events) && |events| > 0
    ensures StoreLog(Appended(log, events))
  {
    var streams := AppendedBatch(log, events);
    BatchPositioned(streams, events);
    BatchUnique(streams, events);
    forall p | p in TouchedBy(events)
      ensures |Stream(log, p)| == |StreamIn(streams, p)|
    {
      TouchedMember(events, p);
    }
    AcceptKeepsStoreLog(log, VersionsSeen(streams, events), RecordsFor(streams, events));
  }

  lemma NamedLawful(log: seq<EventRecord>, command: Command, rule: TenantRule, now: Time, stamps: seq<Stamp>,
                    q: PacketID)
    requires StoreLog(log) && Replays(log) && |stamps| >= 3
    requires Admits(log, command, rule, now, stamps) && q in Named(command)
    ensures Lawful(PacketIn(After(log, command, stamps), q))
  {
    AfterStoreLog(log, command, rule, now, stamps);
    NamedGrows(log, command, stamps, q);
    PacketInLawful(After(log, command, stamps), q);
  }

  lemma ChangedSettled(log: seq<EventRecord>, command: Command, rule: TenantRule, now: Time, stamps: seq<Stamp>)
    requires StoreLog(log) && Replays(log) && SettledLog(log) && |stamps| >= 3
    requires Admits(log, command, rule, now, stamps)
    ensures Settled(Changed(PacketIn(log, command.packetID), command, stamps))
  {
    var p := PacketIn(log, command.packetID);
    assert Permits(p, command) && Lawful(Changed(p, command, stamps)) by {
      AdmittedEffect(log, command, rule, now, stamps, p);
      NamedLawful(log, command, rule, now, stamps, command.packetID);
    }
    OldSettled(log, command, rule, now, stamps);
    ChangeSettles(p, command, stamps);
  }

  /** One command settles what it touches: no half-done close, take or supersession. */
  lemma NamedSettled(log: seq<EventRecord>, command: Command, rule: TenantRule, now: Time, stamps: seq<Stamp>,
                     q: PacketID)
    requires StoreLog(log) && Replays(log) && SettledLog(log) && |stamps| >= 3
    requires Admits(log, command, rule, now, stamps) && q in Named(command)
    ensures Settled(PacketIn(After(log, command, stamps), q))
  {
    if q == command.packetID {
      OwnSettled(log, command, rule, now, stamps);
    } else {
      NewSettled(log, command, rule, now, stamps);
    }
  }

  lemma OwnSettled(log: seq<EventRecord>, command: Command, rule: TenantRule, now: Time, stamps: seq<Stamp>)
    requires StoreLog(log) && Replays(log) && SettledLog(log) && |stamps| >= 3
    requires Admits(log, command, rule, now, stamps)
    ensures Settled(PacketIn(After(log, command, stamps), command.packetID))
  {
    var p := PacketIn(log, command.packetID);
    assert PacketIn(After(log, command, stamps), command.packetID) == Changed(p, command, stamps) by {
      AdmittedEffect(log, command, rule, now, stamps, p);
    }
    ChangedSettled(log, command, rule, now, stamps);
  }

  lemma NewSettled(log: seq<EventRecord>, command: Command, rule: TenantRule, now: Time, stamps: seq<Stamp>)
    requires StoreLog(log) && Replays(log) && command.Supersede? && |stamps| >= 3
    requires Admits(log, command, rule, now, stamps)
    ensures Settled(PacketIn(After(log, command, stamps), command.replacementID))
  {
    var packet := PacketIn(After(log, command, stamps), command.replacementID);
    assert packet == Replacement(command) by {
      AdmittedEffect(log, command, rule, now, stamps, PacketIn(log, command.packetID));
    }
    assert Lawful(packet) by {
      NamedLawful(log, command, rule, now, stamps, command.replacementID);
    }
    ReplacementSettled(command);
  }

  lemma OldSettled(log: seq<EventRecord>, command: Command, rule: TenantRule, now: Time, stamps: seq<Stamp>)
    requires SettledLog(log) && |stamps| >= 3 && Admits(log, command, rule, now, stamps)
    ensures command.Issue? || Settled(PacketIn(log, command.packetID))
  {
  }

  lemma ReplacementSettled(command: Command)
    requires command.Supersede? && Lawful(Replacement(command))
    ensures Settled(Replacement(command))
  {
  }

  lemma ChangeSettles(p: Packet, command: Command, stamps: seq<Stamp>)
    requires |stamps| >= 3 && Permits(p, command) && (command.Issue? || Settled(p))
    requires Lawful(Changed(p, command, stamps))
    ensures Settled(Changed(p, command, stamps))
  {
  }

  lemma AfterSettled(log: seq<EventRecord>, command: Command, rule: TenantRule, now: Time, stamps: seq<Stamp>)
    requires StoreLog(log) && Replays(log) && SettledLog(log) && |stamps| >= 3
    requires Admits(log, command, rule, now, stamps)
    ensures SettledLog(After(log, command, stamps))
  {
    forall q | Stream(After(log, command, stamps), q) != []
      ensures Settled(PacketIn(After(log, command, stamps), q))
    {
      if q in Named(command) {
        NamedSettled(log, command, rule, now, stamps, q);
      } else {
        OthersUnchanged(log, command, stamps, q);
      }
    }
  }

  /** Which links a command makes: one pair when it supersedes, none otherwise. */
  lemma LinksMade(log: seq<EventRecord>, command: Command, rule: TenantRule, now: Time, stamps: seq<Stamp>, q: PacketID)
    requires StoreLog(log) && Replays(log) && |stamps| >= 3 && Admits(log, command, rule, now, stamps)
    ensures var before, after := PacketIn(log, q), PacketIn(After(log, command, stamps), q);
            && after.parentID == (if command.Supersede? && q == command.replacementID then command.packetID
                                  else before.parentID)
            && after.supersededBy == (if command.Supersede? && q == command.packetID then command.replacementID
                                      else before.supersededBy)
  {
    if q in Named(command) {
      AdmittedEffect(log, command, rule, now, stamps, PacketIn(log, command.packetID));
    } else {
      OthersUnchanged(log, command, stamps, q);
    }
  }

  lemma LinkedPairKept(log: seq<EventRecord>, command: Command, rule: TenantRule, now: Time, stamps: seq<Stamp>,
                       parent: PacketID, child: PacketID)
    requires StoreLog(log) && Replays(log) && Linked(log) && |stamps| >= 3
    requires Admits(log, command, rule, now, stamps) && parent != "" && child != ""
    ensures LinkedPair(After(log, command, stamps), parent, child)
  {
    LinksMade(log, command, rule, now, stamps, parent);
    LinksMade(log, command, rule, now, stamps, child);
    assert LinkedPair(log, parent, child);
    if command.Supersede? {
      AdmittedEffect(log, command, rule, now, stamps, PacketIn(log, command.packetID));
      assert LinkedPair(log, parent, command.replacementID);
      assert LinkedPair(log, command.packetID, child);
    }
  }

  lemma ParentFirstKept(log: seq<EventRecord>, command: Command, rule: TenantRule, now: Time, stamps: seq<Stamp>,
                        child: PacketID)
    requires StoreLog(log) && Replays(log) && Linked(log) && |stamps| >= 3
    requires Admits(log, command, rule, now, stamps)
    ensures ParentFirst(After(log, command, stamps), child)
  {
    var after := After(log, command, stamps);
    LinksMade(log, command, rule, now, stamps, child);
    assert log <= after by {
      AppendedStream(log, BatchOver(log, command, stamps), child);
    }
    if PacketIn(after, child).parentID != "" {
      if command.Supersede? && child == command.replacementID {
        NamedGrows(log, command, stamps, child);
        BornAfter(log, after, command.packetID, child);
      } else {
        assert ParentFirst(log, child);
        var more := after[|log|..];
        Growth(log, after);
        BornStays(log, more, child);
        BornStays(log, more, PacketIn(log, child).parentID);
      }
    }
  }

  lemma Growth(log: seq<EventRecord>, after: seq<EventRecord>)
    requires log <= after
    ensures after == log + after[|log|..]
  {
  }

  lemma BornAfter(log: seq<EventRecord>, after: seq<EventRecord>, parent: PacketID, child: PacketID)
    requires log <= after && Stream(log, parent) != [] && Stream(log, child) == [] && Stream(after, child) != []
    ensures Stream(after, parent) != [] && Born(after, parent) < Born(after, child)
  {
    var more := after[|log|..];
    Growth(log, after);
    BornLate(log, more, child);
    BornStays(log, more, parent);
  }

  /** Every command the log admits keeps the whole invariant. */
  lemma AdmittedKeepsInvariant(log: seq<EventRecord>, command: Command, rule: TenantRule, now: Time, stamps: seq<Stamp>)
    requires LogInvariant(log) && |stamps| >= 3 && Admits(log, command, rule, now, stamps)
    ensures LogInvariant(After(log, command, stamps))
  {
    AfterStoreLog(log, command, rule, now, stamps);
    AfterSettled(log, command, rule, now, stamps);
    forall parent, child | parent != "" && child != ""
      ensures LinkedPair(After(log, command, stamps), parent, child)
    {
      LinkedPairKept(log, command, rule, now, stamps, parent, child);
    }
    forall child
      ensures ParentFirst(After(log, command, stamps), child)
    {
      ParentFirstKept(log, command, rule, now, stamps, child);
    }
  }

  // ---- chains -------------------------------------------------------------------------------

  /** A packet, its replacement, that one's replacement, and so on. It terminates because
      every replacement is born later than what it replaces. */
  ghost function Chain(log: seq<EventRecord>, id: PacketID): (chain: seq<PacketID>)
    requires LogInvariant(log) && Stream(log, id) != []
    ensures |chain| > 0 && chain[0] == id
    decreases |log| - Born(log, id)
  {
    var next := PacketIn(log, id).supersededBy;
    if next == "" then [id]
    else
      NextBorn(log, id);
      [id] + Chain(log, next)
  }

  lemma NextBorn(log: seq<EventRecord>, id: PacketID)
    requires LogInvariant(log) && Stream(log, id) != [] && PacketIn(log, id).supersededBy != ""
    ensures var next := PacketIn(log, id).supersededBy;
            Stream(log, next) != [] && Born(log, id) < Born(log, next) && PacketIn(log, next).parentID == id
  {
    var next := PacketIn(log, id).supersededBy;
    PacketInLawful(log, id);
    LogOwns(log, id, 0);
    assert LinkedPair(log, id, next);
    assert ParentFirst(log, next);
  }

  lemma ChainStep(log: seq<EventRecord>, id: PacketID)
    requires LogInvariant(log) && Stream(log, id) != []
    ensures var next := PacketIn(log, id).supersededBy;
            if next == "" then Chain(log, id) == [id]
            else Stream(log, next) != [] && Chain(log, id) == [id] + Chain(log, next)
  {
    if PacketIn(log, id).supersededBy != "" {
      NextBorn(log, id);
    }
  }

  /** The place of a packet in a chain: the next one replaces it and is born later, or there is
      no next one and nothing replaces it. */
  ghost predicate ChainLink(log: seq<EventRecord>, chain: seq<PacketID>, i: nat)
    requires i < |chain|
  {
    && Stream(log, chain[i]) != []
    && if i + 1 < |chain| then
         && PacketIn(log, chain[i]).supersededBy == chain[i + 1] && PacketIn(log, chain[i + 1]).parentID == chain[i]
         && Stream(log, chain[i + 1]) != [] && Born(log, chain[i]) < Born(log, chain[i + 1])
       else PacketIn(log, chain[i]).supersededBy == ""
  }

  /** Following replacements ends at one unsuperseded packet. */
  lemma {:induction false} ChainEnds(log: seq<EventRecord>, id: PacketID, i: nat)
    requires LogInvariant(log) && Stream(log, id) != [] && i < |Chain(log, id)|
    ensures ChainLink(log, Chain(log, id), i)
    decreases i
  {
    ChainStep(log, id);
    var next := PacketIn(log, id).supersededBy;
    if next != "" {
      NextBorn(log, id);
      if i > 0 {
        ChainEnds(log, next, i - 1);
      }
    }
  }

  lemma {:induction false} Rising(births: seq<nat>, i: nat, j: nat)
    requires i < j < |births| && forall k :: 0 <= k < |births| - 1 ==> births[k] < births[k + 1]
    ensures births[i] < births[j]
    decreases j
  {
    if i < j - 1 {
      Rising(births, i, j - 1);
    }
  }

  /** A chain visits no packet twice: each is born later than all before it. */
  lemma ChainRises(log: seq<EventRecord>, id: PacketID, i: nat, j: nat)
    requires LogInvariant(log) && Stream(log, id) != [] && i < j < |Chain(log, id)|
    ensures var chain := Chain(log, id);
            Stream(log, chain[i]) != [] && Stream(log, chain[j]) != [] && Born(log, chain[i]) < Born(log, chain[j])
  {
    var chain := Chain(log, id);
    forall k | 0 <= k < |chain|
      ensures Stream(log, chain[k]) != []
    {
      ChainEnds(log, id, k);
    }
    var births := seq(|chain|, k requires 0 <= k < |chain| => Born(log, chain[k]));
    forall k | 0 <= k < |births| - 1
      ensures births[k] < births[k + 1]
    {
      ChainEnds(log, id, k);
    }
    Rising(births, i, j);
  }

  ghost function Head(log: seq<EventRecord>, id: PacketID): PacketID
    requires LogInvariant(log) && Stream(log, id) != []
  {
    Chain(log, id)[|Chain(log, id)| - 1]
  }

  lemma EarlierInChain(log: seq<EventRecord>, x: PacketID, y: PacketID)
    requires LogInvariant(log) && Stream(log, y) != [] && x in Chain(log, y) && x != y
    ensures PacketIn(log, x).parentID in Chain(log, y)
  {
    var chain := Chain(log, y);
    var i: nat :| i < |chain| && chain[i] == x;
    assert i > 0;
    ChainEnds(log, y, i - 1);
    assert chain[i - 1] in chain;
  }

  // One of two packets whose replacements lie on one chain.
  lemma StepBack(log: seq<EventRecord>, p: PacketID, q: PacketID, nextP: PacketID, nextQ: PacketID)
    requires LogInvariant(log) && Stream(log, p) != [] && Stream(log, q) != []
    requires nextP == PacketIn(log, p).supersededBy && nextQ == PacketIn(log, q).supersededBy
    requires nextP != "" && nextQ != "" && Stream(log, nextQ) != [] && nextP in Chain(log, nextQ)
    ensures p in Chain(log, q)
  {
    NextBorn(log, p);
    ChainStep(log, q);
    if nextP == nextQ {
      NextBorn(log, q);
      assert Chain(log, q)[0] == q;
    } else {
      EarlierInChain(log, nextP, nextQ);
    }
  }

  lemma EndOfChain(log: seq<EventRecord>, p: PacketID)
    requires LogInvariant(log) && Stream(log, p) != []
    ensures Head(log, p) in Chain(log, p)
    ensures PacketIn(log, p).supersededBy == "" ==> Head(log, p) == p
    ensures PacketIn(log, p).supersededBy != "" ==>
              && Stream(log, PacketIn(log, p).supersededBy) != []
              && Head(log, PacketIn(log, p).supersededBy) == Head(log, p)
  {
    ChainStep(log, p);
    var next := PacketIn(log, p).supersededBy;
    if next != "" {
      SameEnd(p, Chain(log, next), Chain(log, p));
    }
  }

  lemma SameEnd(p: PacketID, rest: seq<PacketID>, chain: seq<PacketID>)
    requires |rest| > 0 && chain == [p] + rest
    ensures chain[|chain| - 1] == rest[|rest| - 1]
  {
  }

  /** Chains never merge: packets with one unsuperseded end lie on one chain. */
  lemma {:induction false} ChainsDisjoint(log: seq<EventRecord>, p: PacketID, q: PacketID)
    requires LogInvariant(log) && Stream(log, p) != [] && Stream(log, q) != []
    requires Head(log, p) == Head(log, q)
    ensures p in Chain(log, q) || q in Chain(log, p)
    decreases |log| - Born(log, p) + |log| - Born(log, q)
  {
    var nextP, nextQ := PacketIn(log, p).supersededBy, PacketIn(log, q).supersededBy;
    EndOfChain(log, p);
    EndOfChain(log, q);
    if nextP != "" && nextQ != "" {
      NextBorn(log, p);
      NextBorn(log, q);
      ChainsDisjoint(log, nextP, nextQ);
      if nextP in Chain(log, nextQ) {
        StepBack(log, p, q, nextP, nextQ);
      } else {
        StepBack(log, q, p, nextQ, nextP);
      }
    }
  }
}
