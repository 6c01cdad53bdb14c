/** Any number of trackers over one store, interleaved at every load and every append. */
module Protocol {
  import opened Basics
  import opened PacketTypes
  import opened Lifecycle
  import opened EventLog
  import opened TrackerCache
  import opened Commands
  import opened Supersession

  datatype System = System(log: seq<EventRecord>, trackers: seq<Cache>)

  // Between a command's refresh and its append any other tracker may take any step. A command
  // therefore runs from whatever its tracker holds at that moment, however stale.
  datatype Step =
    | Join
    | Refresh(tracker: nat, ids: seq<PacketID>, rebuild: bool, read: multiset<EventRecord>)
    | DropProjection(tracker: nat)
    | Run(tracker: nat, command: Command, now: Time, stamps: seq<Stamp>)

  /** A refresh whose load is one moment of the log, as the in-memory store's is. */
  ghost predicate AtomicRefresh(c: Cache, log: seq<EventRecord>, ids: seq<PacketID>, rebuild: bool, after: Cache) {
    && (rebuild && ids != [] ==> c.ready) && (!rebuild ==> !c.ready)
    && if Loadable(c, multiset(LoadOf(log, ids)), ids, rebuild) then
         LoadedInto(c, multiset(LoadOf(log, ids)), ids, rebuild, after)
       else after == c
  }

  /** A refresh of whatever its load read. Its queries may be answered at different moments. */
  ghost predicate RefreshStep(c: Cache, log: seq<EventRecord>, ids: seq<PacketID>, rebuild: bool,
                              read: multiset<EventRecord>, after: Cache)
  {
    && (rebuild && ids != [] ==> c.ready) && (!rebuild ==> !c.ready)
    && if "" in ids then after == c
       else
         && Grouped(read).Some? && Glimpsed(c, log, ids, Grouped(read).value)
         && if Loadable(c, read, ids, rebuild) then LoadedInto(c, read, ids, rebuild, after) else after == c
  }

  /** An atomic refresh is one of these. */
  lemma AtomicIsRefresh(c: Cache, log: seq<EventRecord>, ids: seq<PacketID>, rebuild: bool, after: Cache)
    requires StoreLog(log) && Behind(c.streams, log) && AtomicRefresh(c, log, ids, rebuild, after)
    ensures RefreshStep(c, log, ids, rebuild, multiset(LoadOf(log, ids)), after)
  {
    LoadGlimpsed(c, log, ids);
  }

  ghost predicate RunStep(c: Cache, log: seq<EventRecord>, command: Command, rule: TenantRule, now: Time,
                          stamps: seq<Stamp>, after: Cache, later: seq<EventRecord>)
    requires |stamps| >= 3
  {
    && Ran(c, after, log, later, command, rule, now, stamps, Succeeds(c, log, command, rule, now, stamps))
    && if c.ready then after.ready && Coherent(after) else after == c
  }

  ghost predicate Next(s: System, t: System, step: Step, rule: TenantRule) {
    match step
    case Join => t == s.(trackers := s.trackers + [EMPTY_CACHE])
    case Refresh(k, ids, rebuild, read) =>
      k < |s.trackers| && |t.trackers| == |s.trackers|
      && t == s.(trackers := s.trackers[k := t.trackers[k]])
      && RefreshStep(s.trackers[k], s.log, ids, rebuild, read, t.trackers[k])
    case DropProjection(k) =>
      k < |s.trackers| && t == s.(trackers := s.trackers[k := Cache(s.trackers[k].streams, map[], {}, false)])
    case Run(k, command, now, stamps) =>
      k < |s.trackers| && |t.trackers| == |s.trackers| && |stamps| >= 3
      && t == System(t.log, s.trackers[k := t.trackers[k]])
      && RunStep(s.trackers[k], s.log, command, rule, now, stamps, t.trackers[k], t.log)
  }

  ghost predicate Safe(s: System) {
    && LogInvariant(s.log)
    && forall k :: 0 <= k < |s.trackers| ==> Coherent(s.trackers[k]) && Behind(s.trackers[k].streams, s.log)
  }

  lemma SuccessIsUpToDate(c: Cache, log: seq<EventRecord>, command: Command, rule: TenantRule, now: Time,
                          stamps: seq<Stamp>)
    requires Behind(c.streams, log) && |stamps| >= 3 && Succeeds(c, log, command, rule, now, stamps)
    ensures forall p :: p in Named(command) <==> Touches(LocalBatch(c, command, stamps), p)
    ensures forall p :: p in Named(command) ==> StreamIn(c.streams, p) == Stream(log, p)
  {
    var events := LocalBatch(c, command, stamps);
    var status := if command.packetID in c.projection then c.projection[command.packetID].status else Unset;
    NamedTouched(command, status, stamps);
    forall p | Touches(events, p)
      ensures p in Named(command) && StreamIn(c.streams, p) == Stream(log, p)
    {
      BatchTouches(command, status, stamps, p);
      assert |Stream(log, p)| == |StreamIn(c.streams, p)|;
    }
  }

  /** A command that succeeds from however stale a cache is one the log itself admits, and it
      changes the log exactly as it would had its tracker been up to date. */
  lemma StaleCommandsAreCurrent(c: Cache, log: seq<EventRecord>, command: Command, rule: TenantRule, now: Time,
                                stamps: seq<Stamp>)
    requires Coherent(c) && Behind(c.streams, log) && |stamps| >= 3
    requires Succeeds(c, log, command, rule, now, stamps)
    ensures Admits(log, command, rule, now, stamps)
    ensures LocalBatch(c, command, stamps) == BatchOver(log, command, stamps)
    ensures log + RecordsFor(c.streams, LocalBatch(c, command, stamps)) == After(log, command, stamps)
  {
    var events := LocalBatch(c, command, stamps);
    SuccessIsUpToDate(c, log, command, rule, now, stamps);
    assert Asked(log, command, rule, now) by {
      assert command.packetID in Named(command);
      assert StreamIn(c.streams, command.packetID) == Stream(log, command.packetID);
      assert command.Supersede? ==> StreamIn(c.streams, command.replacementID) == Stream(log, command.replacementID);
    }
    assert events == BatchOver(log, command, stamps) by {
      SameStatus(c, log, command);
    }
    assert FoldsOnto(log, events) by {
      FreshBatch(c, log, events);
    }
    FreshRecords(c.streams, log, events);
  }

  lemma RunKeepsSafe(s: System, t: System, k: nat, command: Command, rule: TenantRule, now: Time, stamps: seq<Stamp>)
    requires Safe(s) && |stamps| >= 3 && Next(s, t, Run(k, command, now, stamps), rule)
    ensures Safe(t) && s.log <= t.log
  {
    var c, after := s.trackers[k], t.trackers[k];
    if Succeeds(c, s.log, command, rule, now, stamps) {
      StaleCommandsAreCurrent(c, s.log, command, rule, now, stamps);
      AdmittedKeepsInvariant(s.log, command, rule, now, stamps);
      CommitStaysBehind(c.streams, s.log, LocalBatch(c, command, stamps));
    } else {
      CaughtUpStaysBehind(c, after, s.log, LocalBatch(c, command, stamps));
    }
    assert Coherent(after) && Behind(after.streams, t.log) && LogInvariant(t.log) && s.log <= t.log;
    OthersStayBehind(s, t, k);
  }

  lemma CaughtUpStaysBehind(c: Cache, after: Cache, log: seq<EventRecord>, events: seq<Event>)
    requires Behind(c.streams, log) && CaughtUp(c, after, log, events)
    ensures Behind(after.streams, log)
  {
    forall p | p in after.streams
      ensures after.streams[p] <= Stream(log, p)
    {
      assert StreamIn(after.streams, p) == after.streams[p];
    }
  }

  lemma OthersStayBehind(s: System, t: System, k: nat)
    requires Safe(s) && k < |s.trackers| == |t.trackers| && LogInvariant(t.log) && s.log <= t.log
    requires t.trackers == s.trackers[k := t.trackers[k]]
    requires Coherent(t.trackers[k]) && Behind(t.trackers[k].streams, t.log)
    ensures Safe(t)
  {
    forall j | 0 <= j < |t.trackers|
      ensures Coherent(t.trackers[j]) && Behind(t.trackers[j].streams, t.log)
    {
      if j != k {
        GrowthKeepsBehind(s.trackers[j].streams, s.log, t.log);
      }
    }
  }

  lemma RefreshKeepsSafe(s: System, t: System, k: nat, ids: seq<PacketID>, rebuild: bool, read: multiset<EventRecord>,
                         rule: TenantRule)
    requires Safe(s) && Next(s, t, Refresh(k, ids, rebuild, read), rule)
    ensures Safe(t) && s.log == t.log
  {
    RefreshGrows(s.trackers[k], s.log, ids, rebuild, read, t.trackers[k]);
  }

  /** A refresh keeps a cache coherent and behind the log, and loses nothing it held. */
  lemma RefreshGrows(c: Cache, log: seq<EventRecord>, ids: seq<PacketID>, rebuild: bool, read: multiset<EventRecord>,
                     after: Cache)
    requires LogInvariant(log) && Coherent(c) && Behind(c.streams, log)
    requires RefreshStep(c, log, ids, rebuild, read, after)
    ensures Coherent(after) && Behind(after.streams, log)
    ensures forall p :: StreamIn(c.streams, p) <= StreamIn(after.streams, p)
  {
    if "" !in ids {
      GlimpseLoadable(c, log, read, ids, rebuild);
      LoadKeepsCoherent(c, read, ids, rebuild, after);
      GlimpseStaysBehind(c, log, read, ids, rebuild, after);
    }
  }

  lemma StepKeepsSafe(s: System, t: System, step: Step, rule: TenantRule)
    requires Safe(s) && Next(s, t, step, rule)
    ensures Safe(t) && s.log <= t.log
  {
    match step
    case Join =>
    case Refresh(k, ids, rebuild, read) => RefreshKeepsSafe(s, t, k, ids, rebuild, read, rule);
    case DropProjection(k) =>
    case Run(k, command, now, stamps) => RunKeepsSafe(s, t, k, command, rule, now, stamps);
  }

  // ---- whole runs ---------------------------------------------------------------------------

  ghost predicate IsRun(states: seq<System>, steps: seq<Step>, rule: TenantRule) {
    && |states| == |steps| + 1 && states[0] == System([], [])
    && forall i :: 0 <= i < |steps| ==> Next(states[i], states[i + 1], steps[i], rule)
  }

  /** Every state of every interleaving: streams contiguous and replaying, links paired, every
      cache coherent and behind the log. */
  lemma {:induction false} RunsAreSafe(states: seq<System>, steps: seq<Step>, rule: TenantRule, i: nat)
    requires IsRun(states, steps, rule) && i < |states|
    ensures Safe(states[i])
    decreases i
  {
    if i == 0 {
      EmptyLogInvariant();
    } else {
      RunsAreSafe(states, steps, rule, i - 1);
      StepKeepsSafe(states[i - 1], states[i], steps[i - 1], rule);
    }
  }

  /** The log is append-only over a run. */
  lemma {:induction false} LogOnlyGrows(states: seq<System>, steps: seq<Step>, rule: TenantRule, i: nat, j: nat)
    requires IsRun(states, steps, rule) && i <= j < |states|
    ensures states[i].log <= states[j].log
    decreases j
  {
    if i < j {
      LogOnlyGrows(states, steps, rule, i, j - 1);
      LogGrowsOnce(states, steps, rule, j - 1);
    }
  }

  lemma LogGrowsOnce(states: seq<System>, steps: seq<Step>, rule: TenantRule, i: nat)
    requires IsRun(states, steps, rule) && i < |steps|
    ensures states[i].log <= states[i + 1].log
  {
    RunsAreSafe(states, steps, rule, i);
    StepKeepsSafe(states[i], states[i + 1], steps[i], rule);
  }

  lemma StepGrows(s: System, t: System, step: Step, rule: TenantRule, k: nat, p: PacketID)
    requires Safe(s) && Next(s, t, step, rule) && k < |s.trackers|
    ensures k < |t.trackers| && StreamIn(s.trackers[k].streams, p) <= StreamIn(t.trackers[k].streams, p)
  {
    match step
    case Join =>
    case Refresh(l, ids, rebuild, read) =>
      if k == l {
        RefreshGrows(s.trackers[k], s.log, ids, rebuild, read, t.trackers[k]);
      }
    case DropProjection(l) =>
    case Run(l, command, now, stamps) =>
      if k == l {
        RunGrows(s.trackers[k], s.log, command, rule, now, stamps, t.trackers[k], t.log, p);
      }
  }

  lemma RunGrows(c: Cache, log: seq<EventRecord>, command: Command, rule: TenantRule, now: Time, stamps: seq<Stamp>,
                 after: Cache, later: seq<EventRecord>, p: PacketID)
    requires Behind(c.streams, log) && |stamps| >= 3 && RunStep(c, log, command, rule, now, stamps, after, later)
    ensures StreamIn(c.streams, p) <= StreamIn(after.streams, p)
  {
    if Succeeds(c, log, command, rule, now, stamps) {
      ExtendedStream(c.streams, LocalBatch(c, command, stamps), p);
    }
  }

  /** A tracker never unreads an event: whatever it has cached it still has at every later moment,
      whichever refreshes and commands it runs and however their loads are torn. */
  lemma {:induction false} CachesOnlyGrow(states: seq<System>, steps: seq<Step>, rule: TenantRule, i: nat, j: nat,
                                          k: nat, p: PacketID)
    requires IsRun(states, steps, rule) && i <= j < |states| && k < |states[i].trackers|
    ensures k < |states[j].trackers|
    ensures StreamIn(states[i].trackers[k].streams, p) <= StreamIn(states[j].trackers[k].streams, p)
    decreases j
  {
    if i < j {
      CachesOnlyGrow(states, steps, rule, i, j - 1, k, p);
      CacheGrowsOnce(states, steps, rule, j, k, p);
    }
  }

  lemma CacheGrowsOnce(states: seq<System>, steps: seq<Step>, rule: TenantRule, j: nat, k: nat, p: PacketID)
    requires IsRun(states, steps, rule) && 0 < j < |states| && k < |states[j - 1].trackers|
    ensures k < |states[j].trackers|
    ensures StreamIn(states[j - 1].trackers[k].streams, p) <= StreamIn(states[j].trackers[k].streams, p)
  {
    RunsAreSafe(states, steps, rule, j - 1);
    StepGrows(states[j - 1], states[j], steps[j - 1], rule, k, p);
  }

  ghost predicate SucceedsAt(states: seq<System>, steps: seq<Step>, rule: TenantRule, i: nat)
    requires IsRun(states, steps, rule) && i < |steps|
  {
    && steps[i].Run? && |steps[i].stamps| >= 3 && steps[i].tracker < |states[i].trackers|
    && Succeeds(states[i].trackers[steps[i].tracker], states[i].log, steps[i].command, rule, steps[i].now,
                steps[i].stamps)
  }

  /** The version at which a command expects each packet it names: zero for one it would make. */
  function ExpectedVersion(command: Command, p: PacketID): Version {
    if command.Issue? || p != command.packetID then 0 else command.expected
  }

  lemma SuccessMovesVersion(states: seq<System>, steps: seq<Step>, rule: TenantRule, i: nat, p: PacketID)
    requires IsRun(states, steps, rule) && i < |steps| && SucceedsAt(states, steps, rule, i)
    requires p in Named(steps[i].command)
    ensures |Stream(states[i].log, p)| == ExpectedVersion(steps[i].command, p)
    ensures |Stream(states[i + 1].log, p)| > ExpectedVersion(steps[i].command, p)
  {
    RunsAreSafe(states, steps, rule, i);
    var Run(k, command, now, stamps) := steps[i];
    assert Next(states[i], states[i + 1], steps[i], rule);
    SuccessGrows(states[i].trackers[k], states[i].log, command, rule, now, stamps,
                 states[i + 1].trackers[k], states[i + 1].log, p);
  }

  lemma SuccessGrows(c: Cache, log: seq<EventRecord>, command: Command, rule: TenantRule, now: Time,
                     stamps: seq<Stamp>, after: Cache, later: seq<EventRecord>, p: PacketID)
    requires Coherent(c) && Behind(c.streams, log) && |stamps| >= 3 && p in Named(command)
    requires Succeeds(c, log, command, rule, now, stamps) && RunStep(c, log, command, rule, now, stamps, after, later)
    ensures |Stream(log, p)| == ExpectedVersion(command, p)
    ensures |Stream(later, p)| > ExpectedVersion(command, p)
  {
    StaleCommandsAreCurrent(c, log, command, rule, now, stamps);
    NamedExpected(log, command, rule, now, stamps, p);
    assert later == After(log, command, stamps);
    NamedGrows(log, command, stamps, p);
  }

  lemma NamedExpected(log: seq<EventRecord>, command: Command, rule: TenantRule, now: Time, stamps: seq<Stamp>,
                      p: PacketID)
    requires |stamps| >= 3 && Admits(log, command, rule, now, stamps) && p in Named(command)
    ensures |Stream(log, p)| == ExpectedVersion(command, p)
  {
  }

  /** One winner: of all commands that name a packet at one expected version, by any trackers, at
      most one ever appends. A packet is named by what would take, move, comment on or supersede it
      and, at version zero, by whatever would make it: an issue, or a supersession of any parent. */
  lemma OneWinner(states: seq<System>, steps: seq<Step>, rule: TenantRule, i: nat, j: nat, p: PacketID)
    requires IsRun(states, steps, rule) && i < |steps| && j < |steps|
    requires SucceedsAt(states, steps, rule, i) && SucceedsAt(states, steps, rule, j)
    requires p in Named(steps[i].command) && p in Named(steps[j].command)
    requires ExpectedVersion(steps[i].command, p) == ExpectedVersion(steps[j].command, p)
    ensures i == j
  {
    if i < j {
      LaterFails(states, steps, rule, i, j, p);
    }
    if j < i {
      LaterFails(states, steps, rule, j, i, p);
    }
  }

  lemma LaterFails(states: seq<System>, steps: seq<Step>, rule: TenantRule, i: nat, j: nat, p: PacketID)
    requires IsRun(states, steps, rule) && i < j < |steps|
    requires SucceedsAt(states, steps, rule, i) && SucceedsAt(states, steps, rule, j)
    requires p in Named(steps[i].command) && p in Named(steps[j].command)
    ensures ExpectedVersion(steps[i].command, p) < ExpectedVersion(steps[j].command, p)
  {
    VersionPassed(states, steps, rule, i, j, p);
    assert |Stream(states[j].log, p)| == ExpectedVersion(steps[j].command, p) by {
      SuccessMovesVersion(states, steps, rule, j, p);
    }
  }

  lemma VersionPassed(states: seq<System>, steps: seq<Step>, rule: TenantRule, i: nat, j: nat, p: PacketID)
    requires IsRun(states, steps, rule) && i < j < |states| && SucceedsAt(states, steps, rule, i)
    requires p in Named(steps[i].command)
    ensures |Stream(states[j].log, p)| > ExpectedVersion(steps[i].command, p)
  {
    SuccessMovesVersion(states, steps, rule, i, p);
    StreamsOnlyGrow(states, steps, rule, i + 1, j, p);
  }

  lemma StreamsOnlyGrow(states: seq<System>, steps: seq<Step>, rule: TenantRule, i: nat, j: nat, p: PacketID)
    requires IsRun(states, steps, rule) && i <= j < |states|
    ensures Stream(states[i].log, p) <= Stream(states[j].log, p)
  {
    LogOnlyGrows(states, steps, rule, i, j);
    StreamGrows(states[i].log, states[j].log, p);
  }

  lemma StreamGrows(log: seq<EventRecord>, later: seq<EventRecord>, p: PacketID)
    requires log <= later
    ensures Stream(log, p) <= Stream(later, p)
  {
    Growth(log, later);
    StreamConcat(log, later[|log|..], p);
  }

  /** After a command succeeds its tracker's touched streams are exactly the store's. */
  lemma WinnersAreCurrent(states: seq<System>, steps: seq<Step>, rule: TenantRule, i: nat, p: PacketID)
    requires IsRun(states, steps, rule) && i < |steps| && SucceedsAt(states, steps, rule, i)
    requires p in Named(steps[i].command)
    ensures StreamIn(states[i + 1].trackers[steps[i].tracker].streams, p) == Stream(states[i + 1].log, p)
    ensures Replay(Stream(states[i + 1].log, p)).Ok?
  {
    RunsAreSafe(states, steps, rule, i);
    RunsAreSafe(states, steps, rule, i + 1);
    var c, command := states[i].trackers[steps[i].tracker], steps[i].command;
    var status := if command.packetID in c.projection then c.projection[command.packetID].status else Unset;
    NamedTouched(command, status, steps[i].stamps);
    assert Next(states[i], states[i + 1], steps[i], rule);
    CommitStaysBehind(c.streams, states[i].log, LocalBatch(c, command, steps[i].stamps));
  }

  /** Once a packet is issued its tenant, body and parent are fixed, and a closed packet takes
      nothing but comments, for the rest of the run. */
  lemma IssuedStaysFrozen(states: seq<System>, steps: seq<Step>, rule: TenantRule, i: nat, j: nat, p: PacketID)
    requires IsRun(states, steps, rule) && i <= j < |states| && Stream(states[i].log, p) != []
    ensures Frozen(PacketIn(states[i].log, p), PacketIn(states[j].log, p))
  {
    RunsAreSafe(states, steps, rule, i);
    RunsAreSafe(states, steps, rule, j);
    LogOnlyGrows(states, steps, rule, i, j);
    FrozenBetween(states[i].log, states[j].log, p);
  }

  lemma FrozenBetween(log: seq<EventRecord>, later: seq<EventRecord>, p: PacketID)
    requires StoreLog(log) && Replays(log) && Replays(later) && log <= later && Stream(log, p) != []
    ensures Frozen(PacketIn(log, p), PacketIn(later, p))
  {
    StreamGrows(log, later, p);
    PrefixFrozen(Stream(log, p), Stream(later, p));
  }

  /** Between steps every packet is settled and ages by at most six events besides comments. */
  lemma PacketsAreSettled(states: seq<System>, steps: seq<Step>, rule: TenantRule, i: nat, p: PacketID)
    requires IsRun(states, steps, rule) && i < |states| && Stream(states[i].log, p) != []
    ensures Settled(PacketIn(states[i].log, p))
    ensures |Stream(states[i].log, p)| <= |PacketIn(states[i].log, p).comments| + 6
  {
    RunsAreSafe(states, steps, rule, i);
    PacketInLawful(states[i].log, p);
    VersionBound(Stream(states[i].log, p));
  }

  // ---- links in a cache -----------------------------------------------------------------------

  /** What a cache shows of a packet: nothing of one it does not hold. */
  ghost function Shown(c: Cache, id: PacketID): Packet {
    if id in c.projection then c.projection[id] else NO_PACKET
  }

  ghost predicate CachePaired(c: Cache) {
    forall parent, child :: parent != "" && child != "" ==>
      (Shown(c, child).parentID == parent <==> Shown(c, parent).supersededBy == child)
  }

  /** Every replacement a cached packet names is cached, and every cached replacement's parent is
      cached up to its supersession. */
  ghost predicate LinksLoaded(c: Cache) {
    && (forall p :: p in c.projection && c.projection[p].supersededBy != "" ==>
          c.projection[p].supersededBy in c.projection)
    && (forall q :: q in c.projection && c.projection[q].parentID != "" ==>
          Shown(c, c.projection[q].parentID).supersededBy != "")
  }

  lemma CachedAsLogged(c: Cache, log: seq<EventRecord>, p: PacketID)
    requires LogInvariant(log) && Coherent(c) && c.ready && Behind(c.streams, log) && p in c.projection
    ensures p != "" && c.projection[p].parentID == PacketIn(log, p).parentID
    ensures c.projection[p].supersededBy != "" ==> c.projection[p].supersededBy == PacketIn(log, p).supersededBy
  {
    LogOwns(log, p, 0);
    PrefixFrozen(c.streams[p], Stream(log, p));
  }

  lemma PrefixFrozen(early: seq<Event>, late: seq<Event>)
    requires early != [] && early <= late && Replay(late).Ok?
    ensures Replay(early).Ok? && Frozen(Replay(early).value, Replay(late).value)
  {
    var more := late[|early|..];
    assert late == early + more;
    FoldConcat(NO_PACKET, early, more);
    ReplayLawful(early);
    FoldFrozen(Replay(early).value, more);
  }

  lemma LoadedLinkPaired(c: Cache, log: seq<EventRecord>, parent: PacketID, child: PacketID)
    requires LogInvariant(log) && Coherent(c) && c.ready && Behind(c.streams, log) && LinksLoaded(c)
    requires parent != "" && child != ""
    ensures Shown(c, child).parentID == parent <==> Shown(c, parent).supersededBy == child
  {
    assert LinkedPair(log, parent, child);
    if child in c.projection {
      CachedAsLogged(c, log, child);
    }
    if parent in c.projection {
      CachedAsLogged(c, log, parent);
    }
  }

  /** Exactly when the links of a cache pair up, for any cache behind the log. */
  lemma CachedLinksPair(c: Cache, log: seq<EventRecord>)
    requires LogInvariant(log) && Coherent(c) && c.ready && Behind(c.streams, log)
    ensures CachePaired(c) <==> LinksLoaded(c)
  {
    if LinksLoaded(c) {
      forall parent, child | parent != "" && child != ""
        ensures Shown(c, child).parentID == parent <==> Shown(c, parent).supersededBy == child
      {
        LoadedLinkPaired(c, log, parent, child);
      }
    }
    if CachePaired(c) {
      forall p | p in c.projection
        ensures p != ""
      {
        CachedAsLogged(c, log, p);
      }
      PairedIsLoaded(c);
    }
  }

  lemma PairedIsLoaded(c: Cache)
    requires CachePaired(c) && forall p :: p in c.projection ==> p != ""
    ensures LinksLoaded(c)
  {
    forall p | p in c.projection && c.projection[p].supersededBy != ""
      ensures c.projection[p].supersededBy in c.projection
    {
      var q := c.projection[p].supersededBy;
      assert Shown(c, q).parentID == p <==> Shown(c, p).supersededBy == q;
    }
    forall q | q in c.projection && c.projection[q].parentID != ""
      ensures Shown(c, c.projection[q].parentID).supersededBy != ""
    {
      var p := c.projection[q].parentID;
      assert Shown(c, q).parentID == p <==> Shown(c, p).supersededBy == q;
    }
  }

  /** The trap in the cache: a tracker that has loaded a superseded packet alone holds the link
      to a replacement it does not hold. Links pair up in the log, not in every cache. */
  lemma CachedLinksMayBeOneSided(log: seq<EventRecord>, parent: PacketID, c: Cache)
    requires LogInvariant(log) && PacketIn(log, parent).supersededBy != ""
    requires AtomicRefresh(EMPTY_CACHE, log, [parent], true, c)
    ensures parent in c.projection && c.projection[parent].supersededBy == PacketIn(log, parent).supersededBy
    ensures c.projection[parent].supersededBy !in c.projection
  {
    var child := PacketIn(log, parent).supersededBy;
    assert parent != "" && parent != child && Stream(log, parent) != [] && child != "" by {
      LogOwns(log, parent, 0);
      NextBorn(log, parent);
    }
    LoadedAlone(EMPTY_CACHE, log, parent, c);
    assert StreamIn(c.streams, parent) == Stream(log, parent);
    assert StreamIn(c.streams, child) == [];
  }

  lemma LoadedAlone(empty: Cache, log: seq<EventRecord>, id: PacketID, c: Cache)
    requires empty == EMPTY_CACHE && LogInvariant(log) && id != "" && AtomicRefresh(empty, log, [id], true, c)
    ensures Coherent(c) && c.ready
    ensures forall p :: StreamIn(c.streams, p) == if p == id then Stream(log, p) else []
  {
    assert Loadable(empty, multiset(LoadOf(log, [id])), [id], true) by {
      LogLoadable(empty, log, [id], true);
    }
    assert Coherent(c) by {
      LoadKeepsCoherent(empty, multiset(LoadOf(log, [id])), [id], true, c);
    }
    assert RefreshedFrom(empty.streams, log, [id], c.streams) by {
      RefreshStaysBehind(empty, log, [id], true, c);
    }
    assert forall p :: Targets([id], p) <==> p == id;
  }
}
