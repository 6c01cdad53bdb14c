/** Runs of any number of trackers over Firestore's documents and counters: each is a run over the
    in-memory log. */
module FirestoreRuns {
  import opened Basics
  import opened PacketTypes
  import opened Lifecycle
  import opened EventLog
  import opened TrackerCache
  import opened Commands
  import opened Supersession
  import opened FirestoreStore
  import opened Protocol

  /** Everything there is over Firestore. Nothing in it says in which order events came. */
  datatype Cloud = Cloud(events: map<EventID, EventDocument>, streams: map<PacketID, int>, trackers: seq<Cache>)

  // ---- one step, in terms of documents and counters alone ------------------------------------

  /** What one query may return: each document that answers it, decoded, in any order. */
  ghost predicate Returns(events: map<EventID, EventDocument>, ids: seq<PacketID>, returned: seq<EventRecord>) {
    && NoRepeats(returned)
    && forall r :: r in returned <==> Stored(events, r) && (ids == [] || r.packetID in ids)
  }

  /** What a load of named packets reads when the query for each is answered at a moment of its own,
      from one moment to another. */
  ghost predicate ReadsTorn(clouds: seq<Cloud>, from: nat, to: nat, ids: seq<PacketID>, at: map<PacketID, nat>,
                            read: multiset<EventRecord>)
    requires from <= to < |clouds|
  {
    && at.Keys == IDSet(ids) && (forall p :: p in at ==> from <= at[p] <= to)
    && forall r: EventRecord ::
         read[r] == Once(r.packetID in at && Stored(clouds[at[r.packetID]].events, r))
  }

  /** What a load may read that began at one moment and ended at another. A full load is one query;
      packets named are one query each. */
  ghost predicate Reads(clouds: seq<Cloud>, from: nat, to: nat, ids: seq<PacketID>, read: multiset<EventRecord>)
    requires from <= to < |clouds|
  {
    if ids == [] then
      exists n: nat, returned ::
        from <= n <= to && Returns(clouds[n].events, ids, returned) && multiset(returned) == read
    else exists at: map<PacketID, nat> :: ReadsTorn(clouds, from, to, ids, at, read)
  }

  ghost predicate Stored(events: map<EventID, EventDocument>, r: EventRecord) {
    exists id :: id in events && DecodeRecord(events[id]) == Some(r)
  }

  /** Exactly when the transaction of one append goes through. */
  ghost predicate Commits(w: Cloud, expected: map<PacketID, Version>, batch: seq<EventRecord>) {
    && Positioned(expected, batch) && Complete(batch) && UniqueEventIDs(batch)
    && (forall p :: p in expected ==> Counter(w.streams, p) == expected[p] && p !in Poisoned(w.streams))
    && (forall i :: 0 <= i < |batch| ==> batch[i].event.meta.id !in w.events)
  }

  /** The documents once a batch is created beside them. */
  ghost predicate Created(events: map<EventID, EventDocument>, batch: seq<EventRecord>,
                          after: map<EventID, EventDocument>)
  {
    && after.Keys == events.Keys + EventIDs(batch)
    && (forall id :: id in events ==> after[id] == events[id])
    && (forall i :: 0 <= i < |batch| ==> after[batch[i].event.meta.id] == DocumentOf(batch[i]))
  }

  /** A refresh that began at one moment and installs what it read at another. */
  ghost predicate CloudRefresh(clouds: seq<Cloud>, from: nat, to: nat, c: Cache, ids: seq<PacketID>, rebuild: bool,
                               read: multiset<EventRecord>, after: Cache)
    requires from <= to < |clouds|
  {
    && (rebuild && ids != [] ==> c.ready) && (!rebuild ==> !c.ready)
    && if "" in ids then after == c
       else
         && Reads(clouds, from, to, ids, read)
         && if Loadable(c, read, ids, rebuild) then LoadedInto(c, read, ids, rebuild, after) else after == c
  }

  ghost predicate CloudSucceeds(w: Cloud, c: Cache, command: Command, rule: TenantRule, now: Time, stamps: seq<Stamp>)
    requires |stamps| >= 3
  {
    var events := LocalBatch(c, command, stamps);
    && LocallyAsked(c, command, rule, now) && Foldable(c, events)
    && Commits(w, VersionsSeen(c.streams, events), RecordsFor(c.streams, events))
  }

  /** A command after its refresh. A refused append may refresh the packets it touched. */
  ghost predicate CloudRun(w: Cloud, v: Cloud, c: Cache, command: Command, rule: TenantRule, now: Time,
                           stamps: seq<Stamp>, after: Cache)
    requires |stamps| >= 3
  {
    var events := LocalBatch(c, command, stamps);
    if CloudSucceeds(w, c, command, rule, now, stamps) then
      && Created(w.events, RecordsFor(c.streams, events), v.events)
      && v.streams == w.streams + FinalVersions(VersionsSeen(c.streams, events), RecordsFor(c.streams, events))
      && after.streams == Extended(c.streams, events) && after.ready && Coherent(after)
    else
      && v.events == w.events && v.streams == w.streams
      && (after == c || exists touched :: CatchesUp(w.events, c, events, touched, after))
  }

  // A catch-up whose queries are answered later is a refresh of its own.
  ghost predicate CatchesUp(documents: map<EventID, EventDocument>, c: Cache, events: seq<Event>,
                            touched: seq<PacketID>, after: Cache)
  {
    && c.ready && (forall p :: Touches(events, p) <==> Targets(touched, p)) && "" !in touched
    && exists returned ::
         && Returns(documents, touched, returned)
         && if Loadable(c, multiset(returned), touched, true) then
              LoadedInto(c, multiset(returned), touched, true, after)
            else after == c
  }

  /** One step, begun at one moment and ended at another. All but a refresh begin and end at once. */
  ghost predicate CloudNext(clouds: seq<Cloud>, from: nat, to: nat, step: Step, rule: TenantRule)
    requires from <= to && to + 1 < |clouds|
  {
    var w, v := clouds[to], clouds[to + 1];
    match step
    case Join => v == w.(trackers := w.trackers + [EMPTY_CACHE])
    case Refresh(k, ids, rebuild, read) =>
      k < |w.trackers| == |v.trackers| && v == w.(trackers := w.trackers[k := v.trackers[k]])
      && k < |clouds[from].trackers| && CloudRefresh(clouds, from, to, w.trackers[k], ids, rebuild, read, v.trackers[k])
    case DropProjection(k) =>
      k < |w.trackers| && v == w.(trackers := w.trackers[k := Cache(w.trackers[k].streams, map[], {}, false)])
    case Run(k, command, now, stamps) =>
      k < |w.trackers| && |v.trackers| == |w.trackers| && |stamps| >= 3
      && v.trackers == w.trackers[k := v.trackers[k]]
      && CloudRun(w, v, w.trackers[k], command, rule, now, stamps, v.trackers[k])
  }

  // ---- the log the documents stand for ---------------------------------------------------------

  /** The same trackers over an ordered log that the documents and counters stand for, with no
      counter poisoned. */
  ghost predicate StandsFor(w: Cloud, s: System) {
    && w.trackers == s.trackers && Safe(s)
    && Documents(w.events, s.log) && Counters(w.streams, s.log) && Poisoned(w.streams) == {}
  }

  lemma StoredIsLogged(events: map<EventID, EventDocument>, log: seq<EventRecord>, r: EventRecord)
    requires Documents(events, log) && StoreLog(log)
    ensures Stored(events, r) <==> r in log
  {
    if Stored(events, r) {
      var id :| id in events && DecodeRecord(events[id]) == Some(r);
      DocumentIsLogged(events, log, id, r);
    }
    if r in log {
      var k :| 0 <= k < |log| && log[k] == r;
      assert PlacedAt(log, k);
      DocumentRoundTrip(r);
      assert events[r.event.meta.id] == DocumentOf(r);
    }
  }

  lemma DocumentIsLogged(events: map<EventID, EventDocument>, log: seq<EventRecord>, id: EventID, r: EventRecord)
    requires Documents(events, log) && StoreLog(log) && id in events && DecodeRecord(events[id]) == Some(r)
    ensures r in log
  {
    var e :| e in log && e.event.meta.id == id;
    var k :| 0 <= k < |log| && log[k] == e;
    assert PlacedAt(log, k);
    DocumentRoundTrip(e);
  }

  /** Whatever order a load comes back in, it is the in-memory store's load. */
  lemma LoadsAlike(events: map<EventID, EventDocument>, log: seq<EventRecord>, ids: seq<PacketID>,
                   returned: seq<EventRecord>)
    requires Documents(events, log) && StoreLog(log) && Returns(events, ids, returned)
    ensures multiset(returned) == multiset(LoadOf(log, ids))
  {
    var loaded := LoadOf(log, ids);
    LoadedOnce(log, ids);
    forall r
      ensures r in returned <==> r in loaded
    {
      StoredIsLogged(events, log, r);
    }
    SameRecords(returned, loaded);
  }

  lemma LoadedOnce(log: seq<EventRecord>, ids: seq<PacketID>)
    requires StoreLog(log)
    ensures NoRepeats(LoadOf(log, ids))
    ensures forall r :: r in LoadOf(log, ids) <==> r in log && (ids == [] || r.packetID in ids)
  {
    if ids != [] {
      OnlyDistinct(log, IDSet(ids));
    } else {
      forall i, j | 0 <= i < j < |log|
        ensures log[i] != log[j]
      {
        assert log[i].event.meta.id != log[j].event.meta.id;
      }
    }
  }

  /** Where a log has a record of a packet is where that packet's stream has its event. */
  lemma LoggedOccurs(log: seq<EventRecord>, r: EventRecord)
    requires StoreLog(log)
    ensures r in log <==> 1 <= r.streamVersion <= |Stream(log, r.packetID)|
                          && Stream(log, r.packetID)[r.streamVersion - 1] == r.event
  {
    var p := r.packetID;
    var only := Only(log, IDSet([p]));
    assert r in only <==> r in log by {
      LoadedOnce(log, [p]);
    }
    assert multiset(only)[r] == Once(Occurs(StreamsOf(log, IDSet([p])), r)) by {
      OnlyRepresents(log, IDSet([p]));
    }
    assert r in only <==> Occurs(StreamsOf(log, IDSet([p])), r);
    assert p in IDSet([p]);
  }

  /** The logs that the documents stood for at each moment of a refresh, the last the longest. */
  ghost predicate Moments(clouds: seq<Cloud>, states: seq<System>, from: nat, to: nat, c: Cache) {
    && from <= to < |clouds| && to < |states|
    && forall m :: from <= m <= to ==>
         && Documents(clouds[m].events, states[m].log) && StoreLog(states[m].log) && Behind(c.streams, states[m].log)
         && states[m].log <= states[to].log
  }

  // What each named packet's query found.
  ghost function Seen(states: seq<System>, at: map<PacketID, nat>): Streams
    requires forall p :: p in at ==> at[p] < |states|
  {
    map p | p in at && Stream(states[at[p]].log, p) != [] :: Stream(states[at[p]].log, p)
  }

  lemma TornRepresents(clouds: seq<Cloud>, states: seq<System>, from: nat, to: nat, c: Cache, ids: seq<PacketID>,
                       at: map<PacketID, nat>, read: multiset<EventRecord>)
    requires Moments(clouds, states, from, to, c) && ReadsTorn(clouds, from, to, ids, at, read)
    ensures Represents(read, Seen(states, at))
  {
    var seen := Seen(states, at);
    forall r: EventRecord
      ensures read[r] == Once(Occurs(seen, r))
    {
      if r.packetID in at {
        var m := at[r.packetID];
        SeenOccurs(clouds[m].events, states[m].log, seen, r);
      }
    }
  }

  lemma OccursLogged(log: seq<EventRecord>, seen: Streams, r: EventRecord)
    requires StoreLog(log) && StreamIn(seen, r.packetID) == Stream(log, r.packetID)
    ensures Occurs(seen, r) <==> r in log
  {
    LoggedOccurs(log, r);
  }

  lemma SeenOccurs(events: map<EventID, EventDocument>, log: seq<EventRecord>, seen: Streams, r: EventRecord)
    requires Documents(events, log) && StoreLog(log) && StreamIn(seen, r.packetID) == Stream(log, r.packetID)
    ensures Stored(events, r) == Occurs(seen, r)
  {
    StoredIsLogged(events, log, r);
    OccursLogged(log, seen, r);
  }

  lemma TornGlimpsed(clouds: seq<Cloud>, states: seq<System>, from: nat, to: nat, c: Cache, ids: seq<PacketID>,
                     at: map<PacketID, nat>)
    requires Moments(clouds, states, from, to, c) && ids != [] && at.Keys == IDSet(ids)
    requires forall p :: p in at ==> from <= at[p] <= to
    ensures Glimpsed(c, states[to].log, ids, Seen(states, at))
  {
    var seen, log := Seen(states, at), states[to].log;
    forall p | Targets(ids, p)
      ensures StreamIn(seen, p) <= Stream(log, p) && StreamIn(c.streams, p) <= StreamIn(seen, p)
    {
      assert p in at;
      StreamGrows(states[at[p]].log, log, p);
    }
    forall p | p in seen
      ensures Targets(ids, p)
    {
      assert p in IDSet(ids);
    }
  }

  lemma QueryGlimpsed(clouds: seq<Cloud>, states: seq<System>, from: nat, to: nat, c: Cache, n: nat,
                      returned: seq<EventRecord>)
    requires Moments(clouds, states, from, to, c) && from <= n <= to && Returns(clouds[n].events, [], returned)
    ensures Grouped(multiset(returned)).Some?
    ensures Glimpsed(c, states[to].log, [], Grouped(multiset(returned)).value)
  {
    var log := states[to].log;
    LoadsAlike(clouds[n].events, states[n].log, [], returned);
    LoadGlimpsed(c, states[n].log, []);
    LoadedStreams(states[n].log, []);
    var loaded: Streams := Grouped(multiset(returned)).value;
    assert log[..|states[n].log|] == states[n].log;
    GrowthKeepsBehind(loaded, states[n].log, log);
  }

  lemma ReadsGlimpsed(clouds: seq<Cloud>, states: seq<System>, from: nat, to: nat, c: Cache, ids: seq<PacketID>,
                      read: multiset<EventRecord>)
    requires Moments(clouds, states, from, to, c) && Reads(clouds, from, to, ids, read)
    ensures Grouped(read).Some? && Glimpsed(c, states[to].log, ids, Grouped(read).value)
  {
    if ids == [] {
      var n: nat, returned :|
        from <= n <= to && Returns(clouds[n].events, ids, returned) && multiset(returned) == read;
      QueryGlimpsed(clouds, states, from, to, c, n, returned);
    } else {
      var at: map<PacketID, nat> :| ReadsTorn(clouds, from, to, ids, at, read);
      TornRepresents(clouds, states, from, to, c, ids, at, read);
      GroupedIs(read, Seen(states, at));
      TornGlimpsed(clouds, states, from, to, c, ids, at);
    }
  }

  /** However a load is torn, the refresh is one over the log. */
  lemma RefreshesAlike(clouds: seq<Cloud>, states: seq<System>, from: nat, to: nat, c: Cache, ids: seq<PacketID>,
                       rebuild: bool, read: multiset<EventRecord>, after: Cache)
    requires Moments(clouds, states, from, to, c) && CloudRefresh(clouds, from, to, c, ids, rebuild, read, after)
    ensures RefreshStep(c, states[to].log, ids, rebuild, read, after)
  {
    if "" !in ids {
      ReadsGlimpsed(clouds, states, from, to, c, ids, read);
    }
  }

  lemma CommitsAlike(w: Cloud, s: System, expected: map<PacketID, Version>, batch: seq<EventRecord>)
    requires StandsFor(w, s)
    ensures Commits(w, expected, batch) <==> FirestoreTakes(s.log, w.streams, expected, batch)
  {
    assert forall p :: Counter(w.streams, p) == |Stream(s.log, p)|;
    assert w.events.Keys == EventIDs(s.log);
    assert EventIDs(s.log) !! EventIDs(batch)
      <==> forall i :: 0 <= i < |batch| ==> batch[i].event.meta.id !in w.events by {
      forall i | 0 <= i < |batch|
        ensures batch[i].event.meta.id in EventIDs(batch)
      {
        assert batch[i] in batch;
      }
    }
  }

  lemma SucceedsAlike(w: Cloud, s: System, c: Cache, command: Command, rule: TenantRule, now: Time, stamps: seq<Stamp>)
    requires StandsFor(w, s) && |stamps| >= 3
    ensures CloudSucceeds(w, c, command, rule, now, stamps) <==> Succeeds(c, s.log, command, rule, now, stamps)
  {
    var events := LocalBatch(c, command, stamps);
    if Foldable(c, events) {
      CommitsAlike(w, s, VersionsSeen(c.streams, events), RecordsFor(c.streams, events));
      StoresAgree(c, s.log, events, w.streams);
      BatchAccepted(c, s.log, events);
    }
  }

  lemma CreatedDocuments(events: map<EventID, EventDocument>, log: seq<EventRecord>, batch: seq<EventRecord>,
                         after: map<EventID, EventDocument>)
    requires Documents(events, log) && Created(events, batch, after)
    ensures Documents(after, log + batch)
  {
    assert forall r :: r in log + batch <==> r in log || r in batch;
    forall i | 0 <= i < |log + batch|
      ensures (log + batch)[i].event.meta.id in after
      ensures after[(log + batch)[i].event.meta.id] == DocumentOf((log + batch)[i])
    {
      if i >= |log| {
        assert (log + batch)[i] == batch[i - |log|] && batch[i - |log|] in batch;
      }
    }
  }

  lemma CatchUpAlike(documents: map<EventID, EventDocument>, log: seq<EventRecord>, c: Cache, events: seq<Event>,
                     touched: seq<PacketID>, after: Cache)
    requires Documents(documents, log) && StoreLog(log) && Coherent(c) && Behind(c.streams, log)
    requires CatchesUp(documents, c, events, touched, after)
    ensures CaughtUp(c, after, log, events) && after.ready && Coherent(after)
  {
    var returned :|
      && Returns(documents, touched, returned)
      && if Loadable(c, multiset(returned), touched, true) then LoadedInto(c, multiset(returned), touched, true, after)
         else after == c;
    LoadsAlike(documents, log, touched, returned);
    if Loadable(c, multiset(LoadOf(log, touched)), touched, true) {
      LoadKeepsCoherent(c, multiset(LoadOf(log, touched)), touched, true, after);
      RefreshStaysBehind(c, log, touched, true, after);
    }
  }

  /** A run step over the documents is one over the log, and what it leaves stands for what that
      leaves. */
  lemma RunsAlike(w: Cloud, v: Cloud, s: System, k: nat, command: Command, rule: TenantRule, now: Time,
                  stamps: seq<Stamp>) returns (later: seq<EventRecord>)
    requires StandsFor(w, s) && k < |w.trackers| == |v.trackers| && |stamps| >= 3
    requires CloudRun(w, v, w.trackers[k], command, rule, now, stamps, v.trackers[k])
    ensures RunStep(s.trackers[k], s.log, command, rule, now, stamps, v.trackers[k], later)
    ensures Documents(v.events, later) && Counters(v.streams, later) && Poisoned(v.streams) == {}
  {
    var c, after, events := w.trackers[k], v.trackers[k], LocalBatch(w.trackers[k], command, stamps);
    SucceedsAlike(w, s, c, command, rule, now, stamps);
    if Succeeds(c, s.log, command, rule, now, stamps) {
      later := s.log + RecordsFor(c.streams, events);
      CreatedDocuments(w.events, s.log, RecordsFor(c.streams, events), v.events);
      CountersAlike(w, s, c, events, v.streams);
    } else {
      later := s.log;
      if after != c {
        var touched :| CatchesUp(w.events, c, events, touched, after);
        CatchUpAlike(w.events, s.log, c, events, touched, after);
      }
    }
  }

  lemma CountersAlike(w: Cloud, s: System, c: Cache, events: seq<Event>, after: map<PacketID, int>)
    requires StandsFor(w, s) && Foldable(c, events) && |events| > 0 && Committable(c, s.log, events)
    requires after == w.streams + FinalVersions(VersionsSeen(c.streams, events), RecordsFor(c.streams, events))
    ensures Counters(after, s.log + RecordsFor(c.streams, events)) && Poisoned(after) == {}
  {
    StoresAgree(c, s.log, events, w.streams);
    BatchAccepted(c, s.log, events);
    CountersAdvance(w.streams, s.log, VersionsSeen(c.streams, events), RecordsFor(c.streams, events));
  }

  lemma RefreshIsNext(s: System, trackers: seq<Cache>, step: Step, rule: TenantRule)
    requires step.Refresh? && step.tracker < |s.trackers| == |trackers|
    requires trackers == s.trackers[step.tracker := trackers[step.tracker]]
    ensures Next(s, s.(trackers := trackers), step, rule)
         == RefreshStep(s.trackers[step.tracker], s.log, step.ids, step.rebuild, step.read, trackers[step.tracker])
  {
  }

  /** Every step of trackers over Firestore is the same step over the in-memory log. */
  lemma StepsAlike(clouds: seq<Cloud>, states: seq<System>, from: nat, to: nat, step: Step, rule: TenantRule)
    returns (t: System)
    requires from <= to < |states| && to + 1 < |clouds| && StandsFor(clouds[to], states[to])
    requires CloudNext(clouds, from, to, step, rule)
    requires step.Refresh? ==> Moments(clouds, states, from, to, clouds[to].trackers[step.tracker])
    ensures Next(states[to], t, step, rule) && StandsFor(clouds[to + 1], t) && states[to].log <= t.log
  {
    var w, v, s := clouds[to], clouds[to + 1], states[to];
    t := s.(trackers := v.trackers);
    match step {
      case Join =>
      case Refresh(k, ids, rebuild, read) =>
        RefreshesAlike(clouds, states, from, to, w.trackers[k], ids, rebuild, read, v.trackers[k]);
        RefreshIsNext(s, v.trackers, step, rule);
      case DropProjection(k) =>
      case Run(k, command, now, stamps) =>
        var later := RunsAlike(w, v, s, k, command, rule, now, stamps);
        t := System(later, v.trackers);
    }
    StepKeepsSafe(s, t, step, rule);
  }

  // ---- whole runs --------------------------------------------------------------------------------

  ghost predicate By(step: Step, tracker: nat) {
    !step.Join? && step.tracker == tracker
  }

  /** A tracker does one thing at a time: while step i is under way it takes no other. */
  ghost predicate Alone(steps: seq<Step>, from: nat, i: nat) {
    from <= i < |steps| && (steps[i].Join? || forall m :: from <= m < i ==> !By(steps[m], steps[i].tracker))
  }

  /** Step i began in state since[i] and ends in state i + 1. */
  ghost predicate Took(clouds: seq<Cloud>, steps: seq<Step>, since: seq<nat>, rule: TenantRule, i: nat)
    requires |clouds| == |steps| + 1 && |since| == |steps| && i < |steps|
  {
    Alone(steps, since[i], i) && CloudNext(clouds, since[i], i, steps[i], rule)
  }

  ghost predicate IsCloudRun(clouds: seq<Cloud>, steps: seq<Step>, since: seq<nat>, rule: TenantRule) {
    && |clouds| == |steps| + 1 && |since| == |steps| && clouds[0] == Cloud(map[], map[], [])
    && forall i :: 0 <= i < |steps| ==> Took(clouds, steps, since, rule, i)
  }

  lemma OthersKeep(clouds: seq<Cloud>, from: nat, to: nat, step: Step, rule: TenantRule, k: nat)
    requires from <= to && to + 1 < |clouds| && CloudNext(clouds, from, to, step, rule)
    requires k < |clouds[to].trackers| && !By(step, k)
    ensures k < |clouds[to + 1].trackers| && clouds[to + 1].trackers[k] == clouds[to].trackers[k]
  {
  }

  // A tracker that takes no step keeps its cache.
  lemma {:induction false} IdleKeeps(clouds: seq<Cloud>, steps: seq<Step>, since: seq<nat>, rule: TenantRule, k: nat,
                                     from: nat, i: nat)
    requires IsCloudRun(clouds, steps, since, rule) && from <= i < |clouds| && k < |clouds[from].trackers|
    requires forall m :: from <= m < i ==> !By(steps[m], k)
    ensures k < |clouds[i].trackers| && clouds[i].trackers[k] == clouds[from].trackers[k]
    decreases i
  {
    if from < i {
      IdleKeeps(clouds, steps, since, rule, k, from, i - 1);
      assert Took(clouds, steps, since, rule, i - 1);
      OthersKeep(clouds, since[i - 1], i - 1, steps[i - 1], rule, k);
    }
  }

  /** The first n steps are steps over the log. */
  ghost predicate Simulated(clouds: seq<Cloud>, steps: seq<Step>, rule: TenantRule, states: seq<System>, n: nat)
    requires |clouds| == |steps| + 1 && n <= |steps|
    decreases n
  {
    && |states| == n + 1 && StandsFor(clouds[n], states[n])
    && if n == 0 then states[0] == System([], [])
       else
         && Next(states[n - 1], states[n], steps[n - 1], rule) && states[n - 1].log <= states[n].log
         && Simulated(clouds, steps, rule, states[..n], n - 1)
  }

  lemma {:induction false} SimulatedStands(clouds: seq<Cloud>, steps: seq<Step>, rule: TenantRule, states: seq<System>,
                                           n: nat, i: nat)
    requires |clouds| == |steps| + 1 && i <= n <= |steps| && Simulated(clouds, steps, rule, states, n)
    ensures |states| == n + 1 && StandsFor(clouds[i], states[i]) && states[i].log <= states[n].log
    decreases n
  {
    if i < n {
      SimulatedStands(clouds, steps, rule, states[..n], n - 1, i);
      assert states[..n][i] == states[i] && states[..n][n - 1] == states[n - 1];
    }
  }

  lemma {:induction false} SimulatedNext(clouds: seq<Cloud>, steps: seq<Step>, rule: TenantRule, states: seq<System>,
                                         n: nat, i: nat)
    requires |clouds| == |steps| + 1 && i < n <= |steps| && Simulated(clouds, steps, rule, states, n)
    ensures |states| == n + 1 && states[0] == System([], []) && Next(states[i], states[i + 1], steps[i], rule)
    decreases n
  {
    if i < n - 1 {
      SimulatedNext(clouds, steps, rule, states[..n], n - 1, i);
      assert states[..n][i] == states[i] && states[..n][i + 1] == states[i + 1];
    }
    SimulatedStart(clouds, steps, rule, states, n);
  }

  lemma {:induction false} SimulatedStart(clouds: seq<Cloud>, steps: seq<Step>, rule: TenantRule, states: seq<System>,
                                          n: nat)
    requires |clouds| == |steps| + 1 && n <= |steps| && Simulated(clouds, steps, rule, states, n)
    ensures |states| == n + 1 && states[0] == System([], [])
    decreases n
  {
    if n > 0 {
      SimulatedStart(clouds, steps, rule, states[..n], n - 1);
      assert states[..n][0] == states[0];
    }
  }

  // While a refresh was under way its tracker held still and the log only grew.
  lemma MomentsStand(clouds: seq<Cloud>, steps: seq<Step>, since: seq<nat>, rule: TenantRule, states: seq<System>,
                     n: nat)
    requires IsCloudRun(clouds, steps, since, rule) && n < |steps| && Simulated(clouds, steps, rule, states, n)
    requires steps[n].Refresh? && Took(clouds, steps, since, rule, n)
    ensures Moments(clouds, states, since[n], n, clouds[n].trackers[steps[n].tracker])
  {
    var from, k := since[n], steps[n].tracker;
    IdleKeeps(clouds, steps, since, rule, k, from, n);
    forall m | from <= m <= n
      ensures Documents(clouds[m].events, states[m].log) && StoreLog(states[m].log)
      ensures Behind(clouds[n].trackers[k].streams, states[m].log) && states[m].log <= states[n].log
    {
      SimulatedStands(clouds, steps, rule, states, n, m);
      IdleKeeps(clouds, steps, since, rule, k, from, m);
    }
  }

  lemma StepAt(clouds: seq<Cloud>, steps: seq<Step>, since: seq<nat>, rule: TenantRule, states: seq<System>, n: nat)
    returns (t: System)
    requires IsCloudRun(clouds, steps, since, rule) && n < |steps| && Simulated(clouds, steps, rule, states, n)
    ensures Next(states[n], t, steps[n], rule) && StandsFor(clouds[n + 1], t) && states[n].log <= t.log
  {
    assert Took(clouds, steps, since, rule, n);
    if steps[n].Refresh? {
      MomentsStand(clouds, steps, since, rule, states, n);
    }
    t := StepsAlike(clouds, states, since[n], n, steps[n], rule);
  }

  lemma StartsEmpty(clouds: seq<Cloud>, steps: seq<Step>, rule: TenantRule) returns (states: seq<System>)
    requires |clouds| == |steps| + 1 && clouds[0] == Cloud(map[], map[], [])
    ensures Simulated(clouds, steps, rule, states, 0)
  {
    states := [System([], [])];
    EmptyLogInvariant();
  }

  lemma OneMore(clouds: seq<Cloud>, steps: seq<Step>, rule: TenantRule, states: seq<System>, n: nat, t: System)
    requires |clouds| == |steps| + 1 && n < |steps| && Simulated(clouds, steps, rule, states, n)
    requires Next(states[n], t, steps[n], rule) && StandsFor(clouds[n + 1], t) && states[n].log <= t.log
    ensures Simulated(clouds, steps, rule, states + [t], n + 1)
  {
    assert (states + [t])[..n + 1] == states && (states + [t])[n] == states[n];
  }

  lemma SimulatesTo(clouds: seq<Cloud>, steps: seq<Step>, since: seq<nat>, rule: TenantRule, n: nat)
    returns (states: seq<System>)
    requires IsCloudRun(clouds, steps, since, rule) && n <= |steps|
    ensures Simulated(clouds, steps, rule, states, n)
  {
    states := StartsEmpty(clouds, steps, rule);
    for i := 0 to n
      invariant Simulated(clouds, steps, rule, states, i)
    {
      var t := StepAt(clouds, steps, since, rule, states, i);
      OneMore(clouds, steps, rule, states, i, t);
      states := states + [t];
    }
  }

  /** Every run over Firestore is, step for step, a run over the in-memory log with the same caches
      in every tracker. What holds of all runs over the log therefore holds over Firestore. */
  lemma FirestoreSimulates(clouds: seq<Cloud>, steps: seq<Step>, since: seq<nat>, rule: TenantRule)
    returns (states: seq<System>)
    requires IsCloudRun(clouds, steps, since, rule)
    ensures IsRun(states, steps, rule)
    ensures forall i :: 0 <= i < |clouds| ==> StandsFor(clouds[i], states[i])
  {
    states := SimulatesTo(clouds, steps, since, rule, |steps|);
    SimulatedStart(clouds, steps, rule, states, |steps|);
    forall i | 0 <= i < |steps|
      ensures Next(states[i], states[i + 1], steps[i], rule)
    {
      SimulatedNext(clouds, steps, rule, states, |steps|, i);
    }
    forall i | 0 <= i < |clouds|
      ensures StandsFor(clouds[i], states[i])
    {
      SimulatedStands(clouds, steps, rule, states, |steps|, i);
    }
  }

  /** So, for one, a packet that any tracker over Firestore reads stays as it was issued, and once
      closed takes nothing but comments, in whatever tracker reads it next. */
  lemma ReadsStayFrozen(clouds: seq<Cloud>, steps: seq<Step>, since: seq<nat>, rule: TenantRule, i: nat,
                        j: nat, k: nat, l: nat, p: PacketID)
    requires IsCloudRun(clouds, steps, since, rule) && i <= j < |clouds|
    requires k < |clouds[i].trackers| && l < |clouds[j].trackers|
    requires clouds[i].trackers[k].ready && p in clouds[i].trackers[k].projection
    requires clouds[j].trackers[l].ready && p in clouds[j].trackers[l].projection
    requires clouds[i].trackers[k].projection[p].version <= clouds[j].trackers[l].projection[p].version
    ensures Frozen(clouds[i].trackers[k].projection[p], clouds[j].trackers[l].projection[p])
  {
    var states := FirestoreSimulates(clouds, steps, since, rule);
    assert StandsFor(clouds[i], states[i]) && StandsFor(clouds[j], states[j]);
    LogOnlyGrows(states, steps, rule, i, j);
    GrowthKeepsBehind(clouds[i].trackers[k].streams, states[i].log, states[j].log);
    CachesFrozen(clouds[i].trackers[k], clouds[j].trackers[l], states[j].log, p);
  }

  lemma CachesFrozen(c: Cache, d: Cache, log: seq<EventRecord>, p: PacketID)
    requires Coherent(c) && c.ready && Behind(c.streams, log) && p in c.projection
    requires Coherent(d) && d.ready && Behind(d.streams, log) && p in d.projection
    requires c.projection[p].version <= d.projection[p].version
    ensures Frozen(c.projection[p], d.projection[p])
  {
    var early, late := c.streams[p], d.streams[p];
    ReplayLawful(early);
    ReplayLawful(late);
    PrefixesOfOne(early, late, Stream(log, p));
    PrefixFrozen(early, late);
  }

  lemma PrefixesOfOne(a: seq<Event>, b: seq<Event>, whole: seq<Event>)
    requires a <= whole && b <= whole && |a| <= |b|
    ensures a <= b
  {
  }
}
