/** Folding a packet's events: packet/tracker.go's applyEvent and what every fold keeps. */
module Lifecycle {
  import opened Basics
  import opened PacketTypes

  predicate MetadataComplete(meta: Metadata) {
    meta.id != "" && meta.at != 0 && meta.actor != ""
  }

  predicate LegalTransition(from: Status, to: Status) {
    match from
    case NotStarted => to == InProgress || to == Blocked
    case InProgress => to == Done || to == Blocked
    case _ => false
  }

  predicate EvidenceProven(evidence: seq<Evidence>) {
    |evidence| > 0 && forall e :: e in evidence ==> !Blank(e)
  }

  function RequireIssued(packet: Packet, id: PacketID): Result<(), Error> {
    if packet.version == 0 then Err(NotFound)
    else if packet.id != id then Err(InvalidEvent)
    else Ok(())
  }

  /** The packet after one more event, or the reason the event is refused. */
  function ApplyEvent(packet: Packet, event: Event): Result<Packet, Error> {
    if !MetadataComplete(event.meta) then Err(InvalidEvent)
    else
      var next := packet.(version := packet.version + 1);
      match event
      case PacketIssued(meta, id, tenant, body, parent) =>
        if packet.version != 0 || id == "" || tenant == "" || parent == id then Err(InvalidEvent)
        else Ok(next.(id := id, tenantID := tenant, body := body, status := NotStarted, parentID := parent))
      case PacketTaken(meta, id) =>
        var issued := RequireIssued(packet, id);
        if issued.Err? then Err(issued.error)
        else if packet.closure.Some? then Err(ErrClosed)
        else if packet.takenBy != "" then Err(InvalidEvent)
        else Ok(next.(takenBy := meta.actor))
      case PacketCommented(meta, id, text) =>
        var issued := RequireIssued(packet, id);
        if issued.Err? then Err(issued.error)
        else if Blank(text) then Err(InvalidEvent)
        else Ok(next.(comments := packet.comments + [Comment(meta.id, meta.at, meta.actor, text)]))
      case PacketTransitioned(meta, id, from, to, evidence) =>
        var issued := RequireIssued(packet, id);
        if issued.Err? then Err(issued.error)
        else if packet.closure.Some? then Err(ErrClosed)
        else if from != packet.status then Err(InvalidEvent)
        else if !LegalTransition(packet.status, to) then Err(IllegalTransition)
        else if to == Done then
          if !EvidenceProven(evidence) then Err(EvidenceRequired)
          else Ok(next.(evidence := evidence, status := to))
        else if |evidence| != 0 then Err(UnexpectedEvidence)
        else Ok(next.(status := to))
      case PacketSuperseded(meta, id, replacement) =>
        var issued := RequireIssued(packet, id);
        if issued.Err? then Err(issued.error)
        else if packet.closure.Some? then Err(ErrClosed)
        else if replacement == "" || replacement == id || packet.supersededBy != "" then Err(InvalidEvent)
        else Ok(next.(supersededBy := replacement))
      case PacketClosed(meta, id, reason) =>
        var issued := RequireIssued(packet, id);
        if issued.Err? then Err(issued.error)
        else if packet.closure.Some? then Err(ErrClosed)
        else if (reason == ReasonDone && packet.status != Done)
                || (reason == ReasonSuperseded && packet.supersededBy == "")
                || reason.OtherReason? then Err(InvalidEvent)
        else Ok(next.(closure := Some(Closure(meta.id, meta.at, meta.actor, reason))))
      case Foreign(_) => Err(InvalidEvent)
  }

  /** The fold of applyEvent over events that follow `packet`. */
  function Fold(packet: Packet, events: seq<Event>): Result<Packet, Error>
    decreases |events|
  {
    if |events| == 0 then Ok(packet)
    else
      var before := Fold(packet, events[..|events| - 1]);
      if before.Err? then before else ApplyEvent(before.value, events[|events| - 1])
  }

  /** "Replay the log" for one packet. */
  function Replay(events: seq<Event>): Result<Packet, Error> {
    Fold(NO_PACKET, events)
  }

  lemma FoldSnoc(packet: Packet, events: seq<Event>, event: Event)
    ensures Fold(packet, events + [event])
         == (var before := Fold(packet, events); if before.Err? then before else ApplyEvent(before.value, event))
  {
    assert (events + [event])[..|events|] == events;
  }

  lemma ReplaySnoc(events: seq<Event>, event: Event)
    requires Replay(events).Ok?
    ensures Replay(events + [event]) == ApplyEvent(Replay(events).value, event)
  {
    FoldSnoc(NO_PACKET, events, event);
  }

  lemma {:induction false} FoldConcat(packet: Packet, first: seq<Event>, second: seq<Event>)
    ensures Fold(packet, first).Err? ==> Fold(packet, first + second) == Fold(packet, first)
    ensures Fold(packet, first).Ok? ==> Fold(packet, first + second) == Fold(Fold(packet, first).value, second)
    decreases |second|
  {
    if |second| == 0 {
      assert first + second == first;
    } else {
      var rest, last := second[..|second| - 1], second[|second| - 1];
      FoldConcat(packet, first, rest);
      assert first + second == (first + rest) + [last];
      FoldSnoc(packet, first + rest, last);
    }
  }

  /** Every beginning of a stream that replays also replays. */
  lemma ReplayPrefix(events: seq<Event>, n: nat)
    requires n <= |events| && Replay(events).Ok?
    ensures Replay(events[..n]).Ok?
  {
    assert events == events[..n] + events[n..];
    FoldConcat(NO_PACKET, events[..n], events[n..]);
  }

  // ---- what every fold keeps --------------------------------------------------------

  function Stage(status: Status): nat {
    match status
    case InProgress => 1
    case Done => 2
    case Blocked => 2
    case _ => 0
  }

  function Once(happened: bool): nat { if happened then 1 else 0 }

  /** What holds of every packet folded from at least one event, batch or no batch. */
  ghost predicate Lawful(p: Packet) {
    && p.version > 0 && p.id != "" && p.tenantID != "" && p.parentID != p.id && p.supersededBy != p.id
    && p.status in {NotStarted, InProgress, Done, Blocked}
    && (p.status == Done <==> p.evidence != [])
    && (p.evidence != [] ==> EvidenceProven(p.evidence))
    && (p.closure.Some? ==> !p.closure.value.reason.OtherReason?)
    && (p.closure.Some? && p.closure.value.reason == ReasonDone ==> p.status == Done)
    && (p.closure.Some? && p.closure.value.reason == ReasonSuperseded ==> p.supersededBy != "")
    && p.version <= |p.comments| + 1 + Once(p.takenBy != "") + Stage(p.status)
                    + Once(p.supersededBy != "") + Once(p.closure.Some?)
  }

  lemma ApplyKeepsLawful(p: Packet, event: Event)
    requires p == NO_PACKET || Lawful(p)
    requires ApplyEvent(p, event).Ok?
    ensures Lawful(ApplyEvent(p, event).value)
  {
  }

  lemma {:induction false} ReplayLawful(events: seq<Event>)
    requires |events| > 0 && Replay(events).Ok?
    ensures Lawful(Replay(events).value)
    ensures Replay(events).value.version == |events|
    ensures Replay(events).value.id == EventPacketID(events[0])
    decreases |events|
  {
    var rest := events[..|events| - 1];
    if |rest| > 0 {
      ReplayLawful(rest);
    }
    ApplyKeepsLawful(Replay(rest).value, events[|events| - 1]);
  }

  /** A packet's age in events is bounded by its comments: at most six others ever happen. */
  lemma VersionBound(events: seq<Event>)
    requires |events| > 0 && Replay(events).Ok?
    ensures Replay(events).value.version <= |Replay(events).value.comments| + 6
  {
    ReplayLawful(events);
  }

  /** Facts an issue fixes for good, and those a closure fixes as well. */
  ghost predicate Frozen(before: Packet, after: Packet) {
    && after.id == before.id && after.tenantID == before.tenantID && after.body == before.body
    && after.parentID == before.parentID
    && before.comments <= after.comments && before.version <= after.version
    && (before.takenBy != "" ==> after.takenBy == before.takenBy)
    && (before.supersededBy != "" ==> after.supersededBy == before.supersededBy)
    && (before.status in {Done, Blocked} ==> after.status == before.status && after.evidence == before.evidence)
    && (before.closure.Some? ==>
          after == before.(comments := after.comments, version := after.version)
          && after.version - before.version == |after.comments| - |before.comments|)
  }

  lemma {:induction false} FoldFrozen(before: Packet, events: seq<Event>)
    requires before.version > 0 && Fold(before, events).Ok?
    ensures Frozen(before, Fold(before, events).value)
    decreases |events|
  {
    if |events| > 0 {
      FoldFrozen(before, events[..|events| - 1]);
      var middle := Fold(before, events[..|events| - 1]).value;
      ApplyFrozen(middle, events[|events| - 1]);
      FrozenOnce(before, middle, ApplyEvent(middle, events[|events| - 1]).value);
    }
  }

  lemma ApplyFrozen(p: Packet, event: Event)
    requires p.version > 0 && ApplyEvent(p, event).Ok?
    ensures Frozen(p, ApplyEvent(p, event).value)
  {
  }

  lemma FrozenOnce(a: Packet, b: Packet, c: Packet)
    requires Frozen(a, b) && Frozen(b, c)
    ensures Frozen(a, c)
  {
  }

  // ---- what every whole command keeps -----------------------------------------------

  /** What holds between commands: no batch is ever half applied. */
  ghost predicate Settled(p: Packet) {
    && Lawful(p)
    && (p.status == Done <==> p.closure.Some? && p.closure.value.reason == ReasonDone)
    && (p.supersededBy != "" <==> p.closure.Some? && p.closure.value.reason == ReasonSuperseded)
    && (p.takenBy != "" ==> p.status != NotStarted)
  }

  /** The events a command appends, given the status of the packet it names. */
  function Batch(command: Command, status: Status, stamps: seq<Stamp>): (events: seq<Event>)
    requires |stamps| >= 3
    ensures 1 <= |events| <= 3
    ensures forall i :: 0 <= i < |events| ==> events[i].meta == Metadata(stamps[i].id, stamps[i].at, command.actor)
  {
    var m0 := Metadata(stamps[0].id, stamps[0].at, command.actor);
    var m1 := Metadata(stamps[1].id, stamps[1].at, command.actor);
    var m2 := Metadata(stamps[2].id, stamps[2].at, command.actor);
    match command
    case Issue(id, tenant, body, _) => [PacketIssued(m0, id, tenant, body, "")]
    case Take(id, _, _) => [PacketTaken(m0, id), PacketTransitioned(m1, id, status, InProgress, [])]
    case AddComment(id, _, _, text) => [PacketCommented(m0, id, text)]
    case Transition(id, _, _, to, evidence) =>
      [PacketTransitioned(m0, id, status, to, evidence)]
      + (if to == Done then [PacketClosed(m1, id, ReasonDone)] else [])
    case Supersede(id, _, _, replacement, tenant, body) =>
      [PacketIssued(m0, replacement, tenant, body, id), PacketSuperseded(m1, id, replacement),
       PacketClosed(m2, id, ReasonSuperseded)]
  }
}
