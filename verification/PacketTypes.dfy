/** The values of packet/types.go: identifiers, events, projections and commands. */
module PacketTypes {
  import opened Basics

  // Identifiers are opaque text; the empty text means "none".
  type PacketID = string
  type TenantID = string
  type EventID = string
  type Actor = string
  type Evidence = string
  type Version = nat

  /** Nanoseconds on one clock. Zero is Go's zero time, the instant nobody set. */
  type Time = int

  // Status is a string type in Go: Unset is its zero value, and a caller may pass any text.
  datatype Status = Unset | NotStarted | InProgress | Done | Blocked | OtherStatus(text: string)

  datatype CloseReason = ReasonDone | ReasonSuperseded | OtherReason(text: string)

  datatype Body = Body(goal: string, boundary: string, doneWhen: string, check: string, context: string)

  datatype Metadata = Metadata(id: EventID, at: Time, actor: Actor)

  // Foreign is an event of a type the packet package does not define.
  datatype Event =
    | PacketIssued(meta: Metadata, packetID: PacketID, tenantID: TenantID, body: Body, parentID: PacketID)
    | PacketTaken(meta: Metadata, packetID: PacketID)
    | PacketCommented(meta: Metadata, packetID: PacketID, text: string)
    | PacketTransitioned(meta: Metadata, packetID: PacketID, from: Status, to: Status, evidence: seq<Evidence>)
    | PacketSuperseded(meta: Metadata, packetID: PacketID, replacementID: PacketID)
    | PacketClosed(meta: Metadata, packetID: PacketID, reason: CloseReason)
    | Foreign(meta: Metadata)

  function EventPacketID(event: Event): PacketID {
    if event.Foreign? then "" else event.packetID
  }

  datatype EventRecord = EventRecord(packetID: PacketID, streamVersion: Version, event: Event)

  datatype Comment = Comment(eventID: EventID, at: Time, actor: Actor, text: string)

  datatype Closure = Closure(eventID: EventID, at: Time, actor: Actor, reason: CloseReason)

  datatype Packet = Packet(
    id: PacketID,
    tenantID: TenantID,
    body: Body,
    status: Status,
    version: Version,
    takenBy: Actor,
    comments: seq<Comment>,
    evidence: seq<Evidence>,
    parentID: PacketID,
    supersededBy: PacketID,
    closure: Option<Closure>)

  /** The zero Packet, from which every stream is folded. */
  const NO_PACKET := Packet("", "", Body("", "", "", "", ""), Unset, 0, "", [], [], "", "", None)

  datatype Error =
    | AlreadyExists
    | NotFound
    | Conflict
    | ProjectionUnavailable
    | InvalidEvent
    | IllegalTransition
    | EvidenceRequired
    | UnexpectedEvidence
    | ErrClosed
    | TenantRefused
    | StoreRefused

  /** What the id source and the clock supply for one event. */
  datatype Stamp = Stamp(id: EventID, at: Time)

  datatype Command =
    | Issue(packetID: PacketID, tenantID: TenantID, body: Body, actor: Actor)
    | Take(packetID: PacketID, expected: Version, actor: Actor)
    | AddComment(packetID: PacketID, expected: Version, actor: Actor, text: string)
    | Transition(packetID: PacketID, expected: Version, actor: Actor, to: Status, evidence: seq<Evidence>)
    | Supersede(packetID: PacketID, expected: Version, actor: Actor,
                replacementID: PacketID, tenantID: TenantID, body: Body)

  // unicode.IsSpace.
  predicate IsSpace(c: char) {
    || c == ' ' || '\U{9}' <= c <= '\U{d}' || c == '\U{85}' || c == '\U{a0}' || c == '\U{1680}'
    || '\U{2000}' <= c <= '\U{200a}' || c == '\U{2028}' || c == '\U{2029}' || c == '\U{202f}'
    || c == '\U{205f}' || c == '\U{3000}'
  }

  // strings.TrimSpace(text) == "".
  predicate Blank(text: string) {
    forall c :: c in text ==> IsSpace(c)
  }
}
