/** The admin console's request layer (`approveVendorRequest`, `blockVendor`,
    `rejectDeliveryAgent`, ...): each call is one authenticated POST. The
    server is abstracted to two maps from id to lifecycle, and a call either
    succeeds, and the server applies the transition, or fails and nothing
    changes. Every call the pages issue is recorded in `sent`. */
module AdminGateway {
  import opened Lifecycle

  /** One mutating request and the `reason` in its body. `approveVendorRequest`,
      `unblockVendor` and `approveDeliveryAgent` default the reason to "";
      `unblockDeliveryAgent` posts an empty body, so it has no reason. */
  datatype Call =
    | ApproveVendor(vendorId: int, reason: string)
    | RejectVendor(vendorId: int, reason: string)
    | BlockVendor(vendorId: int, reason: string)
    | UnblockVendor(vendorId: int, reason: string)
    | ApproveAgent(agentId: int, reason: string)
    | RejectAgent(agentId: int, reason: string)
    | BlockAgent(agentId: int, reason: string)
    | UnblockAgent(agentId: int)
  {
    predicate OnVendor()
    {
      ApproveVendor? || RejectVendor? || BlockVendor? || UnblockVendor?
    }

    function Target(): int
    {
      if OnVendor() then vendorId else agentId
    }
  }

  /** The characters Python's `str.isspace()` accepts, which are the ones
      `str.strip()` removes: the ASCII tab, line feed, vertical tab, form
      feed, carriage return, the four information separators and space,
      then NEL, no-break space, the Ogham space mark, the spaces U+2000 to
      U+200A, the line and paragraph separators, the narrow no-break space,
      the medium mathematical space and the ideographic space. */
  predicate IsSpace(c: char)
  {
    ('\U{9}' <= c <= '\U{D}') || ('\U{1C}' <= c <= '\U{20}')
    || c == '\U{85}' || c == '\U{A0}' || c == '\U{1680}'
    || ('\U{2000}' <= c <= '\U{200A}')
    || c == '\U{2028}' || c == '\U{2029}' || c == '\U{202F}' || c == '\U{205F}' || c == '\U{3000}'
  }

  predicate Blank(s: string)
  {
    forall i :: 0 <= i < |s| ==> IsSpace(s[i])
  }

  /** Whether the server's request serializer admits the call's reason: reject
      and block declare a required text field, which strips surrounding
      whitespace and refuses what is left if it is empty; approve and unblock
      accept a blank or missing reason. */
  predicate ReasonAccepted(c: Call)
  {
    match c
    case RejectVendor(_, r) => !Blank(r)
    case BlockVendor(_, r) => !Blank(r)
    case RejectAgent(_, r) => !Blank(r)
    case BlockAgent(_, r) => !Blank(r)
    case _ => true
  }

  /** The lifecycle the server gives a record after a successful call. */
  function Transition(e: Entity, c: Call): Entity
  {
    match c
    case ApproveVendor(_, _) => e.(approval := Approved)
    case ApproveAgent(_, _) => e.(approval := Approved)
    case RejectVendor(_, _) => e.(approval := Rejected)
    case RejectAgent(_, _) => e.(approval := Rejected)
    case BlockVendor(_, _) => e.(isBlocked := true)
    case BlockAgent(_, _) => e.(isBlocked := true)
    case UnblockVendor(_, _) => e.(isBlocked := false)
    case UnblockAgent(_) => e.(isBlocked := false)
  }

  class Gateway {
    var vendors: map<int, Entity>
    var agents: map<int, Entity>
    var sent: seq<Call>

    constructor (vendors: map<int, Entity>, agents: map<int, Entity>)
      ensures this.vendors == vendors && this.agents == agents && sent == []
    {
      this.vendors := vendors;
      this.agents := agents;
      sent := [];
    }

    /** A call succeeds when the network delivers it, the serializer admits
        its reason and the record exists. */
    predicate Succeeds(c: Call, networkUp: bool)
      reads this
    {
      networkUp && ReasonAccepted(c)
      && (if c.OnVendor() then c.Target() in vendors else c.Target() in agents)
    }

    method Send(c: Call, networkUp: bool) returns (ok: bool)
      modifies this
      ensures ok == old(Succeeds(c, networkUp))
      ensures sent == old(sent) + [c]
      ensures vendors == if ok && c.OnVendor()
                         then old(vendors)[c.Target() := Transition(old(vendors)[c.Target()], c)]
                         else old(vendors)
      ensures agents == if ok && !c.OnVendor()
                        then old(agents)[c.Target() := Transition(old(agents)[c.Target()], c)]
                        else old(agents)
    {
      ok := Succeeds(c, networkUp);
      sent := sent + [c];
      if ok {
        if c.OnVendor() {
          vendors := vendors[c.Target() := Transition(vendors[c.Target()], c)];
        } else {
          agents := agents[c.Target() := Transition(agents[c.Target()], c)];
        }
      }
    }
  }
}
