/** The delivery-agent review page of the admin console: each button sends
    one request at once, reject and block taking their reason from a prompt
    with a fixed fallback, and the page then returns to the agent list. */
module DeliveryReview {
  import opened Common
  import opened Lifecycle
  import opened AdminGateway

  const ApproveReason := "Approved by admin"
  const RejectFallback := "Rejected by admin"
  const BlockFallback := "Blocked by admin"
  const AgentsPath := "/delivery/agents"

  /** The branches of `handleAction`; an unknown name sends nothing. */
  datatype Action = Approve | Reject | Block | Unblock | OtherAction(name: string)

  function Classify(name: string): (a: Action)
    ensures a.OtherAction? <==> name !in {"Approved", "Rejected", "Blocked", "Unblocked"}
    ensures a.OtherAction? ==> a.name == name
  {
    if name == "Approved" then Approve
    else if name == "Rejected" then Reject
    else if name == "Blocked" then Block
    else if name == "Unblocked" then Unblock
    else OtherAction(name)
  }

  /** The request `handleAction` sends for agent `id`; `promptText` is what
      the reason prompt returned (it is shown only for reject and block). */
  function CallFor(a: Action, id: int, promptText: Option<string>): (c: Option<Call>)
    ensures c.None? <==> a.OtherAction?
    ensures c.Some? ==> !c.value.OnVendor() && c.value.Target() == id
    ensures a == Approve ==> c == Some(ApproveAgent(id, "Approved by admin"))
    ensures a == Unblock ==> c == Some(UnblockAgent(id))
    ensures a == Reject ==> c.value.RejectAgent? && c.value.reason != ""
                            && (c.value.reason == "Rejected by admin" || promptText == Some(c.value.reason))
    ensures a == Block ==> c.value.BlockAgent? && c.value.reason != ""
                           && (c.value.reason == "Blocked by admin" || promptText == Some(c.value.reason))
  {
    match a
    case Approve => Some(ApproveAgent(id, ApproveReason))
    case Reject => Some(RejectAgent(id, OrDefault(promptText, RejectFallback)))
    case Block => Some(BlockAgent(id, OrDefault(promptText, BlockFallback)))
    case Unblock => Some(UnblockAgent(id))
    case OtherAction(_) => None
  }

  /** A cancelled or empty prompt sends the fallback reason. */
  lemma EmptyPromptSendsFallback(id: int, promptText: Option<string>)
    requires promptText == None || promptText == Some("")
    ensures CallFor(Reject, id, promptText) == Some(RejectAgent(id, "Rejected by admin"))
    ensures CallFor(Block, id, promptText) == Some(BlockAgent(id, "Blocked by admin"))
  {
  }

  /** The fallback only catches an empty answer: a prompt answered with
      spaces is sent as it is, and the server's serializer refuses it. */
  lemma SpacesOnlyReasonIsRefused(id: int)
    ensures CallFor(Block, id, Some(" ")) == Some(BlockAgent(id, " "))
    ensures !ReasonAccepted(BlockAgent(id, " "))
  {
  }

  class DeliveryReviewPage {
    /** The agent id from the route. */
    const id: int
    var agent: Option<Entity>
    var isActioning: bool
    var location: Option<string>

    constructor (id: int, agent: Option<Entity>)
      ensures this.id == id && this.agent == agent && !isActioning && location.None?
    {
      this.id := id;
      this.agent := agent;
      isActioning := false;
      location := None;
    }

    /** `handleAction`: at most one request; the page moves to the agent
        list unless the request failed (an unknown action sends nothing and
        still moves), and `isActioning` is false again in every outcome. */
    method HandleAction(action: string, promptText: Option<string>, gw: Gateway, networkUp: bool)
      returns (ok: bool)
      modifies this, gw
      ensures var c := CallFor(Classify(action), id, promptText);
              && gw.sent == old(gw.sent) + (if c.Some? then [c.value] else [])
              && ok == (c.None? || old(gw.Succeeds(c.value, networkUp)))
              && gw.vendors == old(gw.vendors)
              && gw.agents == if ok && c.Some?
                              then old(gw.agents)[id := Transition(old(gw.agents)[id], c.value)]
                              else old(gw.agents)
      ensures location == if ok then Some(AgentsPath) else old(location)
      ensures !isActioning && agent == old(agent)
    {
      isActioning := true;
      var c := CallFor(Classify(action), id, promptText);
      ok := true;
      if c.Some? {
        ok := gw.Send(c.value, networkUp);
      }
      if ok {
        location := Some(AgentsPath);
      }
      isActioning := false;
    }
  }

  /** The end-to-end scenario: a pending agent rejected with the reason
      "Incomplete documents" is rejected on the server afterwards, and a
      review page loaded from that state offers no action at all. */
  method RejectPendingAgentScenario()
  {
    var gw := new Gateway(map[], map[7 := Entity(Pending, false)]);
    var page := new DeliveryReviewPage(7, Some(Entity(Pending, false)));
    assert Classify("Rejected") == Reject;
    assert !IsSpace("Incomplete documents"[0]);
    var ok := page.HandleAction("Rejected", Some("Incomplete documents"), gw, true);
    assert gw.sent == [RejectAgent(7, "Incomplete documents")];
    assert ok && page.location == Some("/delivery/agents");
    assert gw.agents[7] == Entity(Rejected, false);
    assert Offered(gw.agents[7]) == {};
  }
}
