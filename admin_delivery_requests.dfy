/** The delivery join-request page of the admin console: approve or reject
    each pending agent, then reload the request list. */
module DeliveryRequests {
  import opened Common
  import opened Lifecycle
  import opened AdminGateway

  const ApproveReason := "Approved by administrator"
  const RejectFallback := "Rejected by administrator"

  /** The request `handleAction` sends for agent `id`: approve for the action
      "approve", and a rejection for any other action, with the prompt's
      answer or the fallback as its reason. */
  function RequestCall(id: int, action: string, promptText: Option<string>): (c: Call)
    ensures !c.OnVendor() && c.Target() == id
    ensures c.ApproveAgent? <==> action == "approve"
    ensures c.RejectAgent? <==> action != "approve"
    ensures c.ApproveAgent? ==> c.reason == "Approved by administrator"
    ensures c.RejectAgent? ==> c.reason != ""
                               && (c.reason == "Rejected by administrator" || promptText == Some(c.reason))
  {
    if action == "approve" then ApproveAgent(id, ApproveReason)
    else RejectAgent(id, OrDefault(promptText, RejectFallback))
  }

  /** A cancelled or empty prompt rejects with the fallback reason, which the
      server's serializer admits. */
  lemma CancelledPromptRejectsWithFallback(id: int, action: string, promptText: Option<string>)
    requires action != "approve"
    requires promptText == None || promptText == Some("")
    ensures RequestCall(id, action, promptText) == RejectAgent(id, "Rejected by administrator")
    ensures ReasonAccepted(RequestCall(id, action, promptText))
  {
    assert RejectFallback[0] == 'R';
  }

  class DeliveryRequestsPage {
    var agents: seq<Record>
    var isLoading: bool

    constructor ()
      ensures agents == [] && isLoading
    {
      agents := [];
      isLoading := true;
    }

    /** `loadRequests`: a failed request keeps the list, a body that is not
        an array empties it; loading ends in every case. */
    method LoadRequests(response: Fetched<Record>)
      modifies this
      ensures agents == ListAfterLoad(old(agents), response)
      ensures !isLoading
    {
      isLoading := true;
      agents := ListAfterLoad(agents, response);
      isLoading := false;
    }

    /** `handleAction`: one request; the list is refetched (from `reload`)
        only after it succeeded. */
    method HandleAction(id: int, action: string, promptText: Option<string>,
                        gw: Gateway, networkUp: bool, reload: Fetched<Record>)
      returns (ok: bool)
      modifies this, gw
      ensures var c := RequestCall(id, action, promptText);
              && gw.sent == old(gw.sent) + [c]
              && ok == old(gw.Succeeds(c, networkUp))
              && gw.vendors == old(gw.vendors)
              && gw.agents == if ok then old(gw.agents)[id := Transition(old(gw.agents)[id], c)] else old(gw.agents)
      ensures agents == if ok then ListAfterLoad(old(agents), reload) else old(agents)
      ensures isLoading == if ok then false else old(isLoading)
    {
      var c := RequestCall(id, action, promptText);
      ok := gw.Send(c, networkUp);
      if ok {
        LoadRequests(reload);
      }
    }
  }
}
