/** The delivery-agent list of the admin console: a status filter over the
    loaded agents and a block/unblock control on every row. */
module DeliveryList {
  import opened Common
  import opened Lifecycle
  import opened AdminGateway

  const BlockFallback := "Blocked by administrator"

  /** The filter selector's value; any value other than the four known ones
      keeps every agent. */
  datatype ListFilter = All | ApprovedOnly | PendingOnly | BlockedOnly | OtherFilter(name: string)

  function ParseFilter(name: string): (f: ListFilter)
    ensures f.OtherFilter? <==> name !in {"all", "approved", "pending", "blocked"}
    ensures f.OtherFilter? ==> f.name == name
  {
    if name == "all" then All
    else if name == "approved" then ApprovedOnly
    else if name == "pending" then PendingOnly
    else if name == "blocked" then BlockedOnly
    else OtherFilter(name)
  }

  /** The callback `agents.filter` is given. */
  predicate Keeps(f: ListFilter, agent: Record)
  {
    match f
    case All => true
    case ApprovedOnly => agent.life.approval == Approved
    case PendingOnly => agent.life.approval == Pending
    case BlockedOnly => agent.life.isBlocked
    case OtherFilter(_) => true
  }

  /** `filteredAgents`: the agents the filter keeps, in list order. */
  function FilteredAgents(agents: seq<Record>, f: ListFilter): (r: seq<Record>)
    ensures forall i :: 0 <= i < |r| ==> r[i] in agents && Keeps(f, r[i])
    ensures forall i :: 0 <= i < |agents| && Keeps(f, agents[i]) ==> agents[i] in r
  {
    Filter(agents, a => Keeps(f, a))
  }

  /** The filtered list is the agent list with some rows left out and the
      others kept in their order. */
  lemma FilteredIsSubsequence(agents: seq<Record>, f: ListFilter)
    ensures IsSubsequence(FilteredAgents(agents, f), agents)
  {
    FilterIsSubsequence(agents, a => Keeps(f, a));
  }

  /** "all" and every unknown filter value show the whole list. */
  lemma CatchAllKeepsEverything(agents: seq<Record>, f: ListFilter)
    requires f.All? || f.OtherFilter?
    ensures FilteredAgents(agents, f) == agents
  {
    FilterKeepsAll(agents, a => Keeps(f, a));
  }

  /** "blocked" shows exactly the blocked agents, whatever their approval
      status; "approved" and "pending" select on the approval status alone. */
  lemma FilterSelectsByField(agents: seq<Record>, a: Record)
    requires a in agents
    ensures a in FilteredAgents(agents, BlockedOnly) <==> a.life.isBlocked
    ensures a in FilteredAgents(agents, ApprovedOnly) <==> a.life.approval == Approved
    ensures a in FilteredAgents(agents, PendingOnly) <==> a.life.approval == Pending
  {
    var i :| 0 <= i < |agents| && agents[i] == a;
    if a in FilteredAgents(agents, BlockedOnly) {
      var j :| 0 <= j < |FilteredAgents(agents, BlockedOnly)| && FilteredAgents(agents, BlockedOnly)[j] == a;
    }
    if a in FilteredAgents(agents, ApprovedOnly) {
      var j :| 0 <= j < |FilteredAgents(agents, ApprovedOnly)| && FilteredAgents(agents, ApprovedOnly)[j] == a;
    }
    if a in FilteredAgents(agents, PendingOnly) {
      var j :| 0 <= j < |FilteredAgents(agents, PendingOnly)| && FilteredAgents(agents, PendingOnly)[j] == a;
    }
  }

  /** The request the row control sends for agent `id`: unblock when the row
      shows the agent blocked, otherwise block with the prompt's answer or
      the fallback reason. */
  function BlockCall(id: int, isBlocked: bool, promptText: Option<string>): (c: Call)
    ensures !c.OnVendor() && c.Target() == id
    ensures c.UnblockAgent? <==> isBlocked
    ensures c.BlockAgent? <==> !isBlocked
    ensures c.BlockAgent? ==> c.reason != ""
                              && (c.reason == "Blocked by administrator" || promptText == Some(c.reason))
  {
    if isBlocked then UnblockAgent(id) else BlockAgent(id, OrDefault(promptText, BlockFallback))
  }

  /** The row control is rendered on every row and ignores the approval
      status: it sends a block request for a pending or rejected agent too,
      where the review page's `canBlock` guard offers no block action. */
  lemma RowControlIgnoresApproval(agent: Record, promptText: Option<string>)
    ensures BlockCall(agent.id, agent.life.isBlocked, promptText).UnblockAgent? <==> CanUnblock(agent.life)
    ensures !agent.life.isBlocked && agent.life.approval != Approved ==>
              BlockCall(agent.id, agent.life.isBlocked, promptText).BlockAgent? && !CanBlock(agent.life)
  {
  }

  class DeliveryListPage {
    var agents: seq<Record>
    var isLoading: bool
    var filter: ListFilter

    constructor ()
      ensures agents == [] && isLoading && filter == All
    {
      agents := [];
      isLoading := true;
      filter := All;
    }

    /** `loadAgents`: a failed request keeps the list, a body that is not
        an array empties it; loading ends in every case. */
    method LoadAgents(response: Fetched<Record>)
      modifies this
      ensures agents == ListAfterLoad(old(agents), response)
      ensures !isLoading && filter == old(filter)
    {
      isLoading := true;
      agents := ListAfterLoad(agents, response);
      isLoading := false;
    }

    /** `handleBlockAction`: one request; the list is reloaded (from
        `reload`) only when it succeeded, and is otherwise left as it was. */
    method HandleBlockAction(id: int, isBlocked: bool, promptText: Option<string>,
                             gw: Gateway, networkUp: bool, reload: Fetched<Record>)
      returns (ok: bool)
      modifies this, gw
      ensures var c := BlockCall(id, isBlocked, promptText);
              && gw.sent == old(gw.sent) + [c]
              && ok == old(gw.Succeeds(c, networkUp))
              && gw.vendors == old(gw.vendors)
              && gw.agents == if ok then old(gw.agents)[id := Transition(old(gw.agents)[id], c)] else old(gw.agents)
      ensures agents == if ok then ListAfterLoad(old(agents), reload) else old(agents)
      ensures filter == old(filter)
      ensures isLoading == if ok then false else old(isLoading)
    {
      var c := BlockCall(id, isBlocked, promptText);
      ok := gw.Send(c, networkUp);
      if ok {
        LoadAgents(reload);
      }
    }
  }
}
