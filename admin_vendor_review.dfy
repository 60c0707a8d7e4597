/** The vendor review page of the admin console: an action button only
    records the chosen action and opens a confirmation modal; confirming
    sends exactly one request, chosen by a fixed table, and leaves for the
    vendor list only when that request succeeds. */
module VendorReview {
  import opened Common
  import opened Lifecycle
  import opened AdminGateway

  const BlockReason := "Actioned via Management Review"
  const RejectReason := "Declined via Security Review"
  const VendorsPath := "/vendors"

  /** The branches of `confirmAction`: any name other than the four below
      (the "Rejected" button's included) falls through to a rejection. */
  datatype Action = Approve | Block | Suspend | Unblock | OtherAction(name: string)

  function Classify(name: string): (a: Action)
    ensures a.OtherAction? <==> name !in {"Approved", "Blocked", "Suspended", "Unblocked"}
    ensures a.OtherAction? ==> a.name == name
  {
    if name == "Approved" then Approve
    else if name == "Blocked" then Block
    else if name == "Suspended" then Suspend
    else if name == "Unblocked" then Unblock
    else OtherAction(name)
  }

  /** The one request a confirmed action sends for vendor `id`. */
  function CallFor(a: Action, id: int): (c: Call)
    ensures c.OnVendor() && c.Target() == id
    ensures ReasonAccepted(c)
    ensures c.ApproveVendor? <==> a == Approve
    ensures c.BlockVendor? <==> a == Block || a == Suspend
    ensures c.UnblockVendor? <==> a == Unblock
    ensures c.RejectVendor? <==> a.OtherAction?
  {
    match a
    case Approve => ApproveVendor(id, "")
    case Block => assert !IsSpace(BlockReason[0]); BlockVendor(id, BlockReason)
    case Suspend => assert !IsSpace(BlockReason[0]); BlockVendor(id, BlockReason)
    case Unblock => UnblockVendor(id, "")
    case OtherAction(_) => assert !IsSpace(RejectReason[0]); RejectVendor(id, RejectReason)
  }

  /** The dispatch table of `confirmAction`, row by row, with the reasons sent. */
  lemma DispatchTable(id: int)
    ensures CallFor(Classify("Approved"), id) == ApproveVendor(id, "")
    ensures CallFor(Classify("Blocked"), id) == BlockVendor(id, "Actioned via Management Review")
    ensures CallFor(Classify("Suspended"), id) == BlockVendor(id, "Actioned via Management Review")
    ensures CallFor(Classify("Unblocked"), id) == UnblockVendor(id, "")
    ensures CallFor(Classify("Rejected"), id) == RejectVendor(id, "Declined via Security Review")
  {
  }

  class VendorReviewPage {
    var vendor: Option<Record>
    var pendingAction: Option<string>
    var isActionModalOpen: bool
    var isActioning: bool
    /** The path navigated to, None while the page is showing. */
    var location: Option<string>

    constructor (vendor: Option<Record>)
      ensures this.vendor == vendor && pendingAction.None? && !isActionModalOpen
      ensures !isActioning && location.None?
    {
      this.vendor := vendor;
      pendingAction := None;
      isActionModalOpen := false;
      isActioning := false;
      location := None;
    }

    /** `handleActionClick`: records the action and opens the modal; it takes
        no gateway, so it cannot send anything. */
    method HandleActionClick(action: string)
      modifies this
      ensures pendingAction == Some(action) && isActionModalOpen
      ensures vendor == old(vendor) && isActioning == old(isActioning) && location == old(location)
    {
      pendingAction := Some(action);
      isActionModalOpen := true;
    }

    /** `confirmAction`. With no pending action (or an empty one, which
        JavaScript treats as false) or no vendor it does nothing. Otherwise
        it closes the modal and sends exactly one request; the page moves to
        the vendor list only if that request succeeded, and `isActioning` is
        false again either way. */
    method ConfirmAction(gw: Gateway, networkUp: bool) returns (ok: bool)
      modifies this, gw
      ensures old(pendingAction.None? || pendingAction.value == "" || vendor.None?) ==>
                !ok && unchanged(this) && unchanged(gw)
      ensures old(pendingAction.Some? && pendingAction.value != "" && vendor.Some?) ==>
                var c := CallFor(Classify(old(pendingAction.value)), old(vendor.value.id));
                && gw.sent == old(gw.sent) + [c]
                && ok == old(gw.Succeeds(c, networkUp))
                && gw.agents == old(gw.agents)
                && gw.vendors == (if ok then old(gw.vendors)[c.Target() := Transition(old(gw.vendors)[c.Target()], c)]
                                  else old(gw.vendors))
                && !isActionModalOpen && !isActioning
                && location == (if ok then Some(VendorsPath) else old(location))
                && vendor == old(vendor) && pendingAction == old(pendingAction)
    {
      ok := false;
      if pendingAction.None? || pendingAction.value == "" || vendor.None? {
        return;
      }
      isActioning := true;
      isActionModalOpen := false;
      var c := CallFor(Classify(pendingAction.value), vendor.value.id);
      ok := gw.Send(c, networkUp);
      if ok {
        location := Some(VendorsPath);
      }
      isActioning := false;
    }
  }
}
