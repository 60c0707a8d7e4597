/** The approval lifecycle that vendors and delivery agents share: an approval
    status, an orthogonal blocked flag, the guards the admin pages use to
    decide which actions they offer, and the status badge. */
module Lifecycle {

  datatype Approval = Pending | Approved | Rejected
  {
    /** The `approval_status` string the server sends. */
    function Name(): string
    {
      match this
      case Pending => "pending"
      case Approved => "approved"
      case Rejected => "rejected"
    }
  }

  /** The lifecycle fields of a vendor or delivery-agent record. */
  datatype Entity = Entity(approval: Approval, isBlocked: bool)

  /** A row of a vendor or delivery-agent list: its id and lifecycle. */
  datatype Record = Record(id: int, life: Entity)

  predicate CanApprove(e: Entity) { e.approval == Pending }
  predicate CanReject(e: Entity) { e.approval == Pending }
  predicate CanBlock(e: Entity) { e.approval == Approved && !e.isBlocked }
  predicate CanUnblock(e: Entity) { e.isBlocked }

  /** The four review actions a detail page can offer. */
  datatype Offer = OfferApprove | OfferReject | OfferBlock | OfferUnblock

  /** The buttons a review page renders for `e`: one per guard that holds. */
  function Offered(e: Entity): (offers: set<Offer>)
    ensures OfferApprove in offers <==> e.approval == Pending
    ensures OfferApprove in offers <==> OfferReject in offers
    ensures OfferBlock in offers <==> e.approval == Approved && !e.isBlocked
    ensures OfferUnblock in offers <==> e.isBlocked
    ensures !(OfferBlock in offers && OfferUnblock in offers)
    ensures e.approval == Rejected && !e.isBlocked ==> offers == {}
  {
    (if CanApprove(e) then {OfferApprove} else {})
    + (if CanReject(e) then {OfferReject} else {})
    + (if CanBlock(e) then {OfferBlock} else {})
    + (if CanUnblock(e) then {OfferUnblock} else {})
  }

  /** The status badge: "Blocked" whenever the flag is set, otherwise the raw
      approval status. No approval status is spelled "Blocked", so the badge
      tells a blocked record apart from every other. */
  function BadgeLabel(e: Entity): (text: string)
    ensures text == "Blocked" <==> e.isBlocked
    ensures !e.isBlocked ==> text == e.approval.Name()
  {
    if e.isBlocked then "Blocked" else e.approval.Name()
  }
}
