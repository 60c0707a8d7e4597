/** The vendor details page of the admin console: it finds its vendor in the
    full vendor list by comparing ids as strings, offers approve/reject
    buttons for a pending vendor and a single block/unblock toggle
    otherwise, and reloads everything after a status request succeeds. */
module VendorDetails {
  import opened Common
  import opened Lifecycle
  import opened AdminGateway

  // Split so that the verifier can read its first character.
  const BlockReason := "Policy violation" + " or manual administrative block"

  /** A row of the vendor's product table: its id and status string. */
  datatype Product = Product(id: int, status: string)

  /** The first row whose id, printed in decimal, equals the route parameter
      (`data.find(v => v.id.toString() === id.toString())`). */
  function FindByRouteId(rows: seq<Record>, routeId: string): (r: Option<Record>)
    ensures r.None? <==> forall i :: 0 <= i < |rows| ==> DecimalString(rows[i].id) != routeId
    ensures r.Some? ==> exists i :: 0 <= i < |rows| && rows[i] == r.value
                          && forall j :: 0 <= j < i ==> DecimalString(rows[j].id) != routeId
    ensures r.Some? ==> DecimalString(r.value.id) == routeId
  {
    if rows == [] then None
    else if DecimalString(rows[0].id) == routeId then Some(rows[0])
    else
      var r := FindByRouteId(rows[1..], routeId);
      assert r.Some? ==> exists i :: 0 <= i < |rows| && rows[i] == r.value
                          && forall j :: 0 <= j < i ==> DecimalString(rows[j].id) != routeId
      by {
        if r.Some? {
          var k :| 0 <= k < |rows[1..]| && rows[1..][k] == r.value
                   && forall j :: 0 <= j < k ==> DecimalString(rows[1..][j].id) != routeId;
          assert rows[k + 1] == r.value;
          assert forall j :: 1 <= j < k + 1 ==> rows[j] == rows[1..][j - 1];
        }
      }
      r
  }

  /** A route naming the decimal id `n` finds a vendor exactly when some row
      has id `n`, and the vendor found has that id. */
  lemma FindByRouteIdIsNumericLookup(rows: seq<Record>, n: int)
    ensures FindByRouteId(rows, DecimalString(n)).Some? <==> exists i :: 0 <= i < |rows| && rows[i].id == n
    ensures FindByRouteId(rows, DecimalString(n)).Some? ==> FindByRouteId(rows, DecimalString(n)).value.id == n
  {
    var r := FindByRouteId(rows, DecimalString(n));
    if r.Some? {
      DecimalStringInjective(r.value.id, n);
    }
  }

  /** The vendor the page holds after `loadData` with the given response:
      a failed request keeps the old one, a body that is not an array gives
      none. */
  function VendorAfterLoad(previous: Option<Record>, response: Fetched<Record>, routeId: string): (r: Option<Record>)
    ensures response.FetchFailed? ==> r == previous
    ensures response.NotAnArray? ==> r == None
    ensures response.Rows? ==> r == FindByRouteId(response.rows, routeId)
  {
    match response
    case FetchFailed => previous
    case NotAnArray => None
    case Rows(rows) => FindByRouteId(rows, routeId)
  }

  /** The argument `updateVendorStatusLocal` is called with. */
  datatype StatusRequest = ToBlocked | ToApproved | OtherRequest(name: string)

  /** The request `updateVendorStatusLocal` sends for vendor `id`, whose
      current approval status is `current`; an unknown status sends none. */
  function StatusCall(req: StatusRequest, id: int, current: Approval): (c: Option<Call>)
    ensures c.None? <==> req.OtherRequest?
    ensures c.Some? ==> c.value.OnVendor() && c.value.Target() == id && ReasonAccepted(c.value)
    ensures req == ToBlocked ==> c == Some(BlockVendor(id, BlockReason))
    ensures req == ToApproved && current == Pending ==> c == Some(ApproveVendor(id, ""))
    ensures req == ToApproved && current != Pending ==> c == Some(UnblockVendor(id, ""))
  {
    match req
    case ToBlocked => assert BlockReason[0] == 'P'; Some(BlockVendor(id, BlockReason))
    case ToApproved => if current == Pending then Some(ApproveVendor(id, "")) else Some(UnblockVendor(id, ""))
    case OtherRequest(_) => None
  }

  /** `handleStatusToggle`'s choice: "Blocked" whenever the vendor is
      approved, whatever its blocked flag says. */
  function ToggleRequest(e: Entity): (req: StatusRequest)
    ensures req == ToBlocked <==> e.approval == Approved
    ensures req != ToBlocked ==> req == ToApproved
  {
    if e.approval == Approved then ToBlocked else ToApproved
  }

  /** A rendered action button: its caption and the status it requests. */
  datatype Button = Button(caption: string, request: StatusRequest)

  /** The action buttons: approve and reject for a pending vendor, otherwise
      the single toggle, captioned by `approved && !is_blocked`. */
  function ActionButtons(e: Entity): (buttons: seq<Button>)
    ensures e.approval == Pending ==>
              buttons == [Button("Approve Vendor", ToApproved), Button("Reject Vendor", ToBlocked)]
    ensures e.approval != Pending ==> |buttons| == 1 && buttons[0].request == ToggleRequest(e)
    ensures e.approval != Pending ==>
              (buttons[0].caption == "Block Vendor" <==> e.approval == Approved && !e.isBlocked)
    ensures e.approval != Pending && buttons[0].caption != "Block Vendor" ==> buttons[0].caption == "Unblock Vendor"
  {
    if e.approval == Pending then
      [Button("Approve Vendor", ToApproved), Button("Reject Vendor", ToBlocked)]
    else
      [Button(if e.approval == Approved && !e.isBlocked then "Block Vendor" else "Unblock Vendor", ToggleRequest(e))]
  }

  /** The "Reject Vendor" button of a pending vendor sends a block request,
      never a reject. */
  lemma RejectButtonBlocks(id: int, e: Entity)
    requires e.approval == Pending
    ensures ActionButtons(e)[1].caption == "Reject Vendor"
    ensures StatusCall(ActionButtons(e)[1].request, id, e.approval).value.BlockVendor?
    ensures forall b :: b in ActionButtons(e) ==> !StatusCall(b.request, id, e.approval).value.RejectVendor?
  {
  }

  /** The toggle's caption and the request it sends agree for every vendor
      that is not pending except an approved, blocked one: that vendor reads
      "Unblock Vendor" but is sent another block request. A rejected vendor,
      blocked or not, is sent an unblock request. */
  lemma ToggleCaptionMismatch(id: int, e: Entity)
    requires e.approval != Pending
    ensures var b := ActionButtons(e)[0];
            var c := StatusCall(b.request, id, e.approval).value;
            && ((b.caption == "Block Vendor") == c.BlockVendor? <==> !(e.approval == Approved && e.isBlocked))
            && (e.approval == Approved && e.isBlocked ==> b.caption == "Unblock Vendor" && c.BlockVendor?)
            && (e.approval == Rejected ==> c == UnblockVendor(id, ""))
  {
  }

  /** The product toggle's status: "inactive" for an active product and
      "active" for any other status. */
  function NextProductStatus(status: string): (r: string)
    ensures r == "active" <==> status != "active"
    ensures r != "active" ==> r == "inactive"
  {
    if status == "active" then "inactive" else "active"
  }

  /** The product toggle's caption. */
  function ProductToggleCaption(status: string): (caption: string)
    ensures caption == "Block" <==> status == "active"
    ensures caption != "Block" ==> caption == "Unblock"
  {
    if status == "active" then "Block" else "Unblock"
  }

  /** Toggling a product twice restores an active or inactive status, and
      the caption always names what the click does. */
  lemma ProductToggleRoundTrip(status: string)
    ensures status in {"active", "inactive"} ==> NextProductStatus(NextProductStatus(status)) == status
    ensures ProductToggleCaption(status) == "Block" <==> NextProductStatus(status) == "inactive"
  {
  }

  class VendorDetailsPage {
    /** The `:id` route parameter, as a string. */
    const routeId: string
    var vendors: seq<Record>
    var vendor: Option<Record>
    var vendorProducts: seq<Product>
    var isLoadingProducts: bool

    constructor (routeId: string)
      ensures this.routeId == routeId && vendors == [] && vendor.None?
      ensures vendorProducts == [] && isLoadingProducts
    {
      this.routeId := routeId;
      vendors := [];
      vendor := None;
      vendorProducts := [];
      isLoadingProducts := true;
    }

    /** `loadData`, with the vendor list response and the product response
        (None when the product request fails) as inputs. The products are
        fetched only when a vendor was found. */
    method LoadData(response: Fetched<Record>, products: Option<seq<Product>>)
      modifies this
      ensures vendors == ListAfterLoad(old(vendors), response)
      ensures vendor == VendorAfterLoad(old(vendor), response, routeId)
      ensures vendorProducts == if response.Rows? && vendor.Some? && products.Some?
                                then products.value else old(vendorProducts)
      ensures isLoadingProducts == if response.Rows? && vendor.Some? then false else old(isLoadingProducts)
    {
      match response {
        case FetchFailed =>
        case NotAnArray =>
          vendors := [];
          vendor := None;
        case Rows(rows) =>
          vendors := rows;
          vendor := FindByRouteId(rows, routeId);
          if vendor.Some? {
            isLoadingProducts := true;
            if products.Some? {
              vendorProducts := products.value;
            }
            isLoadingProducts := false;
          }
      }
    }

    /** `updateVendorStatusLocal` for the page's vendor: at most one request,
        then `loadData` (with the reload responses as inputs) unless the
        request failed, in which case the page keeps its state. */
    method UpdateVendorStatusLocal(req: StatusRequest, gw: Gateway, networkUp: bool,
                                   reload: Fetched<Record>, products: Option<seq<Product>>)
      returns (ok: bool)
      requires vendor.Some?
      modifies this, gw
      ensures var c := StatusCall(req, old(vendor.value.id), old(vendor.value.life.approval));
              && gw.sent == old(gw.sent) + (if c.Some? then [c.value] else [])
              && ok == (c.None? || old(gw.Succeeds(c.value, networkUp)))
              && gw.agents == old(gw.agents)
              && gw.vendors == if ok && c.Some?
                               then old(gw.vendors)[c.value.Target() := Transition(old(gw.vendors)[c.value.Target()], c.value)]
                               else old(gw.vendors)
      ensures !ok ==> vendors == old(vendors) && vendor == old(vendor)
                      && vendorProducts == old(vendorProducts) && isLoadingProducts == old(isLoadingProducts)
      ensures ok ==> vendors == ListAfterLoad(old(vendors), reload)
                     && vendor == VendorAfterLoad(old(vendor), reload, routeId)
                     && vendorProducts == (if reload.Rows? && vendor.Some? && products.Some?
                                           then products.value else old(vendorProducts))
                     && isLoadingProducts == (if reload.Rows? && vendor.Some? then false
                                              else old(isLoadingProducts))
    {
      var c := StatusCall(req, vendor.value.id, vendor.value.life.approval);
      ok := true;
      if c.Some? {
        ok := gw.Send(c.value, networkUp);
      }
      if ok {
        LoadData(reload, products);
      }
    }

    /** `handleStatusToggle`: nothing without a vendor; otherwise the status
        chosen by `ToggleRequest` goes through `UpdateVendorStatusLocal`. */
    method HandleStatusToggle(gw: Gateway, networkUp: bool, reload: Fetched<Record>, products: Option<seq<Product>>)
      returns (ok: bool)
      modifies this, gw
      ensures old(vendor.None?) ==> !ok && unchanged(this) && unchanged(gw)
      ensures old(vendor.Some?) ==>
                var c := StatusCall(ToggleRequest(old(vendor.value.life)), old(vendor.value.id), old(vendor.value.life.approval));
                && gw.sent == old(gw.sent) + [c.value]
                && ok == old(gw.Succeeds(c.value, networkUp))
                && gw.agents == old(gw.agents)
                && gw.vendors == (if ok then old(gw.vendors)[c.value.Target() := Transition(old(gw.vendors)[c.value.Target()], c.value)]
                                  else old(gw.vendors))
      ensures old(vendor.Some?) && !ok ==>
                vendors == old(vendors) && vendor == old(vendor)
                && vendorProducts == old(vendorProducts) && isLoadingProducts == old(isLoadingProducts)
      ensures ok ==>
                vendors == ListAfterLoad(old(vendors), reload)
                && vendor == VendorAfterLoad(old(vendor), reload, routeId)
                && vendorProducts == (if reload.Rows? && vendor.Some? && products.Some?
                                      then products.value else old(vendorProducts))
                && isLoadingProducts == (if reload.Rows? && vendor.Some? then false
                                         else old(isLoadingProducts))
    {
      ok := false;
      if vendor.None? {
        return;
      }
      ok := UpdateVendorStatusLocal(ToggleRequest(vendor.value.life), gw, networkUp, reload, products);
    }
  }
}
