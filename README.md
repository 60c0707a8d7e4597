# ShopSphere: a verified model of the approval console, the delivery back end and two storefront pages

ShopSphere is a multi-role shop. Vendors and delivery agents register and wait for an administrator. The administrator approves or rejects them, and can later block or unblock them. Delivery agents work through their assignments, earn commissions and withdraw their wallet. Customers browse the storefront, and vendors manage their products.

This project models the parts of ShopSphere that carry decisions:

- **The approval lifecycle** (`lifecycle.dfy`). It covers approval status, the blocked flag, the four action guards and the status badge. Vendors and agents share it.
- **The administrator's request layer** (`admin_gateway.dfy`). Each call is a request that either succeeds, and the server applies the transition, or fails and nothing changes. The server's reason rule is part of it: reject and block need a reason that is not blank once stripped.
- **The five review pages of the admin console:**
  - vendor review (`admin_vendor_review.dfy`);
  - delivery agent review (`admin_delivery_review.dfy`);
  - vendor details (`admin_vendor_details.dfy`);
  - the delivery agent list (`admin_delivery_list.dfy`);
  - the delivery join requests (`admin_delivery_requests.dfy`).

  Each page is a class over its component state. Its handlers issue calls through the gateway and reload only after success.
- **The delivery agent REST API** (`delivery_model.dfy`, `delivery_api.dfy`):
  - the assignment status chain and the guard on each endpoint;
  - the profile update whitelist;
  - the earnings summary;
  - the dashboard gate;
  - the wallet withdrawal, with its minimum, its balance check and its all-or-nothing payout.

  The database is a class whose methods state the whole new state.
- **The delivery agent's server-rendered pages** (`delivery_views.dfy`): the login and dashboard gates, the three dashboard lists with their ordering and limit, and order acceptance.
- **The customer home page** (`storefront_home.dfy`): category and search filtering, pages of eight products, the banner carousel and the wishlist heart.
- **The vendor's product list** (`vendor_products.dfy`): the per-card image sliders, deletion, the edit form and its previews, the update body, and the product view slider.

Shared helpers are in `common.dfy`:

- an Option type;
- JavaScript's truncating `%` and the carousel step built on it;
- the `text || fallback` idiom;
- order-preserving filtering;
- the decimal rendering of ids.

Money is in paise (hundredths of a rupee), so the ₹100 minimum is 10000. Browser prompts are `Option<string>` inputs, where None means cancelled. The network outcome and the payout provider's answer are parameters.

Two behaviours of the admin pages are modelled exactly as the code has them:

- A rejected vendor is offered a single button captioned "Unblock Vendor" (`ShopSphere_Frontend/Adminservice/src/admin/VendorDetails.jsx:290-308`, whose caption is "Block Vendor" only for an approved unblocked vendor). A click sends an unblock, and no approval (`VendorDetails.ToggleCaptionMismatch`).
- The delivery review page sends the prompt's answer as the reason whenever it is not empty (`ShopSphere_Frontend/Adminservice/src/admin/DeliveryReview.jsx:43-48`), including an answer made only of spaces. The reject and block serializers declare `reason` a required text field (`Duplicate/ShopSphere/superAdmin/serializers.py:155-159`), which strips the answer and refuses it as blank, so that call fails (`DeliveryReview.SpacesOnlyReasonIsRefused`).

## Model

| member | source | states |
|---|---|---|
| Lifecycle.Offered | ShopSphere_Frontend/Adminservice/src/admin/VendorReview.jsx:140-143 | approve and reject are offered exactly for a pending record, block exactly for an approved unblocked one, unblock exactly for a blocked one; block and unblock never appear together; a rejected unblocked record is offered nothing |
| Lifecycle.BadgeLabel | ShopSphere_Frontend/Adminservice/src/admin/DeliveryReview.jsx:121 | the badge reads "Blocked" exactly when the record is blocked, and otherwise shows the raw approval status |
| AdminGateway.Gateway.Send | Duplicate/ShopSphere/superAdmin/serializers.py:90-159 | every call is recorded; it succeeds exactly when the network is up, the record exists and the reason passes the serializer (reject and block need a reason that is not blank, where blank means made only of the characters Python's `str.strip()` removes); on success only the target record changes, by the lifecycle transition, and on failure nothing changes |
| VendorReview.Classify | ShopSphere_Frontend/Adminservice/src/admin/VendorReview.jsx:79-86 | exactly "Approved", "Blocked", "Suspended" and "Unblocked" are recognised; any other pending action falls through to the reject branch |
| VendorReview.CallFor | ShopSphere_Frontend/Adminservice/src/admin/VendorReview.jsx:79-87 | each action sends exactly one vendor call on that vendor: approve for "Approved", block for "Blocked" or "Suspended", unblock for "Unblocked", reject otherwise; every call it sends has a reason the server accepts |
| VendorReview.DispatchTable | ShopSphere_Frontend/Adminservice/src/admin/VendorReview.jsx:79-87 | the exact calls and fixed reasons ("Actioned via Management Review", "Declined via Security Review", empty defaults for approve and unblock) |
| VendorReview.VendorReviewPage.constructor | ShopSphere_Frontend/Adminservice/src/admin/VendorReview.jsx:37-41 | the page starts with no pending action, the modal closed and nothing in flight |
| VendorReview.VendorReviewPage.HandleActionClick | ShopSphere_Frontend/Adminservice/src/admin/VendorReview.jsx:67-70 | clicking an action records it as pending and opens the confirmation modal, changing nothing else |
| VendorReview.VendorReviewPage.ConfirmAction | ShopSphere_Frontend/Adminservice/src/admin/VendorReview.jsx:72-94 | without a pending action or a vendor nothing happens; otherwise exactly one call is sent; on success the vendor takes the lifecycle transition of that call, and on failure no record changes; agents never change; the page navigates to /vendors only if it succeeded, and the modal and in-flight flag end closed |
| DeliveryReview.Classify | ShopSphere_Frontend/Adminservice/src/admin/DeliveryReview.jsx:39-53 | exactly "Approved", "Rejected", "Blocked" and "Unblocked" are recognised |
| DeliveryReview.CallFor | ShopSphere_Frontend/Adminservice/src/admin/DeliveryReview.jsx:39-53 | an unrecognised action sends nothing; approve sends "Approved by admin"; unblock sends no reason; reject and block send the prompt's text or their fallback, never an empty reason |
| DeliveryReview.EmptyPromptSendsFallback | ShopSphere_Frontend/Adminservice/src/admin/DeliveryReview.jsx:43-48 | a cancelled or empty prompt sends "Rejected by admin" or "Blocked by admin" |
| DeliveryReview.SpacesOnlyReasonIsRefused | ShopSphere_Frontend/Adminservice/src/admin/DeliveryReview.jsx:47-48 | a prompt answer of spaces is sent as the reason and the serializer refuses it |
| DeliveryReview.DeliveryReviewPage.constructor | ShopSphere_Frontend/Adminservice/src/admin/DeliveryReview.jsx:15-17 | the page starts idle on its agent |
| DeliveryReview.DeliveryReviewPage.HandleAction | ShopSphere_Frontend/Adminservice/src/admin/DeliveryReview.jsx:36-61 | at most one call is sent, the one `CallFor` gives; only the target agent changes, and only on success; the page navigates to /delivery/agents after success or after an unrecognised action; the in-flight flag ends cleared |
| VendorDetails.FindByRouteId | ShopSphere_Frontend/Adminservice/src/admin/VendorDetails.jsx:47 | the first vendor whose id, written in decimal, equals the route parameter; None exactly when there is none |
| VendorDetails.FindByRouteIdIsNumericLookup | ShopSphere_Frontend/Adminservice/src/admin/VendorDetails.jsx:47 | comparing decimal strings finds a vendor exactly when one has that numeric id, and the one found has it |
| VendorDetails.VendorAfterLoad | ShopSphere_Frontend/Adminservice/src/admin/VendorDetails.jsx:43-55 | a failed request keeps the shown vendor; a body that is not an array clears it; otherwise the route's vendor is looked up |
| VendorDetails.StatusCall | ShopSphere_Frontend/Adminservice/src/admin/VendorDetails.jsx:80-91 | "Blocked" blocks with the fixed policy reason; "Approved" approves a pending vendor and unblocks any other; anything else sends nothing; every call sent is accepted by the serializer |
| VendorDetails.ToggleRequest | ShopSphere_Frontend/Adminservice/src/admin/VendorDetails.jsx:97-101 | the toggle asks for "Blocked" exactly for an approved vendor, and for "Approved" otherwise |
| VendorDetails.ActionButtons | ShopSphere_Frontend/Adminservice/src/admin/VendorDetails.jsx:272-308 | a pending vendor gets "Approve Vendor" and "Reject Vendor"; any other gets one toggle, captioned "Block Vendor" exactly when it is approved and not blocked, "Unblock Vendor" otherwise |
| VendorDetails.RejectButtonBlocks | ShopSphere_Frontend/Adminservice/src/admin/VendorDetails.jsx:281-287 | the "Reject Vendor" button sends a block, and no button on this page ever sends a reject |
| VendorDetails.ToggleCaptionMismatch | ShopSphere_Frontend/Adminservice/src/admin/VendorDetails.jsx:290-308 | the toggle's caption and the call it sends agree exactly when the vendor is not both approved and blocked; a rejected vendor's button sends an unblock |
| VendorDetails.NextProductStatus | ShopSphere_Frontend/Adminservice/src/admin/VendorDetails.jsx:383 | a product toggle asks for "active" exactly when the status is not "active", otherwise "inactive" |
| VendorDetails.ProductToggleCaption | ShopSphere_Frontend/Adminservice/src/admin/VendorDetails.jsx:386 | the caption is "Block" exactly for an active product, otherwise "Unblock" |
| VendorDetails.ProductToggleRoundTrip | ShopSphere_Frontend/Adminservice/src/admin/VendorDetails.jsx:383-386 | toggling twice restores an active or inactive status, and "Block" is shown exactly when the click deactivates |
| VendorDetails.VendorDetailsPage.constructor | ShopSphere_Frontend/Adminservice/src/admin/VendorDetails.jsx:35-38 | the page starts with no vendors, no vendor and products loading |
| VendorDetails.VendorDetailsPage.LoadData | ShopSphere_Frontend/Adminservice/src/admin/VendorDetails.jsx:43-66 | the vendor list and the shown vendor follow the response; the vendor's products are fetched only when a vendor was found |
| VendorDetails.VendorDetailsPage.UpdateVendorStatusLocal | ShopSphere_Frontend/Adminservice/src/admin/VendorDetails.jsx:80-95 | at most one call, the one `StatusCall` gives; only the vendor changes, by its transition, and only on success; after success the list, the vendor, its products and the loading flag are those `LoadData` gives for the reload; after failure the page is unchanged |
| VendorDetails.VendorDetailsPage.HandleStatusToggle | ShopSphere_Frontend/Adminservice/src/admin/VendorDetails.jsx:97-101 | without a vendor nothing happens; otherwise exactly the call `StatusCall` gives for `ToggleRequest` is sent, the vendor takes its transition only on success, and the page ends as `LoadData` leaves it after success and unchanged after failure |
| DeliveryList.ParseFilter | ShopSphere_Frontend/Adminservice/src/admin/DeliveryList.jsx:55-61 | exactly "all", "approved", "pending" and "blocked" are recognised filters |
| DeliveryList.FilteredAgents | ShopSphere_Frontend/Adminservice/src/admin/DeliveryList.jsx:55-61 | the result holds exactly the agents the filter keeps |
| DeliveryList.FilteredIsSubsequence | ShopSphere_Frontend/Adminservice/src/admin/DeliveryList.jsx:55 | filtering keeps the list's order |
| DeliveryList.CatchAllKeepsEverything | ShopSphere_Frontend/Adminservice/src/admin/DeliveryList.jsx:56-60 | "all" and any unrecognised filter keep the whole list |
| DeliveryList.FilterSelectsByField | ShopSphere_Frontend/Adminservice/src/admin/DeliveryList.jsx:57-59 | "blocked" keeps exactly the blocked agents whatever their approval; "approved" and "pending" select by approval status |
| DeliveryList.BlockCall | ShopSphere_Frontend/Adminservice/src/admin/DeliveryList.jsx:38-46 | a blocked agent is unblocked, any other is blocked with the prompt's text or "Blocked by administrator" |
| DeliveryList.RowControlIgnoresApproval | ShopSphere_Frontend/Adminservice/src/admin/DeliveryList.jsx:168-177 | the row control unblocks exactly when the detail page's unblock guard holds, but it also offers to block a pending or rejected agent |
| DeliveryList.DeliveryListPage.constructor | ShopSphere_Frontend/Adminservice/src/admin/DeliveryList.jsx:10-13 | the page starts with no agents, loading, on the "all" filter |
| DeliveryList.DeliveryListPage.LoadAgents | ShopSphere_Frontend/Adminservice/src/admin/DeliveryList.jsx:15-26 | a failed request keeps the list, a body that is not an array empties it |
| DeliveryList.DeliveryListPage.HandleBlockAction | ShopSphere_Frontend/Adminservice/src/admin/DeliveryList.jsx:38-53 | one call, the one `BlockCall` gives; the list reloads only after it succeeded, and loading has then ended |
| DeliveryRequests.RequestCall | ShopSphere_Frontend/Adminservice/src/admin/DeliveryRequests.jsx:37-45 | "approve" approves with "Approved by administrator"; any other action rejects with the prompt's text or "Rejected by administrator", never an empty reason |
| DeliveryRequests.CancelledPromptRejectsWithFallback | ShopSphere_Frontend/Adminservice/src/admin/DeliveryRequests.jsx:43 | a cancelled or empty prompt rejects with the fallback, which the serializer accepts |
| DeliveryRequests.DeliveryRequestsPage.constructor | ShopSphere_Frontend/Adminservice/src/admin/DeliveryRequests.jsx:10-11 | the page starts with no requests, loading |
| DeliveryRequests.DeliveryRequestsPage.LoadRequests | ShopSphere_Frontend/Adminservice/src/admin/DeliveryRequests.jsx:14-25 | a failed request keeps the list, a body that is not an array empties it |
| DeliveryRequests.DeliveryRequestsPage.HandleAction | ShopSphere_Frontend/Adminservice/src/admin/DeliveryRequests.jsx:37-52 | one call, the one `RequestCall` gives; only that agent changes, by its transition, and only on success; after success the list is the reload's and loading has ended, after failure both keep their values |
| DeliveryModel.ActiveIsNotFinal | Duplicate/ShopSphere/deliveryAgent/views.py:98-101 | an assignment is active exactly when it is not delivered, cancelled or failed, and distinct statuses have distinct stored names |
| DeliveryModel.Target | Duplicate/ShopSphere/deliveryAgent/api_views.py:163-255 | only complete and failed lead to a final status |
| DeliveryModel.StepsMoveForward | Duplicate/ShopSphere/deliveryAgent/api_views.py:157-265 | every permitted endpoint moves the assignment strictly forward, and none is permitted from a final status |
| DeliveryModel.FailAllowedExactlyWhenNotFinal | Duplicate/ShopSphere/deliveryAgent/api_views.py:252-253 | failed is refused exactly for delivered, cancelled and failed assignments |
| DeliveryModel.RunMovesForward | Duplicate/ShopSphere/deliveryAgent/api_views.py:157-265 | along any run of accepted calls no status is revisited, and an assignment takes at most four accepted calls |
| DeliveryModel.AtMostOneCompletion | Duplicate/ShopSphere/deliveryAgent/api_views.py:211-239 | complete succeeds at most once per assignment, so the delivery counters rise at most once, and then the assignment ends delivered |
| DeliveryModel.DeliveryChain | Duplicate/ShopSphere/deliveryAgent/api_views.py:157-265 | assigned reaches delivered through accept, start, in transit and complete, or with in transit skipped; failed is reachable from every active status |
| DeliveryModel.Get | Duplicate/ShopSphere/deliveryAgent/api_views.py:160-161 | the single-row lookup: no row, the one matching row, or proof that two rows match |
| DeliveryApi.Completed | Duplicate/ShopSphere/deliveryAgent/api_views.py:234-236 | completing raises both delivery counters by one and changes nothing else on the profile |
| DeliveryApi.PayoutMethod | Duplicate/ShopSphere/deliveryAgent/api_views.py:449 | the payout method defaults to "bank_transfer" |
| DeliveryApi.Summary | Duplicate/ShopSphere/deliveryAgent/api_views.py:372-398 | no profile gives not found; otherwise each term sums the agent's commissions of that status, and the total is the sum of the three terms |
| DeliveryApi.SummaryTotalCoversAll | Duplicate/ShopSphere/deliveryAgent/api_views.py:387-395 | when every commission has a known status, the three terms add up to all of the agent's commissions |
| DeliveryApi.SummaryTermsNonNegative | Duplicate/ShopSphere/deliveryAgent/api_views.py:387-389 | with non-negative amounts no term is negative |
| DeliveryApi.SummaryTotal | Duplicate/ShopSphere/deliveryAgent/api_views.py:391-395 | the reported total is the sum of all the agent's commissions, given known statuses |
| DeliveryApi.DashboardAccess | Duplicate/ShopSphere/deliveryAgent/api_views.py:608-620 | access is granted exactly to an approved, unblocked agent; otherwise 403 with the exact error and reason for rejected, pending and blocked |
| DeliveryApi.ApprovalCheckedBeforeBlock | Duplicate/ShopSphere/deliveryAgent/api_views.py:606-620 | an agent that is blocked but not approved is told about its approval, never about the block |
| DeliveryApi.DashboardAsWritten | Duplicate/ShopSphere/deliveryAgent/api_views.py:596-625 | as written, a missing profile ends in a 500 |
| DeliveryApi.Dashboard | Duplicate/ShopSphere/deliveryAgent/api_views.py:596-600 | a missing profile is a 404, and access is granted exactly to an existing approved unblocked agent |
| DeliveryApi.DashboardMissingProfileIsServerError | Duplicate/ShopSphere/deliveryAgent/api_views.py:596-625 | the code as written differs from the intended view exactly on a missing profile |
| DeliveryApi.ApplyAllowedFields | Duplicate/ShopSphere/deliveryAgent/api_views.py:74-81 | every whitelisted field present in the request is written, every other field keeps its value, and no other key appears |
| DeliveryApi.DeliveryDatabase.Perform | Duplicate/ShopSphere/deliveryAgent/api_views.py:157-265 | 404 without a profile or without the assignment, 500 for several rows, 400 with the endpoint's message when its guard fails; otherwise the assignment moves to the step's target, and complete also raises the agent's counters; nothing else changes |
| DeliveryApi.DeliveryDatabase.UpdateProfile | Duplicate/ShopSphere/deliveryAgent/api_views.py:69-89 | 404 without a profile; a save the database refuses is answered 500 with its message and writes nothing; otherwise only the whitelisted fields present in the request change, every other field and every other profile keeps its value |
| DeliveryApi.DeliveryDatabase.Withdraw | Duplicate/ShopSphere/deliveryAgent/api_views.py:441-494 | the wallet is created at zero if missing; a malformed, sub-minimum or uncovered amount is refused with the source's message; a refused payout restores the saved state; a successful one deducts the amount and records a completed payout; balances stay non-negative |
| DeliveryViews.Login | Duplicate/ShopSphere/deliveryAgent/views.py:45-68 | a user logs in exactly with valid credentials and, for a delivery user, an approved profile; the missing-profile and pending-approval refusals carry the source's messages |
| DeliveryViews.DashboardGate | Duplicate/ShopSphere/deliveryAgent/views.py:80-94 | the dashboard renders exactly for a delivery user with an approved profile; the other roles, a missing profile and an unapproved profile are redirected with the source's messages, and only the unapproved one is logged out |
| DeliveryViews.BlockedAgentAdmittedHere | Duplicate/ShopSphere/deliveryAgent/views.py:56-66 | an approved but blocked agent logs in and sees this dashboard, while the REST dashboard refuses it |
| DeliveryViews.InsertDesc | Duplicate/ShopSphere/deliveryAgent/views.py:101 | inserting into a list sorted newest first keeps it sorted and is a permutation of the input plus the new row |
| DeliveryViews.SortDesc | Duplicate/ShopSphere/deliveryAgent/views.py:101 | the result is sorted newest first and is a permutation of the input |
| DeliveryViews.SubsequenceKeepsOrder | Duplicate/ShopSphere/deliveryAgent/views.py:105 | a subsequence of a sorted list is sorted, and its rows come from the list |
| DeliveryViews.ActiveAssignments | Duplicate/ShopSphere/deliveryAgent/views.py:97-101 | exactly the agent's active assignments, newest assignment first |
| DeliveryViews.AvailableOrders | Duplicate/ShopSphere/deliveryAgent/views.py:105 | exactly the agent's assignments still in "assigned" |
| DeliveryViews.AvailableOrdersNewestFirst | Duplicate/ShopSphere/deliveryAgent/views.py:105 | available orders keep the active list's newest-first order |
| DeliveryViews.DeliveredByCompletion | Duplicate/ShopSphere/deliveryAgent/views.py:108-111 | exactly the agent's delivered assignments, latest completion first |
| DeliveryViews.RecentDeliveries | Duplicate/ShopSphere/deliveryAgent/views.py:111 | at most ten rows, a prefix of the sorted deliveries, and all of them when there are fewer than ten |
| DeliveryViews.RecentAreTheLatest | Duplicate/ShopSphere/deliveryAgent/views.py:108-111 | each shown delivery is the agent's and delivered, and none left out was completed later than one shown |
| DeliveryViews.AcceptOrder | Duplicate/ShopSphere/deliveryAgent/views.py:142-166 | a GET is refused; with no profile or no such order the flash carries the source's message; an assigned order moves to accepted; any other status is reported and nothing changes |
| StorefrontHome.LowerChar | ShopSphere_Frontend/ShopSphere_Frontend/src/Pages/customer/Home.jsx:110 | ASCII capitals are lowered and every other character is kept |
| StorefrontHome.Lower | ShopSphere_Frontend/ShopSphere_Frontend/src/Pages/customer/Home.jsx:110 | the lowered name has the same length, lowered character by character |
| StorefrontHome.Contains | ShopSphere_Frontend/ShopSphere_Frontend/src/Pages/customer/Home.jsx:110 | true exactly when the query occurs as a block of the name |
| StorefrontHome.FilteredProducts | ShopSphere_Frontend/ShopSphere_Frontend/src/Pages/customer/Home.jsx:109-111 | a category with no list gives an empty result; otherwise exactly the category's items whose lowered name contains the lowered query |
| StorefrontHome.FilteredProductsProperties | ShopSphere_Frontend/ShopSphere_Frontend/src/Pages/customer/Home.jsx:109-111 | the result keeps the category's order, and an empty query keeps everything |
| StorefrontHome.TotalPages | ShopSphere_Frontend/ShopSphere_Frontend/src/Pages/customer/Home.jsx:113 | the smallest page count whose pages of eight hold all the products |
| StorefrontHome.JsSlice | ShopSphere_Frontend/ShopSphere_Frontend/src/Pages/customer/Home.jsx:116 | JavaScript's slice agrees with the sub-sequence inside the bounds and is empty past the end |
| StorefrontHome.Page | ShopSphere_Frontend/ShopSphere_Frontend/src/Pages/customer/Home.jsx:114-116 | a page holds at most eight products, is non-empty when it starts inside the list and empty past it |
| StorefrontHome.PagesUpToIsPrefix | ShopSphere_Frontend/ShopSphere_Frontend/src/Pages/customer/Home.jsx:114-116 | the first k pages laid end to end are the first 8k products |
| StorefrontHome.PagesCoverList | ShopSphere_Frontend/ShopSphere_Frontend/src/Pages/customer/Home.jsx:113-116 | pages 1 to the page count reproduce the filtered list exactly, each with one to eight products |
| StorefrontHome.PageButtons | ShopSphere_Frontend/ShopSphere_Frontend/src/Pages/customer/Home.jsx:267-277 | no buttons for one page or none; otherwise buttons numbered 1 to the page count |
| StorefrontHome.ToggleWishlist | ShopSphere_Frontend/ShopSphere_Frontend/src/Pages/customer/Home.jsx:126-131 | an item whose name is in the wishlist is removed: no item of that name is left, and every item with another name stays, in its order; otherwise it is appended |
| StorefrontHome.ToggleTwiceRestores | ShopSphere_Frontend/ShopSphere_Frontend/src/Pages/customer/Home.jsx:125-131 | two clicks on an item not in the wishlist leave the wishlist as it was |
| StorefrontHome.StalePageIsBlank | ShopSphere_Frontend/ShopSphere_Frontend/src/Pages/customer/Home.jsx:113-116 | seen from page two or later, a non-empty result of at most eight products shows an empty page and no page buttons, while page one would show all of it; the "no products" message stays hidden because the result is not empty |
| StorefrontHome.FirstPageShowsResults | ShopSphere_Frontend/ShopSphere_Frontend/src/Pages/customer/Home.jsx:114-116 | page one of a non-empty result shows its first products |
| StorefrontHome.HomePage.constructor | ShopSphere_Frontend/ShopSphere_Frontend/src/Pages/customer/Home.jsx:65-70 | the page opens on "All", the URL's query, the first banner and page one |
| StorefrontHome.HomePage.SelectCategory | ShopSphere_Frontend/ShopSphere_Frontend/src/Pages/customer/Home.jsx:177 | a category click switches category and returns to page one |
| StorefrontHome.HomePage.Paginate | ShopSphere_Frontend/ShopSphere_Frontend/src/Pages/customer/Home.jsx:149-152 | a page button shows its page, which holds one to eight products |
| StorefrontHome.HomePage.ShowNextBanner | ShopSphere_Frontend/ShopSphere_Frontend/src/Pages/customer/Home.jsx:239 | the next banner is (i + 1) mod 3, and the index stays in [0, 3) |
| StorefrontHome.HomePage.ShowPrevBanner | ShopSphere_Frontend/ShopSphere_Frontend/src/Pages/customer/Home.jsx:236 | the previous banner is (i - 1 + 3) mod 3, and the index stays in [0, 3) |
| StorefrontHome.HomePage.ApplyUrlSearchAsWritten | ShopSphere_Frontend/ShopSphere_Frontend/src/Pages/customer/Home.jsx:74-77 | as written, a new search keeps the current page number |
| StorefrontHome.HomePage.ApplyUrlSearch | ShopSphere_Frontend/ShopSphere_Frontend/src/Pages/customer/Home.jsx:74-77 | a new search returns to page one, so a search with results shows them |
| StorefrontHome.HomePage.WishlistClick | ShopSphere_Frontend/ShopSphere_Frontend/src/Pages/customer/Home.jsx:118-132 | without a token nothing is dispatched and the page goes to /login; otherwise the wishlist is toggled by name |
| Common.JsRem | ShopSphere_Frontend/ShopSphere_Frontend/src/Pages/vendor/Products.jsx:117 | JavaScript's remainder: in [0, b) for a non-negative dividend, with the dividend's sign otherwise |
| Common.RotationInverse | ShopSphere_Frontend/ShopSphere_Frontend/src/Pages/vendor/Products.jsx:114-126 | the forward and backward carousel steps keep an index in [0, n), and each undoes the other |
| Common.OrDefault | ShopSphere_Frontend/Adminservice/src/admin/DeliveryList.jsx:44 | an empty or cancelled prompt gives the fallback, any other text is used as given |
| Common.ListAfterLoad | ShopSphere_Frontend/Adminservice/src/admin/DeliveryRequests.jsx:17-19 | a failed request keeps the list, a non-array body gives [], an array replaces the list |
| Common.Filter | ShopSphere_Frontend/Adminservice/src/admin/DeliveryList.jsx:55 | the result holds exactly the kept elements, no more of them than the input |
| Common.FilterIsSubsequence | ShopSphere_Frontend/ShopSphere_Frontend/src/Pages/customer/Home.jsx:109 | filtering keeps the input's order |
| Common.DecimalStringInjective | ShopSphere_Frontend/Adminservice/src/admin/VendorDetails.jsx:47 | distinct ids have distinct decimal strings |
| VendorProducts.ImagesOf | ShopSphere_Frontend/ShopSphere_Frontend/src/Pages/vendor/Products.jsx:57 | a product's images, or [] when it has none |
| VendorProducts.SlideCount | ShopSphere_Frontend/ShopSphere_Frontend/src/Pages/vendor/Products.jsx:117 | the image count, or 1 when there are no images |
| VendorProducts.DropIndex | ShopSphere_Frontend/ShopSphere_Frontend/src/Pages/vendor/Products.jsx:86-88 | filtering out one position removes exactly that element and keeps the rest in order; a position outside the list removes nothing |
| VendorProducts.ShiftSlider | ShopSphere_Frontend/ShopSphere_Frontend/src/Pages/vendor/Products.jsx:44-46 | after a deletion, positions below it keep their slide and positions above it take the slide of the card that moved there |
| VendorProducts.ShiftedSliderStaysInRange | ShopSphere_Frontend/ShopSphere_Frontend/src/Pages/vendor/Products.jsx:44-46 | deleting a card with the slider map shifted keeps every card's slide among its own images |
| VendorProducts.UnshiftedSliderLeavesRange | ShopSphere_Frontend/ShopSphere_Frontend/src/Pages/vendor/Products.jsx:44-46 | with the map left as it was, a deletion can leave a card pointing past its images |
| VendorProducts.UpdateBody | ShopSphere_Frontend/ShopSphere_Frontend/src/Pages/vendor/Products.jsx:94-99 | the update body is the edited product, with quantity set to stock exactly when stock is truthy; nothing else changes |
| VendorProducts.UpdateBodyIdempotent | ShopSphere_Frontend/ShopSphere_Frontend/src/Pages/vendor/Products.jsx:97-99 | mapping stock to quantity twice gives the same body as once |
| VendorProducts.ProductListPage.constructor | ShopSphere_Frontend/ShopSphere_Frontend/src/Pages/vendor/Products.jsx:8-15 | the page starts empty, loading, with no editor and no view open |
| VendorProducts.ProductListPage.InitialSliderIndex | ShopSphere_Frontend/ShopSphere_Frontend/src/Pages/vendor/Products.jsx:27-29 | every position below the product count, and no other, starts at slide 0 |
| VendorProducts.ProductListPage.LoadProducts | ShopSphere_Frontend/ShopSphere_Frontend/src/Pages/vendor/Products.jsx:21-36 | on success the list is replaced and every slider is reset to 0; on failure both are kept; loading ends |
| VendorProducts.ProductListPage.DeleteProductAsWritten | ShopSphere_Frontend/ShopSphere_Frontend/src/Pages/vendor/Products.jsx:38-52 | as written, the card is removed after a confirmed, successful delete, but the slider map is left unchanged |
| VendorProducts.ProductListPage.DeleteProduct | ShopSphere_Frontend/ShopSphere_Frontend/src/Pages/vendor/Products.jsx:38-52 | a cancelled confirm sends nothing and changes nothing; a failed delete changes nothing on the page; a successful one removes exactly the card at the index, keeps the others in order and shifts the sliders with them |
| VendorProducts.ProductListPage.StartEdit | ShopSphere_Frontend/ShopSphere_Frontend/src/Pages/vendor/Products.jsx:54-58 | the editor opens on the product, with one preview per image |
| VendorProducts.ProductListPage.HandleEditChange | ShopSphere_Frontend/ShopSphere_Frontend/src/Pages/vendor/Products.jsx:60-62 | only the named field of the edited product changes |
| VendorProducts.ProductListPage.HandleImages | ShopSphere_Frontend/ShopSphere_Frontend/src/Pages/vendor/Products.jsx:64-81 | the chosen images are appended to the product's images and to the previews alike |
| VendorProducts.ProductListPage.RemoveImage | ShopSphere_Frontend/ShopSphere_Frontend/src/Pages/vendor/Products.jsx:83-89 | the same position leaves the images and the previews, which stay the same length; the images are always present when a preview is |
| VendorProducts.ProductListPage.SaveEdit | ShopSphere_Frontend/ShopSphere_Frontend/src/Pages/vendor/Products.jsx:91-112 | the update body is sent; the editor closes only after success; a successful save with a successful reload replaces the list and puts every card's slider at 0, and otherwise the list and the sliders keep their values |
| VendorProducts.ProductListPage.NextSlide | ShopSphere_Frontend/ShopSphere_Frontend/src/Pages/vendor/Products.jsx:114-119 | only the card's own slide moves forward, wrapping at its slide count, and every slide stays in range |
| VendorProducts.ProductListPage.PrevSlide | ShopSphere_Frontend/ShopSphere_Frontend/src/Pages/vendor/Products.jsx:121-126 | only the card's own slide moves back, wrapping at its slide count, and every slide stays in range |
| VendorProducts.ProductListPage.OpenView | ShopSphere_Frontend/ShopSphere_Frontend/src/Pages/vendor/Products.jsx:224-227 | the view opens on the product's first image |
| VendorProducts.ProductListPage.NextViewSlide | ShopSphere_Frontend/ShopSphere_Frontend/src/Pages/vendor/Products.jsx:128-131 | reachable only with more than one image; the view's slide moves forward and stays among the images |
| VendorProducts.ProductListPage.PrevViewSlide | ShopSphere_Frontend/ShopSphere_Frontend/src/Pages/vendor/Products.jsx:133-136 | reachable only with more than one image; the view's slide moves back and stays among the images |

## Left out

- Network, storage and browser effects are not modelled. HTTP requests are a gateway whose success is a parameter. `localStorage` token presence is a boolean. `prompt()` is an optional string. Toasts, alerts and `console` output are not modelled.
- The server side of the administrator calls is not part of this model. Its effect on a record is taken from the approval lifecycle: approve sets approved, reject sets rejected, block sets the flag and unblock clears it. The serializers' reason rule is kept.
- AdminGateway.Gateway.Send: a reason holding a NUL character, which the framework's text field also refuses, is accepted by the model, because that refusal is a framework validator outside the serializers' own rule.
- The `DeliveryAssignment` model methods (`accept_delivery`, `start_delivery`, `mark_in_transit`, `mark_delivered`, `mark_failed`) are not part of this model. Their target statuses are taken from their names. Their timestamps and attempt counters are left out.
- `UserWallet.deduct_balance` is not part of this model; it is taken to subtract the amount. The Razorpay payout helper is a parameter that succeeds with a transaction id or fails.
- Date-window filters on `summary` and on the statistics endpoints are left out, because they depend on the clock.
- Money is whole paise. Sub-paise `Decimal` precision is not modelled.
- `rating_summary`, with its float satisfaction rate, is left out because it is floating point.
- The float location conversion in `update_location` is left out because it is floating point.
- `update_availability` is left out. So are the list, retrieve, active, tracking-history, payment-list, pending and daily-stats endpoints. These are plain reads, or a single whitelisted assignment.
- `register` and the sign-up form of the agent portal are left out. They are form validation done by the framework.
- The proof-of-delivery and OTP handling in `complete` is left out, because it is file and request parsing. So is the exact text Django gives for a multiple-rows error, which counts the rows.
- `order_by` sorts stably in the model. Ties on the timestamp may come back in another order from the database.
- The `isActioning` flags, the overlap of concurrent requests and the banner's six-second timer are left out. Each handler runs to completion.
- `saveEdit` awaits `loadProducts`, which is modelled as a single sequential step.
- `loadProducts` with a body that is not an array is left out. The page would store it and then fail in `forEach`.
- StorefrontHome.LowerChar, StorefrontHome.Lower: lower only the ASCII capitals A-Z, where JavaScript's `toLowerCase` also lowers other capitals (a search for "é" finds "École" in the browser but not in the model), because Unicode case mapping tables are outside the model.
- The wishlist reducers are not part of this model. Adding is taken to append, and removing to drop every item with that name.
- `handleAddToCartClick` and the Redux product fetches on the home page are left out.
- StorefrontHome.HomePage.Paginate: requires a page number between 1 and the page count, because that is what the page buttons pass.
- VendorProducts.ProductListPage.NextViewSlide: the early return for a product without images is not modelled, because the arrows that call it are shown only for products with more than one image.
- VendorProducts.ProductListPage.HandleEditChange: requires the editor to be open, because the form only exists then.
- Review pages load their record (`fetchVendorDetail`, `fetchDeliveryAgentDetail`) before any action, and the vendor review page marks its notification read. The loaded record is a constructor input here, and notifications are left out.
- The request count on the join-request page is the length of the loaded list, and the available-order count on the agent dashboard is the length of `AvailableOrders`. Neither is a separate member.
- The product status toggle on the vendor details page (`updateProductStatus`) is modelled only by the status it requests and its caption. The request itself goes through a product endpoint outside the admin gateway.

## Findings

| source | as written | input that shows it | evidently intended | confidence | as-written member | corrected member |
|---|---|---|---|---|---|---|
| Duplicate/ShopSphere/deliveryAgent/api_views.py:596-625 | `get_object` raises `Http404` for a missing profile, and the view's own `except Exception` turns it into a 500 with the 404's message | a user with no delivery agent profile requests the dashboard | 404 "Delivery agent profile not found" | high, not executed | DeliveryApi.DashboardAsWritten | DeliveryApi.Dashboard |
| ShopSphere_Frontend/ShopSphere_Frontend/src/Pages/vendor/Products.jsx:44-46 | deleting a card leaves `sliderIndex` keyed by the old positions | cards with 1, 3 and 1 images on slides 0, 2 and 0; delete the first: the last card moves to position 1 and inherits slide 2, past its only image | shift the slider map with the cards | high, not executed | VendorProducts.UnshiftedSliderLeavesRange | VendorProducts.ShiftedSliderStaysInRange |
| ShopSphere_Frontend/ShopSphere_Frontend/src/Pages/customer/Home.jsx:74-77 | a new search from the URL keeps the current page, while a category change resets it (177) | on page 3 of "All", search for a name that matches five products: the grid is empty, no page buttons and no "no products" message | return to page one on a new search | medium, not executed | StorefrontHome.StalePageIsBlank | StorefrontHome.HomePage.ApplyUrlSearch |
