/** The server-rendered delivery agent portal: the login gate, the
    dashboard gate and the lists it shows, and the accept-order form post. */
module DeliveryViews {
  import opened Common
  import opened Lifecycle
  import opened DeliveryModel
  import DeliveryApi

  const DeliveryRole := "delivery"
  const PendingLoginMessage := "Your delivery partner account is pending admin approval."
  const NoProfileMessage := "Delivery profile not found."
  const RestrictedMessage := "Access restricted to delivery agents only."
  const PendingDashboardMessage := "Your delivery account is still pending admin approval. Access is restricted for now."
  /** The most recent deliveries the dashboard lists. */
  const RecentLimit := 10

  /** The outcome of a login post on the agent portal. */
  datatype LoginResult = LoggedIn | InvalidCredentials | Refused(message: string)

  /** The login branch of `agent_portal`: a user with the delivery role is
      logged in only with an approved profile; any other role is logged in
      as soon as the credentials are valid. */
  function Login(credentialsValid: bool, role: string, profile: Option<AgentProfile>): (r: LoginResult)
    ensures r == LoggedIn <==>
              credentialsValid && (role != "delivery" || (profile.Some? && profile.value.life.approval == Approved))
    ensures !credentialsValid <==> r == InvalidCredentials
    ensures credentialsValid && role == "delivery" && profile.None? ==> r == Refused("Delivery profile not found.")
    ensures credentialsValid && role == "delivery" && profile.Some? && profile.value.life.approval != Approved
            ==> r == Refused("Your delivery partner account is pending admin approval.")
  {
    if !credentialsValid then InvalidCredentials
    else if role == DeliveryRole then
      if profile.None? then Refused(NoProfileMessage)
      else if profile.value.life.approval != Approved then Refused(PendingLoginMessage)
      else LoggedIn
    else LoggedIn
  }

  /** What `delivery_dashboard` does before rendering: render, or redirect
      to the portal with a message, logging the user out first when the
      profile is not approved. */
  datatype Gate = Render | Redirect(message: string, loggedOut: bool)

  function DashboardGate(role: string, profile: Option<AgentProfile>): (g: Gate)
    ensures g == Render <==> role == "delivery" && profile.Some? && profile.value.life.approval == Approved
    ensures g.Redirect? && g.loggedOut <==> role == "delivery" && profile.Some? && profile.value.life.approval != Approved
    ensures role != "delivery" ==> g == Redirect("Access restricted to delivery agents only.", false)
    ensures role == "delivery" && profile.None? ==> g == Redirect("Delivery profile not found.", false)
    ensures role == "delivery" && profile.Some? && profile.value.life.approval != Approved
            ==> g == Redirect("Your delivery account is still pending admin approval. Access is restricted for now.", true)
  {
    if role != DeliveryRole then Redirect(RestrictedMessage, false)
    else if profile.None? then Redirect(NoProfileMessage, false)
    else if profile.value.life.approval != Approved then Redirect(PendingDashboardMessage, true)
    else Render
  }

  /** Unlike the REST dashboard, this page does not look at the blocked flag:
      an approved, blocked agent logs in and sees the dashboard, while the
      REST dashboard answers 403 for the same profile. */
  lemma BlockedAgentAdmittedHere(p: AgentProfile)
    requires p.life.approval == Approved && p.life.isBlocked
    ensures Login(true, "delivery", Some(p)) == LoggedIn
    ensures DashboardGate("delivery", Some(p)) == Render
    ensures DeliveryApi.DashboardAccess(p).Forbidden?
  {
  }

  /** `s` is ordered by `key`, largest first. */
  predicate SortedDesc(s: seq<Assignment>, key: Assignment -> int)
  {
    forall i, j :: 0 <= i < j < |s| ==> key(s[i]) >= key(s[j])
  }

  function InsertDesc(x: Assignment, s: seq<Assignment>, key: Assignment -> int): (r: seq<Assignment>)
    requires SortedDesc(s, key)
    ensures SortedDesc(r, key)
    ensures multiset(r) == multiset(s) + multiset{x}
    ensures |r| == |s| + 1
    ensures r[0] == x || (s != [] && r[0] == s[0])
    decreases |s|
  {
    if s == [] || key(x) >= key(s[0]) then [x] + s
    else
      var rest := InsertDesc(x, s[1..], key);
      assert s == [s[0]] + s[1..];
      assert key(s[0]) >= key(rest[0]);
      [s[0]] + rest
  }

  /** The ordering `order_by('-key')` gives: the same rows, largest key
      first (rows with equal keys may come in either order). */
  function SortDesc(s: seq<Assignment>, key: Assignment -> int): (r: seq<Assignment>)
    ensures SortedDesc(r, key)
    ensures multiset(r) == multiset(s)
    ensures |r| == |s|
    decreases |s|
  {
    if s == [] then []
    else
      assert s == [s[0]] + s[1..];
      InsertDesc(s[0], SortDesc(s[1..], key), key)
  }

  /** A subsequence of an ordered list is ordered. */
  lemma {:induction false} SubsequenceKeepsOrder(a: seq<Assignment>, b: seq<Assignment>, key: Assignment -> int)
    requires IsSubsequence(a, b) && SortedDesc(b, key)
    ensures SortedDesc(a, key)
    ensures forall i :: 0 <= i < |a| ==> a[i] in b
    decreases |b|
  {
    if b != [] {
      assert SortedDesc(b[1..], key) by {
        forall i, j | 0 <= i < j < |b[1..]|
          ensures key(b[1..][i]) >= key(b[1..][j])
        {
          assert b[1..][i] == b[i + 1] && b[1..][j] == b[j + 1];
        }
      }
      if IsSubsequence(a, b[1..]) {
        SubsequenceKeepsOrder(a, b[1..], key);
      } else {
        SubsequenceKeepsOrder(a[1..], b[1..], key);
        forall i, j | 0 <= i < j < |a|
          ensures key(a[i]) >= key(a[j])
        {
          if i == 0 {
            assert a[j] == a[1..][j - 1];
            var m :| 0 <= m < |b[1..]| && b[1..][m] == a[j];
            assert b[m + 1] == a[j];
          } else {
            assert a[i] == a[1..][i - 1] && a[j] == a[1..][j - 1];
          }
        }
        forall i | 0 <= i < |a|
          ensures a[i] in b
        {
          if i > 0 {
            assert a[i] == a[1..][i - 1];
          }
        }
      }
    }
  }

  function AssignedAt(a: Assignment): int { a.assignedAt }
  function CompletedAt(a: Assignment): int { a.completedAt }

  /** The agent's assignments whose status is assigned, accepted, picked up
      or in transit, newest assignment first. */
  function ActiveAssignments(rows: seq<Assignment>, user: int): (r: seq<Assignment>)
    ensures SortedDesc(r, AssignedAt)
    ensures forall a :: a in r <==> a in rows && a.agentUser == user && a.status.IsActive()
  {
    var mine := Filter(rows, (a: Assignment) => a.agentUser == user && a.status.IsActive());
    var r := SortDesc(mine, AssignedAt);
    assert forall a :: a in r <==> a in multiset(mine);
    r
  }

  /** The active assignments still waiting to be accepted, in the same order. */
  function AvailableOrders(rows: seq<Assignment>, user: int): (r: seq<Assignment>)
    ensures forall a :: a in r <==> a in rows && a.agentUser == user && a.status == Assigned
  {
    Filter(ActiveAssignments(rows, user), (a: Assignment) => a.status == Assigned)
  }

  /** The available orders keep the newest-first order of the active list. */
  lemma AvailableOrdersNewestFirst(rows: seq<Assignment>, user: int)
    ensures SortedDesc(AvailableOrders(rows, user), AssignedAt)
    ensures IsSubsequence(AvailableOrders(rows, user), ActiveAssignments(rows, user))
  {
    FilterIsSubsequence(ActiveAssignments(rows, user), (a: Assignment) => a.status == Assigned);
    SubsequenceKeepsOrder(AvailableOrders(rows, user), ActiveAssignments(rows, user), AssignedAt);
  }

  /** All of the agent's delivered assignments, latest completion first. */
  function DeliveredByCompletion(rows: seq<Assignment>, user: int): (r: seq<Assignment>)
    ensures SortedDesc(r, CompletedAt)
    ensures forall a :: a in r <==> a in rows && a.agentUser == user && a.status == Delivered
  {
    var mine := Filter(rows, (a: Assignment) => a.agentUser == user && a.status == Delivered);
    var r := SortDesc(mine, CompletedAt);
    assert forall a :: a in r <==> a in multiset(mine);
    r
  }

  /** `recent_deliveries`: the first ten of those. */
  function RecentDeliveries(rows: seq<Assignment>, user: int): (r: seq<Assignment>)
    ensures |r| <= 10 && |r| <= |DeliveredByCompletion(rows, user)|
    ensures r == DeliveredByCompletion(rows, user)[..|r|]
    ensures |r| < 10 ==> r == DeliveredByCompletion(rows, user)
  {
    var all := DeliveredByCompletion(rows, user);
    if |all| <= RecentLimit then all else all[..RecentLimit]
  }

  /** The recent list holds only delivered assignments of the agent, latest
      first, and no delivery left out of it completed later than one in it. */
  lemma RecentAreTheLatest(rows: seq<Assignment>, user: int)
    ensures forall a :: a in RecentDeliveries(rows, user) ==>
              a in rows && a.agentUser == user && a.status == Delivered
    ensures SortedDesc(RecentDeliveries(rows, user), CompletedAt)
    ensures forall a, b :: a in RecentDeliveries(rows, user) && b in rows && b.agentUser == user
                           && b.status == Delivered && b !in RecentDeliveries(rows, user)
                           ==> b.completedAt <= a.completedAt
  {
    var all := DeliveredByCompletion(rows, user);
    var r := RecentDeliveries(rows, user);
    assert r == all[..|r|];
    assert forall k :: 0 <= k < |r| ==> r[k] == all[k];
    forall a, b | a in r && b in rows && b.agentUser == user && b.status == Delivered && b !in r
      ensures b.completedAt <= a.completedAt
    {
      var i :| 0 <= i < |r| && r[i] == a;
      var j :| 0 <= j < |all| && all[j] == b;
      assert all[i] == a;
    }
    forall a | a in r
      ensures a in all
    {
      var i :| 0 <= i < |r| && r[i] == a;
      assert all[i] == a;
    }
  }

  /** The message `accept_order` flashes; the page always goes back to the
      dashboard afterwards. */
  datatype Flash = AcceptedOrder | AlreadyIn(status: AssignmentStatus) | Failure(message: string)

  const InvalidMethod := "Invalid request method."
  const AgentMissing := "Agent profile not found."
  const NoSuchOrder := "Error: No DeliveryAssignment matches the given query."
  const SeveralOrders := "Error: get() returned more than one DeliveryAssignment"

  /** The agent's assignment for order `orderId`. */
  function AssignmentForOrder(rows: seq<Assignment>, orderId: int, user: int): Lookup
  {
    Get(rows, (a: Assignment) => a.orderId == orderId && a.agentUser == user)
  }

  /** `accept_order`: only a POST from an agent with a profile, naming an
      order with exactly one assignment of that agent, can change anything,
      and it moves that assignment from assigned to accepted, exactly as the
      REST `accept` step does; any other status leaves it untouched with a
      warning. */
  method AcceptOrder(db: DeliveryApi.DeliveryDatabase, user: int, isPost: bool, orderId: int)
    returns (flash: Flash)
    modifies db
    ensures db.profiles == old(db.profiles) && db.commissions == old(db.commissions)
    ensures db.wallets == old(db.wallets) && db.payouts == old(db.payouts)
    ensures !isPost ==> flash == Failure("Invalid request method.")
    ensures isPost && user !in old(db.profiles) ==> flash == Failure("Agent profile not found.")
    ensures isPost && user in old(db.profiles) ==>
              var look := AssignmentForOrder(old(db.assignments), orderId, user);
              && (look.NoMatch? ==> flash == Failure(NoSuchOrder))
              && (look.Several? ==> flash == Failure(SeveralOrders))
              && (look.Unique? && Allowed(AcceptStep, old(db.assignments)[look.index].status) ==>
                    flash == AcceptedOrder
                    && db.assignments == old(db.assignments)[look.index := old(db.assignments)[look.index].(status := Accepted)])
              && (look.Unique? && !Allowed(AcceptStep, old(db.assignments)[look.index].status) ==>
                    flash == AlreadyIn(old(db.assignments)[look.index].status))
    ensures flash != AcceptedOrder ==> db.assignments == old(db.assignments)
  {
    if !isPost {
      return Failure(InvalidMethod);
    }
    if user !in db.profiles {
      return Failure(AgentMissing);
    }
    var look := AssignmentForOrder(db.assignments, orderId, user);
    match look {
      case NoMatch => flash := Failure(NoSuchOrder);
      case Several => flash := Failure(SeveralOrders);
      case Unique(i) =>
        if Allowed(AcceptStep, db.assignments[i].status) {
          db.assignments := db.assignments[i := db.assignments[i].(status := Target(AcceptStep))];
          flash := AcceptedOrder;
        } else {
          flash := AlreadyIn(db.assignments[i].status);
        }
    }
  }
}
