/** The delivery agent REST endpoints: the guarded assignment steps with the
    completion counters, the whitelisted profile update, the earnings
    summary, the wallet withdrawal with its all-or-nothing payout, and the
    dashboard's access gate. The database is a class whose fields are the
    tables these endpoints touch, keyed by the requesting user. */
module DeliveryApi {
  import opened Common
  import opened Lifecycle
  import opened DeliveryModel

  /** What an endpoint answers: 200 (with the balance after a withdrawal),
      400, 404, 403 (with a reason) or 500. */
  datatype Reply =
    | Ok
    | Withdrawn(currentBalance: int)
    | BadRequest(error: string)
    | NotFound(error: string)
    | Forbidden(error: string, reason: string)
    | ServerError(error: string)

  const LookupFailed := "Not found"
  /** The 500 that `get()` raises when the lookup matches several rows;
      the count Django appends is not modelled. */
  const SeveralRows := "get() returned more than one DeliveryAssignment"
  const ProfileMissing := "Agent profile not found"
  /** The text of the `DoesNotExist` that `withdraw` turns into a 400. */
  const NoProfileRow := "DeliveryAgentProfile matching query does not exist."
  /** The text of the `InvalidOperation` that `Decimal()` raises on a
      malformed amount. */
  const MalformedAmount := "[<class 'decimal.ConversionSyntax'>]"
  const MinimumMessage := "Minimum withdrawal amount is \U{20B9}100"
  const InsufficientMessage := "Insufficient balance"
  const DefaultPayoutMethod := "bank_transfer"
  const DashboardProfileMissing := "Delivery agent profile not found"

  /** Money is counted in paise; the minimum withdrawal is 100 rupees. */
  const MinWithdrawal := 10000

  /** The profile columns `update_profile` may write. */
  const AllowedFields: seq<string> := [
    "phone_number", "address", "city", "state", "postal_code",
    "vehicle_type", "vehicle_number", "service_cities",
    "preferred_delivery_radius", "working_hours_start", "working_hours_end"]

  datatype CommissionStatus = CPending | CApproved | CPaid | COther(name: string)

  /** A commission row: its agent (by user), status and `total_commission`. */
  datatype Commission = Commission(agentUser: int, status: CommissionStatus, amount: int)

  /** A payout record created by a successful withdrawal. */
  datatype Payout = Payout(agentUser: int, amount: int, payoutMethod: string, status: string, transactionId: string)

  /** What the payout provider answered. */
  datatype PayoutResult = PayoutSuccess(transactionId: string) | PayoutFailure(message: string)

  /** The `amount` field of a withdrawal request: absent, a number of paise,
      or a value `Decimal` cannot parse. */
  datatype AmountInput = Missing | Given(paise: int) | Malformed

  /** The profile after a successful `complete`: both counters rise by one. */
  function Completed(p: AgentProfile): (q: AgentProfile)
    ensures q.totalDeliveries == p.totalDeliveries + 1
    ensures q.completedDeliveries == p.completedDeliveries + 1
    ensures q.life == p.life && q.details == p.details
    ensures q.rejectionReason == p.rejectionReason && q.blockedReason == p.blockedReason
  {
    p.(totalDeliveries := p.totalDeliveries + 1, completedDeliveries := p.completedDeliveries + 1)
  }

  /** `request.data.get('method', 'bank_transfer')`. */
  function PayoutMethod(m: Option<string>): (r: string)
    ensures m.Some? ==> r == m.value
    ensures m.None? ==> r == "bank_transfer"
  {
    if m.Some? then m.value else DefaultPayoutMethod
  }

  /** A wallet's balance; `get_or_create` gives a missing wallet balance 0. */
  function BalanceOf(wallets: map<int, int>, user: int): int
  {
    if user in wallets then wallets[user] else 0
  }

  /** The sum of `total_commission` over one agent's rows with one status;
      an empty sum is 0, as `... or Decimal('0.00')` makes it. */
  function SumFor(cs: seq<Commission>, user: int, status: CommissionStatus): int
    decreases |cs|
  {
    if cs == [] then 0
    else (if cs[0].agentUser == user && cs[0].status == status then cs[0].amount else 0)
         + SumFor(cs[1..], user, status)
  }

  /** The sum over all of one agent's rows, whatever their status. */
  function SumAll(cs: seq<Commission>, user: int): int
    decreases |cs|
  {
    if cs == [] then 0
    else (if cs[0].agentUser == user then cs[0].amount else 0) + SumAll(cs[1..], user)
  }

  datatype Earnings = Earnings(pending: int, approved: int, paid: int, total: int)

  /** `summary` without its date filters (the rows given are those the
      filter kept): the three sums and their total, or 404 with no profile. */
  function Summary(profiles: map<int, AgentProfile>, cs: seq<Commission>, user: int): (r: Option<Earnings>)
    ensures r.None? <==> user !in profiles
    ensures r.Some? ==> r.value.pending == SumFor(cs, user, CPending)
                        && r.value.approved == SumFor(cs, user, CApproved)
                        && r.value.paid == SumFor(cs, user, CPaid)
    ensures r.Some? ==> r.value.total == r.value.pending + r.value.approved + r.value.paid
  {
    if user !in profiles then None
    else
      var pending := SumFor(cs, user, CPending);
      var approved := SumFor(cs, user, CApproved);
      var paid := SumFor(cs, user, CPaid);
      Some(Earnings(pending, approved, paid, pending + approved + paid))
  }

  /** When every one of the agent's commissions is pending, approved or
      paid, the summary's total is the sum of all of them; a row with any
      other status is counted in no term. */
  lemma {:induction false} SummaryTotalCoversAll(cs: seq<Commission>, user: int)
    requires forall i :: 0 <= i < |cs| && cs[i].agentUser == user ==> !cs[i].status.COther?
    ensures SumFor(cs, user, CPending) + SumFor(cs, user, CApproved) + SumFor(cs, user, CPaid) == SumAll(cs, user)
    decreases |cs|
  {
    if cs != [] {
      SummaryTotalCoversAll(cs[1..], user);
    }
  }

  /** With non-negative amounts no term of the summary is negative. */
  lemma {:induction false} SummaryTermsNonNegative(cs: seq<Commission>, user: int, status: CommissionStatus)
    requires forall i :: 0 <= i < |cs| ==> cs[i].amount >= 0
    ensures SumFor(cs, user, status) >= 0
    decreases |cs|
  {
    if cs != [] {
      SummaryTermsNonNegative(cs[1..], user, status);
    }
  }

  /** The summary's `total` is the sum of every commission of the agent
      when all of them carry one of the three known statuses. */
  lemma SummaryTotal(profiles: map<int, AgentProfile>, cs: seq<Commission>, user: int)
    requires user in profiles
    requires forall i :: 0 <= i < |cs| && cs[i].agentUser == user ==> !cs[i].status.COther?
    ensures Summary(profiles, cs, user).value.total == SumAll(cs, user)
  {
    SummaryTotalCoversAll(cs, user);
  }

  /** The dashboard's gate for an existing profile: the approval status is
      checked first, then the blocked flag. */
  function DashboardAccess(p: AgentProfile): (r: Reply)
    ensures r == Ok <==> p.life.approval == Approved && !p.life.isBlocked
    ensures r != Ok ==> r.Forbidden?
    ensures p.life.approval == Rejected ==> r == Forbidden("Agent account rejected", p.rejectionReason)
    ensures p.life.approval == Pending ==> r == Forbidden("Agent account pending", "Awaiting admin approval")
    ensures p.life.approval == Approved && p.life.isBlocked ==> r == Forbidden("Agent account is blocked", p.blockedReason)
  {
    if p.life.approval != Approved then
      Forbidden("Agent account " + p.life.approval.Name(),
                if p.life.approval == Rejected then p.rejectionReason else "Awaiting admin approval")
    else if p.life.isBlocked then
      Forbidden("Agent account is blocked", p.blockedReason)
    else Ok
  }

  /** Because the approval check comes first, a blocked agent that is not
      approved is told about its approval, never about the block. */
  lemma ApprovalCheckedBeforeBlock(p: AgentProfile)
    requires p.life.approval != Approved && p.life.isBlocked
    ensures DashboardAccess(p).error != "Agent account is blocked"
  {
    var e := DashboardAccess(p).error;
    assert |e| != |"Agent account is blocked"|;
  }

  /** `retrieve` as written: `get_object` raises `Http404` for a missing
      profile, and the view's own `except Exception` turns it into a 500. */
  function DashboardAsWritten(profiles: map<int, AgentProfile>, user: int): (r: Reply)
    ensures user !in profiles ==> r == ServerError("Delivery agent profile not found")
    ensures user in profiles ==> r == DashboardAccess(profiles[user])
  {
    if user !in profiles then ServerError(DashboardProfileMissing) else DashboardAccess(profiles[user])
  }

  /** `retrieve` as `get_object` intends it: a missing profile is a 404. */
  function Dashboard(profiles: map<int, AgentProfile>, user: int): (r: Reply)
    ensures user !in profiles ==> r == NotFound("Delivery agent profile not found")
    ensures r == Ok <==> user in profiles && profiles[user].life.approval == Approved && !profiles[user].life.isBlocked
  {
    if user !in profiles then NotFound(DashboardProfileMissing) else DashboardAccess(profiles[user])
  }

  /** The two differ exactly on a missing profile, which the code as
      written reports as a server error instead of "not found". */
  lemma DashboardMissingProfileIsServerError(profiles: map<int, AgentProfile>, user: int)
    ensures DashboardAsWritten(profiles, user) != Dashboard(profiles, user) <==> user !in profiles
    ensures user !in profiles ==> DashboardAsWritten(profiles, user).ServerError? && Dashboard(profiles, user).NotFound?
  {
  }

  /** The `setattr` loop of `update_profile`: every whitelisted field the
      request carries is written, and every other field keeps its value. */
  method ApplyAllowedFields(details: map<string, string>, request: map<string, string>)
    returns (updated: map<string, string>)
    ensures forall k :: k in updated <==> k in details || (k in AllowedFields && k in request)
    ensures forall k :: k in updated ==>
              updated[k] == if k in AllowedFields && k in request then request[k] else details[k]
  {
    updated := details;
    var i := 0;
    while i < |AllowedFields|
      invariant 0 <= i <= |AllowedFields|
      invariant forall k :: k in updated <==> k in details || (k in AllowedFields[..i] && k in request)
      invariant forall k :: k in updated ==>
                  updated[k] == if k in AllowedFields[..i] && k in request then request[k] else details[k]
    {
      var field := AllowedFields[i];
      assert AllowedFields[..i + 1] == AllowedFields[..i] + [field];
      if field in request {
        updated := updated[field := request[field]];
      }
      i := i + 1;
    }
    assert AllowedFields[..i] == AllowedFields;
  }

  class DeliveryDatabase {
    /** Agent profiles by user. */
    var profiles: map<int, AgentProfile>
    var assignments: seq<Assignment>
    var commissions: seq<Commission>
    /** Wallet balances in paise, by user. */
    var wallets: map<int, int>
    var payouts: seq<Payout>

    constructor (profiles: map<int, AgentProfile>, assignments: seq<Assignment>,
                 commissions: seq<Commission>, wallets: map<int, int>)
      ensures this.profiles == profiles && this.assignments == assignments
      ensures this.commissions == commissions && this.wallets == wallets && payouts == []
    {
      this.profiles := profiles;
      this.assignments := assignments;
      this.commissions := commissions;
      this.wallets := wallets;
      payouts := [];
    }

    predicate WalletsNonNegative()
      reads this
    {
      forall u :: u in wallets ==> wallets[u] >= 0
    }

    /** `accept`, `start`, `in_transit`, `complete` and `failed` for the
        assignment `pk` of the requesting agent `user`. A missing profile or
        assignment is a 404; a refused guard is a 400 and changes nothing;
        otherwise the assignment takes the step's target status, and
        `complete` also raises both of the agent's counters by one inside
        the same transaction. */
    method Perform(step: Step, user: int, pk: int) returns (reply: Reply)
      modifies this
      ensures commissions == old(commissions) && wallets == old(wallets) && payouts == old(payouts)
      ensures user !in old(profiles) ==>
                reply == NotFound("Not found") && profiles == old(profiles) && assignments == old(assignments)
      ensures user in old(profiles) ==>
                var look := AssignmentOf(old(assignments), pk, user);
                && (look.NoMatch? ==> reply == NotFound("Not found"))
                && (look.Several? ==> reply == ServerError(SeveralRows))
                && (look.Unique? && !Allowed(step, old(assignments)[look.index].status) ==>
                      reply == BadRequest(RefusalMessage(step)))
                && (reply != Ok ==> profiles == old(profiles) && assignments == old(assignments))
                && (look.Unique? && Allowed(step, old(assignments)[look.index].status) ==>
                      && reply == Ok
                      && assignments == old(assignments)[look.index := old(assignments)[look.index].(status := Target(step))]
                      && profiles == if step == CompleteStep then old(profiles)[user := Completed(old(profiles)[user])]
                                     else old(profiles))
    {
      if user !in profiles {
        return NotFound(LookupFailed);
      }
      var look := AssignmentOf(assignments, pk, user);
      match look {
        case NoMatch => reply := NotFound(LookupFailed);
        case Several => reply := ServerError(SeveralRows);
        case Unique(i) =>
          if !Allowed(step, assignments[i].status) {
            reply := BadRequest(RefusalMessage(step));
          } else {
            assignments := assignments[i := assignments[i].(status := Target(step))];
            if step == CompleteStep {
              profiles := profiles[user := Completed(profiles[user])];
            }
            reply := Ok;
          }
      }
    }

    /** `update_profile`: 404 without a profile; otherwise only the
        whitelisted fields present in the request are written, and the
        approval status, blocked flag, reasons and counters keep their
        values. `saveError` is the message `agent.save()` raises (a field
        value the database refuses), or None when it saves: a raised error
        is answered with 500 and that message, and the row is not written. */
    method UpdateProfile(user: int, request: map<string, string>, saveError: Option<string>)
      returns (reply: Reply)
      modifies this
      ensures assignments == old(assignments) && commissions == old(commissions)
      ensures wallets == old(wallets) && payouts == old(payouts)
      ensures user !in old(profiles) ==> reply == NotFound("Agent profile not found") && profiles == old(profiles)
      ensures user in old(profiles) && saveError.Some? ==>
                reply == ServerError(saveError.value) && profiles == old(profiles)
      ensures user in old(profiles) && saveError.None? ==>
                && reply == Ok
                && profiles.Keys == old(profiles).Keys
                && (forall u :: u in profiles && u != user ==> profiles[u] == old(profiles)[u])
                && var p, q := old(profiles)[user], profiles[user];
                   && q == p.(details := q.details)
                   && (forall k :: k in q.details <==> k in p.details || (k in AllowedFields && k in request))
                   && (forall k :: k in q.details ==>
                         q.details[k] == if k in AllowedFields && k in request then request[k] else p.details[k])
    {
      if user !in profiles {
        return NotFound(ProfileMissing);
      }
      var p := profiles[user];
      var updated := ApplyAllowedFields(p.details, request);
      if saveError.Some? {
        return ServerError(saveError.value);
      }
      profiles := profiles[user := p.(details := updated)];
      reply := Ok;
    }

    /** `withdraw` for the requesting user. Without a profile it answers 400
        and touches nothing. Otherwise the wallet is created with balance 0
        if missing, even when the request is then refused; an unparsable
        amount, an amount below the minimum or above the balance is refused;
        a payout failure raises inside the transaction, so the deduction is
        rolled back; only a successful payout leaves the balance lowered by
        exactly the amount, with one completed payout recorded. */
    method Withdraw(user: int, amount: AmountInput, payoutMethod: Option<string>, payout: PayoutResult)
      returns (reply: Reply)
      modifies this
      ensures profiles == old(profiles) && assignments == old(assignments) && commissions == old(commissions)
      ensures user !in old(profiles) ==>
                reply == BadRequest(NoProfileRow) && wallets == old(wallets) && payouts == old(payouts)
      ensures user in old(profiles) ==>
                var before := BalanceOf(old(wallets), user);
                && (amount.Malformed? ==> reply == BadRequest(MalformedAmount))
                && (!amount.Malformed? ==>
                      var a := if amount.Given? then amount.paise else 0;
                      && (a < MinWithdrawal ==> reply == BadRequest(MinimumMessage))
                      && (a >= MinWithdrawal && before < a ==> reply == BadRequest(InsufficientMessage))
                      && (a >= MinWithdrawal && before >= a && payout.PayoutFailure? ==>
                            reply == BadRequest("Withdrawal failed: " + payout.message))
                      && (a >= MinWithdrawal && before >= a && payout.PayoutSuccess? ==>
                            && reply == Withdrawn(before - a)
                            && wallets == old(wallets)[user := before - a]
                            && payouts == old(payouts) + [Payout(user, a, PayoutMethod(payoutMethod), "completed", payout.transactionId)]))
                && (!reply.Withdrawn? ==> wallets == old(wallets)[user := before] && payouts == old(payouts))
      ensures old(WalletsNonNegative()) ==> WalletsNonNegative()
    {
      if user !in profiles {
        return BadRequest(NoProfileRow);
      }
      if user !in wallets {
        wallets := wallets[user := 0];
      }
      if amount.Malformed? {
        return BadRequest(MalformedAmount);
      }
      var a := if amount.Given? then amount.paise else 0;
      var m := PayoutMethod(payoutMethod);
      if a < MinWithdrawal {
        return BadRequest(MinimumMessage);
      }
      if wallets[user] < a {
        return BadRequest(InsufficientMessage);
      }
      // The transaction: deduct first, then pay out; a failed payout raises,
      // which restores the state saved here.
      var savedWallets, savedPayouts := wallets, payouts;
      wallets := wallets[user := wallets[user] - a];
      if payout.PayoutSuccess? {
        payouts := payouts + [Payout(user, a, m, "completed", payout.transactionId)];
        reply := Withdrawn(wallets[user]);
      } else {
        wallets, payouts := savedWallets, savedPayouts;
        reply := BadRequest("Withdrawal failed: " + payout.message);
      }
    }
  }

  /** The end-to-end scenario: an agent with a 500-rupee wallet withdraws
      150 rupees and is left with 350; a second withdrawal of 400 rupees is
      refused and leaves the balance where it was. */
  method WithdrawScenario()
  {
    var profile := AgentProfile(Entity(Approved, false), "", "", 0, 0, map[]);
    var db := new DeliveryDatabase(map[1 := profile], [], [], map[1 := 50000]);
    var r1 := db.Withdraw(1, Given(15000), None, PayoutSuccess("pout_1"));
    assert r1 == Withdrawn(35000) && db.wallets[1] == 35000;
    var r2 := db.Withdraw(1, Given(40000), None, PayoutSuccess("pout_2"));
    assert r2 == BadRequest(InsufficientMessage) && db.wallets[1] == 35000;
    assert |db.payouts| == 1;
  }
}
