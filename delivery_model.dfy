/** The delivery back end's data: an assignment's status and the guarded
    steps the agent endpoints take on it, the agent profile with its
    approval lifecycle and counters, and Django's single-row lookup.

    The model methods that perform each step (`accept_delivery`,
    `start_delivery`, `mark_in_transit`, `mark_delivered`, `mark_failed`)
    are not part of this model; their target statuses are taken from their
    names and from the guard of the next step in the chain. */
module DeliveryModel {
  import opened Common
  import opened Lifecycle

  datatype AssignmentStatus = Assigned | Accepted | PickedUp | InTransit | Delivered | Cancelled | Failed
  {
    /** The string stored in the `status` column. */
    function Name(): string
    {
      match this
      case Assigned => "assigned"
      case Accepted => "accepted"
      case PickedUp => "picked_up"
      case InTransit => "in_transit"
      case Delivered => "delivered"
      case Cancelled => "cancelled"
      case Failed => "failed"
    }

    /** The statuses no endpoint moves an assignment out of. */
    predicate IsFinal()
    {
      this == Delivered || this == Cancelled || this == Failed
    }

    /** The statuses the agent dashboard lists as active. */
    predicate IsActive()
    {
      this == Assigned || this == Accepted || this == PickedUp || this == InTransit
    }

    /** Progress along the delivery chain; every final status ranks 4. */
    function Rank(): nat
    {
      match this
      case Assigned => 0
      case Accepted => 1
      case PickedUp => 2
      case InTransit => 3
      case _ => 4
    }
  }

  /** An assignment is active exactly when it is not final, and the stored
      names tell the statuses apart. */
  lemma ActiveIsNotFinal(s: AssignmentStatus, t: AssignmentStatus)
    ensures s.IsActive() <==> !s.IsFinal()
    ensures s.Name() == t.Name() ==> s == t
  {
  }

  /** The five status-changing endpoints of the assignment view set. */
  datatype Step = AcceptStep | StartStep | InTransitStep | CompleteStep | FailStep

  /** The guard each endpoint checks before it changes anything. */
  predicate Allowed(step: Step, s: AssignmentStatus)
  {
    match step
    case AcceptStep => s == Assigned
    case StartStep => s == Accepted
    case InTransitStep => s == PickedUp
    case CompleteStep => s == PickedUp || s == InTransit
    case FailStep => !s.IsFinal()
  }

  /** The status a permitted step leaves the assignment in. */
  function Target(step: Step): (t: AssignmentStatus)
    ensures t.IsFinal() <==> step == CompleteStep || step == FailStep
  {
    match step
    case AcceptStep => Accepted
    case StartStep => PickedUp
    case InTransitStep => InTransit
    case CompleteStep => Delivered
    case FailStep => Failed
  }

  /** The 400 error each endpoint answers when its guard fails. */
  function RefusalMessage(step: Step): string
  {
    match step
    case AcceptStep => "Only assigned deliveries can be accepted"
    case StartStep => "Delivery must be accepted first"
    case InTransitStep => "Delivery must be picked up first"
    case CompleteStep => "Delivery must be in transit or picked up to complete"
    case FailStep => "Cannot mark finalized delivery as failed"
  }

  /** Every permitted step moves forward along the chain, and no step is
      permitted from a final status: final statuses absorb. */
  lemma StepsMoveForward(step: Step, s: AssignmentStatus)
    ensures Allowed(step, s) ==> !s.IsFinal() && s.Rank() < Target(step).Rank()
    ensures s.IsFinal() ==> !Allowed(step, s)
  {
  }

  /** `failed` is refused exactly from the final statuses. */
  lemma FailAllowedExactlyWhenNotFinal(s: AssignmentStatus)
    ensures Allowed(FailStep, s) <==> s != Delivered && s != Cancelled && s != Failed
    ensures Allowed(FailStep, s) <==> s.IsActive()
  {
  }

  /** The status after a sequence of endpoint calls, or None as soon as one
      of them is refused. */
  function Run(s: AssignmentStatus, steps: seq<Step>): Option<AssignmentStatus>
    decreases |steps|
  {
    if steps == [] then Some(s)
    else if Allowed(steps[0], s) then Run(Target(steps[0]), steps[1..])
    else None
  }

  function CountCompletions(steps: seq<Step>): nat
    decreases |steps|
  {
    if steps == [] then 0
    else (if steps[0] == CompleteStep then 1 else 0) + CountCompletions(steps[1..])
  }

  /** Every accepted call moves the assignment one rank forward, so no
      status is ever revisited and an assignment takes at most four
      successful calls in all. */
  lemma {:induction false} RunMovesForward(s: AssignmentStatus, steps: seq<Step>)
    requires Run(s, steps).Some?
    ensures s.Rank() + |steps| <= Run(s, steps).value.Rank()
    ensures |steps| <= 4
    decreases |steps|
  {
    if steps != [] {
      StepsMoveForward(steps[0], s);
      RunMovesForward(Target(steps[0]), steps[1..]);
    }
  }

  /** In any sequence of calls that all succeed, `complete` succeeds at most
      once, so one assignment raises the agent's delivery counters at most
      once. */
  lemma {:induction false} AtMostOneCompletion(s: AssignmentStatus, steps: seq<Step>)
    requires Run(s, steps).Some?
    ensures CountCompletions(steps) <= 1
    ensures CountCompletions(steps) == 1 ==> Run(s, steps) == Some(Delivered)
    decreases |steps|
  {
    if steps != [] {
      if steps[0] == CompleteStep {
        if steps[1..] != [] {
          StepsMoveForward(steps[1..][0], Delivered);
        }
        assert steps[1..] == [];
      } else {
        AtMostOneCompletion(Target(steps[0]), steps[1..]);
      }
    }
  }

  /** The happy path, and the failure exit from every non-final status. */
  lemma DeliveryChain()
    ensures Run(Assigned, [AcceptStep, StartStep, InTransitStep, CompleteStep]) == Some(Delivered)
    ensures Run(Assigned, [AcceptStep, StartStep, CompleteStep]) == Some(Delivered)
    ensures forall s: AssignmentStatus :: !s.IsFinal() ==> Run(s, [FailStep]) == Some(Failed)
  {
  }

  /** A delivery agent profile: its approval lifecycle, the reasons shown
      when it is refused, its delivery counters and the other fields an
      agent may edit, by column name. */
  datatype AgentProfile = AgentProfile(
    life: Entity,
    rejectionReason: string,
    blockedReason: string,
    totalDeliveries: nat,
    completedDeliveries: nat,
    details: map<string, string>)

  /** A delivery assignment row; `agentUser` identifies the agent profile
      by its user, and the timestamps are abstract numbers. */
  datatype Assignment = Assignment(
    id: int,
    agentUser: int,
    orderId: int,
    status: AssignmentStatus,
    assignedAt: int,
    completedAt: int)

  /** The outcome of Django's `get()`: no row, exactly one, or several. */
  datatype Lookup = NoMatch | Unique(index: nat) | Several

  function Get(rows: seq<Assignment>, p: Assignment -> bool): (r: Lookup)
    ensures r.NoMatch? <==> forall i :: 0 <= i < |rows| ==> !p(rows[i])
    ensures r.Unique? ==> r.index < |rows| && p(rows[r.index])
                          && forall j :: 0 <= j < |rows| && j != r.index ==> !p(rows[j])
    ensures r.Several? ==> exists i, j :: 0 <= i < j < |rows| && p(rows[i]) && p(rows[j])
    decreases |rows|
  {
    if rows == [] then NoMatch
    else
      var rest := Get(rows[1..], p);
      if p(rows[0]) then
        if rest.NoMatch? then Unique(0)
        else
          assert exists j :: 1 <= j < |rows| && p(rows[j]) by {
            var k :| 0 <= k < |rows[1..]| && p(rows[1..][k]);
            assert p(rows[k + 1]);
          }
          Several
      else
        match rest
        case NoMatch => NoMatch
        case Unique(i) =>
          assert forall j :: 0 <= j < |rows| && j != i + 1 ==> !p(rows[j]) by {
            forall j | 0 <= j < |rows| && j != i + 1
              ensures !p(rows[j])
            {
              if j > 0 {
                assert rows[j] == rows[1..][j - 1];
              }
            }
          }
          Unique(i + 1)
        case Several =>
          assert exists i, j :: 0 <= i < j < |rows| && p(rows[i]) && p(rows[j]) by {
            var i, j :| 0 <= i < j < |rows[1..]| && p(rows[1..][i]) && p(rows[1..][j]);
            assert p(rows[i + 1]) && p(rows[j + 1]);
          }
          Several
  }

  /** The assignment `pk` of the agent `user` (`objects.get(id=pk, agent=agent)`). */
  function AssignmentOf(rows: seq<Assignment>, pk: int, user: int): Lookup
  {
    Get(rows, (a: Assignment) => a.id == pk && a.agentUser == user)
  }
}
