/**
 * The `ManageWorkflow` stepper of the Manage tab: one index over the four
 * stages Trip Request, Manager Approval, Finance Review and Confirmation.
 * Approve advances by one stage and stops at the last; Reject and Reset both
 * return to the first stage. Approve and Reject are rendered only for the
 * role "Manager"; Reset is rendered for every role.
 */
module ManageWorkflow {
  import Rounding

  const StepCount := 4
  const LastStep := StepCount - 1

  datatype Action = Approve | Reject | Reset

  /** The badge shown above stage `i`. */
  datatype Badge = Approved | Current | Pending

  function Min(a: int, b: int): int { if a <= b then a else b }

  predicate InRange(s: int) { 0 <= s <= LastStep }

  /** The index after one button press: `Math.min(s + 1, 3)` for Approve, `0` otherwise. */
  function Step(s: int, a: Action): (r: int)
    requires InRange(s)
    ensures InRange(r)
    ensures a == Approve ==> (s < LastStep ==> r == s + 1) && (s == LastStep ==> r == s)
    ensures a != Approve ==> r == 0
  {
    match a
    case Approve => Min(s + 1, LastStep)
    case Reject => 0
    case Reset => 0
  }

  /** `role === "Manager"`: the only role shown the Approve and Reject buttons. */
  predicate OffersDecisions(role: string) {
    role == "Manager"
  }

  /** A button rendered for `role`: Reset always, Approve and Reject only for a manager. */
  predicate Offered(role: string, a: Action) {
    a == Reset || OffersDecisions(role)
  }

  /** The index after a sequence of button presses. */
  function Run(s: int, actions: seq<Action>): (r: int)
    requires InRange(s)
    ensures InRange(r)
  {
    if actions == [] then s else Step(Run(s, actions[..|actions| - 1]), actions[|actions| - 1])
  }

  /** The progress bar value `Math.round(stepIndex / 3 * 100)`. */
  function Percent(s: int): (p: int)
    requires InRange(s)
    ensures p == 0 || p == 33 || p == 67 || p == 100
    ensures p == 0 <==> s == 0
    ensures p == 100 <==> s == LastStep
    ensures 0 < s < LastStep ==> 0 < p < 100
  {
    var p := Rounding.RoundPercent(s, LastStep);
    Rounding.RoundPercentUnique(s, LastStep, [0, 33, 67, 100][s]);
    p
  }

  /** The bar grows with the index. */
  lemma PercentMonotone(s: int, t: int)
    requires InRange(s) && InRange(t) && s <= t
    ensures Percent(s) <= Percent(t)
  {
    Rounding.RoundPercentMonotone(s, t, LastStep);
  }

  /** `i < stepIndex ? "Approved" : i === stepIndex ? "Current" : "Pending"`. */
  function BadgeAt(i: int, s: int): Badge {
    if i < s then Approved else if i == s then Current else Pending
  }

  function Badges(s: int): seq<Badge> {
    seq(StepCount, i => BadgeAt(i, s))
  }

  /** The badges are a run of Approved, exactly one Current, then Pending. */
  lemma BadgesShape(s: int)
    requires InRange(s)
    ensures Badges(s) == seq(s, _ => Approved) + [Current] + seq(LastStep - s, _ => Pending)
  {
    var b, shape := Badges(s), seq(s, _ => Approved) + [Current] + seq(LastStep - s, _ => Pending);
    assert |b| == |shape|;
    forall i | 0 <= i < |b| ensures b[i] == shape[i] {
      if i < s {
        assert shape[i] == Approved;
      } else if i == s {
        assert shape[i] == Current;
      } else {
        assert shape[i] == seq(LastStep - s, _ => Pending)[i - s - 1];
      }
    }
  }

  /** The approve-only run of `k` presses. */
  function Approvals(k: nat): (acts: seq<Action>)
    ensures |acts| == k && forall i :: 0 <= i < k ==> acts[i] == Approve
  {
    seq(k, _ => Approve)
  }

  /** From the first stage, `k` approvals reach stage `min(k, 3)`: three reach Confirmation. */
  lemma {:induction false} ApprovalsReach(k: nat)
    ensures Run(0, Approvals(k)) == Min(k, LastStep)
  {
    if k > 0 {
      assert Approvals(k)[..k - 1] == Approvals(k - 1);
      ApprovalsReach(k - 1);
    }
  }

  /**
   * Any other role can only press Reset, so whatever it presses leaves the
   * workflow at its first stage, or where it was when it pressed nothing.
   */
  lemma {:induction false} OthersOnlyReset(s: int, role: string, actions: seq<Action>)
    requires InRange(s) && !OffersDecisions(role)
    requires forall i :: 0 <= i < |actions| ==> Offered(role, actions[i])
    ensures Run(s, actions) == if actions == [] then s else 0
  {
    if actions != [] {
      var front := actions[..|actions| - 1];
      assert forall i :: 0 <= i < |front| ==> front[i] == actions[i];
      OthersOnlyReset(s, role, front);
      assert actions[|actions| - 1] == Reset;
    }
  }

  /** A Reject or Reset forgets all earlier presses: only what follows it matters. */
  lemma {:induction false} RunAfterRestart(s: int, before: seq<Action>, a: Action, after: seq<Action>)
    requires InRange(s) && a != Approve
    ensures Run(s, before + [a] + after) == Run(0, after)
  {
    var all := before + [a] + after;
    if after == [] {
      assert all[..|all| - 1] == before;
    } else {
      assert all[..|all| - 1] == before + [a] + after[..|after| - 1];
      RunAfterRestart(s, before, a, after[..|after| - 1]);
    }
  }

  /** The stepper's state: the `stepIndex` field and its three handlers. */
  class Stepper {
    var stepIndex: int
    /** The `role` prop, "Manager" when the parent passes none. */
    const role: string

    ghost predicate Valid()
      reads this
    {
      InRange(stepIndex)
    }

    constructor (role: string)
      ensures Valid() && stepIndex == 0 && this.role == role
    {
      stepIndex := 0;
      this.role := role;
    }

    /** `handleApprove`, reachable only through the button a manager is shown. */
    method HandleApprove()
      requires Valid() && Offered(role, Approve)
      modifies this
      ensures Valid() && stepIndex == Step(old(stepIndex), Approve)
    {
      stepIndex := Min(stepIndex + 1, StepCount - 1);
    }

    /** `handleReject`, reachable only through the button a manager is shown. */
    method HandleReject()
      requires Valid() && Offered(role, Reject)
      modifies this
      ensures Valid() && stepIndex == Step(old(stepIndex), Reject)
    {
      stepIndex := 0;
    }

    /** Also calls the parent's `onReset` callback, which holds no logic. */
    method HandleReset()
      requires Valid()
      modifies this
      ensures Valid() && stepIndex == Step(old(stepIndex), Reset)
    {
      stepIndex := 0;
    }

    function ProgressPercent(): int
      requires Valid()
      reads this
    {
      Percent(stepIndex)
    }

    function BadgeOf(i: int): Badge
      reads this
    {
      BadgeAt(i, stepIndex)
    }
  }
}
