/**
 * The `ApprovalWorkflow` widget: a record of the current step, a status per
 * step and a progress value, changed by approve and reject decisions that
 * take effect after a simulated delay, and by a reset. While a decision is in
 * flight the `isAnimating` flag makes further decisions no-ops.
 */
module ApprovalWorkflow {
  import opened Options
  import UserRole

  datatype Step = Request | Manager | Finance | Confirmed

  datatype StepStatus = Pending | Approved | Rejected | Completed

  datatype WorkflowState = WorkflowState(currentStep: Step, steps: map<Step, StepStatus>, progress: int)

  /** What `getStepStatus` reports for a step in the rendered list. */
  datatype StepView = ViewCompleted | ViewRejected | ViewCurrent | ViewPending

  /** The order of the steps in the `steps` table. */
  const Order: seq<Step> := [Request, Manager, Finance, Confirmed]

  /** `steps.findIndex(s => s.key === step)`. */
  function IndexOf(step: Step): (i: nat)
    ensures i < |Order| && Order[i] == step
  {
    match step
    case Request => 0
    case Manager => 1
    case Finance => 2
    case Confirmed => 3
  }

  /** Every step has a status, as the `Record<WorkflowStep, StepStatus>` type demands. */
  predicate Complete(w: WorkflowState) {
    forall s: Step :: s in w.steps
  }

  lemma FourKeysComplete(w: WorkflowState)
    requires Request in w.steps && Manager in w.steps && Finance in w.steps && Confirmed in w.steps
    ensures Complete(w)
  {
    forall s: Step ensures s in w.steps {
      match s
      case Request =>
      case Manager =>
      case Finance =>
      case Confirmed =>
    }
  }

  /**
   * The invariant every reachable state keeps: progress is a multiple of 25
   * no larger than 100, and never behind the position of the current step.
   */
  predicate Consistent(w: WorkflowState) {
    && Complete(w)
    && w.progress <= 100
    && w.progress % 25 == 0
    && 25 * (IndexOf(w.currentStep) + 1) <= w.progress
  }

  /** The initial state, restored by `resetWorkflow`. */
  function Initial(): (w: WorkflowState)
    ensures Consistent(w)
    ensures w.currentStep == Request && w.progress == 25
    ensures w.steps[Request] == Completed
    ensures forall s :: s != Request ==> w.steps[s] == Pending
  {
    var w := WorkflowState(Request, map[Request := Completed, Manager := Pending, Finance := Pending, Confirmed := Pending], 25);
    FourKeysComplete(w);
    w
  }

  /** The state update `handleApprove(step)` applies once its delay has passed. */
  function ApproveStep(prev: WorkflowState, step: Step): (w: WorkflowState)
    requires Complete(prev)
    ensures Complete(w)
    ensures Consistent(prev) ==> Consistent(w)
    ensures forall s :: s != step ==> w.steps[s] == prev.steps[s]
    ensures step != Confirmed ==>
      && w.steps[step] == Approved
      && IndexOf(w.currentStep) == IndexOf(step) + 1
      && w.progress == 25 * (IndexOf(step) + 2)
    ensures step == Confirmed ==>
      && w.steps[Confirmed] == Completed
      && w.currentStep == prev.currentStep
      && w.progress == 100
  {
    var newSteps := prev.steps[step := Approved];
    var next := IndexOf(step) + 1;
    if next < |Order| then
      WorkflowState(Order[next], newSteps, (next + 1) * 100 / |Order|)
    else
      WorkflowState(prev.currentStep, newSteps[Confirmed := Completed], 100)
  }

  /** The state update `handleReject(step)` applies once its delay has passed. */
  function RejectStep(prev: WorkflowState, step: Step): (w: WorkflowState)
    requires Complete(prev)
    ensures Complete(w)
    ensures Consistent(prev) ==> Consistent(w)
    ensures w.steps[step] == Rejected
    ensures forall s :: s != step ==> w.steps[s] == prev.steps[s]
    ensures w.currentStep == prev.currentStep && w.progress == prev.progress
  {
    prev.(steps := prev.steps[step := Rejected])
  }

  /** `getStepStatus(key)`: a finished status wins, then a rejection, then being current. */
  function GetStepStatus(w: WorkflowState, key: Step): (v: StepView)
    requires Complete(w)
    ensures v == ViewCompleted <==> w.steps[key] == Completed || w.steps[key] == Approved
    ensures v == ViewRejected <==> w.steps[key] == Rejected
    ensures v == ViewCurrent <==> w.steps[key] == Pending && w.currentStep == key
    ensures v == ViewPending <==> w.steps[key] == Pending && w.currentStep != key
  {
    match w.steps[key]
    case Completed => ViewCompleted
    case Approved => ViewCompleted
    case Rejected => ViewRejected
    case Pending => if w.currentStep == key then ViewCurrent else ViewPending
  }

  /** `canApprove(key)`: only a manager decides the manager step, only finance the finance step. */
  predicate CanApprove(key: Step, user: UserRole.User) {
    (key == Manager && UserRole.IsManager(user)) || (key == Finance && UserRole.IsFinance(user))
  }

  /** Whether the Approve and Reject buttons are rendered for step `key`. */
  predicate ShowActions(w: WorkflowState, isAnimating: bool, key: Step, user: UserRole.User)
    requires Complete(w)
  {
    GetStepStatus(w, key) == ViewCurrent && CanApprove(key, user) && !isAnimating
  }

  /** The approval gate admits exactly two (step, role) pairs; admin approves nothing. */
  lemma CanApproveExactly(key: Step, user: UserRole.User)
    ensures CanApprove(key, user) <==>
      (key == Manager && user.role == UserRole.Manager) || (key == Finance && user.role == UserRole.Finance)
    ensures user.role == UserRole.Admin ==> !CanApprove(key, user)
  {
  }

  /** At most one step is reported as current, so at most one step shows its buttons. */
  lemma AtMostOneCurrent(w: WorkflowState, a: Step, b: Step)
    requires Complete(w)
    requires GetStepStatus(w, a) == ViewCurrent && GetStepStatus(w, b) == ViewCurrent
    ensures a == b
  {
  }

  /**
   * In the initial state (and so after every reset) no step is reported as
   * current: Request is completed and every other step is not the current one.
   * Hence no step offers its buttons to any user.
   */
  lemma InitialOffersNoActions(key: Step, user: UserRole.User, isAnimating: bool)
    ensures GetStepStatus(Initial(), key) != ViewCurrent
    ensures !ShowActions(Initial(), isAnimating, key, user)
  {
  }

  /** A press of a rendered button: Approve or Reject of one step, or Reset Workflow. */
  datatype Click = ClickApprove(step: Step) | ClickReject(step: Step) | ClickReset

  /**
   * The record after a sequence of presses by `user`, each decision settling
   * before the next press. A step's Approve and Reject buttons exist only while
   * `ShowActions` holds for it, so a press on a step without them changes nothing.
   */
  function AfterClicks(w: WorkflowState, user: UserRole.User, clicks: seq<Click>): (r: WorkflowState)
    requires Complete(w)
    ensures Complete(r)
  {
    if clicks == [] then w
    else
      var prev := AfterClicks(w, user, clicks[..|clicks| - 1]);
      match clicks[|clicks| - 1]
      case ClickReset => Initial()
      case ClickApprove(s) => if ShowActions(prev, false, s, user) then ApproveStep(prev, s) else prev
      case ClickReject(s) => if ShowActions(prev, false, s, user) then RejectStep(prev, s) else prev
  }

  /**
   * Through its buttons the widget never leaves its initial state: no button
   * press, by any user, changes the record.
   */
  lemma {:induction false} ClicksNeverMove(user: UserRole.User, clicks: seq<Click>)
    ensures AfterClicks(Initial(), user, clicks) == Initial()
  {
    if clicks != [] {
      ClicksNeverMove(user, clicks[..|clicks| - 1]);
      match clicks[|clicks| - 1]
      case ClickReset =>
      case ClickApprove(s) => InitialOffersNoActions(s, user, false);
      case ClickReject(s) => InitialOffersNoActions(s, user, false);
    }
  }

  /**
   * Approving Manager and then Finance from the initial state moves the current
   * step to Finance and then to Confirmed, with progress 75 and then 100; the
   * Confirmed step stays pending (and is shown as current) until it is itself
   * approved, which completes it.
   */
  lemma ManagerThenFinance()
    ensures ApproveStep(Initial(), Manager).currentStep == Finance
    ensures ApproveStep(Initial(), Manager).progress == 75
    ensures
      var w := ApproveStep(ApproveStep(Initial(), Manager), Finance);
      && w.currentStep == Confirmed && w.progress == 100
      && w.steps[Confirmed] == Pending
      && GetStepStatus(w, Confirmed) == ViewCurrent
      && ApproveStep(w, Confirmed).steps[Confirmed] == Completed
  {
  }

  /** A decision waiting for its delay to pass. */
  datatype Decision = ApproveDecision(step: Step) | RejectDecision(step: Step)

  function Apply(w: WorkflowState, d: Decision): (r: WorkflowState)
    requires Complete(w)
    ensures Complete(r) && (Consistent(w) ==> Consistent(r))
  {
    match d
    case ApproveDecision(s) => ApproveStep(w, s)
    case RejectDecision(s) => RejectStep(w, s)
  }

  /**
   * The widget: the `workflow` record and the `isAnimating` flag. A decision is
   * split into its start (the handler up to its `await`) and its settling (the
   * code after the delay); `pending` holds the decision while it waits.
   */
  class Widget {
    var workflow: WorkflowState
    var isAnimating: bool
    var pending: Option<Decision>

    ghost predicate Valid()
      reads this
    {
      Consistent(workflow) && (isAnimating <==> pending.Some?)
    }

    constructor ()
      ensures Valid() && workflow == Initial() && !isAnimating
    {
      workflow := Initial();
      isAnimating := false;
      pending := None;
    }

    /** Start of `handleApprove(step)`: ignored while another decision is in flight. */
    method HandleApprove(step: Step) returns (started: bool)
      requires Valid()
      modifies this
      ensures Valid() && workflow == old(workflow)
      ensures started == !old(isAnimating)
      ensures started ==> isAnimating && pending == Some(ApproveDecision(step))
      ensures !started ==> pending == old(pending)
    {
      if isAnimating {
        return false;
      }
      isAnimating := true;
      pending := Some(ApproveDecision(step));
      started := true;
    }

    /** Start of `handleReject(step)`: ignored while another decision is in flight. */
    method HandleReject(step: Step) returns (started: bool)
      requires Valid()
      modifies this
      ensures Valid() && workflow == old(workflow)
      ensures started == !old(isAnimating)
      ensures started ==> isAnimating && pending == Some(RejectDecision(step))
      ensures !started ==> pending == old(pending)
    {
      if isAnimating {
        return false;
      }
      isAnimating := true;
      pending := Some(RejectDecision(step));
      started := true;
    }

    /** The delay of the in-flight decision passes: its update is applied and the flag cleared. */
    method Settle()
      requires Valid()
      modifies this
      ensures Valid() && !isAnimating
      ensures workflow == match old(pending)
        case Some(d) => Apply(old(workflow), d)
        case None => old(workflow)
    {
      match pending
      case Some(d) =>
        workflow := Apply(workflow, d);
        isAnimating := false;
        pending := None;
      case None =>
    }

    /** `resetWorkflow`: restores the initial record; the flag is left as it is. */
    method ResetWorkflow()
      requires Valid()
      modifies this
      ensures Valid() && workflow == Initial()
      ensures isAnimating == old(isAnimating) && pending == old(pending)
    {
      workflow := Initial();
    }

    predicate ShowActionsFor(key: Step, user: UserRole.User)
      requires Valid()
      reads this
    {
      ShowActions(workflow, isAnimating, key, user)
    }
  }
}
