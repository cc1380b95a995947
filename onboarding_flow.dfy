/**
 * The agent-creation wizard of OnboardingFlow.tsx: five steps walked with the
 * Next and Previous buttons, an ENS subname typed at step 2 and a role card
 * picked at step 3.
 */
module OnboardingFlow {
  import opened Lists

  /** An entry of the progress indicator. */
  datatype Step = Step(id: int, title: string, description: string)

  const Steps: seq<Step> := [
    Step(1, "Connect Wallet", "Connect your Web3 wallet"),
    Step(2, "Choose ENS Name", "Select your agent's ENS subname"),
    Step(3, "Select Role", "Choose your agent's specialty"),
    Step(4, "Configure", "Set up your agent preferences"),
    Step(5, "Deploy", "Launch your AI agent")]

  /** A role card of step 3 (icon, description, features and colour are presentation only). */
  datatype RoleOption = RoleOption(id: string, title: string)

  const AgentRoles: seq<RoleOption> := [
    RoleOption("payment", "Payment Agent"),
    RoleOption("identity", "Identity Agent"),
    RoleOption("community", "Community Agent"),
    RoleOption("ai", "AI Assistant")]

  /** The component's state: `currentStep`, `selectedRole` and `ensName`. */
  datatype Wizard = Wizard(currentStep: int, selectedRole: string, ensName: string)

  /** The state on first render. */
  const Start := Wizard(1, "", "")

  /** `nextStep`: one step forward unless already on the last step. */
  function NextState(w: Wizard): Wizard {
    if w.currentStep < |Steps| then w.(currentStep := w.currentStep + 1) else w
  }

  /** `prevStep`: one step back unless already on the first step. */
  function PrevState(w: Wizard): Wizard {
    if w.currentStep > 1 then w.(currentStep := w.currentStep - 1) else w
  }

  /** The Previous button is rendered. */
  predicate PreviousShown(w: Wizard) {
    w.currentStep > 1
  }

  /** The Next button is rendered. */
  predicate NextShown(w: Wizard) {
    w.currentStep < |Steps|
  }

  /**
   * The Next button's `disabled` expression. An empty string is falsy; the
   * name is not trimmed.
   */
  predicate NextDisabled(w: Wizard) {
    (w.currentStep == 2 && w.ensName == "") || (w.currentStep == 3 && w.selectedRole == "")
  }

  /** The Next button's caption. */
  function NextLabel(w: Wizard): string {
    if w.currentStep == |Steps| - 1 then "Deploy" else "Next"
  }

  /** A click on Next: only a rendered, enabled button runs `nextStep`. */
  function PressNext(w: Wizard): Wizard {
    if NextShown(w) && !NextDisabled(w) then NextState(w) else w
  }

  /** A click on Previous: only a rendered button runs `prevStep`. */
  function PressPrevious(w: Wizard): Wizard {
    if PreviousShown(w) then PrevState(w) else w
  }

  /** What a user can do on the page. */
  datatype Event =
    | ClickNext
    | ClickPrevious
    | TypeName(text: string)   // the ENS subname input, rendered at step 2
    | ClickRole(index: nat)    // the role card at this position, rendered at step 3

  function Apply(w: Wizard, e: Event): Wizard {
    match e
    case ClickNext => PressNext(w)
    case ClickPrevious => PressPrevious(w)
    case TypeName(text) =>
      if w.currentStep == 2 then w.(ensName := text) else w
    case ClickRole(k) =>
      if w.currentStep == 3 && k < |AgentRoles| then w.(selectedRole := AgentRoles[k].id) else w
  }

  /** The state after a sequence of events. */
  function Run(w: Wizard, events: seq<Event>): Wizard
    decreases |events|
  {
    if events == [] then w else Run(Apply(w, events[0]), events[1..])
  }

  /** `agentRoles.find(r => r.id === selectedRole)?.title` */
  function RoleTitle(selectedRole: string): Option<string> {
    match Find(AgentRoles, (r: RoleOption) => r.id == selectedRole)
    case Some(r) => Some(r.title)
    case None => None
  }

  /** Progress circle of `step` is highlighted. */
  predicate StepActive(currentStep: int, step: Step) {
    currentStep >= step.id
  }

  /** Progress circle of `step` shows a check mark instead of its number. */
  predicate StepCompleted(currentStep: int, step: Step) {
    currentStep > step.id
  }

  /** A connector line follows the circle at `index`. */
  predicate ConnectorShown(index: int) {
    index < |Steps| - 1
  }

  /** The connector line after `step` is highlighted. */
  predicate ConnectorHighlighted(currentStep: int, step: Step) {
    currentStep > step.id
  }

  /**
   * `nextStep` and `prevStep` move by exactly one within [1, 5], stop at the
   * ends, and change nothing but the step.
   */
  lemma StepTransitions(w: Wizard)
    requires 1 <= w.currentStep <= |Steps|
    ensures 1 <= NextState(w).currentStep <= |Steps| && 1 <= PrevState(w).currentStep <= |Steps|
    ensures NextState(w) == w <==> w.currentStep == |Steps|
    ensures NextState(w) != w ==> NextState(w).currentStep == w.currentStep + 1
    ensures PrevState(w) == w <==> w.currentStep == 1
    ensures PrevState(w) != w ==> PrevState(w).currentStep == w.currentStep - 1
    ensures NextState(w).ensName == w.ensName && NextState(w).selectedRole == w.selectedRole
    ensures PrevState(w).ensName == w.ensName && PrevState(w).selectedRole == w.selectedRole
  {
  }

  /** `prevStep` undoes `nextStep`, and the other way round, away from the ends. */
  lemma NextPrevInverse(w: Wizard)
    ensures 1 <= w.currentStep < |Steps| ==> PrevState(NextState(w)) == w
    ensures 1 < w.currentStep <= |Steps| ==> NextState(PrevState(w)) == w
  {
  }

  /** A click on Next moves the wizard exactly when the button is rendered and enabled. */
  lemma PressNextIff(w: Wizard)
    ensures PressNext(w) != w <==> w.currentStep < |Steps| && !NextDisabled(w)
    ensures w.currentStep == 2 ==> (PressNext(w) != w <==> w.ensName != "")
    ensures w.currentStep == 3 ==> (PressNext(w) != w <==> w.selectedRole != "")
    ensures w.currentStep == 2 && w.ensName == " " ==> PressNext(w).currentStep == 3
  {
  }

  /** Previous is never disabled: a click moves back exactly when the button is rendered. */
  lemma PressPreviousIff(w: Wizard)
    ensures PressPrevious(w) != w <==> PreviousShown(w)
    ensures PressPrevious(w) == PrevState(w)
  {
  }

  /** The Next button reads "Deploy" exactly on step 4, and "Next" everywhere else. */
  lemma NextLabelIff(w: Wizard)
    ensures NextLabel(w) == "Deploy" <==> w.currentStep == 4
    ensures NextLabel(w) != "Deploy" ==> NextLabel(w) == "Next"
  {
  }

  /** Steps numbered 1, 2, ... in list order. */
  ghost predicate Numbered(steps: seq<Step>) {
    forall i :: 0 <= i < |steps| ==> steps[i].id == i + 1
  }

  lemma StepsNumbered()
    ensures Numbered(Steps)
  {
  }

  lemma NumberedActive(steps: seq<Step>, c: int)
    requires Numbered(steps) && 1 <= c <= |steps|
    ensures Filter(steps, s => StepActive(c, s)) == steps[..c]
  {
    FilterPrefix(steps, s => StepActive(c, s), c);
  }

  lemma NumberedCompleted(steps: seq<Step>, c: int)
    requires Numbered(steps) && 1 <= c <= |steps|
    ensures Filter(steps, s => StepCompleted(c, s)) == steps[..c - 1]
    ensures Filter(steps, s => ConnectorHighlighted(c, s)) == steps[..c - 1]
  {
    FilterPrefix(steps, s => StepCompleted(c, s), c - 1);
    FilterPrefix(steps, s => ConnectorHighlighted(c, s), c - 1);
  }

  /**
   * On step `c` the progress indicator highlights exactly the first `c`
   * circles, checks exactly the first `c - 1` and highlights the connectors
   * after them, and the only highlighted circle without a check is the
   * current step. Every circle but the last is followed by a connector.
   */
  lemma ProgressIndicator(c: int)
    requires 1 <= c <= |Steps|
    ensures Filter(Steps, s => StepActive(c, s)) == Steps[..c]
    ensures Filter(Steps, s => StepCompleted(c, s)) == Steps[..c - 1]
    ensures Filter(Steps, s => ConnectorHighlighted(c, s)) == Steps[..c - 1]
    ensures forall i :: 0 <= i < |Steps| ==>
      (StepActive(c, Steps[i]) && !StepCompleted(c, Steps[i]) <==> Steps[i].id == c)
    ensures forall i :: 0 <= i < |Steps| ==> (ConnectorShown(i) <==> i != |Steps| - 1)
  {
    StepsNumbered();
    NumberedActive(Steps, c);
    NumberedCompleted(Steps, c);
  }

  /** The role ids of the cards. */
  predicate IsRoleId(id: string) {
    exists k :: 0 <= k < |AgentRoles| && AgentRoles[k].id == id
  }

  lemma RoleIdsDistinct()
    ensures forall i, j :: 0 <= i < j < |AgentRoles| ==> AgentRoles[i].id != AgentRoles[j].id
  {
  }

  /**
   * The Deploy screen names a role exactly when the selected id belongs to a
   * card, and then it is that card's title.
   */
  lemma RoleTitleIff(selectedRole: string)
    ensures RoleTitle(selectedRole).Some? <==> IsRoleId(selectedRole)
    ensures forall k :: 0 <= k < |AgentRoles| && AgentRoles[k].id == selectedRole ==>
      RoleTitle(selectedRole) == Some(AgentRoles[k].title)
  {
    var hit := (r: RoleOption) => r.id == selectedRole;
    if Find(AgentRoles, hit).Some? {
      var j := FindFirst(AgentRoles, hit);
      RoleIdsDistinct();
    } else {
      assert forall k :: 0 <= k < |AgentRoles| ==> !hit(AgentRoles[k]);
    }
  }

  /** Before any card is clicked, the Deploy screen shows no role. */
  lemma NoRoleNoTitle()
    ensures RoleTitle("") == None
  {
    RoleTitleIff("");
  }

  /**
   * The states a user can reach from `Start`: the step is in range, a step
   * past 2 has a name, a step past 3 has a role, and a role is always a
   * card's id.
   */
  ghost predicate Reachable(w: Wizard) {
    && 1 <= w.currentStep <= |Steps|
    && (w.currentStep >= 3 ==> w.ensName != "")
    && (w.currentStep >= 4 ==> w.selectedRole != "")
    && (w.selectedRole == "" || IsRoleId(w.selectedRole))
  }

  lemma ApplyKeepsReachable(w: Wizard, e: Event)
    requires Reachable(w)
    ensures Reachable(Apply(w, e))
    ensures -1 <= Apply(w, e).currentStep - w.currentStep <= 1
  {
    match e
    case ClickRole(k) =>
      if w.currentStep == 3 && k < |AgentRoles| {
        assert AgentRoles[k].id != "";
      }
    case _ =>
  }

  /** Every event sequence from any reachable state stays reachable, one step per event at most. */
  lemma {:induction false} RunKeepsReachable(w: Wizard, events: seq<Event>)
    requires Reachable(w)
    ensures Reachable(Run(w, events))
    ensures Run(w, events).currentStep - w.currentStep <= |events|
    decreases |events|
  {
    if events != [] {
      ApplyKeepsReachable(w, events[0]);
      RunKeepsReachable(Apply(w, events[0]), events[1..]);
    }
  }

  /**
   * Whatever the user does, the step stays within [1, 5]; reaching the Deploy
   * step takes at least four events, and there the ENS name is non-empty and
   * the role title is present.
   */
  lemma DeployScreenComplete(events: seq<Event>)
    ensures 1 <= Run(Start, events).currentStep <= |Steps|
    ensures Run(Start, events).currentStep == |Steps| ==>
      |events| >= 4 && Run(Start, events).ensName != "" && RoleTitle(Run(Start, events).selectedRole).Some?
  {
    RunKeepsReachable(Start, events);
    RoleTitleIff(Run(Start, events).selectedRole);
  }

  lemma {:induction false} RunAppend(w: Wizard, events: seq<Event>, e: Event)
    ensures Run(w, events + [e]) == Apply(Run(w, events), e)
    decreases |events|
  {
    if events != [] {
      assert (events + [e])[1..] == events[1..] + [e];
      RunAppend(Apply(w, events[0]), events[1..], e);
    } else {
      assert [e][1..] == [];
    }
  }

  /**
   * Next, type a name, Next, pick the payment card, Next, Next: the Deploy
   * step with that name and "Payment Agent"; Previous then returns to step 4.
   */
  lemma WalkThrough()
    ensures Run(Start, [ClickNext, TypeName("alice"), ClickNext, ClickRole(0), ClickNext, ClickNext])
         == Wizard(5, "payment", "alice")
    ensures RoleTitle("payment") == Some("Payment Agent")
    ensures PressPrevious(Wizard(5, "payment", "alice")).currentStep == 4
  {
    var events := [ClickNext, TypeName("alice"), ClickNext, ClickRole(0), ClickNext, ClickNext];
    assert Run(Start, []) == Start;
    assert [ClickNext] == [] + [ClickNext];
    RunAppend(Start, [], ClickNext);
    RunAppend(Start, [ClickNext], TypeName("alice"));
    RunAppend(Start, [ClickNext, TypeName("alice")], ClickNext);
    RunAppend(Start, [ClickNext, TypeName("alice"), ClickNext], ClickRole(0));
    RunAppend(Start, [ClickNext, TypeName("alice"), ClickNext, ClickRole(0)], ClickNext);
    RunAppend(Start, [ClickNext, TypeName("alice"), ClickNext, ClickRole(0), ClickNext], ClickNext);
    assert IsRoleId("payment") by { assert AgentRoles[0].id == "payment"; }
    RoleTitleIff("payment");
  }

  /** The component instance: its three state variables, updated by the handlers. */
  class Onboarding {
    var currentStep: int
    var selectedRole: string
    var ensName: string

    function State(): Wizard
      reads this
    {
      Wizard(currentStep, selectedRole, ensName)
    }

    ghost predicate Valid()
      reads this
    {
      1 <= currentStep <= |Steps|
    }

    constructor()
      ensures Valid() && State() == Start
    {
      currentStep := 1;
      selectedRole := "";
      ensName := "";
    }

    method NextStep()
      requires Valid()
      modifies this
      ensures Valid() && State() == NextState(old(State()))
    {
      if currentStep < |Steps| {
        currentStep := currentStep + 1;
      }
    }

    method PrevStep()
      requires Valid()
      modifies this
      ensures Valid() && State() == PrevState(old(State()))
    {
      if currentStep > 1 {
        currentStep := currentStep - 1;
      }
    }

    /** The input's `onChange`: `setEnsName(e.target.value)`. */
    method SetEnsName(value: string)
      requires Valid()
      modifies this
      ensures Valid() && State() == old(State()).(ensName := value)
    {
      ensName := value;
    }

    /** A role card's `onClick`: `setSelectedRole(role.id)`. */
    method SelectRole(k: nat)
      requires Valid() && k < |AgentRoles|
      modifies this
      ensures Valid() && State() == old(State()).(selectedRole := AgentRoles[k].id)
    {
      selectedRole := AgentRoles[k].id;
    }

    method ClickNext()
      requires Valid()
      modifies this
      ensures Valid() && State() == PressNext(old(State()))
    {
      if NextShown(State()) && !NextDisabled(State()) {
        NextStep();
      }
    }

    method ClickPrevious()
      requires Valid()
      modifies this
      ensures Valid() && State() == PressPrevious(old(State()))
    {
      if PreviousShown(State()) {
        PrevStep();
      }
    }

    /**
     * Dispatches a user event to the handler the current step renders; the
     * reachable states are closed under it.
     */
    method Handle(e: Event)
      requires Valid()
      modifies this
      ensures Valid() && State() == Apply(old(State()), e)
      ensures old(Reachable(State())) ==> Reachable(State())
    {
      ghost var before := State();
      match e {
        case ClickNext => ClickNext();
        case ClickPrevious => ClickPrevious();
        case TypeName(text) =>
          if currentStep == 2 {
            SetEnsName(text);
          }
        case ClickRole(k) =>
          if currentStep == 3 && k < |AgentRoles| {
            SelectRole(k);
          }
      }
      if Reachable(before) {
        ApplyKeepsReachable(before, e);
      }
    }
  }
}
