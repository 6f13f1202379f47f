/**
 * The client's three-step booking page (src/pages/ClientBooking.tsx):
 * choose a service, choose a provider, book and pay. Two pieces of state —
 * the current step and the chosen service — that the page's buttons set,
 * and the step indicator drawn from the current step.
 */
module Wizard {
  import opened Wrappers

  /** The buttons of the page; each is drawn only on its own step. */
  datatype Action =
    | ChooseService(serviceId: string)   // a service card, step 1
    | ChooseProvider(providerId: int)    // a provider's "Select", step 2
    | Back                               // "Back" on steps 2 and 3

  datatype Page = Page(currentStep: int, selectedService: Option<string>)

  function Start(): Page {
    Page(1, None)
  }

  /** The pages reachable from the start: a step from 1 to 3, and a chosen service from step 2 on. */
  predicate Reachable(p: Page) {
    1 <= p.currentStep <= 3 && (p.currentStep >= 2 ==> p.selectedService.Some?)
  }

  /** Whether the button for `a` is drawn on page `p`. */
  predicate Offered(p: Page, a: Action) {
    match a
    case ChooseService(_) => p.currentStep == 1
    case ChooseProvider(_) => p.currentStep == 2
    case Back => p.currentStep == 2 || p.currentStep == 3
  }

  /** What pressing a drawn button does: the handlers, and the back buttons' `setCurrentStep`. */
  function Press(p: Page, a: Action): (q: Page)
    requires Offered(p, a)
    ensures a.ChooseService? ==> q == Page(2, Some(a.serviceId))
    ensures a.ChooseProvider? ==> q == p.(currentStep := 3)
    ensures a.Back? ==> q == p.(currentStep := p.currentStep - 1)
  {
    match a
    case ChooseService(id) => Page(2, Some(id))
    case ChooseProvider(_) => p.(currentStep := 3)
    case Back => p.(currentStep := if p.currentStep == 3 then 2 else 1)
  }

  /** Pressing the buttons in turn; a button that is not drawn cannot be pressed, and the walk stops there. */
  function Run(p: Page, actions: seq<Action>): Page
    decreases |actions|
  {
    if actions == [] || !Offered(p, actions[0]) then p
    else Run(Press(p, actions[0]), actions[1..])
  }

  /** Every button keeps the page reachable. */
  lemma PressKeepsReachable(p: Page, a: Action)
    requires Reachable(p) && Offered(p, a)
    ensures Reachable(Press(p, a))
  {
  }

  /** However the buttons are pressed, the step stays in 1..3 and a service is chosen from step 2 on. */
  lemma {:induction false} RunKeepsReachable(p: Page, actions: seq<Action>)
    requires Reachable(p)
    ensures Reachable(Run(p, actions))
    decreases |actions|
  {
    if actions != [] && Offered(p, actions[0]) {
      PressKeepsReachable(p, actions[0]);
      RunKeepsReachable(Press(p, actions[0]), actions[1..]);
    }
  }

  /** Going back never forgets the chosen service, and going forward again lands on the same page. */
  lemma BackThenForward(p: Page, providerId: int)
    requires Reachable(p) && p.currentStep == 3
    ensures Press(Press(p, Back), ChooseProvider(providerId)) == p
  {
  }

  /** Step marker `n` is drawn highlighted. */
  predicate Highlighted(currentStep: int, n: int) {
    currentStep >= n
  }

  /** The three markers, left to right. */
  function Markers(currentStep: int): (m: seq<bool>)
    ensures |m| == 3
  {
    [Highlighted(currentStep, 1), Highlighted(currentStep, 2), Highlighted(currentStep, 3)]
  }

  /**
   * On a reachable page the highlighted markers are exactly the first
   * `currentStep` ones: marker n is lit iff n <= currentStep.
   */
  lemma MarkersShowProgress(p: Page)
    requires Reachable(p)
    ensures forall i :: 0 <= i < 3 ==> (Markers(p.currentStep)[i] <==> i < p.currentStep)
    ensures Markers(p.currentStep)[0]
  {
  }

  /** The page's state, set by its buttons. */
  class BookingWizard {
    var currentStep: int
    var selectedService: Option<string>

    function Current(): Page
      reads this
    {
      Page(currentStep, selectedService)
    }

    constructor ()
      ensures Current() == Start() && Reachable(Current())
    {
      currentStep := 1;
      selectedService := None;
    }

    /** `handleServiceSelect`: record the service and go to step 2. */
    method HandleServiceSelect(serviceId: string)
      modifies this
      requires Reachable(Current()) && currentStep == 1
      ensures Current() == Press(old(Current()), ChooseService(serviceId))
      ensures currentStep == 2 && selectedService == Some(serviceId) && Reachable(Current())
    {
      selectedService := Some(serviceId);
      currentStep := 2;
    }

    /** `handleProviderSelect`: go to step 3; the provider's id is not kept. */
    method HandleProviderSelect(providerId: int)
      modifies this
      requires Reachable(Current()) && currentStep == 2
      ensures Current() == Press(old(Current()), ChooseProvider(providerId))
      ensures currentStep == 3 && selectedService == old(selectedService) && Reachable(Current())
    {
      currentStep := 3;
    }

    /** The "Back" buttons: step 2 goes to 1 and step 3 to 2, keeping the chosen service. */
    method GoBack()
      modifies this
      requires Reachable(Current()) && (currentStep == 2 || currentStep == 3)
      ensures Current() == Press(old(Current()), Back)
      ensures currentStep == old(currentStep) - 1 && selectedService == old(selectedService)
      ensures Reachable(Current())
    {
      if currentStep == 3 {
        currentStep := 2;
      } else {
        currentStep := 1;
      }
    }
  }
}
