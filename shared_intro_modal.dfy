/** The plain onboarding modal of the shared components: the same wizard over the
    three slides as the animated one, with only the current step and the open flag.
    The repository keeps both components side by side, so the events and the `Run`
    over them repeat those of `AnimatedIntroModal` on this smaller state. */
module SharedIntroModal {
  import opened Onboarding

  /** The component's state. */
  datatype ModalState = ModalState(step: int, isOpen: bool)

  /** The Continue/Finish button, the Back button and the close button. */
  datatype Event = NextPressed | BackPressed | ClosePressed

  /** The state on mount, opened or not by the `onOpen` property. */
  function Initial(onOpen: bool): ModalState
  {
    ModalState(0, onOpen)
  }

  /** The invariant of every reachable state: the step indexes one of the slides. */
  predicate Valid(s: ModalState)
  {
    0 <= s.step <= LastStep
  }

  /** `handleNext`: advance one slide and stay open, or close on the last slide. */
  function Next(s: ModalState): (r: ModalState)
    ensures Valid(s) ==> Valid(r)
    ensures s.step < LastStep ==> r.step == s.step + 1 && r.isOpen == s.isOpen
    ensures s.step >= LastStep ==> !r.isOpen && r.step == s.step
  {
    if s.step < |Steps| - 1 then s.(step := s.step + 1) else s.(isOpen := false)
  }

  /** `handleBack`: go back one slide; nothing happens on the first slide. */
  function Back(s: ModalState): (r: ModalState)
    ensures Valid(s) ==> Valid(r)
    ensures s.step <= 0 ==> r == s
    ensures s.step > 0 ==> r.step == s.step - 1 && r.isOpen == s.isOpen
  {
    if s.step > 0 then s.(step := s.step - 1) else s
  }

  /** `handleClose`: hide the modal without touching the step. */
  function Close(s: ModalState): (r: ModalState)
    ensures Valid(s) ==> Valid(r)
    ensures !r.isOpen && r.step == s.step
  {
    s.(isOpen := false)
  }

  function Apply(s: ModalState, e: Event): ModalState
  {
    match e
    case NextPressed => Next(s)
    case BackPressed => Back(s)
    case ClosePressed => Close(s)
  }

  /** The state after the handlers `events` run in order: the step stays on a slide
      whatever the events, and nothing reopens a closed modal. */
  function Run(s: ModalState, events: seq<Event>): (r: ModalState)
    ensures Valid(s) ==> Valid(r)
    ensures !s.isOpen ==> !r.isOpen
    decreases |events|
  {
    if events == [] then s else Run(Apply(s, events[0]), events[1..])
  }

  /** From the mounted state, any sequence of handlers leaves the step within 0..2. */
  lemma {:induction false} StepAlwaysOnSlide(onOpen: bool, events: seq<Event>)
    ensures 0 <= Run(Initial(onOpen), events).step <= 2
  {
    assert Valid(Initial(onOpen));
  }

  /** Back then Next from any slide after the first returns to that slide. */
  lemma NextUndoesBack(s: ModalState)
    requires Valid(s) && s.step > 0
    ensures Next(Back(s)) == s
  {
  }

  /** The component: the state hooks as fields, the handlers as methods. */
  class IntroductionModal {
    var step: int
    var isOpen: bool

    function State(): ModalState
      reads this
    {
      ModalState(step, isOpen)
    }

    constructor (onOpen: bool)
      ensures State() == Initial(onOpen) && Valid(State())
    {
      step, isOpen := 0, onOpen;
    }

    method HandleNext()
      modifies this
      ensures State() == Next(old(State()))
    {
      if step < |Steps| - 1 {
        step := step + 1;
      } else {
        isOpen := false;
      }
    }

    method HandleBack()
      modifies this
      ensures State() == Back(old(State()))
    {
      if step > 0 {
        step := step - 1;
      }
    }

    method HandleClose()
      modifies this
      ensures State() == Close(old(State()))
    {
      isOpen := false;
    }
  }
}
