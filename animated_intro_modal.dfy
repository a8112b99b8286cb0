/** The animated onboarding modal: a wizard over the three slides whose Next, Back and
    close handlers update the current step, the open flag and the [page, direction]
    pair that keys and orients the slide animation. */
module AnimatedIntroModal {
  import opened Onboarding

  /** The component's state. */
  datatype ModalState = ModalState(step: int, isOpen: bool, page: int, direction: int)

  /** The handlers a user can trigger: the Continue/Finish button (or a swipe to the
      left), the Back button (or a swipe to the right) and the close button. */
  datatype Event = NextPressed | BackPressed | ClosePressed

  /** The state on mount, opened or not by the `onOpen` property. */
  function Initial(onOpen: bool): ModalState
  {
    ModalState(0, onOpen, 0, 0)
  }

  /** The invariant of every reachable state: the step indexes a slide, the animation
      page moves in lock-step with it, and the direction is -1, 0 or 1. */
  predicate Valid(s: ModalState)
  {
    0 <= s.step <= LastStep && s.page == s.step && -1 <= s.direction <= 1
  }

  /** `handleNext`: advance to the next slide, or close the modal on the last one. */
  function Next(s: ModalState): (r: ModalState)
    ensures Valid(s) ==> Valid(r)
    ensures s.step < LastStep ==>
      r.step == s.step + 1 && r.page == s.page + 1 && r.direction == 1 && r.isOpen == s.isOpen
    ensures s.step >= LastStep ==>
      !r.isOpen && r.step == s.step && r.page == s.page && r.direction == s.direction
  {
    if s.step < |Steps| - 1 then s.(step := s.step + 1, page := s.page + 1, direction := 1)
    else s.(isOpen := false)
  }

  /** `handleBack`: go back one slide; nothing happens on the first slide. */
  function Back(s: ModalState): (r: ModalState)
    ensures Valid(s) ==> Valid(r)
    ensures s.step <= 0 ==> r == s
    ensures s.step > 0 ==>
      r.step == s.step - 1 && r.page == s.page - 1 && r.direction == -1 && r.isOpen == s.isOpen
  {
    if s.step > 0 then s.(step := s.step - 1, page := s.page - 1, direction := -1) else s
  }

  /** `handleClose`: hide the modal and keep everything else. */
  function Close(s: ModalState): (r: ModalState)
    ensures Valid(s) ==> Valid(r)
    ensures !r.isOpen && r.step == s.step && r.page == s.page && r.direction == s.direction
  {
    s.(isOpen := false)
  }

  function Apply(s: ModalState, e: Event): ModalState
  {
    match e
    case NextPressed => Next(s)
    case BackPressed => Back(s)
    case ClosePressed => Close(s)
  }

  /** The state after the handlers `events` run in order. Validity is kept whatever
      the events, and nothing reopens a closed modal. */
  function Run(s: ModalState, events: seq<Event>): (r: ModalState)
    ensures Valid(s) ==> Valid(r)
    ensures !s.isOpen ==> !r.isOpen
    decreases |events|
  {
    if events == [] then s else Run(Apply(s, events[0]), events[1..])
  }

  /** `n` presses of the same handler. */
  function Repeat(e: Event, n: nat): (r: seq<Event>)
  {
    if n == 0 then [] else [e] + Repeat(e, n - 1)
  }

  /** `n` presses of Next from a valid state reach slide min(step + n, last) and close
      the modal exactly when they go past the last slide. */
  lemma {:induction false} RepeatedNext(s: ModalState, n: nat)
    requires Valid(s)
    ensures var r := Run(s, Repeat(NextPressed, n));
      Valid(r) &&
      r.step == (if s.step + n <= LastStep then s.step + n else LastStep) &&
      r.isOpen == (s.isOpen && s.step + n <= LastStep)
    decreases n
  {
    if n > 0 {
      var es := Repeat(NextPressed, n);
      assert es[0] == NextPressed && es[1..] == Repeat(NextPressed, n - 1);
      RepeatedNext(Next(s), n - 1);
    }
  }

  /** With the three slides, an open modal closes on the third consecutive Next and
      stays on the last slide. */
  lemma ThirdNextFinishes()
    ensures Run(Initial(true), [NextPressed, NextPressed]).isOpen
    ensures Run(Initial(true), [NextPressed, NextPressed, NextPressed]) == ModalState(2, false, 2, 1)
  {
    assert Repeat(NextPressed, 2) == [NextPressed, NextPressed];
    assert Repeat(NextPressed, 3) == [NextPressed, NextPressed, NextPressed];
    RepeatedNext(Initial(true), 2);
    RepeatedNext(Initial(true), 3);
  }

  /** Back then Next on an inner slide returns to the same slide and page, now
      animated forwards. */
  lemma NextUndoesBack(s: ModalState)
    requires Valid(s) && s.step > 0
    ensures Next(Back(s)) == s.(direction := 1)
  {
  }

  /** The component: the state hooks as fields, the handlers as methods. */
  class IntroductionModal {
    var step: int
    var isOpen: bool
    var page: int
    var direction: int

    function State(): ModalState
      reads this
    {
      ModalState(step, isOpen, page, direction)
    }

    constructor (onOpen: bool)
      ensures State() == Initial(onOpen) && Valid(State())
    {
      step, isOpen := 0, onOpen;
      page, direction := 0, 0;
    }

    method HandleNext()
      modifies this
      ensures State() == Next(old(State()))
    {
      if step < |Steps| - 1 {
        step := step + 1;
        page, direction := page + 1, 1;
      } else {
        isOpen := false;
      }
    }

    method HandleBack()
      modifies this
      ensures State() == Back(old(State()))
    {
      if step > 0 {
        step := step - 1;
        page, direction := page - 1, -1;
      }
    }

    method HandleClose()
      modifies this
      ensures State() == Close(old(State()))
    {
      isOpen := false;
    }
  }
}
