/** The onboarding slides shared by both introduction modals and the screen each
    modal draws for its current step. */
module Onboarding {
  import opened Primitives

  /** One onboarding slide; the image is left out (an imported asset). */
  datatype Step = Step(title: string, description: string)

  /** The three slides, in order. */
  const Steps: seq<Step> := [
    Step("Get started",
      "Join your favorite communities right away and manage them effortlessly using a clear, intuitive dashboard."),
    Step("Create Your DAO",
      "Create a community of like-minded individuals and manage resources effectively with a fair, transparent voting system."),
    Step("Make Friends",
      "Actively interact with your communities, make new friends, and build influence to bring your vision to life.")
  ]

  /** Index of the last slide. */
  const LastStep: int := |Steps| - 1

  const FinishLabel: string := "Finish"
  const ContinueLabel: string := "Continue"

  /** What an open modal shows: the slide, which progress dot is highlighted,
      whether Back is disabled and the primary button's label. */
  datatype Screen = Screen(slide: Step, activeDot: nat, backDisabled: bool, primaryLabel: string)

  /** The screen drawn at step `step`. */
  function ScreenAt(step: int): (r: Screen)
    requires 0 <= step < |Steps|
    ensures r.slide == Steps[step] && r.activeDot == step
    ensures r.backDisabled <==> step == 0
    ensures r.primaryLabel == FinishLabel <==> step == LastStep
    ensures r.primaryLabel == ContinueLabel <==> step != LastStep
  {
    Screen(Steps[step], step, step == 0, if step == |Steps| - 1 then "Finish" else "Continue")
  }

  /** What a modal renders: nothing while it is closed, otherwise the screen of the
      current step. */
  function View(step: int, isOpen: bool): (r: Option<Screen>)
    requires isOpen ==> 0 <= step < |Steps|
    ensures r.None? <==> !isOpen
    ensures r.Some? ==> r.value == ScreenAt(step)
  {
    if !isOpen then None else Some(ScreenAt(step))
  }
}
