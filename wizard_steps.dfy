/**
 * The step controller of the auction-creation wizard: six sections shown one
 * at a time, selected by a single step index. Every section but the last
 * shows a Continue button, enabled only while that section is valid, which
 * moves one section forward; every section but the first shows a Back button,
 * which moves one section back.
 */
module WizardSteps {

  datatype Section =
    | TokenDetails | GeneralDetails | AuctionDetails | LiquidityLauncher | Whitelist | Review

  const FirstStep: int := 0
  const ReviewStep: int := 5

  predicate InRange(step: int) {
    FirstStep <= step <= ReviewStep
  }

  /** The section shown at a step index. */
  function SectionAt(step: int): (s: Section)
    requires InRange(step)
  {
    match step
    case 0 => TokenDetails
    case 1 => GeneralDetails
    case 2 => AuctionDetails
    case 3 => LiquidityLauncher
    case 4 => Whitelist
    case _ => Review
  }

  /** The position of a section in the wizard. */
  function IndexOf(s: Section): (step: int)
    ensures InRange(step) && SectionAt(step) == s
  {
    match s
    case TokenDetails => 0
    case GeneralDetails => 1
    case AuctionDetails => 2
    case LiquidityLauncher => 3
    case Whitelist => 4
    case Review => 5
  }

  /** Which buttons a section shows. */
  predicate HasContinue(s: Section) {
    s != Review
  }

  predicate HasBack(s: Section) {
    s != TokenDetails
  }

  /** A press of one of the two buttons; Continue carries the current section's validity. */
  datatype Press = Continue(sectionValid: bool) | Back

  /**
   * The step after a press. A press on a button the section does not show, or
   * on a disabled Continue, does nothing.
   */
  function Next(step: int, press: Press): (next: int)
    requires InRange(step)
    ensures InRange(next)
    ensures next == step || next == step + 1 || next == step - 1
  {
    match press
    case Continue(sectionValid) =>
      if HasContinue(SectionAt(step)) && sectionValid then step + 1 else step
    case Back =>
      if HasBack(SectionAt(step)) then step - 1 else step
  }

  /** The step reached after a series of presses. */
  function Run(step: int, presses: seq<Press>): (last: int)
    requires InRange(step)
    ensures InRange(last)
    decreases |presses|
  {
    if presses == [] then step else Run(Next(step, presses[0]), presses[1..])
  }

  /** How many presses are on an enabled Continue button of a valid section. */
  function Advances(presses: seq<Press>): (count: nat) {
    if presses == [] then 0
    else (if presses[0] == Continue(true) then 1 else 0) + Advances(presses[1..])
  }

  // ---------------------------------------------------------------------------
  // Properties of the step controller
  // ---------------------------------------------------------------------------

  /** A step moves forward only on a valid section's Continue, and then by exactly one. */
  lemma ForwardOnlyOnValidContinue(step: int, press: Press)
    requires InRange(step)
    ensures Next(step, press) > step <==> press == Continue(true) && step < ReviewStep
    ensures Next(step, press) < step <==> press == Back && step > FirstStep
  {
  }

  /** Back undoes a Continue that moved, and a valid Continue undoes a Back that moved. */
  lemma BackUndoesContinue(step: int)
    requires InRange(step)
    ensures step < ReviewStep ==> Next(Next(step, Continue(true)), Back) == step
    ensures step > FirstStep ==> Next(Next(step, Back), Continue(true)) == step
  {
  }

  /** No section is skipped: the step never gets further than one per valid Continue. */
  lemma {:induction false} RunBoundedByAdvances(step: int, presses: seq<Press>)
    requires InRange(step)
    ensures Run(step, presses) <= step + Advances(presses)
    decreases |presses|
  {
    if presses != [] {
      RunBoundedByAdvances(Next(step, presses[0]), presses[1..]);
    }
  }

  /** Reaching the review section from the start takes at least five valid Continue presses. */
  lemma ReviewNeedsFiveAdvances(presses: seq<Press>)
    requires Run(FirstStep, presses) == ReviewStep
    ensures Advances(presses) >= 5
  {
    RunBoundedByAdvances(FirstStep, presses);
  }

  /** Five valid Continue presses from the start reach the review section. */
  lemma FiveAdvancesReachReview()
    ensures Run(FirstStep, [Continue(true), Continue(true), Continue(true), Continue(true), Continue(true)]) == ReviewStep
  {
  }

  /** The wizard's state: the index of the section on screen. */
  class Wizard {
    var step: int

    ghost predicate Valid()
      reads this
    {
      InRange(step)
    }

    /** The wizard opens on its first section. */
    constructor ()
      ensures Valid() && step == FirstStep && Current() == TokenDetails
    {
      step := FirstStep;
    }

    function Current(): (s: Section)
      reads this
      requires Valid()
    {
      SectionAt(step)
    }

    /** Continue: one section forward, when the section shows the button and is valid. */
    method PressContinue(sectionValid: bool) returns (moved: bool)
      requires Valid()
      modifies this
      ensures Valid()
      ensures step == Next(old(step), Continue(sectionValid))
      ensures moved <==> step == old(step) + 1
    {
      moved := HasContinue(SectionAt(step)) && sectionValid;
      if moved {
        step := step + 1;
      }
    }

    /** Back: one section back, when the section shows the button. */
    method PressBack() returns (moved: bool)
      requires Valid()
      modifies this
      ensures Valid()
      ensures step == Next(old(step), Back)
      ensures moved <==> step == old(step) - 1
    {
      moved := HasBack(SectionAt(step));
      if moved {
        step := step - 1;
      }
    }
  }
}
