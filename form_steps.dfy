/**
 * The step navigation the demand and the supply sign-up forms share: four
 * steps, Continue moves on only when the current step's fields validate,
 * Back moves one step back, and neither leaves the range of steps.
 */
module FormSteps {
  /** The index of the last step: both forms have four. */
  const LastStep: nat := 3

  /** A press of Continue, with the outcome of validating the current step, or of Back. */
  datatype Move = Continue(valid: bool) | Back

  /** `Math.min(prev + 1, steps.length - 1)`, applied only when the step validated. */
  function NextStep(i: nat, valid: bool): (r: nat)
    ensures !valid ==> r == i
    ensures valid && i < LastStep ==> r == i + 1
    ensures i <= LastStep ==> r <= LastStep
  {
    if !valid then i
    else if i + 1 < LastStep then i + 1 else LastStep
  }

  /** `Math.max(prev - 1, 0)`. */
  function PreviousStep(i: nat): (r: nat)
    ensures i > 0 ==> r == i - 1
    ensures i == 0 ==> r == 0
  {
    if i >= 1 then i - 1 else 0
  }

  function Apply(i: nat, m: Move): nat {
    match m
    case Continue(valid) => NextStep(i, valid)
    case Back => PreviousStep(i)
  }

  /** The step reached from `i` after the moves, in order. */
  function Run(i: nat, moves: seq<Move>): nat
    decreases |moves|
  {
    if moves == [] then i else Run(Apply(i, moves[0]), moves[1..])
  }

  /** Whatever the presses, the step index stays within the four steps. */
  lemma {:induction false} RunStaysInRange(i: nat, moves: seq<Move>)
    requires i <= LastStep
    ensures Run(i, moves) <= LastStep
    decreases |moves|
  {
    if moves != [] {
      RunStaysInRange(Apply(i, moves[0]), moves[1..]);
    }
  }

  /**
   * Each step forward needs a press of Continue whose step validated: from the
   * first step, the last is reached only after three of them.
   */
  lemma {:induction false} ProgressNeedsValidation(i: nat, moves: seq<Move>)
    ensures Run(i, moves) <= i + Validated(moves)
    decreases |moves|
  {
    if moves != [] {
      ProgressNeedsValidation(Apply(i, moves[0]), moves[1..]);
    }
  }

  /** How many of the moves are presses of Continue whose step validated. */
  function Validated(moves: seq<Move>): nat
    decreases |moves|
  {
    if moves == [] then 0
    else (if moves[0] == Continue(true) then 1 else 0) + Validated(moves[1..])
  }

  /**
   * A property of the steps holds for every step exactly when it holds for
   * each of the four; both sign-up pages check their schema this way.
   */
  lemma EveryStep(p: nat -> bool)
    ensures (forall i :: 0 <= i <= LastStep ==> p(i)) <==> p(0) && p(1) && p(2) && p(3)
  {
  }

  /** Continue from any step but the last, then Back, returns to the same step. */
  lemma ContinueThenBack(i: nat)
    requires i < LastStep
    ensures PreviousStep(NextStep(i, true)) == i
  {
  }

  /** The step shown by either sign-up page. */
  class Wizard {
    var step: nat

    ghost predicate Valid()
      reads this
    {
      step <= LastStep
    }

    constructor()
      ensures Valid() && step == 0
    {
      step := 0;
    }

    /** `goToNextStep`, given what `form.trigger` answered for the current step's fields. */
    method GoToNextStep(valid: bool)
      requires Valid()
      modifies this
      ensures Valid()
      ensures step == NextStep(old(step), valid)
    {
      if !valid {
        return;
      }
      step := if step + 1 < LastStep then step + 1 else LastStep;
    }

    /** `goToPreviousStep` / `goBack`. */
    method GoToPreviousStep()
      requires Valid()
      modifies this
      ensures Valid()
      ensures step == PreviousStep(old(step))
    {
      step := if step >= 1 then step - 1 else 0;
    }
  }
}
