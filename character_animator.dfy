/**
 * The animation-state holder of a character (Assets/Scripts/_Base/CharacterAnimator.cs):
 * setting the state writes it and then the three boolean parameters of the
 * character's animator.
 */
module Animation {

  datatype AnimationStates = Idle | Running | Crouch | Hit

  /** The animator's three boolean parameters "IsRunning", "IsCrouching" and "IsHit". */
  datatype AnimatorFlags = AnimatorFlags(isRunning: bool, isCrouching: bool, isHit: bool) {
    predicate AtMostOne() {
      (isRunning ==> !isCrouching && !isHit) && (isCrouching ==> !isHit)
    }
  }

  /** The parameters the setter writes for state `s`: each flag is on exactly for its own state. */
  function FlagsFor(s: AnimationStates): (f: AnimatorFlags)
    ensures f.AtMostOne()
    ensures f.isRunning <==> s == Running
    ensures f.isCrouching <==> s == Crouch
    ensures f.isHit <==> s == Hit
  {
    match s
    case Idle => AnimatorFlags(false, false, false)
    case Running => AnimatorFlags(true, false, false)
    case Crouch => AnimatorFlags(false, true, false)
    case Hit => AnimatorFlags(false, false, true)
  }

  /** The state a set of parameters shows; all flags off shows Idle. */
  function StateShown(f: AnimatorFlags): AnimationStates {
    if f.isHit then Hit
    else if f.isCrouching then Crouch
    else if f.isRunning then Running
    else Idle
  }

  /** The parameters written for a state determine the state: no two states share them. */
  lemma StateShownOfFlagsFor(s: AnimationStates)
    ensures StateShown(FlagsFor(s)) == s
  {
  }

  class CharacterAnimator {
    var currentState: AnimationStates
    var isRunning: bool
    var isCrouching: bool
    var isHit: bool

    function Flags(): AnimatorFlags
      reads this
    {
      AnimatorFlags(isRunning, isCrouching, isHit)
    }

    /** The getter of the `CurrentState` property. */
    function CurrentState(): AnimationStates
      reads this
    {
      currentState
    }

    /** A fresh animator with the configured initial state and the animator's initial parameters. */
    constructor (initial: AnimationStates, flags: AnimatorFlags)
      ensures currentState == initial && Flags() == flags
    {
      currentState := initial;
      isRunning, isCrouching, isHit := flags.isRunning, flags.isCrouching, flags.isHit;
    }

    /**
     * The setter of the `CurrentState` property. The new parameters depend on
     * `value` alone, so setting the same state again leaves them as they are.
     */
    method SetCurrentState(value: AnimationStates)
      modifies this
      ensures CurrentState() == value
      ensures Flags() == FlagsFor(value)
      ensures Flags().AtMostOne()
    {
      currentState := value;
      match currentState {
        case Idle =>
          isRunning := false;
          isCrouching := false;
          isHit := false;
        case Running =>
          isRunning := true;
          isCrouching := false;
          isHit := false;
        case Crouch =>
          isRunning := false;
          isCrouching := true;
          isHit := false;
        case Hit =>
          isRunning := false;
          isCrouching := false;
          isHit := true;
      }
    }
  }
}
