/**
 * A character's list of logical input buttons (Assets/Scripts/_Base/InputRouter.cs)
 * and the part of a button (Assets/Scripts/_Base/InputButton.cs) the router uses.
 */
module Input {
  import opened Wrappers
  import opened GlobalData
  import opened EngineTypes

  /** A button bound to one logical action; the input system updates its axis value. */
  class InputButton {
    const inputType: InputActions
    var debug: bool
    var axisInputValue: Vector2

    constructor (inputType: InputActions, debug: bool)
      ensures this.inputType == inputType && this.debug == debug && axisInputValue == Zero
    {
      this.inputType := inputType;
      this.debug := debug;
      axisInputValue := Zero;
    }

    /** The getter of the `Button` property. */
    function Button(): InputActions {
      inputType
    }

    /** `SetDebugging`: sets the debug flag and nothing else. */
    method SetDebugging(enabled: bool)
      modifies this`debug
      ensures debug == enabled
    {
      debug := enabled;
    }
  }

  /** The index of the first button in `inputs` bound to `actionName`, if any. */
  function FirstIndex(inputs: seq<InputButton>, actionName: InputActions): (r: Option<nat>)
    ensures r.Some? ==> r.value < |inputs| && inputs[r.value].Button() == actionName
    ensures r.Some? ==> forall j :: 0 <= j < r.value ==> inputs[j].Button() != actionName
    ensures r.None? <==> forall j :: 0 <= j < |inputs| ==> inputs[j].Button() != actionName
  {
    if |inputs| == 0 then None
    else if inputs[0].Button() == actionName then Some(0)
    else match FirstIndex(inputs[1..], actionName)
      case None => None
      case Some(k) => Some(k + 1)
  }

  /** The first index is the index of a match that has no match before it. */
  lemma {:induction false} FirstIndexAt(inputs: seq<InputButton>, actionName: InputActions, i: nat)
    requires i < |inputs| && inputs[i].Button() == actionName
    requires forall j :: 0 <= j < i ==> inputs[j].Button() != actionName
    ensures FirstIndex(inputs, actionName) == Some(i)
  {
    if i > 0 {
      FirstIndexAt(inputs[1..], actionName, i - 1);
    }
  }

  /** The button the lookup finds, or null. */
  function Lookup(inputs: seq<InputButton>, actionName: InputActions): (b: InputButton?)
    ensures b == null <==> forall j :: 0 <= j < |inputs| ==> inputs[j].Button() != actionName
    ensures b != null ==> b.Button() == actionName && b in inputs
  {
    match FirstIndex(inputs, actionName)
    case None => null
    case Some(i) => inputs[i]
  }

  class InputRouter {
    var inputs: seq<InputButton>
    /** Whether a failed lookup writes a diagnostic to the log (the log itself is not modelled). */
    const debugInputRouter: bool
    /** Whether every button has debugging switched on when the router is enabled. */
    const debugAllButtons: bool

    constructor (inputs: seq<InputButton>, debugInputRouter: bool, debugAllButtons: bool)
      ensures this.inputs == inputs
      ensures this.debugInputRouter == debugInputRouter && this.debugAllButtons == debugAllButtons
    {
      this.inputs := inputs;
      this.debugInputRouter := debugInputRouter;
      this.debugAllButtons := debugAllButtons;
    }

    /**
     * `FindAndReturnButton`: the first button bound to `actionName`, or null
     * when none is. It only reads `inputs`.
     */
    method FindAndReturnButton(actionName: InputActions) returns (r: InputButton?)
      ensures r == Lookup(inputs, actionName)
    {
      var i := 0;
      while i < |inputs|
        invariant 0 <= i <= |inputs|
        invariant forall j :: 0 <= j < i ==> inputs[j].Button() != actionName
      {
        if actionName == inputs[i].Button() {
          FirstIndexAt(inputs, actionName, i);
          return inputs[i];
        }
        i := i + 1;
      }
      return null;
    }

    /**
     * `EnableDebuggingOnButtons`: with `enabled` every button's debug flag is
     * set; without it nothing changes. Nothing but the debug flags changes.
     */
    method EnableDebuggingOnButtons(enabled: bool)
      modifies (set b | b in inputs)`debug
      ensures forall b :: b in inputs ==> b.debug == (enabled || old(b.debug))
    {
      if enabled {
        var i := 0;
        while i < |inputs|
          invariant 0 <= i <= |inputs|
          invariant forall j :: 0 <= j < i ==> inputs[j].debug
          invariant forall b :: b in inputs && b !in inputs[..i] ==> b.debug == old(b.debug)
        {
          inputs[i].SetDebugging(enabled);
          i := i + 1;
        }
      }
    }
  }
}
