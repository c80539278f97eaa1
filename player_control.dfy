/** The player's control gate of the older revision (PlayerControl): its own
    input record, and a gate that, unlike PlayerController, still feeds the
    movement every running frame, with the neutral record when controls are off. */
module LegacyPlayerControl {
  import opened Common
  import InputFrame

  /** The `Inputs` struct of this revision. */
  datatype ControlInputs = ControlInputs(vertical: real, horizontal: real, jump: bool, releaseJump: bool)

  /** `new Inputs()` of this revision, the record fed while controls are disabled. */
  const NoControlInputs: ControlInputs := ControlInputs(0.0, 0.0, false, false)

  /** The device mapping; both device branches read the same axes and jump edges. */
  function FetchInputs(useKeyboard: bool, device: InputFrame.Device): (r: ControlInputs)
    ensures r.vertical == device.verticalAxisRaw && r.horizontal == device.horizontalAxisRaw
    ensures r.jump == device.jumpDown && r.releaseJump == device.jumpUp
  {
    if useKeyboard then
      ControlInputs(device.verticalAxisRaw, device.horizontalAxisRaw, device.jumpDown, device.jumpUp)
    else
      ControlInputs(device.verticalAxisRaw, device.horizontalAxisRaw, device.jumpDown, device.jumpUp)
  }

  lemma FetchInputsIgnoresKeyboardFlag(device: InputFrame.Device)
    ensures FetchInputs(true, device) == FetchInputs(false, device)
  {
  }

  /** The record handed to the movement in a frame: none while time is stopped;
      otherwise the live inputs with controls enabled and the neutral record
      with controls disabled. */
  function MovementInputsFor(deltaTime: real, controlsEnabled: bool, useKeyboard: bool, device: InputFrame.Device): (r: Option<ControlInputs>)
    ensures r.None? <==> deltaTime <= 0.0
    ensures r.Some? && controlsEnabled ==> r.value == FetchInputs(useKeyboard, device)
    ensures r.Some? && !controlsEnabled ==> r.value == NoControlInputs
  {
    if deltaTime > 0.0 then
      var inputs := FetchInputs(useKeyboard, device);
      if controlsEnabled then Some(inputs) else Some(NoControlInputs)
    else
      None
  }

  class PlayerControl {
    var useKeyboard: bool
    var controlsEnabled: bool
    const noControlInputs: ControlInputs := NoControlInputs
    /** Every record handed to PlayerMovement.SetInputs, in order. */
    var movementInputs: seq<ControlInputs>

    /** Awake; `useKeyboard` is the serialized m_useKeyboard. */
    constructor (useKeyboard: bool)
      ensures this.useKeyboard == useKeyboard && controlsEnabled
      ensures movementInputs == []
    {
      this.useKeyboard := useKeyboard;
      controlsEnabled := true;
      movementInputs := [];
    }

    predicate ControlsCharacter()
      reads this
    {
      controlsEnabled
    }

    method Update(deltaTime: real, device: InputFrame.Device)
      modifies this
      ensures movementInputs == old(movementInputs) + MovementInputsFor(deltaTime, controlsEnabled, useKeyboard, device).ToSeq()
      ensures controlsEnabled == old(controlsEnabled) && useKeyboard == old(useKeyboard)
    {
      if deltaTime > 0.0 {
        var inputs := FetchInputs(useKeyboard, device);
        if ControlsCharacter() {
          UpdateMovement(inputs);
        } else {
          UpdateMovement(noControlInputs);
        }
      }
    }

    method UpdateMovement(inputs: ControlInputs)
      modifies this
      ensures movementInputs == old(movementInputs) + [inputs]
      ensures controlsEnabled == old(controlsEnabled) && useKeyboard == old(useKeyboard)
    {
      movementInputs := movementInputs + [inputs];
    }

    method SetKeyboardUse(useKeyboard: bool)
      modifies this
      ensures this.useKeyboard == useKeyboard
      ensures controlsEnabled == old(controlsEnabled) && movementInputs == old(movementInputs)
    {
      this.useKeyboard := useKeyboard;
    }

    method EnableControl(enable: bool)
      modifies this
      ensures controlsEnabled == enable
      ensures useKeyboard == old(useKeyboard) && movementInputs == old(movementInputs)
    {
      controlsEnabled := enable;
    }
  }
}
