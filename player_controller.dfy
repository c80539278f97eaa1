/** The player's control gate of the newer revision (PlayerController): whether a
    frame is processed at all, which input record reaches the platformer
    movement, and how the possess edge toggles the possession mode. */
module PlayerGate {
  import opened Common
  import opened InputFrame
  import PlayerPossession

  /** The device mapping; both device branches read the same axes and buttons, and
      the power-release and display-info edges are never set here. */
  function FetchInputs(useKeyboard: bool, device: Device): (r: Inputs)
    ensures r.vertical == device.verticalAxisRaw && r.horizontal == device.horizontalAxisRaw
    ensures r.jump == device.jumpDown && r.releaseJump == device.jumpUp
    ensures r.dash == device.dashDown && r.releaseDash == device.dashUp
    ensures r.possess == device.possessDown
    ensures !r.releasePower && !r.displayInfo
  {
    if useKeyboard then
      Inputs(device.verticalAxisRaw, device.horizontalAxisRaw, device.jumpDown, device.jumpUp,
             device.dashDown, device.dashUp, device.possessDown, false, false)
    else
      Inputs(device.verticalAxisRaw, device.horizontalAxisRaw, device.jumpDown, device.jumpUp,
             device.dashDown, device.dashUp, device.possessDown, false, false)
  }

  lemma FetchInputsIgnoresKeyboardFlag(device: Device)
    ensures FetchInputs(true, device) == FetchInputs(false, device)
  {
  }

  /** The record handed to the movement in a frame, if any: the live inputs when
      time runs and controls are enabled; nothing at all otherwise. */
  function MovementInputsFor(deltaTime: real, controlsEnabled: bool, useKeyboard: bool, device: Device): (r: Option<Inputs>)
    ensures r.Some? <==> deltaTime > 0.0 && controlsEnabled
    ensures r.Some? ==> r.value == FetchInputs(useKeyboard, device)
  {
    if deltaTime > 0.0 && controlsEnabled then Some(FetchInputs(useKeyboard, device)) else None
  }

  /** UpdatePossession: a possess edge asks for the opposite mode, so it always
      flips it; without the edge the component is untouched. */
  function PossessionAfter(s: PlayerPossession.Player, inputs: Inputs): (r: PlayerPossession.Player)
    ensures inputs.possess ==> r.inPossessionMode == !s.inPossessionMode
    ensures inputs.possess ==> r == PlayerPossession.ModeChanged(s, !s.inPossessionMode)
    ensures !inputs.possess ==> r == s
  {
    if inputs.possess then PlayerPossession.ModeChanged(s, !s.inPossessionMode) else s
  }

  /** Two possess edges in a row give back the original mode and layer weight. */
  lemma TwoPossessEdgesRestoreMode(s: PlayerPossession.Player, inputs: Inputs)
    requires inputs.possess
    requires PlayerPossession.LayerMatchesMode(s)
    ensures var r := PossessionAfter(PossessionAfter(s, inputs), inputs);
            r.inPossessionMode == s.inPossessionMode && r.layerWeight == s.layerWeight
  {
  }

  class PlayerController {
    const possession: PlayerPossession.Possession
    /** Every record handed to PlatformerMovement.SetInputs, in order. */
    var movementInputs: seq<Inputs>

    constructor (possession: PlayerPossession.Possession)
      ensures this.possession == possession && movementInputs == []
    {
      this.possession := possession;
      movementInputs := [];
    }

    /** Update; `controlsEnabled` and `useKeyboard` are the base controller's
        ControlsEnabled() and UseKeyboard, `device` the frame's readings. */
    method Update(deltaTime: real, controlsEnabled: bool, useKeyboard: bool, device: Device)
      modifies this, possession
      ensures movementInputs == old(movementInputs) + MovementInputsFor(deltaTime, controlsEnabled, useKeyboard, device).ToSeq()
      ensures deltaTime > 0.0 && controlsEnabled ==>
                possession.Snapshot() == PossessionAfter(old(possession.Snapshot()), FetchInputs(useKeyboard, device))
      ensures !(deltaTime > 0.0 && controlsEnabled) ==> possession.Snapshot() == old(possession.Snapshot())
    {
      if deltaTime > 0.0 && controlsEnabled {
        var inputs := FetchInputs(useKeyboard, device);
        UpdateMovement(inputs);
        UpdatePossession(inputs);
      }
    }

    method UpdateMovement(inputs: Inputs)
      modifies this
      ensures movementInputs == old(movementInputs) + [inputs]
    {
      movementInputs := movementInputs + [inputs];
    }

    method UpdatePossession(inputs: Inputs)
      modifies possession
      ensures possession.Snapshot() == PossessionAfter(old(possession.Snapshot()), inputs)
    {
      if inputs.possess {
        possession.ChangePossessionMode(!possession.inPossessionMode);
      }
    }
  }
}
