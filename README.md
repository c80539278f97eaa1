# Possession, level flow and control gates of a 2D platformer, in Dafny

This project models the decision logic of a Unity 2D platformer whose central
mechanic is *possession*: the player can enter a possession-seeking mode, take
over an enemy or a bouncing form by touching it, and reappear when the possessed
body lets go. The engine is not modelled; what is left are small sequential
state machines, written here as Dafny classes whose methods change their fields
step by step, each proved against a pure transition function over a snapshot
datatype of those fields. The properties are stated on the transition functions
and, where several calls are involved, in lemmas over runs of calls.

- `BouncingFormControl` (bouncing_form.dfy): the bouncing form's possession state
  machine: `Possess`, `Unpossess`, `CancelBounce`, the possessed tick, the
  respawn-space test and the initial state. Subscribers are a sequence of ids and
  every notification is recorded as a `Delivery`. The possessor is an abstract
  `PossessionPower` object that records the `ReleasePossession` calls it receives.
- `PlayerPossession` (possession.dfy): the player side: the possession mode, the
  take-over handshake, the respawn position and orientation, the collision guard.
- `GameFlow` (game_manager.dfy): the level-start and level-end flags and the scene
  to load, driven by `Start`, `LoadNextLevel` and the two fade callbacks. The
  calls made on the fade image, the player controller, the movement and the scene
  loader are recorded as effects.
- `PlayerGate` (player_controller.dfy) and `LegacyPlayerControl` (player_control.dfy):
  the two revisions of the player's control gate: which frames run, which input
  record reaches the movement, and how the possess edge toggles the mode.
- `TypeBMovement` (character_type_b.dfy): the jump, jump-cut and sprite-flip decision
  of `CharacterTypeBController.ComputeVelocity`, over `real` quantities.
- `Props` (button.dfy): the button latch.
- `Common` and `InputFrame`: shared values (vectors, the broadcast to an ordered
  subscriber list, the input record and a device snapshot).

Inputs that come from the engine are parameters: the frame's device readings
(`Device`), `Time.deltaTime`, the base controller's `ControlsEnabled()` and
`UseKeyboard`, the value the target's `Possess` returns to the player, the tag of
a colliding object. On the bouncing form, whether its game object is active, the
body's velocity, the subscriber list and `IsPossessable` are fields that its
operations read but never write. The player's own `Possession` component does
write its game object's active state: `TakePossession` hides the player and
`ReleasePossession` shows it again.

The modelled files come from different revisions of the project and their
signatures disagree (the player's `ReleasePossession` takes two arguments, the
bouncing form calls a three-argument one; `IPossessable.Possess` takes input
devices). Each file is modelled against its own collaborator.

### Behaviour of the code worth knowing

- A second `Possess` on an already-possessed form changes nothing and returns
  `true`, the possession state after the call; the first possessor is kept.
- `CancelBounce` notifies the subscribers whatever the possession state.
- `PlayerController.Update` skips the whole frame when controls are disabled,
  while the older `PlayerControl.Update` feeds the movement the neutral record.
- `Unpossess` ignores both of its arguments and always respawns at the left spawn;
  it does not consult `HasEnoughSpaceToUnpossess` itself.
- `Jump` sets the ground normal to up but does not reset the grounded flag.
- A jump cut is applied at most once per `ComputeVelocity` call, but two calls that
  both see a release while rising cut the speed to a quarter (`JumpCutPerDecision`).
- When the bouncing form is inactive, `Unpossess` resets the flag but keeps the
  possessor reference and does not call the possessor back
  (`InactiveUnpossessKeepsStaleReference`); hence, across a deactivation,
  subscribers can hear `NotifyPossessed` twice with no `NotifyUnpossessed` between
  (`PossessedAnnouncedTwiceAcrossDeactivation`). While the form stays active the
  possession relationship stays consistent (`ActiveRunStaysConsistent`).
- `LoadNextLevel` does not end the start sequence, so a fade-in finishing during a
  level change still gives control back (`FadeInDuringEndSequenceEnablesControl`).
- `Button.Press` and `Button.Unpress` are private, and nothing in Button.cs calls
  `Unpress`; the unpress steps in `PressRoundsBoundedByUnpresses` stand for a caller
  outside that file; with none, the lemma bounds the notifications to one round in total.

## Model

| member | source | states |
|---|---|---|
| `Common.Broadcast` | Assets/Scripts/Characters/Control/BouncingFormCharacterController.cs:121-124 | a notification loop issues one delivery per subscriber, in subscription order, each carrying the event |
| `Common.BroadcastCounts` | Assets/Scripts/Props/Button.cs:35-38 | every subscriber is notified exactly as many times as it is subscribed (once for a subscriber registered once) |
| `BouncingFormControl.PossessionPower.ReleasePossession` | Assets/Scripts/Characters/Control/BouncingFormCharacterController.cs:157 | the possessor's callback records exactly the position, facing and flag it is called with |
| `BouncingFormControl.RespawnFacing` | Assets/Scripts/Characters/Control/BouncingFormCharacterController.cs:147-154 | the facing is left iff velocity.x < 0 and right iff velocity.x >= 0 (zero included) |
| `BouncingFormControl.FetchInputs` | Assets/Scripts/Characters/Control/BouncingFormCharacterController.cs:61-81 | only the power-release, possess and display-info edges are read from the device; every other field is neutral |
| `BouncingFormControl.FetchInputsIgnoresKeyboardFlag` | Assets/Scripts/Characters/Control/BouncingFormCharacterController.cs:65-78 | the keyboard and controller branches give the same record |
| `BouncingFormControl.PossessedTickInputs` | Assets/Scripts/Characters/Control/BouncingFormCharacterController.cs:45-50 | a possessed tick uses the live inputs when controls are enabled and the neutral record otherwise, so no power release is seen then |
| `BouncingFormControl.AfterPossess` | Assets/Scripts/Characters/Control/BouncingFormCharacterController.cs:103-131 | the state changes only when possessable and not possessed; then the flag is set and the possessor recorded even when inactive; subscribers get NotifyPossessed once each, in order, and the layer, camera, sound and OnPossess hook run, only when active; possessed afterwards iff possessed before or possessable |
| `BouncingFormControl.AfterUnpossess` | Assets/Scripts/Characters/Control/BouncingFormCharacterController.cs:133-183 | outside the possessed state of a possessable form nothing changes and nothing is returned; otherwise the flag, info UI and layer are reset; only an active form with a possessor calls it back at the left spawn with the velocity's facing, returns its object and forgets it; an active form notifies NotifyUnpossessed to every subscriber; an inactive one keeps the reference |
| `BouncingFormControl.AfterCancelBounce` | Assets/Scripts/Characters/Control/BouncingFormCharacterController.cs:83-89 | every subscriber is notified once, in order, and no other field (possession included) changes |
| `BouncingFormControl.AfterPossessedTick` | Assets/Scripts/Characters/Control/BouncingFormCharacterController.cs:42-59 | a bounce is cancelled iff controls are enabled and power is released; the display-info and possession updates then receive the tick's inputs; nothing else changes |
| `BouncingFormControl.ActiveRunStaysConsistent` | Assets/Scripts/Characters/Control/BouncingFormCharacterController.cs:103-183 | while the form stays active, any run of operations keeps "a possessor is held only while possessed" |
| `BouncingFormControl.InactiveUnpossessKeepsStaleReference` | Assets/Scripts/Characters/Control/BouncingFormCharacterController.cs:137-177 | possess then unpossess on an inactive form leaves the possessor reference set while not possessed, with no callback and nothing returned |
| `BouncingFormControl.SecondPossessKeepsFirstPossessor` | Assets/Scripts/Characters/Control/BouncingFormCharacterController.cs:105-130 | after a successful possess, a second possess changes nothing, reports true and keeps the first possessor |
| `BouncingFormControl.PossessUnpossessRoundTrip` | Assets/Scripts/Characters/Control/BouncingFormCharacterController.cs:103-183 | possess then unpossess on an active form calls the possessor back once at the left spawn, returns its object, clears the reference and the flag, and notifies NotifyPossessed then NotifyUnpossessed |
| `BouncingFormControl.PossessedAnnouncedTwiceAcrossDeactivation` | Assets/Scripts/Characters/Control/BouncingFormCharacterController.cs:111-124 | possession announced while active, an inactive release and a new possession deliver NotifyPossessed twice with no NotifyUnpossessed |
| `BouncingFormControl.BouncingFormCharacterController.constructor` | Assets/Scripts/Characters/Control/BouncingFormCharacterController.cs:18-40 | Awake: not possessed, no possessor, possessed-mode layer weight 0 |
| `BouncingFormControl.BouncingFormCharacterController.NotifySubscribers` | Assets/Scripts/Characters/Control/BouncingFormCharacterController.cs:167-170 | the loop appends exactly the broadcast of the event and changes no other field |
| `BouncingFormControl.BouncingFormCharacterController.CancelBounce` | Assets/Scripts/Characters/Control/BouncingFormCharacterController.cs:83-89 | the new state is AfterCancelBounce of the old |
| `BouncingFormControl.BouncingFormCharacterController.Possess` | Assets/Scripts/Characters/Control/BouncingFormCharacterController.cs:103-131 | the new state is AfterPossess of the old one, and the result is the possessed flag after the call |
| `BouncingFormControl.BouncingFormCharacterController.Unpossess` | Assets/Scripts/Characters/Control/BouncingFormCharacterController.cs:133-183 | the new state and the returned object are those of AfterUnpossess, and the old possessor received exactly the callback AfterUnpossess names |
| `BouncingFormControl.BouncingFormCharacterController.OnUpdatePossessed` | Assets/Scripts/Characters/Control/BouncingFormCharacterController.cs:42-59 | the new state is AfterPossessedTick of the old |
| `PlayerPossession.ModeChanged` | Assets/Scripts/Characters/Possession.cs:48-67 | asking for the current mode changes nothing and plays no sound; asking for the other one sets it, sets the layer weight to match and plays the enter sound iff entering, the exit sound otherwise; the layer weight keeps matching the mode |
| `PlayerPossession.ModeChangeIsIdempotent` | Assets/Scripts/Characters/Possession.cs:50 | asking twice for a mode is the same as asking once |
| `PlayerPossession.PossessionTaken` | Assets/Scripts/Characters/Possession.cs:70-77 | the target is always asked; the player leaves possession mode and deactivates iff the target accepts, otherwise nothing else changes; the layer weight keeps matching the mode |
| `PlayerPossession.SpawnFlipX` | Assets/Scripts/Characters/Possession.cs:86-93 | facing left gives !flipSpawnedPlayer, facing right gives flipSpawnedPlayer, any other direction keeps flipX |
| `PlayerPossession.Released` | Assets/Scripts/Characters/Possession.cs:80-100 | the player is active at the respawn position with the SpawnFlipX orientation and its camera selected; the mode and layer weight are unchanged, so they keep matching |
| `PlayerPossession.Collided` | Assets/Scripts/Characters/Possession.cs:103-109 | possession is attempted iff in possession mode and the other object is tagged Enemy; otherwise nothing changes; the layer weight keeps matching the mode |
| `PlayerPossession.CollisionTakeover` | Assets/Scripts/Characters/Possession.cs:70-109 | an accepted possession through a collision leaves possession mode with the exit sound and hides the player |
| `PlayerPossession.TakeThenReleaseRestoresPlayer` | Assets/Scripts/Characters/Possession.cs:70-100 | an accepted take-over followed by a release leaves the player active, at the respawn point, out of possession mode |
| `PlayerPossession.Possession.constructor` | Assets/Scripts/Characters/Possession.cs:34-46 | Awake: not in possession mode, layer weight 0, so the layer weight matches the mode from the start |
| `PlayerPossession.Possession.ChangePossessionMode` | Assets/Scripts/Characters/Possession.cs:48-67 | the new state is ModeChanged of the old |
| `PlayerPossession.Possession.TakePossession` | Assets/Scripts/Characters/Possession.cs:70-77 | the new state is PossessionTaken of the old |
| `PlayerPossession.Possession.ReleasePossession` | Assets/Scripts/Characters/Possession.cs:80-100 | the new state is Released of the old |
| `PlayerPossession.Possession.OnPhysicsObjectCollisionEnter` | Assets/Scripts/Characters/Possession.cs:103-109 | the new state is Collided of the old |
| `GameFlow.Started` | Assets/Scripts/GameManagers/GameManager.cs:69-80 | the start sequence begins, control is disabled and the forced level-start inputs applied, then the fade in starts; the end flag and the scene are untouched |
| `GameFlow.LevelChangeRequested` | Assets/Scripts/GameManagers/GameManager.cs:107-116 | control is disabled, the given inputs forced, the scene recorded and the end sequence begun; the start flag is untouched |
| `GameFlow.FadeInFinished` | Assets/Scripts/GameManagers/GameManager.cs:119-126 | the start flag is cleared and control enabled iff in the start sequence and the setting asks for it; otherwise nothing changes |
| `GameFlow.FadeOutFinished` | Assets/Scripts/GameManagers/GameManager.cs:128-135 | in the end sequence, exactly the recorded scene is loaded and the flag cleared; otherwise nothing changes |
| `GameFlow.FadeCallbacksAreIdempotent` | Assets/Scripts/GameManagers/GameManager.cs:119-135 | a repeated fade-in or fade-out notification is a no-op |
| `GameFlow.LevelChangeLoadsRequestedScene` | Assets/Scripts/GameManagers/GameManager.cs:107-135 | a level change followed by its fade-out loads the requested scene and leaves the start flag as it was |
| `GameFlow.FadeInDuringEndSequenceEnablesControl` | Assets/Scripts/GameManagers/GameManager.cs:69-126 | the flags are independent: a fade-in finishing after a level change request still enables control during the end sequence |
| `GameFlow.StepAccounting` | Assets/Scripts/GameManagers/GameManager.cs:107-135 | one callback loads at most the pending scene, and only a level-change request makes a load pending |
| `GameFlow.EachRequestLoadsAtMostOnce` | Assets/Scripts/GameManagers/GameManager.cs:107-135 | over any run, scenes loaded plus the pending load never exceed the level-change requests plus the load pending at the start |
| `GameFlow.GameManager.constructor` | Assets/Scripts/GameManagers/GameManager.cs:26-67 | field initialisation and Awake: both sequence flags false, scene to load -1 |
| `GameFlow.GameManager.Start` | Assets/Scripts/GameManagers/GameManager.cs:69-80 | the new state is Started of the old |
| `GameFlow.GameManager.LoadNextLevel` | Assets/Scripts/GameManagers/GameManager.cs:107-116 | the new state is LevelChangeRequested of the old |
| `GameFlow.GameManager.NotifyFadeInFinished` | Assets/Scripts/GameManagers/GameManager.cs:119-126 | the new state is FadeInFinished of the old |
| `GameFlow.GameManager.NotifyFadeOutFinished` | Assets/Scripts/GameManagers/GameManager.cs:128-135 | the new state is FadeOutFinished of the old |
| `PlayerGate.FetchInputs` | Assets/Scripts/Characters/Control/Player/PlayerController.cs:31-60 | each field of the record is the matching device reading; power release and display info stay false |
| `PlayerGate.FetchInputsIgnoresKeyboardFlag` | Assets/Scripts/Characters/Control/Player/PlayerController.cs:35-57 | the keyboard and controller branches give the same record |
| `PlayerGate.MovementInputsFor` | Assets/Scripts/Characters/Control/Player/PlayerController.cs:18-29 | the movement receives a record iff deltaTime > 0 and controls are enabled, and that record is exactly the fetched inputs |
| `PlayerGate.PossessionAfter` | Assets/Scripts/Characters/Control/Player/PlayerController.cs:67-73 | a possess edge flips the possession mode; without it the possession component is untouched |
| `PlayerGate.TwoPossessEdgesRestoreMode` | Assets/Scripts/Characters/Control/Player/PlayerController.cs:67-73 | two consecutive possess edges restore the original mode and layer weight, for every state whose layer weight matches its mode (which Awake establishes and every operation of the component preserves) |
| `PlayerGate.PlayerController.constructor` | Assets/Scripts/Characters/Control/Player/PlayerController.cs:12-16 | Awake: linked to its possession component, nothing sent to the movement yet |
| `PlayerGate.PlayerController.Update` | Assets/Scripts/Characters/Control/Player/PlayerController.cs:18-29 | a skipped frame sends nothing and leaves the mode; a running frame sends exactly the fetched inputs and applies PossessionAfter |
| `PlayerGate.PlayerController.UpdateMovement` | Assets/Scripts/Characters/Control/Player/PlayerController.cs:62-65 | the movement receives exactly the given record |
| `PlayerGate.PlayerController.UpdatePossession` | Assets/Scripts/Characters/Control/Player/PlayerController.cs:67-73 | the possession component's new state is PossessionAfter of the old |
| `LegacyPlayerControl.FetchInputs` | Assets/Scripts/Character/PlayerControl.cs:45-68 | each field of the record is the matching device reading |
| `LegacyPlayerControl.FetchInputsIgnoresKeyboardFlag` | Assets/Scripts/Character/PlayerControl.cs:49-65 | the fetched inputs do not depend on the keyboard flag |
| `LegacyPlayerControl.MovementInputsFor` | Assets/Scripts/Character/PlayerControl.cs:26-43 | no record iff deltaTime <= 0; otherwise the fetched record with controls enabled and the neutral record with controls disabled |
| `LegacyPlayerControl.PlayerControl.constructor` | Assets/Scripts/Character/PlayerControl.cs:18-24 | Awake: controls enabled, the neutral record all default |
| `LegacyPlayerControl.PlayerControl.Update` | Assets/Scripts/Character/PlayerControl.cs:26-43 | the movement receives exactly the record MovementInputsFor names, with the character controlled exactly when controls are enabled (the gate `ControlsCharacter`, PlayerControl.cs:75-78); the flags are unchanged |
| `LegacyPlayerControl.PlayerControl.UpdateMovement` | Assets/Scripts/Character/PlayerControl.cs:80-83 | the movement receives exactly the given record |
| `LegacyPlayerControl.PlayerControl.SetKeyboardUse` | Assets/Scripts/Character/PlayerControl.cs:70-73 | the keyboard flag becomes exactly the argument; nothing else changes |
| `LegacyPlayerControl.PlayerControl.EnableControl` | Assets/Scripts/Character/PlayerControl.cs:85-88 | ControlsEnabled becomes exactly the argument; nothing else changes |
| `TypeBMovement.VerticalSpeedAfter` | Assets/Scripts/CharacterTypeBController.cs:27-36 | a grounded jump press gives the take-off speed; otherwise a release while rising halves the speed; otherwise it is unchanged; without a grounded press it never increases |
| `TypeBMovement.ShouldFlip` | Assets/Scripts/CharacterTypeBController.cs:41 | the sprite turns iff it faces against the movement beyond the 0.01 dead zone; never inside the dead zone |
| `TypeBMovement.Computed` | Assets/Scripts/CharacterTypeBController.cs:21-63 | target velocity (move.x * maxSpeed, 0); vertical speed as VerticalSpeedAfter; ground normal up after a grounded jump, else unchanged; flipX negated iff ShouldFlip, so outside the dead zone the sprite faces the movement |
| `TypeBMovement.JumpCutPerDecision` | Assets/Scripts/CharacterTypeBController.cs:31-36 | one call halves a rising speed once; two consecutive calls that each see a release quarter it |
| `TypeBMovement.GroundedJumpWinsOverRelease` | Assets/Scripts/CharacterTypeBController.cs:27-36 | a grounded press and a release in the same call give the take-off speed, no cut |
| `TypeBMovement.CharacterTypeBController.constructor` | Assets/Scripts/CharacterTypeBController.cs:5-8 | the speed settings (m_maxSpeed and m_jumpTakeOffSpeed, 7 by default) and the initial body are as given |
| `TypeBMovement.CharacterTypeBController.ComputeVelocity` | Assets/Scripts/CharacterTypeBController.cs:21-52 | the new body is Computed of the old; grounded is unchanged |
| `TypeBMovement.CharacterTypeBController.Jump` | Assets/Scripts/CharacterTypeBController.cs:54-58 | vertical speed becomes the take-off speed and the ground normal (0, 1); nothing else changes |
| `TypeBMovement.CharacterTypeBController.CancelJump` | Assets/Scripts/CharacterTypeBController.cs:60-63 | vertical speed is halved; nothing else changes |
| `Props.Pressed` | Assets/Scripts/Props/Button.cs:33-42 | every subscriber is notified once, in order, and the button and its animator are pressed |
| `Props.Unpressed` | Assets/Scripts/Props/Button.cs:44-48 | the button and its animator are released and no one is notified |
| `Props.Triggered` | Assets/Scripts/Props/Button.cs:50-56 | only a player entering an unpressed button presses it; any other entry changes nothing and notifies no one |
| `Props.RepeatedTriggersNotifyOnce` | Assets/Scripts/Props/Button.cs:50-56 | any sequence of trigger entries notifies the subscribers once, iff the button was unpressed and the player is among them, and at most once otherwise |
| `Props.PressRoundsBoundedByUnpresses` | Assets/Scripts/Props/Button.cs:33-56 | over any run of entries and unpresses, the notifications added are exactly some number of whole rounds (each a NotifyButtonPressed to every subscriber, in order), and the rounds are at most one per unpress (plus one if it started unpressed) |
| `Props.Button.constructor` | Assets/Scripts/Props/Button.cs:25-31 | Awake: pressed and animator state equal m_initiallyPressed |
| `Props.Button.Press` | Assets/Scripts/Props/Button.cs:33-42 | the loop notifies every subscriber in order, then the button is pressed: the new state is Pressed of the old |
| `Props.Button.Unpress` | Assets/Scripts/Props/Button.cs:44-48 | the new state is Unpressed of the old |
| `Props.Button.OnTriggerEnter2D` | Assets/Scripts/Props/Button.cs:50-56 | the new state is Triggered of the old |

## Left out

- Engine calls (Animator, AudioSource and its random pitch, VirtualCameraManager,
  SceneManager, Physics2D, Seeker, contact-filter setup, `Debug.LogError` on missing
  references) are replaced by recorded effects or fields; their own behaviour is
  not modelled. `Debug.LogError` on a missing reference is dropped altogether.
- Subscriber callbacks (`NotifyPossessed`, `NotifyUnpossessed`, `NotifyCanceledBounce`,
  `NotifyButtonPressed`) are assumed to return normally and not to call back into the
  notifying object. In the source a callback that throws aborts the loop midway, for
  instance after `IsPossessed` is already set and before `OnPossess` runs
  (BouncingFormCharacterController.cs:121-130); the model does not capture that.
- BouncingFormControl.HasEnoughSpaceToUnpossess — modelled only as the bare overlap
  test (BouncingFormCharacterController.cs:100), with no contract of its own, because
  the base-class unpossess gate that consults it is not part of this model.
- GameManager's level-index constants and the Interactable tag are used only by
  `GameManager.Update` and by components outside this model, and are left out.
- The meaning of the third, boolean argument of the possessor's `ReleasePossession`
  belongs to the callee, which is not part of this model; the model records the
  value passed (always `true`) under the neutral name `flag`.
- The physics integrator (PhysicsObject, BouncingPhysicsObject) is not part of this
  model; the grounded flag and the bouncing body's velocity are inputs.
- The base classes SubscribablePossessableCharacterController, CharacterController
  and MonoSubscribable are not part of this model: `UpdateDisplayInfo`,
  `UpdatePossession` and the OnPossess/OnUnpossess hooks are recorded as calls,
  `ControlsEnabled()` and `UseKeyboard` are parameters, subscribe and unsubscribe
  are not modelled (the subscriber list is a field).
- `PossessionPower` and `AIController` are not part of this model: the first only
  records `ReleasePossession` calls, the second's `Possess` result is a parameter of
  `TakePossession` and of the collision handler.
- `IPossessable.cs` holds no logic; only its "returns the possession state" comment
  is used, as the contract of `Possess`.
- `BouncingFormCharacterController.OnEnable`, `OnUpdateNotPossessed` and
  `CreateInputs` are not modelled (a layer-weight refresh and two trivial overrides).
- `GameManager.Update` (hotkeys, quitting) is device polling and is not modelled.
- AnchorDown.cs, BossFight.cs, PlatformerDashEnabler.cs and BossHealthBarEnabler.cs
  are engine physics or single delegations and are not modelled.
- Floating point: velocities, axes and speeds are `real`; rounding is not modelled,
  and Unity's approximate `Vector2 ==` is exact equality here.
- A missing collaborator (null component or a `GetComponent<AIController>()` that
  finds nothing) would throw in the source; the model assumes the collaborators exist.
- The relative order of subscriber notifications and the bouncing form's other
  effects (sound, camera, hooks) is not captured: they are two separate logs, each
  in call order.
