/** The possession state machine of the bouncing form
    (BouncingFormCharacterController): who possesses it, whether it is possessed,
    and what it tells its subscribers, its possessor and the presentation layer
    when possession is taken, released or a bounce is cancelled. */
module BouncingFormControl {
  import opened Common
  import opened InputFrame

  /** A game object, by identity. */
  type ObjectId = nat

  /** One call `ReleasePossession(respawnPos, respawnFacingDirection, flag)`. The
      meaning of the third, boolean argument is the callee's, which is not part of
      this model; the form always passes `true`. */
  datatype ReleaseCall = ReleaseCall(respawnPos: Vector2, respawnFacingDirection: Vector2, flag: bool)

  /** The possessing side as this controller sees it: an object living on a game
      object, that is called back when possession ends. Its own behaviour is not
      part of this model; the calls it receives are recorded. */
  class PossessionPower {
    const gameObject: ObjectId
    var releaseCalls: seq<ReleaseCall>

    constructor (gameObject: ObjectId)
      ensures this.gameObject == gameObject && releaseCalls == []
    {
      this.gameObject := gameObject;
      releaseCalls := [];
    }

    method ReleasePossession(respawnPos: Vector2, respawnFacingDirection: Vector2, flag: bool)
      modifies this
      ensures releaseCalls == old(releaseCalls) + [ReleaseCall(respawnPos, respawnFacingDirection, flag)]
    {
      releaseCalls := releaseCalls + [ReleaseCall(respawnPos, respawnFacingDirection, flag)];
    }
  }

  /** The IBouncingFormControllerSubscriber notifications (the emitting form is implicit). */
  datatype FormEvent =
    | NotifyPossessed(possessingScript: PossessionPower?)
    | NotifyUnpossessed
    | NotifyCanceledBounce

  /** Engine and base-class calls, in the order they are made: the camera switch,
      the one-shot sounds, the OnPossess/OnUnpossess hooks and the per-tick
      UpdateDisplayInfo/UpdatePossession calls of the possessed update. */
  datatype FormEffect =
    | PossessionCameraSelected
    | PossessSoundPlayed
    | UnpossessSoundPlayed
    | OnPossessCalled(possessingScript: PossessionPower?)
    | OnUnpossessCalled
    | DisplayInfoUpdated(inputs: Inputs)
    | PossessionUpdated(inputs: Inputs)

  /** Every field of the controller. `possessable`, `active` (gameObject.activeSelf),
      `velocityX` (the bouncing body's horizontal velocity), `leftSpawn` and
      `subscribers` are set from outside; the operations below only read them. */
  datatype Form = Form(
    possessable: bool,
    possessed: bool,
    possessor: PossessionPower?,
    active: bool,
    velocityX: real,
    leftSpawn: Vector2,
    layerWeight: real,
    infoUIActive: bool,
    subscribers: seq<SubscriberId>,
    deliveries: seq<Delivery<FormEvent>>,
    effects: seq<FormEffect>)

  predicate CanPossess(f: Form) {
    f.possessable && !f.possessed
  }

  predicate CanUnpossess(f: Form) {
    f.possessable && f.possessed
  }

  /** The fields no operation of this controller writes. */
  predicate SameSurroundings(f: Form, g: Form) {
    && g.possessable == f.possessable
    && g.active == f.active
    && g.velocityX == f.velocityX
    && g.leftSpawn == f.leftSpawn
    && g.subscribers == f.subscribers
  }

  /** The overlap test at the left player spawn, on the number of colliders that
      overlap it there. */
  function HasEnoughSpaceToUnpossess(overlapCount: nat): bool
  {
    overlapCount == 0
  }

  /** The direction the released possessor faces: left exactly when the form moves
      left, right otherwise (a form at rest included). */
  function RespawnFacing(velocityX: real): (r: Vector2)
    ensures r == Left <==> velocityX < 0.0
    ensures r == Right <==> velocityX >= 0.0
  {
    if velocityX < 0.0 then Left else Right
  }

  /** The inputs of the bouncing form's own device mapping: only the power release,
      possess and display-info edges are read; both device branches are the same. */
  function FetchInputs(useKeyboard: bool, device: Device): (r: Inputs)
    ensures r.releasePower == device.powerUp
    ensures r.possess == device.possessDown
    ensures r.displayInfo == device.displayInfoDown
    ensures r.(releasePower := false, possess := false, displayInfo := false) == NoControlInputs
  {
    if useKeyboard then
      NoControlInputs.(releasePower := device.powerUp, possess := device.possessDown, displayInfo := device.displayInfoDown)
    else
      NoControlInputs.(releasePower := device.powerUp, possess := device.possessDown, displayInfo := device.displayInfoDown)
  }

  lemma FetchInputsIgnoresKeyboardFlag(device: Device)
    ensures FetchInputs(true, device) == FetchInputs(false, device)
  {
  }

  /** The inputs a possessed tick acts on: the live ones when controls are enabled,
      the neutral record otherwise, so a power release cannot be seen then. */
  function PossessedTickInputs(controlsEnabled: bool, useKeyboard: bool, device: Device): (r: Inputs)
    ensures controlsEnabled ==> r == FetchInputs(useKeyboard, device)
    ensures !controlsEnabled ==> r == NoControlInputs && !r.releasePower
  {
    if controlsEnabled then FetchInputs(useKeyboard, device) else NoControlInputs
  }

  /** Possess: takes effect only on a possessable form that is not possessed yet;
      the possession flag and the possessor are set even when the form is inactive,
      while the presentation and the subscribers hear of it only when it is active. */
  function AfterPossess(f: Form, p: PossessionPower?): (r: Form)
    ensures r.possessed <==> f.possessed || f.possessable
    ensures !CanPossess(f) ==> r == f
    ensures CanPossess(f) ==> r.possessed && r.possessor == p
    ensures CanPossess(f) && !f.active ==> r == f.(possessed := true, possessor := p)
    ensures r.deliveries == f.deliveries + (if CanPossess(f) && f.active then Broadcast(f.subscribers, NotifyPossessed(p)) else [])
    ensures CanPossess(f) && f.active ==>
              && r.layerWeight == 1.0 && r.infoUIActive == f.infoUIActive
              && r.effects == f.effects + [PossessionCameraSelected, PossessSoundPlayed, OnPossessCalled(p)]
    ensures SameSurroundings(f, r)
  {
    if CanPossess(f) then
      var g := f.(possessor := p, possessed := true);
      if f.active then
        g.(layerWeight := 1.0,
           deliveries := g.deliveries + Broadcast(f.subscribers, NotifyPossessed(p)),
           effects := g.effects + [PossessionCameraSelected, PossessSoundPlayed, OnPossessCalled(p)])
      else
        g
    else
      f
  }

  /** What Unpossess leaves behind: the new form, the callback made to the
      possessor (if any) and the possessor's game object it returns (if any). */
  datatype UnpossessOutcome = UnpossessOutcome(form: Form, release: Option<ReleaseCall>, spawned: Option<ObjectId>)

  /** Unpossess: only from the possessed state of a possessable form. The possessor
      is called back, returned and forgotten only when the form is active and has
      one; the possessed flag, the info UI and the layer weight are reset in any case. */
  function AfterUnpossess(f: Form): (r: UnpossessOutcome)
    ensures !CanUnpossess(f) ==> r == UnpossessOutcome(f, None, None)
    ensures CanUnpossess(f) ==> !r.form.possessed && !r.form.infoUIActive && r.form.layerWeight == 0.0
    ensures r.spawned.Some? <==> CanUnpossess(f) && f.active && f.possessor != null
    ensures r.release.Some? <==> r.spawned.Some?
    ensures r.spawned.Some? ==>
              && r.spawned.value == f.possessor.gameObject
              && r.release.value == ReleaseCall(f.leftSpawn, RespawnFacing(f.velocityX), true)
    ensures CanUnpossess(f) && f.active ==>
              && r.form.possessor == null
              && r.form.effects == f.effects + [UnpossessSoundPlayed, OnUnpossessCalled]
    ensures CanUnpossess(f) && !f.active ==> r.form == f.(possessed := false, infoUIActive := false, layerWeight := 0.0)
    ensures r.form.deliveries == f.deliveries + (if CanUnpossess(f) && f.active then Broadcast(f.subscribers, NotifyUnpossessed) else [])
    ensures SameSurroundings(f, r.form)
  {
    if CanUnpossess(f) then
      var release := if f.active && f.possessor != null
                     then Some(ReleaseCall(f.leftSpawn, RespawnFacing(f.velocityX), true)) else None;
      var spawned := if f.active && f.possessor != null then Some(f.possessor.gameObject) else None;
      var g := if f.active then
                 f.(possessor := null,
                    deliveries := f.deliveries + Broadcast(f.subscribers, NotifyUnpossessed),
                    effects := f.effects + [UnpossessSoundPlayed, OnUnpossessCalled])
               else f;
      UnpossessOutcome(g.(possessed := false, infoUIActive := false, layerWeight := 0.0), release, spawned)
    else
      UnpossessOutcome(f, None, None)
  }

  /** CancelBounce: every subscriber hears of it, whatever the possession state,
      and nothing else changes. */
  function AfterCancelBounce(f: Form): (r: Form)
    ensures r.deliveries == f.deliveries + Broadcast(f.subscribers, NotifyCanceledBounce)
    ensures r.(deliveries := f.deliveries) == f
  {
    f.(deliveries := f.deliveries + Broadcast(f.subscribers, NotifyCanceledBounce))
  }

  /** One possessed tick: a power release cancels the bounce, then the display-info
      and possession updates of the base controller receive the tick's inputs. */
  function AfterPossessedTick(f: Form, controlsEnabled: bool, useKeyboard: bool, device: Device): (r: Form)
    ensures r.deliveries == f.deliveries +
              (if controlsEnabled && device.powerUp then Broadcast(f.subscribers, NotifyCanceledBounce) else [])
    ensures r.effects == f.effects + [DisplayInfoUpdated(PossessedTickInputs(controlsEnabled, useKeyboard, device)),
                                      PossessionUpdated(PossessedTickInputs(controlsEnabled, useKeyboard, device))]
    ensures r.(deliveries := f.deliveries, effects := f.effects) == f
  {
    var inputs := PossessedTickInputs(controlsEnabled, useKeyboard, device);
    var g := if inputs.releasePower then AfterCancelBounce(f) else f;
    g.(effects := g.effects + [DisplayInfoUpdated(inputs), PossessionUpdated(inputs)])
  }

  /** The operations callers issue, for reasoning about runs of them. */
  datatype FormOp =
    | PossessOp(possessingScript: PossessionPower?)
    | UnpossessOp
    | CancelBounceOp
    | PossessedTickOp(controlsEnabled: bool, useKeyboard: bool, device: Device)

  function Apply(f: Form, op: FormOp): (r: Form)
    ensures SameSurroundings(f, r)
  {
    match op
    case PossessOp(p) => AfterPossess(f, p)
    case UnpossessOp => AfterUnpossess(f).form
    case CancelBounceOp => AfterCancelBounce(f)
    case PossessedTickOp(c, k, d) => AfterPossessedTick(f, c, k, d)
  }

  function Run(f: Form, ops: seq<FormOp>): Form
    decreases |ops|
  {
    if ops == [] then f else Run(Apply(f, ops[0]), ops[1..])
  }

  /** The possession relationship is consistent: a form holds a possessor only
      while it is possessed. */
  predicate ReferenceConsistent(f: Form) {
    f.possessor != null ==> f.possessed
  }

  /** As long as the form stays active, every run of operations keeps the
      relationship consistent: each release forgets the possessor. */
  lemma {:induction false} ActiveRunStaysConsistent(f: Form, ops: seq<FormOp>)
    requires f.active && ReferenceConsistent(f)
    ensures ReferenceConsistent(Run(f, ops))
    decreases |ops|
  {
    if ops != [] {
      var g := Apply(f, ops[0]);
      assert g.active;
      assert ReferenceConsistent(g);
      ActiveRunStaysConsistent(g, ops[1..]);
    }
  }

  /** An inactive release resets the flag but keeps the old possessor reference,
      does not call it back and returns nothing. */
  lemma InactiveUnpossessKeepsStaleReference(f: Form, p: PossessionPower)
    requires CanPossess(f) && !f.active
    ensures var o := AfterUnpossess(AfterPossess(f, p));
            && !o.form.possessed && o.form.possessor == p
            && !ReferenceConsistent(o.form)
            && o.release == None && o.spawned == None
  {
  }

  /** A second Possess on a possessed form reports true and keeps the first possessor. */
  lemma SecondPossessKeepsFirstPossessor(f: Form, p: PossessionPower?, q: PossessionPower?)
    requires CanPossess(f)
    ensures var g := AfterPossess(f, p);
            AfterPossess(g, q) == g && g.possessed && g.possessor == p
  {
  }

  /** Possess then Unpossess on an active form: the possessor is called back once
      at the left spawn with the facing of the form's velocity, its object is
      returned, and the form is back to not possessed with no possessor. */
  lemma PossessUnpossessRoundTrip(f: Form, p: PossessionPower)
    requires CanPossess(f) && f.active
    ensures var o := AfterUnpossess(AfterPossess(f, p));
            && !o.form.possessed && o.form.possessor == null
            && o.spawned == Some(p.gameObject)
            && o.release == Some(ReleaseCall(f.leftSpawn, RespawnFacing(f.velocityX), true))
            && o.form.deliveries == f.deliveries + Broadcast(f.subscribers, NotifyPossessed(p))
                                                 + Broadcast(f.subscribers, NotifyUnpossessed)
  {
  }

  /** Possession is announced only on an active form, so a form that is
      deactivated while possessed and released then announces a second possession
      without an unpossession in between. */
  lemma PossessedAnnouncedTwiceAcrossDeactivation(f: Form, p: PossessionPower?)
    requires CanPossess(f) && f.active && f.subscribers == [7]
    ensures var g := AfterPossess(f, p);
            var h := AfterUnpossess(g.(active := false)).form;
            var k := AfterPossess(h.(active := true), p);
            k.deliveries == f.deliveries + [Delivery(7, NotifyPossessed(p)), Delivery(7, NotifyPossessed(p))]
  {
    var g := AfterPossess(f, p);
    assert g.deliveries == f.deliveries + [Delivery(7, NotifyPossessed(p))];
  }

  class BouncingFormCharacterController {
    var isPossessable: bool
    var isPossessed: bool
    var possessingScript: PossessionPower?
    var activeSelf: bool
    var velocityX: real
    const leftPlayerSpawn: Vector2
    var possessedLayerWeight: real
    var infoUIActive: bool
    var subscribers: seq<SubscriberId>
    var deliveries: seq<Delivery<FormEvent>>
    var effects: seq<FormEffect>

    function Snapshot(): Form
      reads this
    {
      Form(isPossessable, isPossessed, possessingScript, activeSelf, velocityX, leftPlayerSpawn,
           possessedLayerWeight, infoUIActive, subscribers, deliveries, effects)
    }

    /** Awake: not possessed, possessed-mode layer weight zero. */
    constructor (isPossessable: bool, activeSelf: bool, leftPlayerSpawn: Vector2,
                 subscribers: seq<SubscriberId>, infoUIActive: bool)
      ensures Snapshot() == Form(isPossessable, false, null, activeSelf, 0.0, leftPlayerSpawn,
                                 0.0, infoUIActive, subscribers, [], [])
      ensures ReferenceConsistent(Snapshot())
    {
      this.isPossessable := isPossessable;
      this.activeSelf := activeSelf;
      this.leftPlayerSpawn := leftPlayerSpawn;
      this.subscribers := subscribers;
      this.infoUIActive := infoUIActive;
      velocityX := 0.0;
      possessingScript := null;
      deliveries := [];
      effects := [];
      isPossessed := false;
      possessedLayerWeight := 0.0;
    }

    /** Sends `event` to every subscriber, in order. */
    method NotifySubscribers(event: FormEvent)
      modifies this
      ensures deliveries == old(deliveries) + Broadcast(subscribers, event)
      ensures Snapshot() == old(Snapshot()).(deliveries := deliveries)
    {
      ghost var before := deliveries;
      var i := 0;
      while i < |subscribers|
        modifies this`deliveries
        invariant 0 <= i <= |subscribers|
        invariant deliveries == before + Broadcast(subscribers[..i], event)
      {
        BroadcastSnoc(subscribers, i, event);
        deliveries := deliveries + [Delivery(subscribers[i], event)];
        i := i + 1;
      }
      assert subscribers[..i] == subscribers;
    }

    method CancelBounce()
      modifies this
      ensures Snapshot() == AfterCancelBounce(old(Snapshot()))
    {
      NotifySubscribers(NotifyCanceledBounce);
    }

    method Possess(possessingScript: PossessionPower?) returns (possessed: bool)
      modifies this
      ensures Snapshot() == AfterPossess(old(Snapshot()), possessingScript)
      ensures possessed == isPossessed
    {
      if isPossessable && !isPossessed {
        this.possessingScript := possessingScript;
        isPossessed := true;
        if activeSelf {
          possessedLayerWeight := 1.0;
          effects := effects + [PossessionCameraSelected, PossessSoundPlayed];
          NotifySubscribers(NotifyPossessed(possessingScript));
          effects := effects + [OnPossessCalled(possessingScript)];
        }
      }
      possessed := isPossessed;
    }

    /** `centerColliderToPos` and `forceRespawnPos` are accepted and not used. */
    method Unpossess(centerColliderToPos: bool, forceRespawnPos: Option<Vector2>) returns (spawnedCharacter: Option<ObjectId>)
      modifies this, possessingScript
      ensures Snapshot() == AfterUnpossess(old(Snapshot())).form
      ensures spawnedCharacter == AfterUnpossess(old(Snapshot())).spawned
      ensures old(possessingScript) != null ==>
                old(possessingScript).releaseCalls
                == old(possessingScript.releaseCalls) + AfterUnpossess(old(Snapshot())).release.ToSeq()
    {
      spawnedCharacter := None;
      if isPossessable && isPossessed {
        if activeSelf {
          if possessingScript != null {
            var respawnPos := leftPlayerSpawn;
            var respawnFacingDirection;
            if velocityX < 0.0 {
              respawnFacingDirection := Left;
            } else {
              respawnFacingDirection := Right;
            }
            possessingScript.ReleasePossession(respawnPos, respawnFacingDirection, true);
            spawnedCharacter := Some(possessingScript.gameObject);
            possessingScript := null;
          }
          effects := effects + [UnpossessSoundPlayed];
          NotifySubscribers(NotifyUnpossessed);
          effects := effects + [OnUnpossessCalled];
        }
        infoUIActive := false;
        isPossessed := false;
        possessedLayerWeight := 0.0;
      }
    }

    /** OnUpdatePossessed; `controlsEnabled` and `useKeyboard` are the base
      controller's ControlsEnabled() and UseKeyboard, `device` the frame's readings. */
    method OnUpdatePossessed(controlsEnabled: bool, useKeyboard: bool, device: Device)
      modifies this
      ensures Snapshot() == AfterPossessedTick(old(Snapshot()), controlsEnabled, useKeyboard, device)
    {
      var inputs := NoControlInputs;
      if controlsEnabled {
        inputs := FetchInputs(useKeyboard, device);
      }
      if inputs.releasePower {
        CancelBounce();
      }
      effects := effects + [DisplayInfoUpdated(inputs), PossessionUpdated(inputs)];
    }
  }
}
