/** The player side of possession (Possession): the possession-seeking mode, the
    hand-over to an AI controller, and the player's reappearance when that
    controller releases it. */
module PlayerPossession {
  import opened Common
  import GameFlow

  datatype Sound = EnterPossessionModeSound | ExitPossessionModeSound

  /** Engine calls and calls into the target controller, in order. */
  datatype PlayerEffect =
    | SoundPlayed(sound: Sound)
    | PossessRequested
    | CameraSwitched

  /** Every field the component changes: the mode, the possess-mode animation
      layer weight, the transform position, the sprite's flipX, whether the game
      object is active, and the effects so far. */
  datatype Player = Player(
    inPossessionMode: bool,
    layerWeight: real,
    position: Vector2,
    flipX: bool,
    active: bool,
    effects: seq<PlayerEffect>)

  /** The possess-mode layer weight that goes with a mode. */
  function LayerWeightFor(inPossessionMode: bool): real {
    if inPossessionMode then 1.0 else 0.0
  }

  /** The possess-mode layer shows exactly when the player is in possession mode. */
  predicate LayerMatchesMode(s: Player) {
    s.layerWeight == LayerWeightFor(s.inPossessionMode)
  }

  /** ChangePossessionMode: asking for the current mode does nothing (no sound);
      asking for the other mode switches to it, sets the layer and plays the enter
      sound when entering and the exit sound when leaving. */
  function ModeChanged(s: Player, inPossessionMode: bool): (r: Player)
    ensures r.inPossessionMode == inPossessionMode
    ensures inPossessionMode == s.inPossessionMode ==> r == s
    ensures inPossessionMode != s.inPossessionMode ==>
              && r.layerWeight == LayerWeightFor(inPossessionMode)
              && r.effects == s.effects + [SoundPlayed(if inPossessionMode then EnterPossessionModeSound else ExitPossessionModeSound)]
    ensures r.position == s.position && r.flipX == s.flipX && r.active == s.active
    ensures LayerMatchesMode(s) ==> LayerMatchesMode(r)
  {
    if inPossessionMode != s.inPossessionMode then
      s.(inPossessionMode := inPossessionMode,
         layerWeight := LayerWeightFor(inPossessionMode),
         effects := s.effects + [SoundPlayed(if inPossessionMode then EnterPossessionModeSound else ExitPossessionModeSound)])
    else
      s
  }

  /** TakePossession: the target is asked to be possessed; `accepted` is what its
      Possess returns. Only on acceptance does the player leave possession mode
      and deactivate. */
  function PossessionTaken(s: Player, accepted: bool): (r: Player)
    ensures accepted ==> !r.inPossessionMode && !r.active
    ensures accepted ==> r.position == s.position && r.flipX == s.flipX
    ensures !accepted ==> r == s.(effects := s.effects + [PossessRequested])
    ensures accepted ==> r.effects == s.effects + [PossessRequested]
                                      + (if s.inPossessionMode then [SoundPlayed(ExitPossessionModeSound)] else [])
    ensures LayerMatchesMode(s) ==> LayerMatchesMode(r)
  {
    var asked := s.(effects := s.effects + [PossessRequested]);
    if accepted then
      ModeChanged(asked, false).(active := false)
    else
      asked
  }

  /** The sprite orientation on respawn: facing left gives the opposite of the
      configured flip, facing right the configured flip, any other direction keeps
      the current orientation. */
  function SpawnFlipX(respawnFacingDirection: Vector2, flipSpawnedPlayer: bool, flipX: bool): (r: bool)
    ensures respawnFacingDirection == Left ==> r == !flipSpawnedPlayer
    ensures respawnFacingDirection == Right ==> r == flipSpawnedPlayer
    ensures respawnFacingDirection != Left && respawnFacingDirection != Right ==> r == flipX
  {
    if respawnFacingDirection == Left then !flipSpawnedPlayer
    else if respawnFacingDirection == Right then flipSpawnedPlayer
    else flipX
  }

  /** ReleasePossession: the player reappears, active, at the respawn position,
      oriented by SpawnFlipX, with its camera selected; its mode is unchanged. */
  function Released(s: Player, flipSpawnedPlayer: bool, respawnPos: Vector2, respawnFacingDirection: Vector2): (r: Player)
    ensures r.active && r.position == respawnPos
    ensures r.flipX == SpawnFlipX(respawnFacingDirection, flipSpawnedPlayer, s.flipX)
    ensures r.inPossessionMode == s.inPossessionMode && r.layerWeight == s.layerWeight
    ensures r.effects == s.effects + [CameraSwitched]
    ensures LayerMatchesMode(s) ==> LayerMatchesMode(r)
  {
    s.(position := respawnPos,
       flipX := SpawnFlipX(respawnFacingDirection, flipSpawnedPlayer, s.flipX),
       effects := s.effects + [CameraSwitched],
       active := true)
  }

  /** OnPhysicsObjectCollisionEnter: possession is attempted only in possession
      mode and only against an object tagged as an enemy; otherwise nothing. */
  function Collided(s: Player, otherTag: string, accepted: bool): (r: Player)
    ensures s.inPossessionMode && otherTag == GameFlow.EnemyTag ==> r == PossessionTaken(s, accepted)
    ensures !(s.inPossessionMode && otherTag == GameFlow.EnemyTag) ==> r == s
    ensures LayerMatchesMode(s) ==> LayerMatchesMode(r)
  {
    if s.inPossessionMode && otherTag == GameFlow.EnemyTag then PossessionTaken(s, accepted) else s
  }

  /** Asking twice for the same mode is the same as asking once. */
  lemma ModeChangeIsIdempotent(s: Player, m: bool)
    ensures ModeChanged(ModeChanged(s, m), m) == ModeChanged(s, m)
  {
  }

  /** A successful possession through a collision leaves possession mode with the
      exit sound and hides the player. */
  lemma CollisionTakeover(s: Player)
    requires s.inPossessionMode
    ensures var r := Collided(s, GameFlow.EnemyTag, true);
            && !r.inPossessionMode && !r.active && r.layerWeight == 0.0
            && r.effects == s.effects + [PossessRequested, SoundPlayed(ExitPossessionModeSound)]
  {
  }

  /** Possession taken and then released: the player is active again, at the
      respawn point, out of possession mode. */
  lemma TakeThenReleaseRestoresPlayer(s: Player, flipSpawnedPlayer: bool, respawnPos: Vector2, facing: Vector2)
    ensures var r := Released(PossessionTaken(s, true), flipSpawnedPlayer, respawnPos, facing);
            && r.active && r.position == respawnPos && !r.inPossessionMode
  {
  }

  class Possession {
    const flipSpawnedPlayer: bool
    var inPossessionMode: bool
    var layerWeight: real
    var position: Vector2
    var flipX: bool
    var active: bool
    var effects: seq<PlayerEffect>

    function Snapshot(): Player
      reads this
    {
      Player(inPossessionMode, layerWeight, position, flipX, active, effects)
    }

    /** Awake: not in possession mode, possess-mode layer weight zero. */
    constructor (flipSpawnedPlayer: bool, position: Vector2, flipX: bool, active: bool)
      ensures Snapshot() == Player(false, 0.0, position, flipX, active, [])
      ensures LayerMatchesMode(Snapshot())
      ensures this.flipSpawnedPlayer == flipSpawnedPlayer
    {
      this.flipSpawnedPlayer := flipSpawnedPlayer;
      this.position := position;
      this.flipX := flipX;
      this.active := active;
      effects := [];
      inPossessionMode := false;
      layerWeight := 0.0;
    }

    method ChangePossessionMode(inPossessionMode: bool)
      modifies this
      ensures Snapshot() == ModeChanged(old(Snapshot()), inPossessionMode)
    {
      if inPossessionMode != this.inPossessionMode {
        this.inPossessionMode := inPossessionMode;
        layerWeight := if this.inPossessionMode then 1.0 else 0.0;
        if this.inPossessionMode {
          effects := effects + [SoundPlayed(EnterPossessionModeSound)];
        } else {
          effects := effects + [SoundPlayed(ExitPossessionModeSound)];
        }
      }
    }

    /** `accepted` is the value the possessed controller's Possess returns. */
    method TakePossession(accepted: bool)
      modifies this
      ensures Snapshot() == PossessionTaken(old(Snapshot()), accepted)
    {
      effects := effects + [PossessRequested];
      if accepted {
        ChangePossessionMode(false);
        active := false;
      }
    }

    method ReleasePossession(respawnPos: Vector2, respawnFacingDirection: Vector2)
      modifies this
      ensures Snapshot() == Released(old(Snapshot()), flipSpawnedPlayer, respawnPos, respawnFacingDirection)
    {
      position := respawnPos;
      if respawnFacingDirection == Left {
        flipX := !flipSpawnedPlayer;
      } else if respawnFacingDirection == Right {
        flipX := flipSpawnedPlayer;
      }
      effects := effects + [CameraSwitched];
      active := true;
    }

    method OnPhysicsObjectCollisionEnter(otherTag: string, accepted: bool)
      modifies this
      ensures Snapshot() == Collided(old(Snapshot()), otherTag, accepted)
    {
      if inPossessionMode && otherTag == GameFlow.EnemyTag {
        TakePossession(accepted);
      }
    }
  }
}
