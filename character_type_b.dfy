/** The movement decision of CharacterTypeBController: the target velocity from the
    horizontal axis, the grounded jump, the jump cut on release, and the sprite
    flip. The physics integrator that consumes these values is not modelled. */
module TypeBMovement {
  import opened Common

  /** How far the axis must lean before the sprite turns around. */
  const FlipDeadZone: real := 0.01

  /** The fields ComputeVelocity writes: the vertical velocity (of which only y is
      touched), the target velocity, the ground normal and the sprite's flipX. */
  datatype Body = Body(verticalVelocity: Vector2, targetVelocity: Vector2, groundNormal: Vector2, flipX: bool)

  /** The vertical speed after one decision: a grounded jump press sets the take-off
      speed; otherwise a jump release while still rising halves the speed; otherwise
      it is unchanged. At most one of the two applies. */
  function VerticalSpeedAfter(isGrounded: bool, jumpDown: bool, jumpUp: bool, vy: real, jumpTakeOffSpeed: real): (r: real)
    ensures isGrounded && jumpDown ==> r == jumpTakeOffSpeed
    ensures !(isGrounded && jumpDown) && jumpUp && vy > 0.0 ==> r == vy / 2.0
    ensures !(isGrounded && jumpDown) && !(jumpUp && vy > 0.0) ==> r == vy
    ensures !(isGrounded && jumpDown) ==> r <= vy
  {
    if isGrounded && jumpDown then jumpTakeOffSpeed
    else if jumpUp && vy > 0.0 then vy * 0.5
    else vy
  }

  /** The flip decision: turn around exactly when facing against the movement by
      more than the dead zone. */
  function ShouldFlip(flipX: bool, moveX: real): (r: bool)
    ensures r <==> (flipX && moveX > FlipDeadZone) || (!flipX && moveX < -FlipDeadZone)
    ensures -FlipDeadZone <= moveX <= FlipDeadZone ==> !r
  {
    if flipX then moveX > 0.01 else moveX < -0.01
  }

  /** ComputeVelocity as a whole. Outside the dead zone the sprite ends up facing the
      movement (flipX exactly when moving left); inside it keeps its orientation. */
  function Computed(b: Body, isGrounded: bool, moveX: real, jumpDown: bool, jumpUp: bool,
                    maxSpeed: real, jumpTakeOffSpeed: real): (r: Body)
    ensures r.targetVelocity == Vector2(moveX * maxSpeed, 0.0)
    ensures r.verticalVelocity == b.verticalVelocity.(y := VerticalSpeedAfter(isGrounded, jumpDown, jumpUp, b.verticalVelocity.y, jumpTakeOffSpeed))
    ensures isGrounded && jumpDown ==> r.groundNormal == Up
    ensures !(isGrounded && jumpDown) ==> r.groundNormal == b.groundNormal
    ensures r.flipX == (if ShouldFlip(b.flipX, moveX) then !b.flipX else b.flipX)
    ensures moveX > FlipDeadZone ==> !r.flipX
    ensures moveX < -FlipDeadZone ==> r.flipX
    ensures -FlipDeadZone <= moveX <= FlipDeadZone ==> r.flipX == b.flipX
  {
    var jumped := isGrounded && jumpDown;
    var vy := VerticalSpeedAfter(isGrounded, jumpDown, jumpUp, b.verticalVelocity.y, jumpTakeOffSpeed);
    Body(b.verticalVelocity.(y := vy),
         Vector2(moveX * maxSpeed, 0.0),
         if jumped then Up else b.groundNormal,
         if ShouldFlip(b.flipX, moveX) then !b.flipX else b.flipX)
  }

  /** One release never cuts the speed twice; two decisions on consecutive frames,
      each seeing a release while rising, cut it to a quarter. */
  lemma JumpCutPerDecision(b: Body, moveX: real, maxSpeed: real, jumpTakeOffSpeed: real)
    requires b.verticalVelocity.y > 0.0
    ensures var once := Computed(b, false, moveX, false, true, maxSpeed, jumpTakeOffSpeed);
            var twice := Computed(once, false, moveX, false, true, maxSpeed, jumpTakeOffSpeed);
            && once.verticalVelocity.y == b.verticalVelocity.y / 2.0
            && twice.verticalVelocity.y == b.verticalVelocity.y / 4.0
  {
  }

  /** A grounded press wins over a release seen in the same frame. */
  lemma GroundedJumpWinsOverRelease(b: Body, moveX: real, maxSpeed: real, jumpTakeOffSpeed: real)
    ensures Computed(b, true, moveX, true, true, maxSpeed, jumpTakeOffSpeed).verticalVelocity.y == jumpTakeOffSpeed
  {
  }

  class CharacterTypeBController {
    const maxSpeed: real
    const jumpTakeOffSpeed: real
    /** Whether the body is on the ground, as set by the physics base class. */
    var isGrounded: bool
    var verticalVelocity: Vector2
    var targetVelocity: Vector2
    var groundNormal: Vector2
    var flipX: bool

    function Snapshot(): Body
      reads this
    {
      Body(verticalVelocity, targetVelocity, groundNormal, flipX)
    }

    /** `maxSpeed` and `jumpTakeOffSpeed` are the serialized m_maxSpeed and
        m_jumpTakeOffSpeed (both 7 unless configured otherwise). */
    constructor (maxSpeed: real, jumpTakeOffSpeed: real, isGrounded: bool, initial: Body)
      ensures this.maxSpeed == maxSpeed && this.jumpTakeOffSpeed == jumpTakeOffSpeed
      ensures this.isGrounded == isGrounded && Snapshot() == initial
    {
      this.maxSpeed := maxSpeed;
      this.jumpTakeOffSpeed := jumpTakeOffSpeed;
      this.isGrounded := isGrounded;
      verticalVelocity := initial.verticalVelocity;
      targetVelocity := initial.targetVelocity;
      groundNormal := initial.groundNormal;
      flipX := initial.flipX;
    }

    /** ComputeVelocity; `moveX` is Input.GetAxis("Horizontal"), `jumpDown` and
        `jumpUp` the frame's jump button edges. */
    method ComputeVelocity(moveX: real, jumpDown: bool, jumpUp: bool)
      modifies this
      ensures Snapshot() == Computed(old(Snapshot()), isGrounded, moveX, jumpDown, jumpUp, maxSpeed, jumpTakeOffSpeed)
      ensures isGrounded == old(isGrounded)
    {
      var move := Vector2(0.0, 0.0);
      move := move.(x := moveX);
      if isGrounded && jumpDown {
        Jump();
      } else if jumpUp {
        if verticalVelocity.y > 0.0 {
          CancelJump();
        }
      }
      targetVelocity := Vector2(move.x * maxSpeed, move.y * maxSpeed);
      var flipSprite := if flipX then move.x > 0.01 else move.x < -0.01;
      if flipSprite {
        flipX := !flipX;
      }
    }

    method Jump()
      modifies this
      ensures verticalVelocity == old(verticalVelocity).(y := jumpTakeOffSpeed) && groundNormal == Up
      ensures targetVelocity == old(targetVelocity) && flipX == old(flipX) && isGrounded == old(isGrounded)
    {
      verticalVelocity := verticalVelocity.(y := jumpTakeOffSpeed);
      groundNormal := Vector2(0.0, 1.0);
    }

    method CancelJump()
      modifies this
      ensures verticalVelocity == old(verticalVelocity).(y := old(verticalVelocity.y) * 0.5)
      ensures targetVelocity == old(targetVelocity) && groundNormal == old(groundNormal)
      ensures flipX == old(flipX) && isGrounded == old(isGrounded)
    {
      verticalVelocity := verticalVelocity.(y := verticalVelocity.y * 0.5);
    }
  }
}
