/** The per-tick input record of the newer controller revision (the `Inputs` struct
    that PlayerController, the bouncing form and the GameManager share) and a snapshot
    of the device readings a tick polls. */
module InputFrame {

  datatype Inputs = Inputs(
    vertical: real,
    horizontal: real,
    jump: bool,
    releaseJump: bool,
    dash: bool,
    releaseDash: bool,
    possess: bool,
    releasePower: bool,
    displayInfo: bool)

  /** `new Inputs()`: every axis zero and every edge false. Used as the
      "no control" record. */
  const NoControlInputs: Inputs := Inputs(0.0, 0.0, false, false, false, false, false, false, false)

  /** What `Input.GetAxisRaw`, `Input.GetButtonDown` and `Input.GetButtonUp`
      report during one frame. */
  datatype Device = Device(
    verticalAxisRaw: real,
    horizontalAxisRaw: real,
    jumpDown: bool,
    jumpUp: bool,
    dashDown: bool,
    dashUp: bool,
    possessDown: bool,
    powerUp: bool,
    displayInfoDown: bool)
}
