/**
 * The player's input intent as Game keeps it in three booleans: rotate clockwise,
 * rotate counter-clockwise, keep firing bullets. Each input handler of Game is one
 * transition of this record.
 */
module Controls {

  /** Key codes Game compares `keyCode` against: those of 'A' and 'D'. */
  const CcwKey: int := 65
  const CwKey: int := 68

  /** The mouse button that fires bullets; every other button fires the laser. */
  const BulletButton: int := 0

  datatype Intent = Intent(cw: bool, ccw: bool, firingBullets: bool)

  /** The intent after a reset: nothing held. */
  const Idle: Intent := Intent(false, false, false)

  /** `handleKeyDown`: the key of a direction starts that rotation. */
  function KeyDown(c: Intent, keyCode: int): Intent {
    c.(cw := if keyCode == CwKey then true else c.cw,
       ccw := if keyCode == CcwKey then true else c.ccw)
  }

  /** `handleKeyUp`: the key of a direction stops that rotation. */
  function KeyUp(c: Intent, keyCode: int): Intent {
    c.(cw := if keyCode == CwKey then false else c.cw,
       ccw := if keyCode == CcwKey then false else c.ccw)
  }

  /** The firing part of `handleMouseDown`. */
  function MouseDown(c: Intent, button: int): Intent {
    if button == BulletButton then c.(firingBullets := true) else c
  }

  /** `handleMouseUp`. */
  function MouseUp(c: Intent, button: int): Intent {
    if button == BulletButton then c.(firingBullets := false) else c
  }

  /** JavaScript's conversion of a boolean to a number. */
  function Num(b: bool): int {
    if b then 1 else 0
  }

  /**
   * The sign of the gun's rotation in `step`, `ccw - cw`: counter-clockwise is
   * positive, and the two keys held together cancel.
   */
  function Rotation(c: Intent): (r: int)
    ensures -1 <= r <= 1
    ensures r == 0 <==> c.cw == c.ccw
    ensures r == 1 <==> c.ccw && !c.cw
    ensures r == -1 <==> c.cw && !c.ccw
  {
    Num(c.ccw) - Num(c.cw)
  }

  /** Pressing 'D' starts clockwise rotation, pressing 'A' counter-clockwise. */
  lemma KeyDownStartsRotation(c: Intent)
    ensures KeyDown(c, CwKey) == c.(cw := true)
    ensures KeyDown(c, CcwKey) == c.(ccw := true)
  {
  }

  /** Releasing 'D' stops clockwise rotation, releasing 'A' counter-clockwise. */
  lemma KeyUpStopsRotation(c: Intent)
    ensures KeyUp(c, CwKey) == c.(cw := false)
    ensures KeyUp(c, CcwKey) == c.(ccw := false)
  {
  }

  /** Any other key changes nothing, and no key touches the firing flag. */
  lemma OtherKeysIgnored(c: Intent, keyCode: int)
    ensures KeyDown(c, keyCode).firingBullets == c.firingBullets
    ensures KeyUp(c, keyCode).firingBullets == c.firingBullets
    ensures keyCode != CwKey && keyCode != CcwKey ==> KeyDown(c, keyCode) == c && KeyUp(c, keyCode) == c
  {
  }

  /** Press then release of a key or button leaves what a release alone would leave. */
  lemma ReleaseUndoesPress(c: Intent, code: int)
    ensures KeyUp(KeyDown(c, code), code) == KeyUp(c, code)
    ensures MouseUp(MouseDown(c, code), code) == MouseUp(c, code)
  {
  }

  /** Only the bullet button moves the firing flag, and mouse buttons never rotate. */
  lemma OnlyBulletButtonFires(c: Intent, button: int)
    ensures MouseDown(c, button).firingBullets == (button == BulletButton || c.firingBullets)
    ensures MouseUp(c, button).firingBullets == (button != BulletButton && c.firingBullets)
    ensures MouseDown(c, button).cw == c.cw && MouseDown(c, button).ccw == c.ccw
    ensures MouseUp(c, button).cw == c.cw && MouseUp(c, button).ccw == c.ccw
  {
  }

  /** Holding both direction keys does not turn the gun. */
  lemma BothKeysCancel(c: Intent)
    ensures Rotation(KeyDown(KeyDown(c, CwKey), CcwKey)) == 0
  {
  }
}
