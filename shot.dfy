/** The shot record of shot.py: aim angle, elevation and force, as sent to the device. */
module Shots {

  /** A `Shot` object. */
  class Shot {
    var angle: real
    var elevation: real
    var force: real

    /** `Shot(angle=0, elevation=0, force=0)`. */
    constructor (angle: real := 0.0, elevation: real := 0.0, force: real := 0.0)
      ensures this.angle == angle && this.elevation == elevation && this.force == force
    {
      this.angle := angle;
      this.elevation := elevation;
      this.force := force;
    }

    /** The `angle` setter. */
    method SetAngle(v: real)
      modifies this
      ensures angle == v && elevation == old(elevation) && force == old(force)
    {
      angle := v;
    }

    /** The `elevation` setter. */
    method SetElevation(v: real)
      modifies this
      ensures elevation == v && angle == old(angle) && force == old(force)
    {
      elevation := v;
    }

    /** The `force` setter. */
    method SetForce(v: real)
      modifies this
      ensures force == v && angle == old(angle) && elevation == old(elevation)
    {
      force := v;
    }

    /** `rating`: every shot is rated 0. */
    function Rating(): (r: int)
      ensures r == 0
    {
      0
    }

    /** `serialize()`: the triple sent to the device, angle first. */
    function Serialize(): (r: (real, real, real))
      reads this
      ensures r.0 == angle && r.1 == elevation && r.2 == force
    {
      (angle, elevation, force)
    }
  }

  /** A default shot serialises to three zeros; setting one field changes only its slot. */
  method SerializeAfterSet(v: real) returns (s: Shot)
    ensures fresh(s)
    ensures s.Serialize() == (0.0, v, 0.0)
  {
    s := new Shot();
    s.SetElevation(v);
  }
}
