/**
 * The pocket of pocket.py: a mouth position and two corner offsets, from which
 * the pocket derives the corridor a ball must cross and the force it must
 * carry there.
 */
module Pockets {

  import opened Vectors
  import opened Wrappers
  import opened Targets

  /** `Pocket.target` for the given fields. */
  function TargetOf(position: Vec, offset1: Vec, offset2: Vec, name: Option<string>): (t: ShotTarget)
    ensures t.point1 == Plus(position, offset1) && t.point2 == Plus(position, offset2)
    ensures t.force == Quotient(Negated(Plus(offset1, offset2)), 2.0)
    ensures t.name == name
  {
    var p1 := Plus(position, offset1);
    var p2 := Plus(position, offset2);
    ShotTarget(p1, p2, Minus(position, Quotient(Plus(p1, p2), 2.0)), name)
  }

  /** Moving a pocket by `d` moves both corridor points by `d` and keeps the force. */
  lemma TargetTranslates(position: Vec, d: Vec, offset1: Vec, offset2: Vec, name: Option<string>)
    ensures TargetOf(Plus(position, d), offset1, offset2, name).point1
            == Plus(TargetOf(position, offset1, offset2, name).point1, d)
    ensures TargetOf(Plus(position, d), offset1, offset2, name).point2
            == Plus(TargetOf(position, offset1, offset2, name).point2, d)
    ensures TargetOf(Plus(position, d), offset1, offset2, name).force
            == TargetOf(position, offset1, offset2, name).force
  {}

  /** The force points from the corridor's midpoint back to the mouth. */
  lemma ForceReachesMouth(position: Vec, offset1: Vec, offset2: Vec, name: Option<string>)
    ensures var t := TargetOf(position, offset1, offset2, name);
            Plus(Quotient(Plus(t.point1, t.point2), 2.0), t.force) == position
  {}

  /** A `Pocket` object; the renderer it keeps in step is not modelled. */
  class Pocket {
    var position: Vec
    var offset1: Vec
    var offset2: Vec
    var name: Option<string>

    /** `Pocket(position, offset1, offset2, name=None)`. */
    constructor (position: Vec, offset1: Vec, offset2: Vec, name: Option<string> := None)
      ensures this.position == position && this.offset1 == offset1 && this.offset2 == offset2
      ensures this.name == name
    {
      this.position := position;
      this.offset1 := offset1;
      this.offset2 := offset2;
      this.name := name;
    }

    /** The `position` setter. */
    method SetPosition(p: Vec)
      modifies this
      ensures position == p
      ensures offset1 == old(offset1) && offset2 == old(offset2) && name == old(name)
    {
      position := p;
    }

    /** The `offset1` setter. */
    method SetOffset1(o: Vec)
      modifies this
      ensures offset1 == o
      ensures position == old(position) && offset2 == old(offset2) && name == old(name)
    {
      offset1 := o;
    }

    /** The `offset2` setter. */
    method SetOffset2(o: Vec)
      modifies this
      ensures offset2 == o
      ensures position == old(position) && offset1 == old(offset1) && name == old(name)
    {
      offset2 := o;
    }

    /** The `target` property: reads the fields and changes none of them. */
    function Target(): (t: ShotTarget)
      reads this
      ensures t.point1 == Plus(position, offset1) && t.point2 == Plus(position, offset2)
      ensures t.force == Quotient(Negated(Plus(offset1, offset2)), 2.0)
      ensures t.name == name
    {
      TargetOf(position, offset1, offset2, name)
    }
  }
}
