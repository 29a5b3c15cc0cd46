/**
 * The aiming corridor of target.py: two boundary points and the force to
 * deliver there. The three vectors are read-only after construction; only the
 * public `name` can be reassigned.
 */
module Targets {

  import opened Vectors
  import opened Wrappers

  /** `ShotTarget(point1, point2, force, name=None)`. */
  datatype ShotTarget = ShotTarget(point1: Vec, point2: Vec, force: Vec, name: Option<string> := None)

  /** Assigning `t.name`: the corridor and the force stay as they were. */
  function Renamed(t: ShotTarget, name: Option<string>): (r: ShotTarget)
    ensures r.point1 == t.point1 && r.point2 == t.point2 && r.force == t.force
    ensures r.name == name
  {
    t.(name := name)
  }

  /** `__repr__`: `ShotTarget(<p1>, <p2>, <force>)`, the number formatting left as a parameter. */
  function Repr(t: ShotTarget, showReal: real -> string): (r: string)
    ensures |r| > 12 && r[..11] == "ShotTarget(" && r[11] == '<' && r[|r| - 1] == ')'
    ensures var s1, s2, s3 := Show(t.point1, showReal), Show(t.point2, showReal), Show(t.force, showReal);
      && |r| == 16 + |s1| + |s2| + |s3|
      && r[11..11 + |s1|] == s1
      && r[11 + |s1|..13 + |s1|] == ", "
      && r[13 + |s1|..13 + |s1| + |s2|] == s2
      && r[13 + |s1| + |s2|..15 + |s1| + |s2|] == ", "
      && r[15 + |s1| + |s2|..|r| - 1] == s3
  {
    var s1, s2, s3 := Show(t.point1, showReal), Show(t.point2, showReal), Show(t.force, showReal);
    Layout(s1, s2, s3);
    "ShotTarget(" + s1 + ", " + s2 + ", " + s3 + ")"
  }

  /** Where the three printed vectors sit in the `repr` string. */
  lemma Layout(s1: string, s2: string, s3: string)
    ensures var r := "ShotTarget(" + s1 + ", " + s2 + ", " + s3 + ")";
      && |r| == 16 + |s1| + |s2| + |s3|
      && r[..11] == "ShotTarget("
      && r[11..11 + |s1|] == s1
      && r[11 + |s1|..13 + |s1|] == ", "
      && r[13 + |s1|..13 + |s1| + |s2|] == s2
      && r[13 + |s1| + |s2|..15 + |s1| + |s2|] == ", "
      && r[15 + |s1| + |s2|..|r| - 1] == s3
  {}

  /** `__str__`: `name or repr(self)`. */
  function Str(t: ShotTarget, showReal: real -> string): (r: string)
    ensures t.name.Some? && t.name.value != "" ==> r == t.name.value
    ensures t.name.None? || t.name.value == "" ==> r == Repr(t, showReal)
  {
    match t.name
    case Some(n) => if n != "" then n else Repr(t, showReal)
    case None => Repr(t, showReal)
  }
}
