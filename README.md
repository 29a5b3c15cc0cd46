# Pool shot planner: value types and ball bookkeeping

This project models the core of a pool-table shot planner in Dafny and proves properties of the model. The device behind the position feed sends the positions of the balls on the table, one frame at a time. The core has six parts:

- `Angle` (module `Angles`): a direction in radians that every constructor and operator brings back into [0, 2π). Angles are classified into four quadrants and the four overlapping hemispheres EAST, NORTH, WEST and SOUTH.
- `Vector2D` (module `Vectors`): a 2D vector over a mutable two-element list. It has value-returning arithmetic and in-place `+=`, `-=`, `*=` and `/=`.
- `ShotTarget` (module `Targets`): a corridor between two points, plus the force a ball must carry when it crosses the corridor.
- `Pocket` (module `Pockets`): a mouth position and two corner offsets. From these the pocket derives its `ShotTarget`.
- `Ball` and `BallGroup` (module `Balls`): numbered balls. `BallGroup.update` turns a flat frame `[x0, y0, x1, y1, ...]` into a list of balls. It rebuilds the list when the number of pairs changes. Otherwise it walks the list once. A ball whose point is now zero is removed from the list being walked, which makes the walk pass over the ball that slides into its place. Every other ball it looks at gets the new point as its offset.
- `Shot` (module `Shots`): an aim angle, an elevation and a force, serialised in that order.

Module `Wrappers` holds `Option`, which stands for Python's `None` next to a value.

How the Python maps to Dafny:

- Numbers are `real`. π is the constant 3.141592653589793.
- Python's float `%` takes the sign of its divisor. It is written out as `PyMod`.
- Objects whose fields the source assigns in place are classes: `Vector2D`, `Pocket`, `Ball`, `BallGroup` and `Shot`.
- Values the source never updates in place are datatypes: `Vec` and the outcome of a pass over the ball list. `ShotTarget` is one too: its three vectors have no setters, and reassigning its public `name` is modelled as `Renamed`, which returns a new value.
- `BallGroup` subclasses `list` in the source. Here that list is the field `balls: seq<Ball>`.

The same-size branch of `BallGroup.update` removes balls from the list it is iterating over. `Sweep` models that pass step by step, and `Refresh` is proved against it. `SweepExact` then states ball by ball what the pass does: a ball is removed exactly when its point is zero and the ball before it stayed.

In the code every quadrant lies in exactly two hemispheres, so `hemispheres` always yields two; `Angles.HemispheresOf` proves the length is 2.

## Model

| member | source | states |
|---|---|---|
| Angles.PyMod | angle.py:34 | Python's float `%`: with a positive divisor the remainder lies in [0, b), with a negative one in (b, 0]; a dividend already in [0, b) is returned unchanged; what the remainder takes away, `a - r`, is a whole number of divisors |
| Angles.Normalize | angle.py:34-37 | construction from a number always yields a value in [0, 2π) (the `Angle` type); a number already in range is kept |
| Angles.New | angle.py:26-37 | `Angle()` is 0, `Angle(a)` for an Angle `a` is `a` itself, and a number in [0, 2π) is kept |
| Angles.NewFromAngleAgrees | angle.py:32-37 | returning an existing Angle unchanged agrees with normalising its value |
| Angles.NormalizeShift | angle.py:34-36 | normalisation forgets any whole number of turns |
| Angles.WholeTurns | angle.py:34-36 | a normalised number differs from the number by a whole number of turns |
| Angles.NormalizePeriodic | angle.py:34-36 | `Angle(r + 2π) == Angle(r)` |
| Angles.NormalizeIdempotent | angle.py:32-37 | normalising an already normalised value is the identity |
| Angles.NormalizeSum | angle.py:34-36 | normalising an operand before adding does not change the normalised sum |
| Angles.NormalizeNegated | angle.py:66-67 | `Angle(-y) == -Angle(y)` for every number `y` |
| Angles.Ceil | angle.py:44 | `math.ceil`: the least integer not below `x` |
| Angles.QuadrantOf | angle.py:40-44 | the `ceil` convention in full: 0 gives FIRST, (0, π/2] SECOND, (π/2, π] THIRD, (π, 3π/2] FOURTH, and (3π/2, 2π) wraps to FIRST |
| Angles.Containing | angle.py:51-55 | the filtered generator yields at most as many hemispheres as it is offered |
| Angles.ContainingMembers | angle.py:51-55 | the generator yields exactly the offered hemispheres that hold the quadrant |
| Angles.HemispheresOf | angle.py:17-21 | every quadrant lies in exactly two of EAST, NORTH, WEST, SOUTH, and those are the ones yielded |
| Angles.ContainingCompass | angle.py:47-55 | for each quadrant, the exact list the generator yields, in the order EAST, NORTH, WEST, SOUTH |
| Angles.Hemispheres | angle.py:47-55 | `hemispheres` yields two hemispheres, exactly those that contain the angle's quadrant |
| Angles.HemispheresInCompassOrder | angle.py:47-55 | `hemispheres` per quadrant, in the order EAST, NORTH, WEST, SOUTH |
| Angles.Invert | angle.py:57-58 | `~a` lies in [-2π, 0) and normalises back to `a` |
| Angles.Abs | angle.py:60-61 | `abs(a)` is `min(a, 2π - a)`: it equals one of the two, is at most both, and lies in [0, π] |
| Angles.Pos | angle.py:63-64 | `+a == a` |
| Angles.Neg | angle.py:66-67 | `-0 == 0`, and otherwise `-a == 2π - a` |
| Angles.Add | angle.py:69-70 | `a + x` normalised; taking `x` away again gives `a` |
| Angles.RAdd | angle.py:72-73 | `x + a == a + x` |
| Angles.Sub | angle.py:75-76 | `a - x` normalised; adding `x` back gives `a` |
| Angles.RSub | angle.py:78-79 | `x - a` is the negation of `a - x` |
| Angles.Mul | angle.py:81-82 | `a * 1 == a`, `a * 0 == 0`, and `a * 2 == a + a`; the result differs from the raw `a * x` by a whole number of turns, which together with the range [0, 2π) fixes it |
| Angles.RMul | angle.py:84-85 | `x * a == a * x`; the result differs from the raw `x * a` by a whole number of turns, which together with the range [0, 2π) fixes it |
| Angles.Div | angle.py:87-88 | `a / 1 == a` and `a / -1 == -a`; the divisor must be non-zero; the result differs from the raw `a / x` by a whole number of turns, which together with the range [0, 2π) fixes it |
| Angles.RDiv | angle.py:90-91 | `0 / a == 0` and `a / a == 1`; `a` must be non-zero; the result differs from the raw `x / a` by a whole number of turns, which together with the range [0, 2π) fixes it |
| Angles.FloorDiv | angle.py:93-94 | `a // x` is 0 when `a < x` and 1 when `x <= a < 2x`; the result differs from the raw `floor(a / x)` by a whole number of turns, which together with the range [0, 2π) fixes it |
| Angles.RFloorDiv | angle.py:96-97 | `x // a` is 0 for `0 <= x < a` and 1 for `a <= x < 2a`; the result differs from the raw `floor(x / a)` by a whole number of turns, which together with the range [0, 2π) fixes it |
| Angles.Mod | angle.py:111-112 | `a % x` is `a` when `a < x`, and below `x` for a positive `x`; the result differs from Python's raw `a % x` by a whole number of turns, which together with the range [0, 2π) fixes it |
| Angles.RMod | angle.py:114-115 | `x % a` is below `a`, and is `x` for `0 <= x < a`; the result differs from Python's raw `x % a` by a whole number of turns, which together with the range [0, 2π) fixes it |
| Angles.AddSubRoundTrip | angle.py:69-76 | `(a + x) - x == a` |
| Angles.AddAccumulates | angle.py:69-70 | `(a + x) + y == a + (x + y)` |
| Angles.NegCancels | angle.py:66-70 | `-a + a == 0` |
| Angles.AbsOfNeg | angle.py:60-67 | `abs(-a) == abs(a)` |
| Angles.QuadrantIntended | angle.py:44 | the floor convention: [0, π/2) is FIRST, [π/2, π) SECOND, [π, 3π/2) THIRD, [3π/2, 2π) FOURTH |
| Angles.HemispheresIntendedAreHalfPlanes | angle.py:17-21 | with the floor convention, each hemisphere holds exactly the half-plane it is named after |
| Angles.QuadrantCeilRotates | angle.py:44-55 | π/4 gets quadrant SECOND and hemispheres NORTH and WEST as written, and EAST and NORTH with the floor convention |
| Vectors.Plus | vector2d.py:74-75 | `a + b`: taking away either operand leaves the other |
| Vectors.Scale | vector2d.py:90-91 | `a * s`: a non-zero factor divides out again, and a zero factor gives the zero vector |
| Vectors.Minus | vector2d.py:82-83 | `(a - b) + b == a` |
| Vectors.ScaleLeft | vector2d.py:98-99 | `s * a == a * s` |
| Vectors.Quotient | vector2d.py:101-102 | `(a / s) * s == a` for a non-zero `s` |
| Vectors.Reciprocal | vector2d.py:109-110 | each component of `s / a` times the matching component of `a` is `s` |
| Vectors.Negated | vector2d.py:118-119 | `a + (-a)` is the zero vector |
| Vectors.Positive | vector2d.py:121-122 | `+a` has the components of `a` |
| Vectors.NonZeroOf | vector2d.py:124-125 | `x or y` is zero exactly when both components are zero |
| Vectors.IsTruthy | vector2d.py:124-125 | `bool(v)`, as `if point:` uses it in ball.py:62 and ball.py:68, is false exactly for the zero vector |
| Vectors.MinusPlusRoundTrip | vector2d.py:74-83 | `(a + b) - b == a`: subtracting undoes adding |
| Vectors.NegatedTwice | vector2d.py:118-119 | `-(-a) == a` |
| Vectors.ScaleQuotientRoundTrip | vector2d.py:90-102 | `(a * s) / s == a` for a non-zero `s` |
| Vectors.PlusCommutes | vector2d.py:74-83 | `a + b == b + a`, and `a - b == a + (-b)` |
| Vectors.Show | vector2d.py:133-134 | `str(v)` is `<`, the printed `x`, `, `, the printed `y` and `>`, in that order and with nothing else |
| Vectors.Vector2D.constructor | vector2d.py:19-24 | `Vector2D(x=0, y=0)` holds `x` and `y` |
| Vectors.Vector2D.SetX | vector2d.py:36-38 | the `x` setter replaces the first component only |
| Vectors.Vector2D.SetY | vector2d.py:44-46 | the `y` setter replaces the second component only |
| Vectors.Vector2D.Pos | vector2d.py:121-122 | `+v` is a new vector with the same components |
| Vectors.Vector2D.Copy | vector2d.py:71-72 | `copy()` is a new vector equal to the original |
| Vectors.Vector2D.Add | vector2d.py:74-75 | `v + w` is a new vector holding the componentwise sum; neither operand changes |
| Vectors.Vector2D.Sub | vector2d.py:82-83 | `v - w` is a new vector holding the componentwise difference |
| Vectors.Vector2D.Mul | vector2d.py:90-91 | `v * s` is a new vector holding the scaled components |
| Vectors.Vector2D.RMul | vector2d.py:98-99 | `s * v` is a new vector holding the scaled components |
| Vectors.Vector2D.Div | vector2d.py:101-102 | `v / s` is a new vector; the scalar must be non-zero |
| Vectors.Vector2D.RDiv | vector2d.py:109-110 | `s / v` is a new vector; both components must be non-zero |
| Vectors.Vector2D.Neg | vector2d.py:118-119 | `-v` is a new vector holding the negated components |
| Vectors.Vector2D.AddInPlace | vector2d.py:77-80 | `v += w` sets `v` to the sum, returns `v` itself, and leaves `w` unchanged unless `w` is `v` |
| Vectors.Vector2D.SubInPlace | vector2d.py:85-88 | `v -= w` sets `v` to the difference, returns `v`, and leaves a distinct `w` unchanged |
| Vectors.Vector2D.MulInPlace | vector2d.py:93-96 | `v *= s` scales `v` in place and returns it |
| Vectors.Vector2D.DivInPlace | vector2d.py:104-107 | `v /= s` divides `v` in place and returns it; the scalar must be non-zero |
| Vectors.Vector2D.Equals | vector2d.py:112-113 | `==` holds exactly when both components agree |
| Vectors.Vector2D.NotEquals | vector2d.py:115-116 | `!=` is the negation of `==` |
| Vectors.Vector2D.NonZero | vector2d.py:124-125 | `__nonzero__` on the object's current value is zero exactly when that value is false |
| Vectors.CopyIsIndependent | vector2d.py:71-80 | updating a copy in place leaves the original unchanged |
| Vectors.AddToItself | vector2d.py:77-80 | `v += v` doubles `v`, because both components of the operand are read before each is overwritten |
| Targets.Renamed | target.py:16-27 | reassigning `name` keeps `point1`, `point2` and `force`, which have no setters |
| Targets.Repr | target.py:41-43 | `repr(t)` is `ShotTarget(`, the printed `point1`, `, `, the printed `point2`, `, `, the printed `force` and `)`, in that order and with nothing else |
| Targets.Str | target.py:45-46 | `str(t)` is the name when it is non-empty, and `repr(t)` otherwise |
| Pockets.TargetOf | pocket.py:54-59 | the corridor points are `position + offset1` and `position + offset2`, the force is `-(offset1 + offset2) / 2`, and the target carries the pocket's name |
| Pockets.TargetTranslates | pocket.py:54-59 | moving a pocket by `d` moves both corridor points by `d` and leaves the force unchanged |
| Pockets.ForceReachesMouth | pocket.py:59 | the corridor's midpoint plus the force is the pocket mouth |
| Pockets.Pocket.constructor | pocket.py:20-25 | the fields hold the arguments; `name` defaults to None |
| Pockets.Pocket.SetPosition | pocket.py:31-34 | the setter replaces `position` only |
| Pockets.Pocket.SetOffset1 | pocket.py:40-43 | the setter replaces `offset1` only |
| Pockets.Pocket.SetOffset2 | pocket.py:49-52 | the setter replaces `offset2` only |
| Pockets.Pocket.Target | pocket.py:54-59 | `target` reads the fields without changing them; its points and force are given by the offsets as above |
| Balls.Ball.constructor | ball.py:20-23 | a ball holds its number and position and has no offset yet |
| Balls.Ball.SetPosition | ball.py:33-36 | the setter replaces the position only |
| Balls.Ball.PossibleShots | ball.py:41-42 | exactly one new shot, with angle 0, elevation 0 and force 10 |
| Balls.Pairs | ball.py:57-58 | an even-length frame gives one point per pair, and pair `i` is `(data[2i], data[2i+1])` |
| Balls.PresentIndices | ball.py:61-63 | the numbers a rebuild creates for the first `n` pairs: at most `n` of them, each below `n` |
| Balls.PresentIndicesExact | ball.py:61-63 | the numbers a rebuild creates strictly increase, and are exactly the pair indices whose point is non-zero |
| Balls.RemovePreservesAscending | ball.py:71-72 | removing one ball keeps the others' numbers strictly increasing |
| Balls.Sweep | ball.py:66-72 | the same-size pass as Python runs it, step by step: the index advances after a removal as after a refresh; its properties are the lemmas below |
| Balls.SweepKeepsPrefix | ball.py:66-72 | a pass started at list index `i` never removes or moves the balls before `i` |
| Balls.SweepOnlyRemovesAbsent | ball.py:65-72 | the same-size pass never adds a ball, removes only balls whose point is zero, and attaches an offset only to balls that stay and whose point is non-zero |
| Balls.SweepKeepsOrder | ball.py:65-72 | the same-size pass keeps ball numbers strictly increasing |
| Balls.SweepSkipsSuccessor | ball.py:66-72 | balls 0 and 1 whose points are both zero: the pass removes ball 0 and leaves ball 1 in place, unexamined |
| Balls.Examine | ball.py:66-72 | the pass described ball by ball: from position `j` it keeps at most the remaining balls, and every ball it refreshes is kept |
| Balls.SweepFollowsExamine | ball.py:66-72 | the pass with its list mutation equals a walk that skips the ball following each removal |
| Balls.SweepIsExamine | ball.py:66-72 | from the start of the list, the pass and the skipping walk agree |
| Balls.ExamineWithin | ball.py:66-72 | the walk from a position keeps and refreshes only balls from that position on |
| Balls.ExamineExact | ball.py:66-72 | the walk ball by ball: a ball is removed iff it is looked at and its point is zero, and refreshed iff it is looked at and its point is present |
| Balls.SweepExact | ball.py:66-72 | a ball is removed iff its point is zero and the ball before it stayed; it gets an offset iff its point is present and the ball before it stayed |
| Balls.KeptIffPresent | ball.py:66-72 | when no two zero-point balls sit side by side, a ball stays exactly when its point is present |
| Balls.SweepAgreesWithPrune | ball.py:66-72 | in that case the pass keeps the same balls as the corrected filter |
| Balls.Prune | ball.py:65-72 | the corrected same-size result: exactly the listed balls whose point is present |
| Balls.PruneKeepsOrder | ball.py:65-72 | the corrected result keeps ball numbers strictly increasing |
| Balls.BallGroup.constructor | ball.py:52-54 | a new group is empty, with size 0 |
| Balls.BallGroup.Delete | ball.py:74-77 | `delete` leaves the group empty and the size unchanged |
| Balls.BallGroup.Update | ball.py:56-72 | `update` keeps ball numbers strictly increasing and below the size. A new pair count rebuilds the group: one new ball per non-zero pair, at that point, and the size becomes the pair count. The balls dropped by a rebuild keep their position and offset. The same pair count leaves the size unchanged and the list equal to the pass's result. No position changes, and exactly the balls the pass refreshes get their point as offset |
| Balls.BallGroup.Rebuild | ball.py:59-64 | the rebuild branch: the balls are new, numbered by the non-zero pairs in ascending order, and each sits at its point |
| Balls.BallGroup.Refresh | ball.py:65-72 | the same-size branch, loop by loop: the list becomes the pass's result; offsets are set for the refreshed balls, and no position changes |
| Balls.BallGroup.UpdateIntended | ball.py:56-72 | the corrected `update`: a new pair count rebuilds the group as `update` does, and the dropped balls keep their position and offset; in a same-size frame exactly the balls with a present point stay, each moves to its point, and no offset changes |
| Balls.BallGroup.RefreshIntended | ball.py:65-72 | the corrected same-size branch: the list becomes `Prune` of the old list, and present balls move to their points |
| Balls.MovePresent | ball.py:66-69 | each ball with a present point is moved to it; other balls and all offsets are unchanged |
| Balls.MovedBallKeepsStalePosition | ball.py:65-69 | a ball seen at (1, 2) and then at (3, 4) keeps position (1, 2) and gets offset (3, 4) |
| Balls.MovedBallFollows | ball.py:65-69 | under the corrected update the same ball ends at (3, 4) |
| Shots.Shot.constructor | shot.py:12-15 | the fields hold the arguments; angle, elevation and force default to 0 |
| Shots.Shot.SetAngle | shot.py:21-23 | the setter changes only the angle |
| Shots.Shot.SetElevation | shot.py:29-31 | the setter changes only the elevation |
| Shots.Shot.SetForce | shot.py:37-39 | the setter changes only the force |
| Shots.Shot.Rating | shot.py:41-43 | every shot is rated 0 |
| Shots.Shot.Serialize | shot.py:45-46 | `serialize()` is `(angle, elevation, force)` in that order |
| Shots.SerializeAfterSet | shot.py:45-46 | a default shot with its elevation set serialises to `(0, v, 0)` |

## Left out

- render.py, portmanager.py, main.py and rng.py are not part of this model. They hold drawing, device I/O, window wiring and random test data.
- The renderer that `Ball`, `Pocket` and their setters keep in step (ball.py:23, ball.py:36, pocket.py:24, pocket.py:34-52) is not modelled. `Ball.delete` and `Pocket.delete` only release it, so they have no counterpart.
- The trigonometric parts of `Vector2D` are not modelled: `from_polar`, `magnitude`, `direction` and `normalized` (vector2d.py:26-30, vector2d.py:48-69). They are floating-point trigonometry. vector2d.py:7 imports `positive_radians`, which angle.py does not define.
- `Vector2D.__iter__` and `Vector2D.__repr__` (vector2d.py:127-131) are not modelled; they only expose and format the components.
- `Angle.__divmod__`, `__rdivmod__`, `__pow__`, `__rpow__`, `__repr__` and `__str__` (angle.py:105-127) are not modelled. The first two pass a tuple to the constructor; the rest are powers and formatting.
- `Angle.__truediv__` and `__rtruediv__` (angle.py:99-103) are modelled by `Div` and `RDiv`: under true division they compute the same as `__div__` and `__rdiv__`.
- Angles.Normalize: the `radians < 0` adjustment (angle.py:35-36) is not modelled. Over exact reals `%` with a positive divisor never returns a negative number, so the branch cannot run. For IEEE floats the model does not capture `-1e-20 % 2π` rounding to 2π.
- Python's exceptions become preconditions. A zero divisor raises ZeroDivisionError in Python; here it is excluded by `requires` in `Angles.PyMod`, `Div`, `RDiv`, `FloorDiv`, `RFloorDiv`, `Mod`, `RMod`, `Vectors.Quotient`, `Vectors.Reciprocal` and the `Vector2D` division methods. An odd-length frame raises IndexError in Python; here `Balls.Pairs`, `BallGroup.Update` and `BallGroup.UpdateIntended` require an even length.
- IEEE float rounding and overflow are not modelled: all coordinates and angles are exact reals, and π is a fixed decimal.
- Vectors.NonZeroOf: the model reads `__nonzero__`'s value as the vector's truth value, so a vector is false exactly when both components are zero. Python 2 rejects a float returned from `__nonzero__` with a TypeError. Python 3 ignores `__nonzero__`, so every vector would be true there. The model follows the evident design instead.
- Targets.Renamed: assigning `t.name` changes the object in place, so every alias of `t` sees the new name. `Renamed` returns a new value, so aliasing of a `ShotTarget` is not modelled.
- The vectors that `Ball`, `Pocket` and `ShotTarget` hold are values (`Vec`), not shared `Vector2D` objects. Aliasing between a pocket's vectors and a caller's vectors is not modelled.
- Balls.BallGroup.Refresh: `self.remove(ball)` removes the first list element equal to the ball. It is modelled as removal at the current index. The two coincide because the numbers in the list are strictly increasing, so no ball appears twice.
- `Ball.get_possible_shots` ignores its arguments. `PossibleShots` takes them as opaque sequences.
- `Ball.__repr__` (ball.py:38-39) is not modelled; it only formats the number and position.
- The calls to `ball.delete()` in ball.py:71 and ball.py:75-76 only release renderers and are not modelled.

## Findings

| source | as written | input that shows it | evidently intended | confidence | as-written member | corrected member |
|---|---|---|---|---|---|---|
| angle.py:44 | `quadrant` is `ceil(a / (π/2)) % 4`, so (0, π/2] is quadrant 1 | `Angle(π/4)` (north-east) gets quadrant SECOND and hemispheres NORTH and WEST, not EAST | `floor`, so that each hemisphere is the half-plane it is named after | medium; not executed | Angles.QuadrantCeilRotates | Angles.HemispheresIntendedAreHalfPlanes |
| ball.py:66-72 | the loop removes balls from the list it iterates over | a group with balls 0 and 1 gets the same-size frame `[0, 0, 0, 0]`: ball 0 is removed, ball 1 is never examined and stays | every ball whose point is zero leaves the group | high; not executed | Balls.SweepSkipsSuccessor | Balls.BallGroup.UpdateIntended |
| ball.py:68-69 | a present point is stored as `ball.offset`, an attribute nothing reads | a ball seen at (1, 2) and then at (3, 4) in a same-size frame keeps position (1, 2) | `ball.position = point`, so that the ball follows the position feed | medium; not executed | Balls.MovedBallKeepsStalePosition | Balls.MovedBallFollows |
