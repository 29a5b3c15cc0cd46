/**
 * The balls of ball.py. A `Ball` carries its number on the table and its
 * position; a `BallGroup` is the list of balls currently seen, rebuilt or
 * refreshed from each frame of flat coordinates the device sends.
 */
module Balls {

  import opened Vectors
  import opened Wrappers
  import opened Shots

  /** `Ball.RADIUS`. */
  const Radius: real := 11.25

  /** A `Ball` object. The renderer it keeps in step is not modelled. */
  class Ball {
    const number: nat
    var position: Vec
    /** The attribute `BallGroup.update` attaches; a fresh ball has none. */
    var offset: Option<Vec>

    /** `Ball(number, position)`. */
    constructor (number: nat, position: Vec)
      ensures this.number == number && this.position == position && offset == None
    {
      this.number := number;
      this.position := position;
      offset := None;
    }

    /** The `position` setter. */
    method SetPosition(p: Vec)
      modifies this
      ensures position == p && offset == old(offset)
    {
      position := p;
    }

    /** `get_possible_shots`: a single fixed shot, whatever the table holds. */
    method PossibleShots(balls: seq<Ball>, pockets: seq<object>) returns (r: seq<Shot>)
      ensures |r| == 1 && fresh(r[0])
      ensures r[0].angle == 0.0 && r[0].elevation == 0.0 && r[0].force == 10.0
    {
      var s := new Shot(angle := 0.0, elevation := 0.0, force := 10.0);
      r := [s];
    }
  }

  /** The frame `[x0, y0, x1, y1, ...]` read as one point per ball number. */
  function Pairs(data: seq<real>): (r: seq<Vec>)
    requires |data| % 2 == 0
    ensures |r| * 2 == |data|
    ensures forall i :: 0 <= i < |r| ==> r[i] == Vec(data[2 * i], data[2 * i + 1])
  {
    seq(|data| / 2, i requires 0 <= i < |data| / 2 => Vec(data[2 * i], data[2 * i + 1]))
  }

  /** The ball numbers `0 <= i < n` whose point is not the zero vector, in order. */
  function PresentIndices(pairs: seq<Vec>, n: nat): (r: seq<nat>)
    requires n <= |pairs|
    ensures |r| <= n
    ensures forall k :: 0 <= k < |r| ==> r[k] < n
  {
    if n == 0 then []
    else PresentIndices(pairs, n - 1) + (if IsTruthy(pairs[n - 1]) then [n - 1] else [])
  }

  /** Strictly increasing numbers. */
  ghost predicate Increasing(s: seq<nat>) {
    forall j, k :: 0 <= j < k < |s| ==> s[j] < s[k]
  }

  /** `PresentIndices` lists exactly the present numbers below `n`, each once, in order. */
  lemma {:induction false} PresentIndicesExact(pairs: seq<Vec>, n: nat)
    requires n <= |pairs|
    ensures Increasing(PresentIndices(pairs, n))
    ensures forall i: int :: i in PresentIndices(pairs, n) <==> 0 <= i < n && IsTruthy(pairs[i])
  {
    if n > 0 {
      PresentIndicesExact(pairs, n - 1);
      var p := PresentIndices(pairs, n - 1);
      var r := PresentIndices(pairs, n);
      assert r == p + (if IsTruthy(pairs[n - 1]) then [n - 1] else []);
      forall j, k | 0 <= j < k < |r|
        ensures r[j] < r[k]
      {
        assert r[j] == p[j] && p[j] in p;
        if k >= |p| {
          assert r[k] == n - 1;
        }
      }
    }
  }

  /** The numbers of a list of balls, in list order. */
  function Numbers(balls: seq<Ball>): (r: seq<nat>)
    ensures |r| == |balls| && forall k :: 0 <= k < |balls| ==> r[k] == balls[k].number
  {
    seq(|balls|, k requires 0 <= k < |balls| => balls[k].number)
  }

  /** Every ball's number indexes the frame. */
  ghost predicate Numbered(list: seq<Ball>, n: nat) {
    forall b :: b in list ==> b.number < n
  }

  /** Ball numbers strictly increase along the list. */
  ghost predicate Ascending(list: seq<Ball>) {
    forall j, k :: 0 <= j < k < |list| ==> list[j].number < list[k].number
  }

  /** Removing one ball keeps the others in ascending order. */
  lemma RemovePreservesAscending(list: seq<Ball>, i: nat)
    requires Ascending(list) && i < |list|
    ensures Ascending(list[..i] + list[i + 1..])
  {
    var l := list[..i] + list[i + 1..];
    forall j, k | 0 <= j < k < |l|
      ensures l[j].number < l[k].number
    {
      var j' := if j < i then j else j + 1;
      var k' := if k < i then k else k + 1;
      assert l[j] == list[j'] && l[k] == list[k'];
    }
  }

  /** What one pass over a list yields: the balls left in it, and those whose offset was set. */
  datatype Outcome = Outcome(kept: seq<Ball>, refreshed: set<Ball>)

  /**
   * The same-size branch of `update` from list index `i` on, as Python runs it:
   * a ball with a present point is refreshed and the index advances; a ball
   * whose point is zero is removed from the list being iterated and the index
   * still advances, so the ball that slid into its place is not looked at.
   */
  function Sweep(list: seq<Ball>, i: nat, pairs: seq<Vec>): (r: Outcome)
    requires Numbered(list, |pairs|)
    decreases |list|, |list| - i
  {
    if i >= |list| then Outcome(list, {})
    else if IsTruthy(pairs[list[i].number]) then
      var o := Sweep(list, i + 1, pairs);
      Outcome(o.kept, o.refreshed + {list[i]})
    else
      Sweep(list[..i] + list[i + 1..], i + 1, pairs)
  }

  /** Removing the ball at `i` drops that ball and keeps every other. */
  lemma RemoveMembership(list: seq<Ball>, i: nat)
    requires i < |list|
    ensures forall b :: b in list[..i] + list[i + 1..] ==> b in list
    ensures forall b :: b in list && b != list[i] ==> b in list[..i] + list[i + 1..]
  {
    var l := list[..i] + list[i + 1..];
    forall b | b in list && b != list[i]
      ensures b in l
    {
      var m :| 0 <= m < |list| && list[m] == b;
      if m < i { assert l[m] == b; } else { assert l[m - 1] == b; }
    }
  }

  /**
   * A pass only removes balls, only removes balls whose point is zero, and
   * refreshes only balls that stay and whose point is present.
   */
  lemma {:induction false} SweepOnlyRemovesAbsent(list: seq<Ball>, i: nat, pairs: seq<Vec>)
    requires Numbered(list, |pairs|)
    ensures var o := Sweep(list, i, pairs);
      && |o.kept| <= |list|
      && (forall b :: b in o.kept ==> b in list)
      && (forall b :: b in list && b !in o.kept ==> !IsTruthy(pairs[b.number]))
      && (forall b :: b in o.refreshed ==> b in o.kept && IsTruthy(pairs[b.number]))
    decreases |list|, |list| - i
  {
    if i >= |list| {
    } else if IsTruthy(pairs[list[i].number]) {
      SweepOnlyRemovesAbsent(list, i + 1, pairs);
    } else {
      RemoveMembership(list, i);
      SweepOnlyRemovesAbsent(list[..i] + list[i + 1..], i + 1, pairs);
    }
  }

  /** A pass started at index `i` leaves the balls before `i` where they were. */
  lemma {:induction false} SweepKeepsPrefix(list: seq<Ball>, i: nat, pairs: seq<Vec>)
    requires Numbered(list, |pairs|)
    ensures var o := Sweep(list, i, pairs);
      forall k :: 0 <= k < i && k < |list| ==> k < |o.kept| && o.kept[k] == list[k]
    decreases |list|, |list| - i
  {
    if i >= |list| {
    } else if IsTruthy(pairs[list[i].number]) {
      SweepKeepsPrefix(list, i + 1, pairs);
    } else {
      var l := list[..i] + list[i + 1..];
      RemoveMembership(list, i);
      assert forall k :: 0 <= k < i ==> l[k] == list[k];
      assert Sweep(list, i, pairs) == Sweep(l, i + 1, pairs);
      SweepKeepsPrefix(l, i + 1, pairs);
    }
  }

  /** A pass keeps the survivors in ascending order. */
  lemma {:induction false} SweepKeepsOrder(list: seq<Ball>, i: nat, pairs: seq<Vec>)
    requires Numbered(list, |pairs|) && Ascending(list)
    ensures Ascending(Sweep(list, i, pairs).kept)
    decreases |list|, |list| - i
  {
    if i >= |list| {
    } else if IsTruthy(pairs[list[i].number]) {
      SweepKeepsOrder(list, i + 1, pairs);
    } else {
      RemoveMembership(list, i);
      RemovePreservesAscending(list, i);
      SweepKeepsOrder(list[..i] + list[i + 1..], i + 1, pairs);
    }
  }

  /** Two balls with both points zero side by side: the pass removes the first and never looks at the second. */
  lemma SweepSkipsSuccessor(b0: Ball, b1: Ball, pairs: seq<Vec>)
    requires b0.number == 0 && b1.number == 1 && |pairs| == 2
    requires pairs[0] == Zero && pairs[1] == Zero
    ensures Sweep([b0, b1], 0, pairs) == Outcome([b1], {})
  {
    assert [b0, b1][..0] + [b0, b1][1..] == [b1];
  }

  /**
   * The pass over `list[j..]` described ball by ball: a ball is looked at
   * unless its predecessor was just removed (`skip`); a ball looked at is
   * refreshed when its point is present and removed otherwise.
   */
  function Examine(list: seq<Ball>, j: nat, skip: bool, pairs: seq<Vec>): (r: Outcome)
    requires Numbered(list, |pairs|)
    ensures j <= |list| ==> |r.kept| <= |list| - j
    ensures forall b :: b in r.refreshed ==> b in r.kept
    decreases |list| - j
  {
    if j >= |list| then Outcome([], {})
    else if skip then
      var e := Examine(list, j + 1, false, pairs);
      Outcome([list[j]] + e.kept, e.refreshed)
    else if IsTruthy(pairs[list[j].number]) then
      var e := Examine(list, j + 1, false, pairs);
      Outcome([list[j]] + e.kept, e.refreshed + {list[j]})
    else
      Examine(list, j + 1, true, pairs)
  }

  /** `Sweep` from a point where `out` has been kept and `list[j..]` remains is `Examine` from `j`. */
  lemma {:induction false} SweepFollowsExamine(out: seq<Ball>, list: seq<Ball>, j: nat, skip: bool, pairs: seq<Vec>)
    requires j <= |list| && Numbered(list, |pairs|) && Numbered(out, |pairs|)
    ensures Numbered(out + list[j..], |pairs|)
    ensures var e := Examine(list, j, skip, pairs);
      Sweep(out + list[j..], |out| + (if skip then 1 else 0), pairs) == Outcome(out + e.kept, e.refreshed)
    decreases |list| - j
  {
    var l := out + list[j..];
    assert forall b :: b in l ==> b in out || b in list;
    if j == |list| {
      assert l == out;
    } else if skip || IsTruthy(pairs[list[j].number]) {
      var out' := out + [list[j]];
      assert l == out' + list[j + 1..];
      SweepFollowsExamine(out', list, j + 1, false, pairs);
      var e := Examine(list, j + 1, false, pairs);
      assert out' + e.kept == out + ([list[j]] + e.kept);
    } else {
      assert l[..|out|] + l[|out| + 1..] == out + list[j + 1..];
      SweepFollowsExamine(out, list, j + 1, true, pairs);
    }
  }

  /**
   * Whether the pass, started at `j` (just after a removal when `skip`), looks
   * at the ball at `k`: it does unless the ball before it was removed.
   */
  ghost predicate LooksAt(list: seq<Ball>, j: nat, skip: bool, k: int, kept: seq<Ball>)
    requires j <= k < |list|
  {
    (k == j && !skip) || (k > j && list[k - 1] in kept)
  }

  /** `Examine` from `j` only keeps or refreshes balls from `j` on. */
  lemma {:induction false} ExamineWithin(list: seq<Ball>, j: nat, skip: bool, pairs: seq<Vec>)
    requires j <= |list| && Numbered(list, |pairs|) && Ascending(list)
    ensures var e := Examine(list, j, skip, pairs);
      && (forall b :: b in e.kept ==> b in list && list[j].number <= b.number)
      && (forall b :: b in e.refreshed ==> b in list && list[j].number <= b.number)
    decreases |list| - j
  {
    if j < |list| {
      var skip' := !skip && !IsTruthy(pairs[list[j].number]);
      ExamineWithin(list, j + 1, skip', pairs);
      if j + 1 < |list| {
        assert list[j].number < list[j + 1].number;
      }
    }
  }

  /** `Examine` ball by ball: which balls it removes and which it refreshes. */
  lemma {:induction false} ExamineExact(list: seq<Ball>, j: nat, skip: bool, pairs: seq<Vec>)
    requires j <= |list| && Numbered(list, |pairs|) && Ascending(list)
    ensures var e := Examine(list, j, skip, pairs);
      forall k :: j <= k < |list| ==>
        && (list[k] !in e.kept <==> !IsTruthy(pairs[list[k].number]) && LooksAt(list, j, skip, k, e.kept))
        && (list[k] in e.refreshed <==> IsTruthy(pairs[list[k].number]) && LooksAt(list, j, skip, k, e.kept))
    decreases |list| - j
  {
    if j < |list| {
      var x := list[j];
      var truthy := IsTruthy(pairs[x.number]);
      var skip' := !skip && !truthy;
      ExamineExact(list, j + 1, skip', pairs);
      ExamineWithin(list, j + 1, skip', pairs);
      var e' := Examine(list, j + 1, skip', pairs);
      var e := Examine(list, j, skip, pairs);
      if j + 1 < |list| {
        assert x.number < list[j + 1].number;
      }
      assert x !in e'.kept && x !in e'.refreshed;
      if skip' {
        assert e == e';
      } else {
        assert e.kept == [x] + e'.kept;
        assert e.refreshed == e'.refreshed + (if skip then {} else {x});
      }
      assert x in e.kept <==> !skip';
      forall k | j < k < |list|
        ensures list[k] != x && (list[k] in e.kept <==> list[k] in e'.kept)
        ensures list[k] in e.refreshed <==> list[k] in e'.refreshed
      {
        assert x.number < list[k].number;
      }
      forall k | j <= k < |list|
        ensures list[k] !in e.kept <==> !IsTruthy(pairs[list[k].number]) && LooksAt(list, j, skip, k, e.kept)
        ensures list[k] in e.refreshed <==> IsTruthy(pairs[list[k].number]) && LooksAt(list, j, skip, k, e.kept)
      {
        if k > j {
          assert LooksAt(list, j + 1, skip', k, e'.kept) <==> LooksAt(list, j, skip, k, e.kept);
        }
      }
    }
  }

  /** The ball before position `k`, if any, is still in `kept`. */
  ghost predicate PredecessorStayed(list: seq<Ball>, k: int, kept: seq<Ball>)
    requires 0 <= k < |list|
  {
    k == 0 || list[k - 1] in kept
  }

  /**
   * The same-size pass exactly: a ball is removed iff its point is zero and
   * the ball before it stayed; it is refreshed iff its point is present and
   * the ball before it stayed. After a removal the next ball is left untouched.
   */
  lemma SweepExact(list: seq<Ball>, pairs: seq<Vec>)
    requires Numbered(list, |pairs|) && Ascending(list)
    ensures var o := Sweep(list, 0, pairs);
      forall k :: 0 <= k < |list| ==>
        && (list[k] !in o.kept <==> !IsTruthy(pairs[list[k].number]) && PredecessorStayed(list, k, o.kept))
        && (list[k] in o.refreshed <==> IsTruthy(pairs[list[k].number]) && PredecessorStayed(list, k, o.kept))
  {
    SweepIsExamine(list, pairs);
    ExamineExact(list, 0, false, pairs);
    var o := Sweep(list, 0, pairs);
    forall k | 0 <= k < |list|
      ensures LooksAt(list, 0, false, k, o.kept) == PredecessorStayed(list, k, o.kept)
    {}
  }

  /** From the start of the list, `Sweep` and `Examine` agree. */
  lemma SweepIsExamine(list: seq<Ball>, pairs: seq<Vec>)
    requires Numbered(list, |pairs|)
    ensures Sweep(list, 0, pairs) == Examine(list, 0, false, pairs)
  {
    SweepFollowsExamine([], list, 0, false, pairs);
    assert [] + list[0..] == list;
  }

  /** The balls whose point is present, in list order: what the same-size pass should keep. */
  function Prune(list: seq<Ball>, pairs: seq<Vec>): (r: seq<Ball>)
    requires Numbered(list, |pairs|)
    ensures forall b :: b in r ==> b in list && IsTruthy(pairs[b.number])
    ensures forall b :: b in list && IsTruthy(pairs[b.number]) ==> b in r
  {
    if |list| == 0 then []
    else
      var last := list[|list| - 1];
      var init := list[..|list| - 1];
      assert forall b :: b in list ==> b in init || b == last;
      assert forall b :: b in init ==> b in list;
      Prune(init, pairs) + (if IsTruthy(pairs[last.number]) then [last] else [])
  }

  /** Pruning keeps the survivors in their order. */
  lemma {:induction false} PruneKeepsOrder(list: seq<Ball>, pairs: seq<Vec>)
    requires Numbered(list, |pairs|) && Ascending(list)
    ensures Ascending(Prune(list, pairs))
  {
    if |list| > 0 {
      var last := list[|list| - 1];
      var init := list[..|list| - 1];
      assert forall b :: b in init ==> b in list;
      PruneKeepsOrder(init, pairs);
      var p := Prune(init, pairs);
      forall j | 0 <= j < |p|
        ensures p[j].number < last.number
      {
        assert p[j] in init;
      }
    }
  }

  /** No two balls with a zero point sit side by side. */
  ghost predicate NoAdjacentAbsent(list: seq<Ball>, pairs: seq<Vec>)
    requires Numbered(list, |pairs|)
  {
    forall k :: 0 < k < |list| && !IsTruthy(pairs[list[k].number]) ==> IsTruthy(pairs[list[k - 1].number])
  }

  /** Without two absent balls side by side, the pass removes a ball exactly when its point is zero. */
  lemma KeptIffPresent(list: seq<Ball>, pairs: seq<Vec>)
    requires Numbered(list, |pairs|) && Ascending(list) && NoAdjacentAbsent(list, pairs)
    ensures forall k :: 0 <= k < |list| ==> (list[k] in Sweep(list, 0, pairs).kept <==> IsTruthy(pairs[list[k].number]))
  {
    var o := Sweep(list, 0, pairs);
    SweepExact(list, pairs);
    forall k | 0 <= k < |list|
      ensures list[k] in o.kept <==> IsTruthy(pairs[list[k].number])
    {
      if k > 0 && !IsTruthy(pairs[list[k].number]) {
        assert IsTruthy(pairs[list[k - 1].number]);
        assert list[k - 1] in o.kept;
        assert PredecessorStayed(list, k, o.kept);
      }
    }
  }

  /** When no two balls with a zero point sit side by side, the pass keeps exactly the present balls. */
  lemma SweepAgreesWithPrune(list: seq<Ball>, pairs: seq<Vec>)
    requires Numbered(list, |pairs|) && Ascending(list) && NoAdjacentAbsent(list, pairs)
    ensures forall b :: b in Sweep(list, 0, pairs).kept <==> b in Prune(list, pairs)
  {
    var kept := Sweep(list, 0, pairs).kept;
    SweepOnlyRemovesAbsent(list, 0, pairs);
    KeptIffPresent(list, pairs);
    forall b | b in kept || b in Prune(list, pairs)
      ensures b in kept <==> b in Prune(list, pairs)
    {
      assert b in list;
      var k :| 0 <= k < |list| && list[k] == b;
    }
  }

  /**
   * The group of balls seen on the table. `balls` is the list the source
   * class inherits from, `size` the frame length it was last rebuilt for.
   */
  class BallGroup {
    var balls: seq<Ball>
    var size: nat

    ghost predicate Valid()
      reads this
    {
      Ascending(balls) && Numbered(balls, size)
    }

    /** `BallGroup()`: empty, for frames of no balls. */
    constructor ()
      ensures Valid() && balls == [] && size == 0
    {
      balls := [];
      size := 0;
    }

    /** `delete()`: empties the list; the frame size is kept. */
    method Delete()
      modifies this
      ensures Valid() && balls == [] && size == old(size)
    {
      balls := [];
    }

    /**
     * `update(data)`. A frame of a different size rebuilds the group: one new
     * ball per present point, at that point. A frame of the same size walks
     * the list as `Sweep` does: present balls get the point as their offset
     * (their position stays), absent ones are dropped.
     */
    method Update(data: seq<real>)
      requires Valid() && |data| % 2 == 0
      modifies this, balls
      ensures Valid()
      ensures |Pairs(data)| != old(size) ==>
        && size == |Pairs(data)|
        && Numbers(balls) == PresentIndices(Pairs(data), |Pairs(data)|)
        && (forall b :: b in balls ==> fresh(b) && b.position == Pairs(data)[b.number] && b.offset == None)
        && forall b :: b in old(balls) ==> b.position == old(b.position) && b.offset == old(b.offset)
      ensures |Pairs(data)| == old(size) ==>
        && size == old(size)
        && balls == Sweep(old(balls), 0, Pairs(data)).kept
        && forall b :: b in old(balls) ==>
             && b.position == old(b.position)
             && b.offset == (if b in Sweep(old(balls), 0, Pairs(data)).refreshed
                             then Some(Pairs(data)[b.number]) else old(b.offset))
    {
      var pairs := Pairs(data);
      if |pairs| != size {
        Rebuild(pairs);
      } else {
        Refresh(pairs);
      }
    }

    /** The different-size branch of `update`: drop every ball and add one per present point. */
    method Rebuild(pairs: seq<Vec>)
      modifies this
      ensures Valid() && size == |pairs|
      ensures Numbers(balls) == PresentIndices(pairs, |pairs|)
      ensures forall b :: b in balls ==> fresh(b) && b.position == pairs[b.number] && b.offset == None
    {
      Delete();
      var index := 0;
      while index < |pairs|
        invariant index <= |pairs|
        invariant Numbers(balls) == PresentIndices(pairs, index)
        invariant Ascending(balls) && Numbered(balls, index)
        invariant forall b :: b in balls ==> fresh(b) && b.position == pairs[b.number] && b.offset == None
      {
        if IsTruthy(pairs[index]) {
          var ball := new Ball(index, pairs[index]);
          balls := balls + [ball];
        }
        index := index + 1;
      }
      size := |pairs|;
    }

    /** The same-size branch of `update`: walk the list, refreshing or removing each ball met. */
    method Refresh(pairs: seq<Vec>)
      requires Valid() && size == |pairs|
      modifies this, balls
      ensures Valid() && size == old(size)
      ensures balls == Sweep(old(balls), 0, pairs).kept
      ensures forall b :: b in old(balls) ==>
        && b.position == old(b.position)
        && b.offset == (if b in Sweep(old(balls), 0, pairs).refreshed then Some(pairs[b.number]) else old(b.offset))
    {
      ghost var refreshed: set<Ball> := {};
      var i := 0;
      while i < |balls|
        invariant size == old(size) == |pairs|
        invariant Ascending(balls) && Numbered(balls, size)
        invariant forall b :: b in balls ==> b in old(balls)
        invariant Sweep(balls, i, pairs).kept == Sweep(old(balls), 0, pairs).kept
        invariant refreshed + Sweep(balls, i, pairs).refreshed == Sweep(old(balls), 0, pairs).refreshed
        invariant forall b :: b in old(balls) ==>
          && b.position == old(b.position)
          && b.offset == (if b in refreshed then Some(pairs[b.number]) else old(b.offset))
        decreases |balls|, |balls| - i
      {
        var ball := balls[i];
        var point := pairs[ball.number];
        if IsTruthy(point) {
          ball.offset := Some(point);
          refreshed := refreshed + {ball};
        } else {
          RemovePreservesAscending(balls, i);
          balls := balls[..i] + balls[i + 1..];
        }
        i := i + 1;
      }
      assert Sweep(balls, i, pairs) == Outcome(balls, {});
    }

    /**
     * `update` as evidently intended: a ball whose point is zero leaves the
     * group without any other ball being passed over, and a present point
     * becomes the ball's position.
     */
    method UpdateIntended(data: seq<real>)
      requires Valid() && |data| % 2 == 0
      modifies this, balls
      ensures Valid()
      ensures |Pairs(data)| != old(size) ==>
        && size == |Pairs(data)|
        && Numbers(balls) == PresentIndices(Pairs(data), |Pairs(data)|)
        && (forall b :: b in balls ==> fresh(b) && b.position == Pairs(data)[b.number] && b.offset == None)
        && forall b :: b in old(balls) ==> b.position == old(b.position) && b.offset == old(b.offset)
      ensures |Pairs(data)| == old(size) ==>
        && size == old(size)
        && balls == Prune(old(balls), Pairs(data))
        && forall b :: b in old(balls) ==>
             && b.offset == old(b.offset)
             && b.position == (if IsTruthy(Pairs(data)[b.number]) then Pairs(data)[b.number] else old(b.position))
    {
      var pairs := Pairs(data);
      if |pairs| != size {
        Rebuild(pairs);
      } else {
        RefreshIntended(pairs);
      }
    }

    /** The corrected same-size branch: keep the present balls, each moved to its point. */
    method RefreshIntended(pairs: seq<Vec>)
      requires Valid() && size == |pairs|
      modifies this, balls
      ensures Valid() && size == old(size)
      ensures balls == Prune(old(balls), pairs)
      ensures forall b :: b in old(balls) ==>
        && b.offset == old(b.offset)
        && b.position == (if IsTruthy(pairs[b.number]) then pairs[b.number] else old(b.position))
    {
      var list := balls;
      MovePresent(list, pairs);
      PruneKeepsOrder(list, pairs);
      balls := Prune(list, pairs);
      forall b | b in list
        ensures b.offset == old(b.offset)
        ensures b.position == (if IsTruthy(pairs[b.number]) then pairs[b.number] else old(b.position))
      {
        var k :| 0 <= k < |list| && list[k] == b;
      }
    }
  }

  /** The loop of the corrected same-size branch: move each present ball to its point. */
  method MovePresent(list: seq<Ball>, pairs: seq<Vec>)
    requires Ascending(list) && Numbered(list, |pairs|)
    modifies set b | b in list
    ensures forall k :: 0 <= k < |list| ==>
      && list[k].offset == old(list[k].offset)
      && list[k].position == (if IsTruthy(pairs[list[k].number]) then pairs[list[k].number] else old(list[k].position))
  {
    var i := 0;
    while i < |list|
      invariant i <= |list|
      invariant forall k :: 0 <= k < |list| ==>
        && list[k].offset == old(list[k].offset)
        && list[k].position == (if k < i && IsTruthy(pairs[list[k].number]) then pairs[list[k].number] else old(list[k].position))
    {
      var ball := list[i];
      var point := pairs[ball.number];
      if IsTruthy(point) {
        assert forall k :: 0 <= k < |list| && k != i ==> list[k] != ball;
        ball.position := point;
      }
      i := i + 1;
    }
  }

  /**
   * A ball seen at (1, 2) and then at (3, 4) in a frame of the same size:
   * `update` records the new point as the ball's offset, and its position stays.
   */
  method MovedBallKeepsStalePosition() returns (g: BallGroup)
    ensures fresh(g) && g.Valid() && |g.balls| == 1
    ensures g.balls[0].position == Vec(1.0, 2.0) && g.balls[0].offset == Some(Vec(3.0, 4.0))
  {
    g := new BallGroup();
    g.Update([1.0, 2.0]);
    assert Pairs([1.0, 2.0]) == [Vec(1.0, 2.0)];
    ghost var b := g.balls[0];
    g.Update([3.0, 4.0]);
    assert Pairs([3.0, 4.0]) == [Vec(3.0, 4.0)];
    assert Sweep([b], 1, [Vec(3.0, 4.0)]) == Outcome([b], {});
  }

  /** The same two frames through the corrected update: the ball follows its point. */
  method MovedBallFollows() returns (g: BallGroup)
    ensures fresh(g) && g.Valid() && |g.balls| == 1
    ensures g.balls[0].position == Vec(3.0, 4.0) && g.balls[0].offset == None
  {
    g := new BallGroup();
    g.UpdateIntended([1.0, 2.0]);
    assert Pairs([1.0, 2.0]) == [Vec(1.0, 2.0)];
    ghost var b := g.balls[0];
    g.UpdateIntended([3.0, 4.0]);
    assert Pairs([3.0, 4.0]) == [Vec(3.0, 4.0)];
    assert [b][..0] == [];
  }
}
