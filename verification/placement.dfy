/** Board generation: the rejection test for spawn points and the level
    set-up that scatters five flowers and a level-dependent number of rocks.

    The game draws spawn points from `Math.random()` in retry loops with no
    bound. Here the random numbers are a finite supply `Draws`, consumed in
    the order the game draws them; a retry loop takes candidates from the
    supply until one passes, and the result is `None` if the supply runs out
    first.
 */
module Placement {
  import opened Options
  import opened Geometry
  import opened Entities

  const FlowerCount: int := 5
  const BaseObstacleCount: int := 3

  /** Anything the rejection test can be asked about: a centre and a size. */
  datatype Item = Item(x: real, y: real, size: real)

  /** The candidate centre (x, y) of an entity of `size` is closer to some
      item than the sum of the two half-sizes. Scans the items in order and
      stops at the first hit. */
  function IsOverlapping(x: real, y: real, size: real, items: seq<Item>): (r: bool)
    ensures r <==> exists i :: 0 <= i < |items| && Within(x, y, items[i].x, items[i].y, size / 2.0 + items[i].size / 2.0)
    ensures items == [] ==> !r
    decreases |items|
  {
    if |items| == 0 then false
    else
      var it := items[0];
      if Within(x, y, it.x, it.y, size / 2.0 + it.size / 2.0) then true
      else
        var r := IsOverlapping(x, y, size, items[1..]);
        assert forall i :: 1 <= i < |items| ==> items[i] == items[1..][i - 1];
        r
  }

  function FlowerItems(flowers: seq<Flower>): (r: seq<Item>)
    ensures |r| == |flowers|
    ensures forall i :: 0 <= i < |r| ==> r[i] == Item(flowers[i].x, flowers[i].y, FlowerSize)
  {
    seq(|flowers|, i requires 0 <= i < |flowers| => Item(flowers[i].x, flowers[i].y, FlowerSize))
  }

  function ObstacleItems(obstacles: seq<Obstacle>): (r: seq<Item>)
    ensures |r| == |obstacles|
    ensures forall i :: 0 <= i < |r| ==> r[i] == Item(obstacles[i].x, obstacles[i].y, ObstacleSize)
  {
    seq(|obstacles|, i requires 0 <= i < |obstacles| => Item(obstacles[i].x, obstacles[i].y, ObstacleSize))
  }

  /** The ladybug as seen by the rejection test: its centre and its width. */
  function LadybugItem(b: Ladybug): Item
  {
    Item(b.x, b.y, LadybugSize)
  }

  /** A supply of `Math.random()` results, first draw first. */
  type Draws = seq<real>

  /** Every draw lies in [0, 1), as `Math.random()` promises. */
  predicate UnitDraws(ds: Draws)
  {
    forall i :: 0 <= i < |ds| ==> 0.0 <= ds[i] < 1.0
  }

  /** A spawn coordinate from a draw `u`: `u * (extent - margin) + margin`. */
  function Scale(u: real, extent: real, margin: real): (v: real)
    ensures 0.0 <= u < 1.0 && margin <= extent ==> margin <= v <= extent
  {
    ScaleStaysInRange(u, extent - margin);
    Stretch(u, extent - margin) + margin
  }

  /** The draw `u` scaled to `span`. The product is given a name so that
      the solver treats it as one term instead of mixing it into other
      products. */
  function Stretch(u: real, span: real): (v: real)
  {
    u * span
  }

  /** A draw in [0, 1) scales a non-negative span to at most that span. */
  lemma ScaleStaysInRange(u: real, span: real)
    ensures 0.0 <= u < 1.0 && 0.0 <= span ==> 0.0 <= Stretch(u, span) <= span
  {
    if 0.0 <= u < 1.0 && 0.0 <= span {
      ProductNonNegative(u, span);
      ProductNonNegative(1.0 - u, span);
      assert (1.0 - u) * span == span - u * span;
    }
  }

  lemma ProductNonNegative(a: real, b: real)
    requires 0.0 <= a && 0.0 <= b
    ensures 0.0 <= a * b
  {
  }

  /** A rock velocity component from a draw `u`: `u * 2 - 1`. */
  function Velocity(u: real): (v: real)
    ensures 0.0 <= u < 1.0 ==> -1.0 <= v < 1.0
  {
    u * 2.0 - 1.0
  }

  /** The centre lies in [margin, width] x [margin, height]. */
  predicate InArea(x: real, y: real, margin: real, width: real, height: real)
  {
    margin <= x <= width && margin <= y <= height
  }

  /** One flower: draw (x, y) until the point is clear of every rock. */
  function PlaceFlower(obstacles: seq<Obstacle>, width: real, height: real, ds: Draws): (r: Option<(Flower, Draws)>)
    ensures r.Some? ==> !IsOverlapping(r.value.0.x, r.value.0.y, FlowerSize, ObstacleItems(obstacles))
    ensures r.Some? ==> |r.value.1| <= |ds| - 2 && (UnitDraws(ds) ==> UnitDraws(r.value.1))
    ensures r.Some? && UnitDraws(ds) && FlowerSize <= width && FlowerSize <= height ==>
      InArea(r.value.0.x, r.value.0.y, FlowerSize, width, height)
    ensures obstacles == [] && |ds| >= 2 ==>
      r == Some((Flower(Scale(ds[0], width, FlowerSize), Scale(ds[1], height, FlowerSize)), ds[2..]))
    decreases |ds|
  {
    if |ds| < 2 then None
    else
      var x := Scale(ds[0], width, FlowerSize);
      var y := Scale(ds[1], height, FlowerSize);
      if IsOverlapping(x, y, FlowerSize, ObstacleItems(obstacles)) then
        PlaceFlower(obstacles, width, height, ds[2..])
      else
        Some((Flower(x, y), ds[2..]))
  }

  /** `n` flowers in creation order, each placed by `PlaceFlower`. */
  function PlaceFlowers(n: int, obstacles: seq<Obstacle>, width: real, height: real, ds: Draws): (r: Option<(seq<Flower>, Draws)>)
    ensures r.Some? ==> |r.value.0| == (if n > 0 then n else 0)
    ensures r.Some? ==> forall i :: 0 <= i < |r.value.0| ==>
      !IsOverlapping(r.value.0[i].x, r.value.0[i].y, FlowerSize, ObstacleItems(obstacles))
    ensures r.Some? ==> |r.value.1| <= |ds| && (UnitDraws(ds) ==> UnitDraws(r.value.1))
    ensures r.Some? && UnitDraws(ds) && FlowerSize <= width && FlowerSize <= height ==>
      forall i :: 0 <= i < |r.value.0| ==> InArea(r.value.0[i].x, r.value.0[i].y, FlowerSize, width, height)
    decreases n
  {
    if n <= 0 then Some(([], ds))
    else
      match PlaceFlower(obstacles, width, height, ds)
      case None => None
      case Some((f, ds1)) =>
        match PlaceFlowers(n - 1, obstacles, width, height, ds1)
        case None => None
        case Some((fs, ds2)) => Some(([f] + fs, ds2))
  }

  /** The rejection test for a rock at (x, y): it overlaps a flower or the
      ladybug's spawn circle. A rejected point is closer than 45 on both
      axes to a flower or to the ladybug, and a point closer than 31 on both
      axes to the ladybug is always rejected. */
  function ObstacleRejected(x: real, y: real, flowers: seq<Flower>, ladybug: Ladybug): (r: bool)
    ensures r ==>
      || (exists i :: 0 <= i < |flowers| && Abs(x - flowers[i].x) < 45.0 && Abs(y - flowers[i].y) < 45.0)
      || (Abs(x - ladybug.x) < 45.0 && Abs(y - ladybug.y) < 45.0)
    ensures Abs(x - ladybug.x) < 31.0 && Abs(y - ladybug.y) < 31.0 ==> r
  {
    RejectionNearBoxes(x, y, flowers, ladybug);
    WithinBetweenBoxes(x, y, ladybug.x, ladybug.y, 45.0, 31.0);
    IsOverlapping(x, y, ObstacleSize, FlowerItems(flowers))
    || IsOverlapping(x, y, ObstacleSize, [LadybugItem(ladybug)])
  }

  /** The two halves of the rejection test in terms of the centres: a hit
      on the flower list is a flower closer than 45 on both axes, and a hit
      on the ladybug is a distance below 45. */
  lemma RejectionNearBoxes(x: real, y: real, flowers: seq<Flower>, ladybug: Ladybug)
    ensures IsOverlapping(x, y, ObstacleSize, FlowerItems(flowers)) ==>
      exists i :: 0 <= i < |flowers| && Abs(x - flowers[i].x) < 45.0 && Abs(y - flowers[i].y) < 45.0
    ensures IsOverlapping(x, y, ObstacleSize, [LadybugItem(ladybug)]) <==> Within(x, y, ladybug.x, ladybug.y, 45.0)
  {
    var fi := FlowerItems(flowers);
    if IsOverlapping(x, y, ObstacleSize, fi) {
      var i :| 0 <= i < |fi| && Within(x, y, fi[i].x, fi[i].y, ObstacleSize / 2.0 + fi[i].size / 2.0);
      WithinBetweenBoxes(x, y, flowers[i].x, flowers[i].y, 45.0, 31.0);
    }
    assert [LadybugItem(ladybug)][0] == LadybugItem(ladybug);
  }

  /** The centre (x, y) of a rock keeps a distance of at least 45 from every
      flower and from the ladybug. */
  predicate ClearOf(x: real, y: real, flowers: seq<Flower>, ladybug: Ladybug)
  {
    && (forall i :: 0 <= i < |flowers| ==> DistSq(x, y, flowers[i].x, flowers[i].y) >= Sq(45.0))
    && DistSq(x, y, ladybug.x, ladybug.y) >= Sq(45.0)
  }

  /** A point passes the rejection test exactly when it is clear of every
      flower and of the ladybug. */
  lemma AcceptedIffClear(x: real, y: real, flowers: seq<Flower>, ladybug: Ladybug)
    ensures !ObstacleRejected(x, y, flowers, ladybug) <==> ClearOf(x, y, flowers, ladybug)
  {
    var fi := FlowerItems(flowers);
    if !ObstacleRejected(x, y, flowers, ladybug) {
      forall i | 0 <= i < |flowers|
        ensures DistSq(x, y, flowers[i].x, flowers[i].y) >= Sq(45.0)
      {
        assert fi[i] == Item(flowers[i].x, flowers[i].y, FlowerSize);
        assert !Within(x, y, fi[i].x, fi[i].y, ObstacleSize / 2.0 + fi[i].size / 2.0);
      }
      assert [LadybugItem(ladybug)][0] == LadybugItem(ladybug);
    }
    if ClearOf(x, y, flowers, ladybug) {
      assert !IsOverlapping(x, y, ObstacleSize, [LadybugItem(ladybug)]);
      forall i | 0 <= i < |fi|
        ensures !Within(x, y, fi[i].x, fi[i].y, ObstacleSize / 2.0 + fi[i].size / 2.0)
      {
        assert DistSq(x, y, flowers[i].x, flowers[i].y) >= Sq(45.0);
      }
    }
  }

  /** One rock: draw (x, y) until the point passes the rejection test, then
      draw its two velocity components. */
  function PlaceObstacle(flowers: seq<Flower>, ladybug: Ladybug, width: real, height: real, ds: Draws): (r: Option<(Obstacle, Draws)>)
    ensures r.Some? ==> !ObstacleRejected(r.value.0.x, r.value.0.y, flowers, ladybug)
    ensures r.Some? ==> |r.value.1| <= |ds| - 4 && (UnitDraws(ds) ==> UnitDraws(r.value.1))
    ensures r.Some? && UnitDraws(ds) && ObstacleSize <= width && ObstacleSize <= height ==>
      && InArea(r.value.0.x, r.value.0.y, ObstacleSize, width, height)
      && -1.0 <= r.value.0.speedX < 1.0 && -1.0 <= r.value.0.speedY < 1.0
    decreases |ds|
  {
    if |ds| < 2 then None
    else
      var x := Scale(ds[0], width, ObstacleSize);
      var y := Scale(ds[1], height, ObstacleSize);
      if ObstacleRejected(x, y, flowers, ladybug) then
        PlaceObstacle(flowers, ladybug, width, height, ds[2..])
      else if |ds| < 4 then None
      else
        Some((Obstacle(x, y, Velocity(ds[2]), Velocity(ds[3])), ds[4..]))
  }

  /** The rock loop reads the supply in source order: a rejected candidate
      costs exactly its two draws, and an accepted one is built from draws 0
      and 1 for the position and 2 and 3 for the velocity. */
  lemma ObstacleTakesDraws(flowers: seq<Flower>, ladybug: Ladybug, width: real, height: real, ds: Draws)
    requires 2 <= |ds|
    ensures var x := Scale(ds[0], width, ObstacleSize);
      var y := Scale(ds[1], height, ObstacleSize);
      && (ObstacleRejected(x, y, flowers, ladybug) ==>
            PlaceObstacle(flowers, ladybug, width, height, ds)
            == PlaceObstacle(flowers, ladybug, width, height, ds[2..]))
      && (!ObstacleRejected(x, y, flowers, ladybug) && 4 <= |ds| ==>
            PlaceObstacle(flowers, ladybug, width, height, ds)
            == Some((Obstacle(x, y, Velocity(ds[2]), Velocity(ds[3])), ds[4..])))
  {
  }

  /** `n` rocks in creation order, each placed by `PlaceObstacle`. */
  function PlaceObstacles(n: int, flowers: seq<Flower>, ladybug: Ladybug, width: real, height: real, ds: Draws): (r: Option<(seq<Obstacle>, Draws)>)
    ensures r.Some? ==> |r.value.0| == (if n > 0 then n else 0)
    ensures r.Some? ==> forall i :: 0 <= i < |r.value.0| ==>
      !ObstacleRejected(r.value.0[i].x, r.value.0[i].y, flowers, ladybug)
    ensures r.Some? ==> |r.value.1| <= |ds| && (UnitDraws(ds) ==> UnitDraws(r.value.1))
    ensures r.Some? && UnitDraws(ds) && ObstacleSize <= width && ObstacleSize <= height ==>
      forall i :: 0 <= i < |r.value.0| ==>
        && InArea(r.value.0[i].x, r.value.0[i].y, ObstacleSize, width, height)
        && -1.0 <= r.value.0[i].speedX < 1.0 && -1.0 <= r.value.0[i].speedY < 1.0
    decreases n
  {
    if n <= 0 then Some(([], ds))
    else
      match PlaceObstacle(flowers, ladybug, width, height, ds)
      case None => None
      case Some((o, ds1)) =>
        match PlaceObstacles(n - 1, flowers, ladybug, width, height, ds1)
        case None => None
        case Some((os, ds2)) => Some(([o] + os, ds2))
  }

  /** What a level starts with. */
  datatype Board = Board(ladybug: Ladybug, flowers: seq<Flower>, obstacles: seq<Obstacle>)

  /** Level set-up: a new ladybug at the spawn point, five flowers placed
      against the rock list (just emptied), then `3 + level - 1` rocks placed
      against the flowers and the ladybug. */
  function InitGame(level: int, width: real, height: real, ds: Draws): (r: Option<(Board, Draws)>)
    ensures r.Some? ==> r.value.0.ladybug == Spawn
    ensures r.Some? ==> |r.value.0.flowers| == FlowerCount
    ensures r.Some? ==>
      |r.value.0.obstacles| == (if BaseObstacleCount + level - 1 > 0 then BaseObstacleCount + level - 1 else 0)
    ensures r.Some? ==> forall i :: 0 <= i < |r.value.0.obstacles| ==>
      ClearOf(r.value.0.obstacles[i].x, r.value.0.obstacles[i].y, r.value.0.flowers, Spawn)
    ensures r.Some? ==> |r.value.1| <= |ds| && (UnitDraws(ds) ==> UnitDraws(r.value.1))
    ensures r.Some? && UnitDraws(ds) && FlowerSize <= width && FlowerSize <= height ==>
      && (forall i :: 0 <= i < |r.value.0.flowers| ==>
            InArea(r.value.0.flowers[i].x, r.value.0.flowers[i].y, FlowerSize, width, height))
      && (forall i :: 0 <= i < |r.value.0.obstacles| ==>
            && InArea(r.value.0.obstacles[i].x, r.value.0.obstacles[i].y, ObstacleSize, width, height)
            && -1.0 <= r.value.0.obstacles[i].speedX < 1.0
            && -1.0 <= r.value.0.obstacles[i].speedY < 1.0)
  {
    var ladybug := Spawn;
    match PlaceFlowers(FlowerCount, [], width, height, ds)
    case None => None
    case Some((flowers, ds1)) =>
      match PlaceObstacles(BaseObstacleCount + level - 1, flowers, ladybug, width, height, ds1)
      case None => None
      case Some((obstacles, ds2)) =>
        assert forall i :: 0 <= i < |obstacles| ==> ClearOf(obstacles[i].x, obstacles[i].y, flowers, ladybug) by {
          forall i | 0 <= i < |obstacles| {
            AcceptedIffClear(obstacles[i].x, obstacles[i].y, flowers, ladybug);
          }
        }
        Some((Board(ladybug, flowers, obstacles), ds2))
  }

  /** With no rocks to avoid the first candidate is always accepted, so the
      flowers are built from the first `2 * n` draws, two per flower. */
  lemma {:induction false} FlowersTakeFirstDraws(n: nat, width: real, height: real, ds: Draws)
    requires |ds| >= 2 * n
    ensures PlaceFlowers(n, [], width, height, ds).Some?
    ensures PlaceFlowers(n, [], width, height, ds).value.1 == ds[2 * n..]
    ensures forall i :: 0 <= i < n ==>
      PlaceFlowers(n, [], width, height, ds).value.0[i]
        == Flower(Scale(ds[2 * i], width, FlowerSize), Scale(ds[2 * i + 1], height, FlowerSize))
  {
    if n > 0 {
      var f := Flower(Scale(ds[0], width, FlowerSize), Scale(ds[1], height, FlowerSize));
      assert PlaceFlower([], width, height, ds) == Some((f, ds[2..]));
      FlowersTakeFirstDraws(n - 1, width, height, ds[2..]);
      var fs := PlaceFlowers(n - 1, [], width, height, ds[2..]).value.0;
      assert ds[2..][2 * (n - 1)..] == ds[2 * n..];
      forall i | 0 <= i < n
        ensures ([f] + fs)[i] == Flower(Scale(ds[2 * i], width, FlowerSize), Scale(ds[2 * i + 1], height, FlowerSize))
      {
        if i > 0 {
          assert ds[2..][2 * (i - 1)] == ds[2 * i];
          assert ds[2..][2 * (i - 1) + 1] == ds[2 * i + 1];
        }
      }
    }
  }

  /** Flowers are not checked against each other: equal draws put two
      flowers on the same spot. */
  lemma FlowersMayCoincide(width: real, height: real)
    ensures var fs := PlaceFlowers(FlowerCount, [], width, height, seq(10, i => 0.5));
      fs.Some? && fs.value.0[0] == fs.value.0[1]
  {
    FlowersTakeFirstDraws(5, width, height, seq(10, i => 0.5));
  }
}
