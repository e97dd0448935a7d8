/** The three kinds of sprite: the ladybug the player steers, the flowers it
    collects and the rocks it must avoid, with their per-frame motion and
    their hit tests. Images and drawing are not modelled.
 */
module Entities {
  import opened Geometry
  import opened Input

  /** The ladybug is a 50 by 50 sprite; hit tests use its half-extent 25. */
  const LadybugSize: real := 50.0
  const LadybugHalf: real := 25.0
  /** Displacement per held direction per frame. */
  const LadybugSpeed: real := 5.0
  /** Every new ladybug starts here. */
  const SpawnX: real := 100.0
  const SpawnY: real := 100.0

  const FlowerSize: real := 50.0
  const ObstacleSize: real := 40.0

  /** Reach of the collection test: flower half-size plus the ladybug's 25. */
  const CollectReach: real := FlowerSize / 2.0 + LadybugHalf
  /** Half-extent of the collision box: ladybug half-extent plus rock half-size. */
  const CollideReach: real := LadybugHalf + ObstacleSize / 2.0

  datatype Ladybug = Ladybug(x: real, y: real)

  datatype Flower = Flower(x: real, y: real)

  /** A rock with its velocity, drawn once when it is created. */
  datatype Obstacle = Obstacle(x: real, y: real, speedX: real, speedY: real)

  const Spawn: Ladybug := Ladybug(SpawnX, SpawnY)

  /** `v` lies in the closed range [0, extent]. */
  predicate InSpan(v: real, extent: real)
  {
    0.0 <= v <= extent
  }

  /** The held directions applied in the game's order: up, down, left, right. */
  function Steer(b: Ladybug, keys: KeyMap): (r: Ladybug)
    ensures UpHeld(keys) && !DownHeld(keys) ==> r.y == b.y - LadybugSpeed
    ensures DownHeld(keys) && !UpHeld(keys) ==> r.y == b.y + LadybugSpeed
    ensures UpHeld(keys) == DownHeld(keys) ==> r.y == b.y
    ensures LeftHeld(keys) && !RightHeld(keys) ==> r.x == b.x - LadybugSpeed
    ensures RightHeld(keys) && !LeftHeld(keys) ==> r.x == b.x + LadybugSpeed
    ensures LeftHeld(keys) == RightHeld(keys) ==> r.x == b.x
  {
    var y1 := if UpHeld(keys) then b.y - LadybugSpeed else b.y;
    var y2 := if DownHeld(keys) then y1 + LadybugSpeed else y1;
    var x1 := if LeftHeld(keys) then b.x - LadybugSpeed else b.x;
    var x2 := if RightHeld(keys) then x1 + LadybugSpeed else x1;
    Ladybug(x2, y2)
  }

  /** Edge teleport on one axis: below 0 lands on the far edge, beyond the
      far edge lands on 0, anything in between stays. */
  function Wrap(v: real, extent: real): (r: real)
    ensures 0.0 <= extent ==> InSpan(r, extent)
    ensures v < 0.0 ==> r == extent
    ensures 0.0 <= v && extent < v ==> r == 0.0
    ensures InSpan(v, extent) ==> r == v
  {
    if v < 0.0 then extent
    else if v > extent then 0.0
    else v
  }

  /** One frame of ladybug motion on a canvas of the given size. */
  function MoveLadybug(b: Ladybug, keys: KeyMap, width: real, height: real): (r: Ladybug)
    ensures 0.0 <= width ==> InSpan(r.x, width)
    ensures 0.0 <= height ==> InSpan(r.y, height)
    ensures r.x == Wrap(Steer(b, keys).x, width)
    ensures r.y == Wrap(Steer(b, keys).y, height)
  {
    var s := Steer(b, keys);
    Ladybug(Wrap(s.x, width), Wrap(s.y, height))
  }

  /** A wrapped position is left where it is by a second wrap. */
  lemma WrapIdempotent(v: real, extent: real)
    requires 0.0 <= extent
    ensures Wrap(Wrap(v, extent), extent) == Wrap(v, extent)
  {
  }

  /** With nothing held, a ladybug inside the canvas stays put; one outside
      (the spawn point on a canvas narrower than 100) is teleported. */
  lemma IdleLadybugStays(b: Ladybug, keys: KeyMap, width: real, height: real)
    requires 0.0 <= width && 0.0 <= height
    requires !UpHeld(keys) && !DownHeld(keys) && !LeftHeld(keys) && !RightHeld(keys)
    ensures InSpan(b.x, width) && InSpan(b.y, height) <==> MoveLadybug(b, keys, width, height) == b
  {
    assert Steer(b, keys) == b;
  }

  /** Circular pickup test: the centres are closer than flower half-size
      + 25. The circle lies between two boxes: a pickup needs a separation
      below 50 on each axis, and a separation below 35 on both is a pickup. */
  function IsCollected(f: Flower, b: Ladybug): (r: bool)
    ensures r ==> Abs(b.x - f.x) < 50.0 && Abs(b.y - f.y) < 50.0
    ensures Abs(b.x - f.x) < 35.0 && Abs(b.y - f.y) < 35.0 ==> r
  {
    WithinBetweenBoxes(b.x, b.y, f.x, f.y, CollectReach, 35.0);
    Within(b.x, b.y, f.x, f.y, CollectReach)
  }

  /** The pickup test holds iff the Euclidean distance between the centres is
      below 50, and it does not matter which centre is the flower. */
  lemma CollectedIffCloserThan50(f: Flower, b: Ladybug, d: real)
    requires 0.0 <= d
    requires Sq(d) == DistSq(b.x, b.y, f.x, f.y)
    ensures IsCollected(f, b) <==> d < 50.0
    ensures IsCollected(f, b) <==> IsCollected(Flower(b.x, b.y), Ladybug(f.x, f.y))
  {
    WithinMatchesDistance(b.x, b.y, f.x, f.y, CollectReach, d);
    WithinSymmetric(b.x, b.y, f.x, f.y, CollectReach);
  }

  /** Box test between the ladybug's 50 by 50 box and the rock's 40 by 40
      box, strict on all four sides: a separation of less than 45 on each
      axis. */
  function IsColliding(o: Obstacle, b: Ladybug): (r: bool)
    ensures r <==> Abs(b.x - o.x) < CollideReach && Abs(b.y - o.y) < CollideReach
  {
    && b.x + LadybugHalf > o.x - ObstacleSize / 2.0
    && b.x - LadybugHalf < o.x + ObstacleSize / 2.0
    && b.y + LadybugHalf > o.y - ObstacleSize / 2.0
    && b.y - LadybugHalf < o.y + ObstacleSize / 2.0
  }

  /** Rocks move only from level 3 on and only while the key object has an
      entry. When moving, the velocity is added and a component is negated
      when its axis left [0, width] or [0, height]; the position is not
      pulled back. */
  function MoveObstacle(o: Obstacle, level: int, keys: KeyMap, width: real, height: real): (r: Obstacle)
    ensures !(level >= 3 && HasEntries(keys)) ==> r == o
    ensures level >= 3 && HasEntries(keys) ==>
      && r.x == o.x + o.speedX && r.y == o.y + o.speedY
      && (InSpan(r.x, width) ==> r.speedX == o.speedX)
      && (!InSpan(r.x, width) ==> r.speedX == -o.speedX)
      && (InSpan(r.y, height) ==> r.speedY == o.speedY)
      && (!InSpan(r.y, height) ==> r.speedY == -o.speedY)
    ensures Abs(r.speedX) == Abs(o.speedX) && Abs(r.speedY) == Abs(o.speedY)
  {
    if level >= 3 && HasEntries(keys) then
      var x := o.x + o.speedX;
      var y := o.y + o.speedY;
      var sx := if x < 0.0 || x > width then -o.speedX else o.speedX;
      var sy := if y < 0.0 || y > height then -o.speedY else o.speedY;
      Obstacle(x, y, sx, sy)
    else
      o
  }

  /** A key object whose only entry is a released key still lets rocks move,
      and a rock may be carried outside the canvas. */
  lemma ReleasedKeyStillMovesObstacle()
    ensures MoveObstacle(Obstacle(0.0, 0.0, -0.5, 0.5), 3, map["up" := false], 800.0, 600.0)
         == Obstacle(-0.5, 0.5, 0.5, 0.5)
    ensures !Pressed(map["up" := false], "up")
  {
  }

  /** Each axis of a rock is in range, or one step of its velocity brings it
      back in range; speeds stay within [-1, 1]. */
  predicate Contained(o: Obstacle, width: real, height: real)
  {
    && -1.0 <= o.speedX <= 1.0
    && -1.0 <= o.speedY <= 1.0
    && (InSpan(o.x, width) || InSpan(o.x + o.speedX, width))
    && (InSpan(o.y, height) || InSpan(o.y + o.speedY, height))
  }

  /** On a canvas of fixed size a bouncing rock never escapes: a rock that
      left the range has its velocity turned so that the next step returns it. */
  lemma MoveObstacleKeepsContained(o: Obstacle, level: int, keys: KeyMap, width: real, height: real)
    requires Contained(o, width, height)
    ensures Contained(MoveObstacle(o, level, keys, width, height), width, height)
  {
  }

  /** A contained rock is never more than one unit outside the canvas. */
  lemma ContainedIsNearCanvas(o: Obstacle, width: real, height: real)
    requires Contained(o, width, height)
    ensures -1.0 <= o.x <= width + 1.0
    ensures -1.0 <= o.y <= height + 1.0
  {
  }
}
