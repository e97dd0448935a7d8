/** What one frame guarantees about the session: the outcome of a collision,
    the outcome of a collision-free frame, the invariant every reachable
    state keeps, and the containment of bouncing rocks.
 */
module FrameProperties {
  import opened Options
  import opened Input
  import opened Entities
  import opened Placement
  import opened Game

  /** A frame in which a moved rock overlaps the moved ladybug ends a fresh
      run at level 1 with score 0, five flowers and three rocks, and the best
      score is the larger of the old best and the score after collection.
      The level-clear check cannot fire after it, since the board is full. */
  lemma FrameOnCollision(st: GameState, keys: KeyMap, width: real, height: real, ds: Draws)
    requires st.score >= 0
    requires AnyCollision(MoveObstacles(st.obstacles, st.level, keys, width, height),
                          MoveLadybug(st.ladybug, keys, width, height))
    requires Frame(st, keys, width, height, ds).Some?
    ensures var g := Frame(st, keys, width, height, ds).value.0;
      && FreshRun(g)
      && IsMaxOf(g.bestScore, st.bestScore,
                 Collect(st.flowers, MoveLadybug(st.ladybug, keys, width, height), st.score).1)
  {
    var mid := Advance(st, keys, width, height);
    var r2 := ResolveCollisions(mid.obstacles, mid, width, height, ds);
    assert r2.Some?;
    assert FreshRun(r2.value.0);
  }

  /** A frame without a collision adds exactly 10 per collected flower, keeps
      the best score, and advances the level by one exactly when no flower is
      left; if a flower is left, the state is the moved one with the
      survivors. Clearing a level L sets up 3 + (L + 1) - 1 rocks. */
  lemma FrameWithoutCollision(st: GameState, keys: KeyMap, width: real, height: real, ds: Draws)
    requires !AnyCollision(MoveObstacles(st.obstacles, st.level, keys, width, height),
                           MoveLadybug(st.ladybug, keys, width, height))
    requires Frame(st, keys, width, height, ds).Some?
    ensures var b := MoveLadybug(st.ladybug, keys, width, height);
      var kept := Collect(st.flowers, b, st.score).0;
      var g := Frame(st, keys, width, height, ds).value.0;
      && g.score == st.score + ScorePerFlower * (|st.flowers| - |kept|)
      && g.bestScore == st.bestScore
      && (g.level == st.level + 1 <==> |kept| == 0)
      && (|kept| != 0 ==>
            g == st.(ladybug := b, flowers := kept,
                     obstacles := MoveObstacles(st.obstacles, st.level, keys, width, height),
                     score := g.score))
      && (|kept| == 0 ==>
            && g.ladybug == Spawn
            && |g.flowers| == FlowerCount
            && (0 <= st.level ==> |g.obstacles| == BaseObstacleCount + g.level - 1))
  {
    var mid := Advance(st, keys, width, height);
    assert ResolveCollisions(mid.obstacles, mid, width, height, ds) == Some((mid, ds));
  }

  /** What holds of every state the game reaches once started. */
  predicate Valid(st: GameState)
  {
    && 0 <= st.score
    && st.score % ScorePerFlower == 0
    && 0 <= st.bestScore
    && 1 <= st.level
    && 1 <= |st.flowers| <= FlowerCount
    && |st.obstacles| == BaseObstacleCount + st.level - 1
  }

  lemma StartIsValid(width: real, height: real, ds: Draws)
    requires StartGame(width, height, ds).Some?
    ensures Valid(StartGame(width, height, ds).value.0)
  {
  }

  /** Every frame keeps the invariant: the score is a non-negative multiple
      of the points per flower, the best score is non-negative, the level is
      at least 1, a flower is on the board and the level has its rock count. */
  lemma FramePreservesValid(st: GameState, keys: KeyMap, width: real, height: real, ds: Draws)
    requires Valid(st)
    requires Frame(st, keys, width, height, ds).Some?
    ensures Valid(Frame(st, keys, width, height, ds).value.0)
  {
    var mid := Advance(st, keys, width, height);
    if AnyCollision(mid.obstacles, mid.ladybug) {
      FrameOnCollision(st, keys, width, height, ds);
    } else {
      QuietFramePreservesValid(st, keys, width, height, ds);
    }
  }

  /** The invariant across a frame without a collision. */
  lemma QuietFramePreservesValid(st: GameState, keys: KeyMap, width: real, height: real, ds: Draws)
    requires Valid(st)
    requires !AnyCollision(MoveObstacles(st.obstacles, st.level, keys, width, height),
                           MoveLadybug(st.ladybug, keys, width, height))
    requires Frame(st, keys, width, height, ds).Some?
    ensures Valid(Frame(st, keys, width, height, ds).value.0)
  {
    var mid := Advance(st, keys, width, height);
    var g := Frame(st, keys, width, height, ds).value.0;
    FrameWithoutCollision(st, keys, width, height, ds);
    QuietStepKeepsValid(st, mid, g);
  }

  /** The bookkeeping of a quiet frame, on its own: from a valid state,
      collection followed by an optional level clear gives a valid state. */
  lemma QuietStepKeepsValid(st: GameState, mid: GameState, g: GameState)
    requires Valid(st)
    requires |mid.flowers| <= |st.flowers|
    requires mid.level == st.level && |mid.obstacles| == |st.obstacles|
    requires g.score == st.score + ScorePerFlower * (|st.flowers| - |mid.flowers|)
    requires g.bestScore == st.bestScore
    requires |mid.flowers| != 0 ==> g.flowers == mid.flowers && g.obstacles == mid.obstacles && g.level == st.level
    requires |mid.flowers| == 0 ==>
      g.level == st.level + 1 && |g.flowers| == FlowerCount && |g.obstacles| == BaseObstacleCount + g.level - 1
    ensures Valid(g)
  {
    AddFlowersKeepsMultiple(st.score, |st.flowers| - |mid.flowers|);
  }

  lemma AddFlowersKeepsMultiple(score: int, n: int)
    requires score % ScorePerFlower == 0
    ensures (score + ScorePerFlower * n) % ScorePerFlower == 0
  {
    assert score + ScorePerFlower * n == ScorePerFlower * (score / ScorePerFlower + n);
  }

  /** Every rock of the state is contained on a canvas of this size. */
  predicate RocksContained(st: GameState, width: real, height: real)
  {
    forall i :: 0 <= i < |st.obstacles| ==> Contained(st.obstacles[i], width, height)
  }

  /** A board set up from genuine random draws on a canvas at least 50 wide
      and high has all its rocks contained. */
  lemma FreshBoardContained(level: int, width: real, height: real, ds: Draws)
    requires UnitDraws(ds)
    requires FlowerSize <= width && FlowerSize <= height
    requires InitGame(level, width, height, ds).Some?
    ensures forall i :: 0 <= i < |InitGame(level, width, height, ds).value.0.obstacles| ==>
      Contained(InitGame(level, width, height, ds).value.0.obstacles[i], width, height)
  {
  }

  /** While the canvas keeps its size, no frame lets a rock escape: each axis
      stays in range or one step from it, so no rock is ever more than one
      unit outside the canvas. */
  lemma FrameKeepsRocksContained(st: GameState, keys: KeyMap, width: real, height: real, ds: Draws)
    requires UnitDraws(ds)
    requires FlowerSize <= width && FlowerSize <= height
    requires RocksContained(st, width, height)
    ensures Frame(st, keys, width, height, ds).Some? ==>
      RocksContained(Frame(st, keys, width, height, ds).value.0, width, height)
  {
    if Frame(st, keys, width, height, ds).None? {
      return;
    }
    var mid := Advance(st, keys, width, height);
    forall i | 0 <= i < |mid.obstacles|
      ensures Contained(mid.obstacles[i], width, height)
    {
      MoveObstacleKeepsContained(st.obstacles[i], st.level, keys, width, height);
    }
    assert RocksContained(mid, width, height);
    var r2 := ResolveCollisions(mid.obstacles, mid, width, height, ds);
    assert r2.Some?;
    var (st2, ds2) := r2.value;
    ResolveKeepsRocksContained(mid.obstacles, mid, width, height, ds);
    assert Frame(st, keys, width, height, ds) == LevelClear(st2, width, height, ds2);
    LevelClearKeepsRocksContained(st2, width, height, ds2);
  }

  /** The level-clear check leaves the rocks contained. */
  lemma LevelClearKeepsRocksContained(st: GameState, width: real, height: real, ds: Draws)
    requires UnitDraws(ds)
    requires FlowerSize <= width && FlowerSize <= height
    requires RocksContained(st, width, height)
    requires LevelClear(st, width, height, ds).Some?
    ensures RocksContained(LevelClear(st, width, height, ds).value.0, width, height)
  {
    if |st.flowers| == 0 {
      FreshBoardContained(st.level + 1, width, height, ds);
    }
  }

  /** The collision pass leaves the rocks contained: each game over brings a
      fresh, contained board. */
  lemma {:induction false} ResolveKeepsRocksContained(snapshot: seq<Obstacle>, st: GameState, width: real, height: real, ds: Draws)
    requires UnitDraws(ds)
    requires FlowerSize <= width && FlowerSize <= height
    requires RocksContained(st, width, height)
    requires ResolveCollisions(snapshot, st, width, height, ds).Some?
    ensures RocksContained(ResolveCollisions(snapshot, st, width, height, ds).value.0, width, height)
    decreases |snapshot|
  {
    if |snapshot| > 0 {
      if IsColliding(snapshot[0], st.ladybug) {
        var (st1, ds1) := GameOver(st, width, height, ds).value;
        FreshBoardContained(1, width, height, ds);
        ResolveKeepsRocksContained(snapshot[1..], st1, width, height, ds1);
      } else {
        ResolveKeepsRocksContained(snapshot[1..], st, width, height, ds);
      }
    }
  }
}
