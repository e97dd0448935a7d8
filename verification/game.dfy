/** The session state and the rules resolved once per animation frame:
    move the ladybug, move every rock, collect flowers, test rocks against
    the ladybug, and advance the level when the board is empty.
 */
module Game {
  import opened Options
  import opened Input
  import opened Entities
  import opened Placement

  const ScorePerFlower: int := 10

  /** Everything the game keeps between frames. */
  datatype GameState = GameState(
    ladybug: Ladybug,
    flowers: seq<Flower>,
    obstacles: seq<Obstacle>,
    score: int,
    level: int,
    bestScore: int)

  /** `m` is the larger of `a` and `b`. */
  predicate IsMaxOf(m: int, a: int, b: int)
  {
    m >= a && m >= b && (m == a || m == b)
  }

  /** The flower filter: drop every flower the ladybug touches, adding 10 to
      the score for each, and keep the others. */
  function Collect(flowers: seq<Flower>, b: Ladybug, score: int): (r: (seq<Flower>, int))
    ensures |r.0| <= |flowers|
    ensures r.1 == score + ScorePerFlower * (|flowers| - |r.0|)
    ensures forall i :: 0 <= i < |r.0| ==> !IsCollected(r.0[i], b)
    decreases |flowers|
  {
    if |flowers| == 0 then ([], score)
    else
      if IsCollected(flowers[0], b) then
        Collect(flowers[1..], b, score + ScorePerFlower)
      else
        var rest := Collect(flowers[1..], b, score);
        ([flowers[0]] + rest.0, rest.1)
  }

  /** The survivors are exactly the uncollected flowers: each with its
      multiplicity, and no collected flower. */
  lemma {:induction false} CollectKeepsExactlyUncollected(flowers: seq<Flower>, b: Ladybug, score: int)
    ensures forall f :: multiset(Collect(flowers, b, score).0)[f]
                     == (if IsCollected(f, b) then 0 else multiset(flowers)[f])
    decreases |flowers|
  {
    if |flowers| > 0 {
      assert flowers == [flowers[0]] + flowers[1..];
      if IsCollected(flowers[0], b) {
        CollectKeepsExactlyUncollected(flowers[1..], b, score + ScorePerFlower);
      } else {
        CollectKeepsExactlyUncollected(flowers[1..], b, score);
      }
    }
  }

  /** The filter works flower by flower, so it keeps the original order:
      filtering a concatenation is concatenating the filtered parts,
      whatever the running scores. */
  lemma {:induction false} CollectKeepsOrder(a: seq<Flower>, c: seq<Flower>, b: Ladybug, score: int, later: int)
    ensures Collect(a + c, b, score).0 == Collect(a, b, score).0 + Collect(c, b, later).0
    decreases |a|
  {
    if |a| == 0 {
      assert a + c == c;
      CollectKeptDoesNotDependOnScore(c, b, score, later);
    } else {
      assert (a + c)[1..] == a[1..] + c;
      if IsCollected(a[0], b) {
        CollectKeepsOrder(a[1..], c, b, score + ScorePerFlower, later);
      } else {
        CollectKeepsOrder(a[1..], c, b, score, later);
        assert Collect(a + c, b, score).0 == [a[0]] + Collect(a[1..] + c, b, score).0;
      }
    }
  }

  /** Which flowers survive does not depend on the running score. */
  lemma {:induction false} CollectKeptDoesNotDependOnScore(flowers: seq<Flower>, b: Ladybug, s1: int, s2: int)
    ensures Collect(flowers, b, s1).0 == Collect(flowers, b, s2).0
    decreases |flowers|
  {
    if |flowers| > 0 {
      CollectKeptDoesNotDependOnScore(flowers[1..], b, s1, s2);
      CollectKeptDoesNotDependOnScore(flowers[1..], b, s1 + ScorePerFlower, s2 + ScorePerFlower);
    }
  }

  /** Filtering the survivors again removes nothing and scores nothing. */
  lemma {:induction false} CollectAgainIsIdentity(flowers: seq<Flower>, b: Ladybug, score: int, later: int)
    ensures var kept := Collect(flowers, b, score).0;
      Collect(kept, b, later) == (kept, later)
    decreases |flowers|
  {
    if |flowers| > 0 {
      CollectAgainIsIdentity(flowers[1..], b, score, later);
      CollectAgainIsIdentity(flowers[1..], b, score + ScorePerFlower, later);
      var kept := Collect(flowers, b, score).0;
      if !IsCollected(flowers[0], b) {
        assert kept == [flowers[0]] + Collect(flowers[1..], b, score).0;
        assert kept[1..] == Collect(flowers[1..], b, score).0;
      }
    }
  }

  /** Some rock of `obstacles` overlaps the ladybug `b`. */
  predicate AnyCollision(obstacles: seq<Obstacle>, b: Ladybug)
  {
    exists i :: 0 <= i < |obstacles| && IsColliding(obstacles[i], b)
  }

  /** The state right after a game over: a fresh board at level 1 with score 0. */
  predicate FreshRun(g: GameState)
  {
    && g.ladybug == Spawn
    && |g.flowers| == FlowerCount
    && |g.obstacles| == BaseObstacleCount
    && g.score == 0
    && g.level == 1
  }

  /** Game over: the best score keeps the larger of itself and the score, the
      run restarts at level 1 with score 0, and a new board is set up. */
  function GameOver(st: GameState, width: real, height: real, ds: Draws): (r: Option<(GameState, Draws)>)
    ensures r.Some? ==> FreshRun(r.value.0)
    ensures r.Some? ==> IsMaxOf(r.value.0.bestScore, st.bestScore, st.score)
    ensures r.Some? ==> |r.value.1| <= |ds| && (UnitDraws(ds) ==> UnitDraws(r.value.1))
  {
    var best := if st.score > st.bestScore then st.score else st.bestScore;
    var reset := st.(bestScore := best, score := 0, level := 1);
    match InitGame(reset.level, width, height, ds)
    case None => None
    case Some((board, ds1)) =>
      Some((reset.(ladybug := board.ladybug, flowers := board.flowers, obstacles := board.obstacles), ds1))
  }

  /** The collision pass: each rock of the list taken at the start of the
      pass is tested, in order, against the current ladybug. After a game
      over the current ladybug is the new one at the spawn point, and the
      remaining rocks of the old list are still tested against it. */
  function ResolveCollisions(snapshot: seq<Obstacle>, st: GameState, width: real, height: real, ds: Draws): (r: Option<(GameState, Draws)>)
    ensures !AnyCollision(snapshot, st.ladybug) ==> r == Some((st, ds))
    ensures r.Some? && AnyCollision(snapshot, st.ladybug) ==> FreshRun(r.value.0)
    ensures r.Some? && AnyCollision(snapshot, st.ladybug) && st.score >= 0 ==>
      IsMaxOf(r.value.0.bestScore, st.bestScore, st.score)
    ensures r.Some? ==> r.value.0.bestScore >= st.bestScore
    ensures r.Some? ==> |r.value.1| <= |ds| && (UnitDraws(ds) ==> UnitDraws(r.value.1))
    decreases |snapshot|
  {
    if |snapshot| == 0 then Some((st, ds))
    else
      assert forall i :: 1 <= i < |snapshot| ==> snapshot[i] == snapshot[1..][i - 1];
      if IsColliding(snapshot[0], st.ladybug) then
        match GameOver(st, width, height, ds)
        case None => None
        case Some((st1, ds1)) => ResolveCollisions(snapshot[1..], st1, width, height, ds1)
      else
        ResolveCollisions(snapshot[1..], st, width, height, ds)
  }

  /** Level clear: with no flower left the level goes up by one and a new
      board is set up for it; otherwise nothing happens. */
  function LevelClear(st: GameState, width: real, height: real, ds: Draws): (r: Option<(GameState, Draws)>)
    ensures |st.flowers| != 0 ==> r == Some((st, ds))
    ensures |st.flowers| == 0 && r.Some? ==>
      && r.value.0.level == st.level + 1
      && r.value.0.score == st.score
      && r.value.0.bestScore == st.bestScore
      && r.value.0.ladybug == Spawn
      && |r.value.0.flowers| == FlowerCount
      && (0 <= st.level ==> |r.value.0.obstacles| == BaseObstacleCount + r.value.0.level - 1)
    ensures r.Some? ==> |r.value.1| <= |ds| && (UnitDraws(ds) ==> UnitDraws(r.value.1))
  {
    if |st.flowers| == 0 then
      var next := st.(level := st.level + 1);
      match InitGame(next.level, width, height, ds)
      case None => None
      case Some((board, ds1)) =>
        Some((next.(ladybug := board.ladybug, flowers := board.flowers, obstacles := board.obstacles), ds1))
    else
      Some((st, ds))
  }

  /** Every rock takes its own step, with the level as it was at the start
      of the frame. */
  function MoveObstacles(obstacles: seq<Obstacle>, level: int, keys: KeyMap, width: real, height: real): (r: seq<Obstacle>)
    ensures |r| == |obstacles|
    ensures forall i :: 0 <= i < |r| ==> r[i] == MoveObstacle(obstacles[i], level, keys, width, height)
    ensures !(level >= 3 && HasEntries(keys)) ==> r == obstacles
    ensures forall i :: 0 <= i < |r| && Contained(obstacles[i], width, height) ==> Contained(r[i], width, height)
  {
    seq(|obstacles|, i requires 0 <= i < |obstacles| => MoveObstacle(obstacles[i], level, keys, width, height))
  }

  /** The first half of a frame: the ladybug steps, every rock steps, and
      the flower filter runs against the moved ladybug. */
  function Advance(st: GameState, keys: KeyMap, width: real, height: real): (mid: GameState)
    ensures 0.0 <= width && 0.0 <= height ==> InSpan(mid.ladybug.x, width) && InSpan(mid.ladybug.y, height)
    ensures |mid.flowers| <= |st.flowers|
    ensures forall i :: 0 <= i < |mid.flowers| ==> !IsCollected(mid.flowers[i], mid.ladybug)
    ensures mid.score == st.score + ScorePerFlower * (|st.flowers| - |mid.flowers|)
    ensures |mid.obstacles| == |st.obstacles|
    ensures forall i :: 0 <= i < |mid.obstacles| && Contained(st.obstacles[i], width, height) ==>
      Contained(mid.obstacles[i], width, height)
    ensures mid.level == st.level && mid.bestScore == st.bestScore
  {
    var b := MoveLadybug(st.ladybug, keys, width, height);
    var collected := Collect(st.flowers, b, st.score);
    st.(ladybug := b, flowers := collected.0,
        obstacles := MoveObstacles(st.obstacles, st.level, keys, width, height),
        score := collected.1)
  }

  /** One frame: move the ladybug, move the rocks, then collection, the
      collision pass and the level-clear check, in that order. */
  function Frame(st: GameState, keys: KeyMap, width: real, height: real, ds: Draws): (r: Option<(GameState, Draws)>)
    ensures r.Some? ==> r.value.0.bestScore >= st.bestScore
    ensures r.Some? ==> |r.value.0.flowers| >= 1
    ensures r.Some? ==> |r.value.1| <= |ds| && (UnitDraws(ds) ==> UnitDraws(r.value.1))
  {
    var mid := Advance(st, keys, width, height);
    match ResolveCollisions(mid.obstacles, mid, width, height, ds)
    case None => None
    case Some((st2, ds2)) => LevelClear(st2, width, height, ds2)
  }

  /** The start button: a first board at level 1, score 0, best score 0. */
  function StartGame(width: real, height: real, ds: Draws): (r: Option<(GameState, Draws)>)
    ensures r.Some? ==> FreshRun(r.value.0) && r.value.0.bestScore == 0
    ensures r.Some? ==> |r.value.1| <= |ds| && (UnitDraws(ds) ==> UnitDraws(r.value.1))
  {
    match InitGame(1, width, height, ds)
    case None => None
    case Some((board, ds1)) => Some((GameState(board.ladybug, board.flowers, board.obstacles, 0, 1, 0), ds1))
  }
}
