/** Obstacles: one wall with a gap in it, ahead of the player. */
module Obstacles {
  import opened Conversions

  /** `x` is the wall's column in world space, `gapY` the row at the centre of the gap,
      and `size` the gap's height. */
  datatype Obstacle = Obstacle(x: int, gapY: int, size: int)

  /** The gap height for a given score: `i32::max(2, 20 - score)`. */
  function GapSize(score: int): (size: int)
    ensures size >= 2
    ensures score >= 18 ==> size == 2
    ensures score <= 18 ==> size == 20 - score
  {
    if 2 < 20 - score then 20 - score else 2
  }

  /** The gap only narrows as the score grows. */
  lemma GapNarrows(score: int, later: int)
    requires score <= later
    ensures GapSize(later) <= GapSize(score)
  {
  }

  /** `Obstacle::new(x, score)`; the random generator's draw from [10, 40) is `gapY`. */
  function NewObstacle(x: int, score: int, gapY: int): (o: Obstacle)
    requires 10 <= gapY < 40
    ensures o.x == x && o.gapY == gapY
    ensures o.size == GapSize(score)
    ensures WellFormed(o, score)
  {
    Obstacle(x, gapY, GapSize(score))
  }

  /** What every obstacle of the game satisfies when the score is `score`. */
  predicate WellFormed(o: Obstacle, score: int)
  {
    10 <= o.gapY < 40 && o.size == GapSize(score)
  }

  /** The rows the player may occupy at the wall's column: the closed interval
      [gapY - size/2, gapY + size/2], halving as integers. */
  predicate InGap(o: Obstacle, y: real)
  {
    (o.gapY - o.size / 2) as real <= y <= (o.gapY + o.size / 2) as real
  }

  /** `hit_obstacle`: the player collides only in the wall's own column
      (its x cast to i32) and only when it is strictly above or below the gap. */
  function HitObstacle(o: Obstacle, playerX: real, playerY: real): (hit: bool)
    ensures hit <==> AsI32(playerX) == o.x && !InGap(o, playerY)
    ensures hit ==> AsI32(playerX) == o.x
    ensures 0 <= o.size && playerY == o.gapY as real ==> !hit
  {
    var halfSize := o.size / 2;
    var doesXMatch := AsI32(playerX) == o.x;
    var playerAboveGap := playerY < (o.gapY - halfSize) as real;
    var playerBelowGap := playerY > (o.gapY + halfSize) as real;
    doesXMatch && (playerAboveGap || playerBelowGap)
  }
}
