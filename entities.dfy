/**
 * Enemies, gifts and the player, and the distance test between them.
 * Enemy and Gift have the same shape in the game; here they are one Entity
 * and a Kind that fixes the collision threshold and the wave size.
 */
module Entities {

  const ScreenWidth: int := 80
  const ScreenHeight: int := 50
  /** Milliseconds of accumulated frame time after which one simulation step runs. */
  const FrameDuration: real := 75.0
  const EnemyNo: int := 1
  const GiftNo: int := 5
  /** The glyphs of the player's animation; the animation frame indexes this list. */
  const DragonFrames: seq<int> := [64, 1, 2, 3, 2, 1]
  /** Where a new player starts. */
  const StartX: int := 5
  const StartY: int := 25

  datatype Kind = Enemy | Gift

  /** Distance below which a player touches an entity of this kind. */
  function Threshold(k: Kind): real
  {
    match k
    case Enemy => 2.0
    case Gift => 1.5
  }

  /** Exclusive upper bound of the number of entities in one wave of this kind. */
  function MaxWave(k: Kind): int
  {
    match k
    case Enemy => EnemyNo
    case Gift => GiftNo
  }

  datatype Entity = Entity(x: int, y: int, active: bool)

  /** A fresh entity is active where it is put (Enemy::new, Gift::new). */
  function NewEntity(x: int, y: int): Entity
  {
    Entity(x, y, true)
  }

  /**
   * The player. Its floating-point height is kept only as the two things the
   * game observes of it: `row`, the height truncated to an integer (used by the
   * distance test), and `belowBottom`, whether the height exceeds ScreenHeight
   * (the fall that kills). Velocity is not kept.
   */
  datatype Player = Player(x: int, row: int, belowBottom: bool, frame: nat)

  function NewPlayer(x: int, y: int): Player
  {
    Player(x, y, y > ScreenHeight, 0)
  }

  /** The observable result of one gravity integration step: the new truncated height and the fall test. */
  datatype Motion = Motion(row: int, belowBottom: bool)

  /**
   * What any height y >= 0 gives: its truncation is not negative, it is at least
   * ScreenHeight when y > ScreenHeight and at most ScreenHeight otherwise.
   */
  predicate MotionOk(m: Motion)
  {
    m.row >= 0
    && (m.belowBottom ==> m.row >= ScreenHeight)
    && (!m.belowBottom ==> m.row <= ScreenHeight)
  }

  /** One gravity step: the height comes from the physics, the animation frame advances cyclically. */
  function GravityAndMove(p: Player, m: Motion): (r: Player)
    ensures r.x == p.x && r.row == m.row && r.belowBottom == m.belowBottom
    ensures r.frame < |DragonFrames|
    ensures p.frame + 1 < |DragonFrames| ==> r.frame == p.frame + 1
    ensures p.frame + 1 == |DragonFrames| ==> r.frame == 0
  {
    Player(p.x, m.row, m.belowBottom, (p.frame + 1) % 6)
  }

  /** Square of the distance between the player and an entity on the integer grid. */
  function DistSquared(px: int, prow: int, ex: int, ey: int): int
  {
    var a := px - ex;
    var b := prow - ey;
    a * a + b * b
  }

  /**
   * The hit test of both kinds: the square root of the squared distance is below
   * the threshold. For a threshold t > 0 and d >= 0, sqrt(d) < t exactly when d < t * t.
   */
  predicate Hits(k: Kind, p: Player, e: Entity)
  {
    DistSquared(p.x, p.row, e.x, e.y) as real < Threshold(k) * Threshold(k)
  }

  /** The player and the entity are in the same cell or in one of its eight neighbours. */
  predicate Adjacent(p: Player, e: Entity)
  {
    -1 <= p.x - e.x <= 1 && -1 <= p.row - e.y <= 1
  }

  lemma SquareBounds(a: int)
    ensures a * a >= 0
    ensures -1 <= a <= 1 ==> a * a <= 1
    ensures (a <= -2 || 2 <= a) ==> a * a >= 4
  {
  }

  /** No two integer squares add up to 3, so a squared distance below 4 is at most 2. */
  lemma {:induction false} NoTwoSquaresMakeThree(a: int, b: int)
    ensures a * a + b * b != 3
  {
    SquareBounds(a);
    SquareBounds(b);
  }

  /** Both thresholds (2.0 for enemies, 1.5 for gifts) accept exactly the adjacent cells. */
  lemma {:induction false} HitsIffAdjacent(k: Kind, p: Player, e: Entity)
    ensures Hits(k, p, e) <==> Adjacent(p, e)
    ensures Hits(k, p, e) <==> DistSquared(p.x, p.row, e.x, e.y) <= 2
  {
    var a, b := p.x - e.x, p.row - e.y;
    SquareBounds(a);
    SquareBounds(b);
    NoTwoSquaresMakeThree(a, b);
  }

  /** A player at (5, 25) hits an enemy at (5, 25) and misses one at (5, 28). */
  lemma CollisionExamples()
    ensures Hits(Enemy, NewPlayer(5, 25), NewEntity(5, 25))
    ensures !Hits(Enemy, NewPlayer(5, 25), NewEntity(5, 28))
  {
  }
}
