/**
 * The two entity pools (enemies and gifts), each kept beside a counter of its
 * active entities: the per-step drift, the wave refill and the hit scans.
 */
module Pools {
  import opened Entities

  /** A random spawn position drawn for one new entity. */
  datatype Spawn = Spawn(x: int, y: int)

  /** x is drawn from [ScreenWidth, ScreenWidth + 20) and y from [1, ScreenHeight - 1). */
  predicate SpawnOk(sp: Spawn)
  {
    ScreenWidth <= sp.x < ScreenWidth + 20 && 1 <= sp.y < ScreenHeight - 1
  }

  /** A wave of kind k has between MaxWave(k) / 2 (inclusive) and MaxWave(k) (exclusive) entities. */
  predicate WaveOk(k: Kind, wave: seq<Spawn>)
  {
    MaxWave(k) / 2 <= |wave| < MaxWave(k)
    && forall i :: 0 <= i < |wave| ==> SpawnOk(wave[i])
  }

  /** Every active entity of the pool lies inside the band where waves are spawned and drift. */
  predicate Placed(pool: seq<Entity>)
  {
    forall i :: 0 <= i < |pool| && pool[i].active ==>
      0 < pool[i].x < ScreenWidth + 20 && 1 <= pool[i].y < ScreenHeight - 1
  }

  function ActiveCount(pool: seq<Entity>): nat
  {
    if pool == [] then 0
    else ActiveCount(pool[..|pool| - 1]) + (if pool[|pool| - 1].active then 1 else 0)
  }

  /** An active entity that the next step moves onto or past the left edge. */
  predicate Expires(e: Entity)
  {
    e.active && e.x - 1 <= 0
  }

  function ExpiringCount(pool: seq<Entity>): nat
  {
    if pool == [] then 0
    else ExpiringCount(pool[..|pool| - 1]) + (if Expires(pool[|pool| - 1]) then 1 else 0)
  }

  /** Number of active entities of the pool that the player touches. */
  function HitCount(k: Kind, pool: seq<Entity>, p: Player): nat
  {
    if pool == [] then 0
    else
      var e := pool[|pool| - 1];
      HitCount(k, pool[..|pool| - 1], p) + (if e.active && Hits(k, p, e) then 1 else 0)
  }

  /** Some active entity of the pool touches the player. */
  predicate AnyHit(k: Kind, pool: seq<Entity>, p: Player)
  {
    exists i :: 0 <= i < |pool| && pool[i].active && Hits(k, p, pool[i])
  }

  /** One step of one entity: an active one moves left by one and goes inactive at x <= 0. */
  function StepEntity(e: Entity): Entity
  {
    if e.active then Entity(e.x - 1, e.y, e.x - 1 > 0) else e
  }

  function StepAll(pool: seq<Entity>): seq<Entity>
  {
    seq(|pool|, i requires 0 <= i < |pool| => StepEntity(pool[i]))
  }

  /** The pool a wave fills: one new active entity per spawn position, in order. */
  function Spawned(wave: seq<Spawn>): seq<Entity>
  {
    seq(|wave|, i requires 0 <= i < |wave| => NewEntity(wave[i].x, wave[i].y))
  }

  /**
   * One simulation step over a pool (the two iter_mut loops of play): every active
   * entity moves left by exactly one and is deactivated exactly when its new x is
   * at most 0, the counter dropping by one for each deactivation; inactive
   * entities are untouched.
   */
  method StepPool(pool: seq<Entity>, counter: int) returns (stepped: seq<Entity>, remaining: int)
    ensures |stepped| == |pool|
    ensures forall i :: 0 <= i < |pool| && !pool[i].active ==> stepped[i] == pool[i]
    ensures forall i :: 0 <= i < |pool| && pool[i].active ==>
      stepped[i].x == pool[i].x - 1 && stepped[i].y == pool[i].y
      && (stepped[i].active <==> stepped[i].x > 0)
    ensures remaining == counter - ExpiringCount(pool)
    ensures stepped == StepAll(pool)
  {
    stepped, remaining := pool, counter;
    for i := 0 to |pool|
      invariant |stepped| == |pool|
      invariant forall j :: 0 <= j < i ==> stepped[j] == StepEntity(pool[j])
      invariant forall j :: i <= j < |pool| ==> stepped[j] == pool[j]
      invariant remaining == counter - ExpiringCount(pool[..i])
    {
      if stepped[i].active {
        stepped := stepped[i := stepped[i].(x := stepped[i].x - 1)];
        if stepped[i].x <= 0 {
          stepped := stepped[i := stepped[i].(active := false)];
          remaining := remaining - 1;
        }
      }
      assert pool[..i + 1][..i] == pool[..i];
    }
    assert pool[..|pool|] == pool;
  }

  /**
   * Refill of an empty pool (the clear-and-push loop of play): the pool is
   * replaced by one new active entity per spawn and the counter grows by one per push.
   */
  method Refill(counter: int, wave: seq<Spawn>) returns (pool: seq<Entity>, count: int)
    ensures pool == Spawned(wave)
    ensures count == counter + |wave|
  {
    pool, count := [], counter;
    for n := 0 to |wave|
      invariant pool == Spawned(wave[..n])
      invariant count == counter + n
    {
      pool := pool + [NewEntity(wave[n].x, wave[n].y)];
      count := count + 1;
    }
    assert wave[..|wave|] == wave;
  }

  /** The gift-scoring loop of play: how many active gifts touch the player. */
  method CountGiftHits(gifts: seq<Entity>, p: Player) returns (n: nat)
    ensures n == HitCount(Gift, gifts, p)
  {
    n := 0;
    for i := 0 to |gifts|
      invariant n == HitCount(Gift, gifts[..i], p)
    {
      if gifts[i].active && Hits(Gift, p, gifts[i]) {
        n := n + 1;
      }
      assert gifts[..i + 1][..i] == gifts[..i];
    }
    assert gifts[..|gifts|] == gifts;
  }

  /** Stepping a pool lowers its active count by exactly the number of entities that expire. */
  lemma {:induction false} StepAllActiveCount(pool: seq<Entity>)
    ensures ExpiringCount(pool) <= ActiveCount(pool)
    ensures ActiveCount(StepAll(pool)) == ActiveCount(pool) - ExpiringCount(pool)
  {
    if pool != [] {
      var n := |pool|;
      assert StepAll(pool)[..n - 1] == StepAll(pool[..n - 1]);
      StepAllActiveCount(pool[..n - 1]);
    }
  }

  /** Stepping keeps every active entity inside the band. */
  lemma StepAllPlaced(pool: seq<Entity>)
    requires Placed(pool)
    ensures Placed(StepAll(pool))
  {
  }

  /** A refilled pool has exactly as many active entities as the wave had spawns. */
  lemma {:induction false} SpawnedActiveCount(wave: seq<Spawn>)
    ensures ActiveCount(Spawned(wave)) == |wave|
  {
    if wave != [] {
      var n := |wave|;
      assert Spawned(wave)[..n - 1] == Spawned(wave[..n - 1]);
      SpawnedActiveCount(wave[..n - 1]);
    }
  }

  /** Every entity of a well-drawn wave starts inside the band. */
  lemma SpawnedPlaced(k: Kind, wave: seq<Spawn>)
    requires WaveOk(k, wave)
    ensures forall i :: 0 <= i < |Spawned(wave)| ==>
      Spawned(wave)[i].active
      && ScreenWidth <= Spawned(wave)[i].x < ScreenWidth + 20
      && 1 <= Spawned(wave)[i].y < ScreenHeight - 1
    ensures Placed(Spawned(wave))
  {
  }

  /** With ENEMY_NO = 1 the enemy count is drawn from [0, 1): an enemy wave is always empty. */
  lemma EnemyWaveEmpty(wave: seq<Spawn>)
    requires WaveOk(Enemy, wave)
    ensures Spawned(wave) == []
  {
  }

  /** Only active entities can be hit, and some entity is hit exactly when the count of hits is positive. */
  lemma {:induction false} HitCountBounds(k: Kind, pool: seq<Entity>, p: Player)
    ensures HitCount(k, pool, p) <= ActiveCount(pool)
    ensures HitCount(k, pool, p) > 0 <==> AnyHit(k, pool, p)
  {
    if pool != [] {
      var n := |pool|;
      var init := pool[..n - 1];
      HitCountBounds(k, init, p);
      if AnyHit(k, init, p) {
        var i :| 0 <= i < n - 1 && init[i].active && Hits(k, p, init[i]);
        assert pool[i] == init[i];
      }
      if AnyHit(k, pool, p) && !(pool[n - 1].active && Hits(k, p, pool[n - 1])) {
        var i :| 0 <= i < n && pool[i].active && Hits(k, p, pool[i]);
        assert i < n - 1 && init[i] == pool[i];
      }
    }
  }
}
