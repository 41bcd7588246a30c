/**
 * The game's State object: its fields are updated in place by the handlers that
 * tick dispatches to. Each method is proved to do what the matching function of
 * Game says, and to keep Game.Inv.
 */
module Machine {
  import opened Input
  import opened Entities
  import opened Pools
  import Quiz
  import opened Game

  class State {
    var mode: Mode
    var player: Player
    var enemies: seq<Entity>
    var frameTime: real
    var activeEnemies: int
    var gifts: seq<Entity>
    var activeGifts: int
    var score: int
    var life: nat
    var level: nat
    var deaths: nat
    var rank: nat

    /** The fields as one value. */
    function Snapshot(): GameState
      reads this
    {
      GameState(mode, player, enemies, frameTime, activeEnemies, gifts, activeGifts, score, life, level, deaths, rank)
    }

    ghost predicate Valid()
      reads this
    {
      Inv(Snapshot())
    }

    /** State::new: the menu, three lives, empty pools. */
    constructor ()
      ensures Valid() && Snapshot() == Initial()
    {
      frameTime := 0.0;
      mode := Menu;
      player := NewPlayer(StartX, StartY);
      enemies := [];
      activeEnemies := 0;
      gifts := [];
      activeGifts := 0;
      score := 0;
      life := 3;
      level := 1;
      deaths := 0;
      rank := 1;
    }

    /** hit_enemy: whether some active enemy touches the player. */
    method HitEnemy() returns (hit: bool)
      ensures hit <==> AnyHit(Enemy, enemies, player)
    {
      for i := 0 to |enemies|
        invariant forall j :: 0 <= j < i ==> !(enemies[j].active && Hits(Enemy, player, enemies[j]))
      {
        if enemies[i].active && Hits(Enemy, player, enemies[i]) {
          return true;
        }
      }
      return false;
    }

    method PlayingContinue()
      modifies this
      ensures Snapshot() == Game.PlayingContinue(old(Snapshot()))
    {
      player := NewPlayer(StartX, StartY);
      frameTime := 0.0;
      activeEnemies := 0;
      enemies := [];
      mode := Playing;
    }

    method Restart()
      modifies this
      ensures Snapshot() == Game.Restart(old(Snapshot()))
    {
      player := NewPlayer(StartX, StartY);
      frameTime := 0.0;
      activeEnemies := 0;
      enemies := [];
      mode := Playing;
      score := 0;
      life := 3;
      level := 1;
    }

    /** main_menu: P starts a run, Q asks to quit, any other key does nothing. */
    method MainMenu(key: Option<Key>) returns (quit: bool)
      requires Valid()
      modifies this
      ensures Valid()
      ensures MenuKeys(old(Snapshot()), key) == Next(Snapshot(), quit)
    {
      quit := false;
      match key {
        case Some(P) => Restart();
        case Some(Q) => quit := true;
        case _ =>
      }
    }

    /** dead: the end screen; it awards 1 when the rank is 1, and takes P and Q as the menu does. */
    method Dead(key: Option<Key>) returns (quit: bool, reward: nat)
      requires Valid()
      modifies this
      ensures Valid()
      ensures reward == Reward(old(rank)) && reward == 1
      ensures MenuKeys(old(Snapshot()), key) == Next(Snapshot(), quit)
    {
      reward := 0;
      if rank == 1 {
        reward := 1;
      }
      quit := MainMenu(key);
    }

    /** The first part of play: the accumulator and, when it passes FrameDuration, one simulation step. */
    method Advance(elapsed: real, motion: Motion)
      modifies this
      ensures Snapshot() == Simulate(old(Snapshot()), elapsed, motion)
    {
      frameTime := frameTime + elapsed;
      if frameTime > FrameDuration {
        frameTime := 0.0;
        player := GravityAndMove(player, motion);
        enemies, activeEnemies := StepPool(enemies, activeEnemies);
        gifts, activeGifts := StepPool(gifts, activeGifts);
      }
    }

    /** The second part of play: each pool whose counter is 0 is cleared and refilled with a wave. */
    method RefillEmptyPools(enemyWave: seq<Spawn>, giftWave: seq<Spawn>)
      modifies this
      ensures Snapshot() == RefillPools(old(Snapshot()), enemyWave, giftWave)
    {
      if activeEnemies == 0 {
        enemies, activeEnemies := Refill(activeEnemies, enemyWave);
      }
      if activeGifts == 0 {
        gifts, activeGifts := Refill(activeGifts, giftWave);
      }
    }

    /** play: accumulate time, step when due, refill empty pools, test for death, score gifts. */
    method Play(elapsed: real, motion: Motion, enemyWave: seq<Spawn>, giftWave: seq<Spawn>)
      requires Valid() && mode == Playing
      requires elapsed >= 0.0 && MotionOk(motion) && WaveOk(Enemy, enemyWave) && WaveOk(Gift, giftWave)
      modifies this
      ensures Valid()
      ensures Game.Play(old(Snapshot()), elapsed, motion, enemyWave, giftWave) == Next(Snapshot(), false)
    {
      ghost var s0 := Snapshot();
      Advance(elapsed, motion);
      RefillEmptyPools(enemyWave, giftWave);
      Conclude();
      PlayPreservesInv(s0, elapsed, motion, enemyWave, giftWave);
    }

    /** The end of play: the death test, then the gift scoring. */
    method Conclude()
      requires life >= 1
      modifies this
      ensures Resolve(old(Snapshot())) == Next(Snapshot(), false)
    {
      var hit := HitEnemy();
      if player.belowBottom || hit {
        life := life - 1;
        mode := Question;
        deaths := deaths + 1;
      }
      var n := CountGiftHits(gifts, player);
      score := score + n;
    }

    /** question: the quiz gate after a death. */
    method QuestionGate(key: Option<Key>)
      requires Valid() && mode == Question
      modifies this
      ensures Valid()
      ensures Game.QuestionGate(old(Snapshot()), key) == Next(Snapshot(), false)
    {
      QuestionOutcome(Snapshot(), key);
      var index: nat := deaths - 1;
      if deaths > |Quiz.Answers| {
        if life == 0 {
          mode := End;
        } else {
          PlayingContinue();
        }
      } else if key.Some? {
        var expected := Quiz.Answers[index];
        var answered := Quiz.Label(key.value);
        if expected == answered {
          life := life + 1;
          PlayingContinue();
        } else if life == 0 {
          mode := End;
        } else {
          PlayingContinue();
        }
      }
    }

    /** tick: one frame, dispatched on the mode. */
    method Tick(f: Frame) returns (quit: bool)
      requires Valid() && FrameOk(f)
      modifies this
      ensures Valid()
      ensures Game.Tick(old(Snapshot()), f) == Next(Snapshot(), quit)
    {
      match mode {
        case Menu =>
          quit := MainMenu(f.key);
        case End =>
          var reward;
          quit, reward := Dead(f.key);
        case Playing =>
          Play(f.elapsed, f.motion, f.enemyWave, f.giftWave);
          quit := false;
        case Question =>
          QuestionGate(f.key);
          quit := false;
      }
    }
  }
}
