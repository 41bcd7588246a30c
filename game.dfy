/**
 * The game-state machine as values: one GameState per frame, one function per
 * handler of the game (main_menu, play, question, dead, restart,
 * playing_continue, tick), the invariant every tick preserves and the
 * properties of the handlers.
 */
module Game {
  import opened Input
  import opened Entities
  import opened Pools
  import Quiz

  datatype Mode = Menu | Playing | End | Question

  /** The run state; life and deaths are the game's unsigned counters. */
  datatype GameState = GameState(
    mode: Mode,
    player: Player,
    enemies: seq<Entity>,
    frameTime: real,
    activeEnemies: int,
    gifts: seq<Entity>,
    activeGifts: int,
    score: int,
    life: nat,
    level: nat,
    deaths: nat,
    rank: nat)

  /**
   * The unsigned subtractions whose operand must not be 0: life - 1 (u32) panics in a
   * debug build and wraps in a release build; nb_die - 1 (usize) aborts in both,
   * in a release build at the question lookup with the wrapped index.
   */
  datatype Fault = LifeUnderflow | QuestionIndexUnderflow

  /** What one frame does: the next state and whether quitting was requested, or an abort. */
  datatype Outcome = Next(state: GameState, quit: bool) | Panic(fault: Fault)

  /**
   * Everything a frame feeds in: the key pressed (if any), the elapsed milliseconds,
   * the result of the gravity step should one be due, and the random waves that
   * the frame would spawn should a pool be empty.
   */
  datatype Frame = Frame(key: Option<Key>, elapsed: real, motion: Motion, enemyWave: seq<Spawn>, giftWave: seq<Spawn>)

  predicate FrameOk(f: Frame)
  {
    f.elapsed >= 0.0 && MotionOk(f.motion) && WaveOk(Enemy, f.enemyWave) && WaveOk(Gift, f.giftWave)
  }

  /** State::new */
  function Initial(): GameState
  {
    GameState(Menu, NewPlayer(StartX, StartY), [], 0.0, 0, [], 0, 0, 3, 1, 0, 1)
  }

  /**
   * The invariant of the run: each counter is the number of active entities of its
   * pool, active entities stay on the band, the animation frame indexes
   * DragonFrames, a playing player has a life to lose, a quiz has a death to
   * index, the run ends only out of lives, and the rank stays 1.
   */
  predicate Inv(s: GameState)
  {
    PoolsOk(s)
    && s.frameTime >= 0.0
    && s.player.x == StartX && s.player.row >= 0 && s.player.frame < |DragonFrames|
    && s.life <= 3
    && (s.mode == Playing ==> s.life >= 1)
    && (s.mode == Question ==> s.deaths >= 1 && s.life <= 2)
    && (s.mode == End ==> s.life == 0)
    && s.rank == 1
  }

  /** Each counter is the number of active entities of its pool, and active entities stay on the band. */
  predicate PoolsOk(s: GameState)
  {
    s.activeEnemies == ActiveCount(s.enemies)
    && s.activeGifts == ActiveCount(s.gifts)
    && Placed(s.enemies) && Placed(s.gifts)
  }

  /** playing_continue: a new player, a zero accumulator, no enemies, back to Playing. */
  function PlayingContinue(s: GameState): GameState
  {
    s.(player := NewPlayer(StartX, StartY), frameTime := 0.0, activeEnemies := 0, enemies := [], mode := Playing)
  }

  /** restart: what playing_continue does, plus score, life and level back to their defaults. */
  function Restart(s: GameState): GameState
  {
    PlayingContinue(s).(score := 0, life := 3, level := 1)
  }

  /** The end screen's reward. */
  function Reward(rank: nat): nat
  {
    if rank == 1 then 1 else 0
  }

  /** The key handling shared by main_menu and dead: P restarts, Q asks to quit. */
  function MenuKeys(s: GameState, key: Option<Key>): Outcome
  {
    match key
    case Some(P) => Next(Restart(s), false)
    case Some(Q) => Next(s, true)
    case _ => Next(s, false)
  }

  /** The accumulator and, once it passes FrameDuration, one simulation step. */
  function Simulate(s: GameState, elapsed: real, m: Motion): GameState
  {
    var acc := s.frameTime + elapsed;
    if acc > FrameDuration then
      s.(frameTime := 0.0, player := GravityAndMove(s.player, m),
         enemies := StepAll(s.enemies), activeEnemies := s.activeEnemies - ExpiringCount(s.enemies),
         gifts := StepAll(s.gifts), activeGifts := s.activeGifts - ExpiringCount(s.gifts))
    else
      s.(frameTime := acc)
  }

  /** The wave refill of each pool whose counter is 0. */
  function RefillPools(s: GameState, enemyWave: seq<Spawn>, giftWave: seq<Spawn>): GameState
  {
    var t := if s.activeEnemies == 0
      then s.(enemies := Spawned(enemyWave), activeEnemies := s.activeEnemies + |enemyWave|)
      else s;
    if t.activeGifts == 0
    then t.(gifts := Spawned(giftWave), activeGifts := t.activeGifts + |giftWave|)
    else t
  }

  /** The death condition of play: fallen below the bottom or touching an active enemy. */
  predicate Dies(s: GameState)
  {
    s.player.belowBottom || AnyHit(Enemy, s.enemies, s.player)
  }

  /** play, without drawing and without the pause on death. */
  function Play(s: GameState, elapsed: real, m: Motion, enemyWave: seq<Spawn>, giftWave: seq<Spawn>): Outcome
  {
    Resolve(RefillPools(Simulate(s, elapsed, m), enemyWave, giftWave))
  }

  /** The end of play: the death test, then the gift scoring. */
  function Resolve(t: GameState): Outcome
  {
    if Dies(t) && t.life == 0 then Panic(LifeUnderflow)
    else
      var u := if Dies(t) then t.(life := t.life - 1, mode := Question, deaths := t.deaths + 1) else t;
      Next(u.(score := u.score + HitCount(Gift, u.gifts, u.player)), false)
  }

  /** question: the quiz gate after a death. */
  function QuestionGate(s: GameState, key: Option<Key>): Outcome
  {
    if s.deaths == 0 then Panic(QuestionIndexUnderflow)
    else if s.deaths > |Quiz.Answers| then
      Next(if s.life == 0 then s.(mode := End) else PlayingContinue(s), false)
    else if key.None? then Next(s, false)
    else if Quiz.IsCorrect(s.deaths - 1, key.value) then
      Next(PlayingContinue(s.(life := s.life + 1)), false)
    else
      Next(if s.life == 0 then s.(mode := End) else PlayingContinue(s), false)
  }

  /** tick: dispatch on the mode. */
  function Tick(s: GameState, f: Frame): Outcome
  {
    match s.mode
    case Menu => MenuKeys(s, f.key)
    case End => MenuKeys(s, f.key)
    case Playing => Play(s, f.elapsed, f.motion, f.enemyWave, f.giftWave)
    case Question => QuestionGate(s, f.key)
  }

  /** A scripted session: the frames one after another, stopping at an abort or a quit request. */
  function Run(s: GameState, frames: seq<Frame>): Outcome
    decreases |frames|
  {
    if frames == [] then Next(s, false)
    else
      match Tick(s, frames[0])
      case Panic(fault) => Panic(fault)
      case Next(t, quit) => if quit then Next(t, true) else Run(t, frames[1..])
  }

  // ---------------------------------------------------------------------------
  // Properties of the handlers

  /** The resets touch the player, the accumulator, the enemies and the mode; restart also score, life and level. */
  lemma ResetsChangeNothingElse(s: GameState)
    ensures var c := PlayingContinue(s);
      c.mode == Playing && c.player == Player(5, 25, false, 0) && c.frameTime == 0.0
      && c.enemies == [] && c.activeEnemies == 0
      && c.score == s.score && c.life == s.life && c.level == s.level && c.deaths == s.deaths
      && c.rank == s.rank && c.gifts == s.gifts && c.activeGifts == s.activeGifts
    ensures var r := Restart(s);
      r.mode == Playing && r.player == Player(5, 25, false, 0) && r.frameTime == 0.0
      && r.enemies == [] && r.activeEnemies == 0
      && r.score == 0 && r.life == 3 && r.level == 1 && r.deaths == s.deaths
      && r.rank == s.rank && r.gifts == s.gifts && r.activeGifts == s.activeGifts
  {
  }

  /** In Menu and End only P and Q have an effect, and only Q asks to quit. */
  lemma MenuOnlyPlayOrQuit(s: GameState, key: Option<Key>)
    requires Inv(s) && (s.mode == Menu || s.mode == End)
    ensures Tick(s, Frame(key, 0.0, Motion(0, false), [], [])).Next?
    ensures var o := MenuKeys(s, key);
      o.Next? && (o.quit <==> key == Some(Q))
      && (key != Some(P) ==> o.state == s)
      && (key == Some(P) ==> o.state == Restart(s) && Inv(o.state))
  {
  }

  /** While the accumulator has not passed FrameDuration the player does not move. */
  lemma PlayGatedByAccumulator(s: GameState, elapsed: real, m: Motion, enemyWave: seq<Spawn>, giftWave: seq<Spawn>)
    requires s.frameTime + elapsed <= FrameDuration
    requires Play(s, elapsed, m, enemyWave, giftWave).Next?
    ensures var r := Play(s, elapsed, m, enemyWave, giftWave).state;
      r.player == s.player && r.frameTime == s.frameTime + elapsed
  {
  }

  /**
   * The death transition of play: the mode becomes Question exactly on a death,
   * which costs exactly one life and counts exactly one death; otherwise play goes on
   * with life and deaths unchanged. The life subtraction never underflows.
   */
  lemma PlayDeath(s: GameState, elapsed: real, m: Motion, enemyWave: seq<Spawn>, giftWave: seq<Spawn>)
    requires Inv(s) && s.mode == Playing
    ensures Play(s, elapsed, m, enemyWave, giftWave).Next?
    ensures var r := Play(s, elapsed, m, enemyWave, giftWave).state;
      var died := Dies(RefillPools(Simulate(s, elapsed, m), enemyWave, giftWave));
      (r.mode == Question <==> died)
      && (died ==> r.life == s.life - 1 && r.deaths == s.deaths + 1)
      && (!died ==> r.mode == Playing && r.life == s.life && r.deaths == s.deaths)
  {
  }

  /**
   * Gift scoring: the score grows by exactly the number of active gifts touching the
   * player, at most the number of active gifts; picking a gift up does not
   * deactivate it, so the gift counter still counts the pool.
   */
  lemma PlayScoring(s: GameState, elapsed: real, m: Motion, enemyWave: seq<Spawn>, giftWave: seq<Spawn>)
    requires Inv(s) && s.mode == Playing && elapsed >= 0.0 && MotionOk(m)
    requires WaveOk(Enemy, enemyWave) && WaveOk(Gift, giftWave)
    ensures Play(s, elapsed, m, enemyWave, giftWave).Next?
    ensures var r := Play(s, elapsed, m, enemyWave, giftWave).state;
      var t := RefillPools(Simulate(s, elapsed, m), enemyWave, giftWave);
      r.score == s.score + HitCount(Gift, r.gifts, r.player)
      && r.gifts == t.gifts && r.activeGifts == t.activeGifts
      && s.score <= r.score <= s.score + r.activeGifts
  {
    PlayPreservesInv(s, elapsed, m, enemyWave, giftWave);
    var r := Play(s, elapsed, m, enemyWave, giftWave).state;
    HitCountBounds(Gift, r.gifts, r.player);
  }

  /** play keeps the invariant and never aborts. */
  lemma PlayPreservesInv(s: GameState, elapsed: real, m: Motion, enemyWave: seq<Spawn>, giftWave: seq<Spawn>)
    requires Inv(s) && s.mode == Playing && elapsed >= 0.0 && MotionOk(m)
    requires WaveOk(Enemy, enemyWave) && WaveOk(Gift, giftWave)
    ensures Play(s, elapsed, m, enemyWave, giftWave).Next?
    ensures Inv(Play(s, elapsed, m, enemyWave, giftWave).state)
  {
    var t := Simulate(s, elapsed, m);
    SimulateKeepsPools(s, elapsed, m);
    RefillKeepsPools(t, enemyWave, giftWave);
  }

  /** A simulation step keeps each counter equal to its pool's active count. */
  lemma SimulateKeepsPools(s: GameState, elapsed: real, m: Motion)
    requires PoolsOk(s)
    ensures PoolsOk(Simulate(s, elapsed, m))
  {
    if s.frameTime + elapsed > FrameDuration {
      StepAllActiveCount(s.enemies);
      StepAllActiveCount(s.gifts);
      StepAllPlaced(s.enemies);
      StepAllPlaced(s.gifts);
    }
  }

  /** Refilling an empty pool sets its counter to the size of the wave, which is its active count. */
  lemma RefillKeepsPools(s: GameState, enemyWave: seq<Spawn>, giftWave: seq<Spawn>)
    requires PoolsOk(s) && WaveOk(Enemy, enemyWave) && WaveOk(Gift, giftWave)
    ensures PoolsOk(RefillPools(s, enemyWave, giftWave))
  {
    SpawnedActiveCount(enemyWave);
    SpawnedActiveCount(giftWave);
    SpawnedPlaced(Enemy, enemyWave);
    SpawnedPlaced(Gift, giftWave);
  }

  /**
   * The quiz gate: the run ends exactly when no life is left and the question list
   * is exhausted or the answer was wrong; with no key and a question left, nothing
   * changes; otherwise play resumes after a soft reset, with one more life for a
   * correct answer. The index subtraction never underflows.
   */
  lemma QuestionOutcome(s: GameState, key: Option<Key>)
    requires Inv(s) && s.mode == Question
    ensures QuestionGate(s, key).Next? && !QuestionGate(s, key).quit
    ensures var r := QuestionGate(s, key).state;
      var asked := s.deaths <= |Quiz.Answers|;
      var correct := asked && key.Some? && Quiz.IsCorrect(s.deaths - 1, key.value);
      (r.mode == End <==> s.life == 0 && (!asked || (key.Some? && !correct)))
      && (r.mode == Question <==> asked && key.None?)
      && (r.mode == Question ==> r == s)
      && (r.mode == End ==> r == s.(mode := End))
      && r.mode != Menu
      && (r.mode == Playing ==>
            r.life == (if correct then s.life + 1 else s.life) && r.life >= 1
            && r == PlayingContinue(s.(life := r.life)))
  {
  }

  /** After the first death, the key B restores the lost life and resumes play from the start position. */
  lemma FirstQuestionAnsweredRight(s: GameState)
    requires Inv(s) && s.mode == Question && s.deaths == 1
    ensures var r := QuestionGate(s, Some(B)).state;
      r.life == s.life + 1 && r.mode == Playing && r.enemies == [] && r.activeEnemies == 0
      && r.player == NewPlayer(StartX, StartY)
  {
  }

  /** Every tick keeps the invariant and never aborts on an unsigned underflow. */
  lemma TickPreservesInv(s: GameState, f: Frame)
    requires Inv(s) && FrameOk(f)
    ensures Tick(s, f).Next?
    ensures Inv(Tick(s, f).state)
  {
    match s.mode
    case Menu =>
    case End =>
    case Playing => PlayPreservesInv(s, f.elapsed, f.motion, f.enemyWave, f.giftWave);
    case Question => QuestionOutcome(s, f.key);
  }

  /** Every scripted session of well-formed frames from a state satisfying Inv keeps Inv and never aborts. */
  lemma {:induction false} RunPreservesInv(s: GameState, frames: seq<Frame>)
    requires Inv(s)
    requires forall i :: 0 <= i < |frames| ==> FrameOk(frames[i])
    ensures Run(s, frames).Next? && Inv(Run(s, frames).state)
    decreases |frames|
  {
    if frames != [] {
      TickPreservesInv(s, frames[0]);
      var t := Tick(s, frames[0]).state;
      if !Tick(s, frames[0]).quit {
        RunPreservesInv(t, frames[1..]);
      }
    }
  }

  /** With ENEMY_NO = 1 an enemy is never spawned: the enemy pool stays empty forever. */
  lemma EnemiesNeverAppear(s: GameState, f: Frame)
    requires Inv(s) && FrameOk(f) && s.enemies == []
    ensures Tick(s, f).Next?
    ensures Tick(s, f).state.enemies == [] && Tick(s, f).state.activeEnemies == 0
  {
    TickPreservesInv(s, f);
    EnemyWaveEmpty(f.enemyWave);
  }

  /** No session of well-formed frames from an empty enemy pool ever spawns an enemy. */
  lemma {:induction false} EnemiesNeverAppearInRun(s: GameState, frames: seq<Frame>)
    requires Inv(s) && s.enemies == []
    requires forall i :: 0 <= i < |frames| ==> FrameOk(frames[i])
    ensures Run(s, frames).Next? && Run(s, frames).state.enemies == []
    decreases |frames|
  {
    RunPreservesInv(s, frames);
    if frames != [] {
      EnemiesNeverAppear(s, frames[0]);
      TickPreservesInv(s, frames[0]);
      var t := Tick(s, frames[0]).state;
      if !Tick(s, frames[0]).quit {
        EnemiesNeverAppearInRun(t, frames[1..]);
      }
    }
  }

  /** So a death is always a fall: no enemy is ever there to touch. */
  lemma OnlyFallsKill(s: GameState, elapsed: real, m: Motion, enemyWave: seq<Spawn>, giftWave: seq<Spawn>)
    requires Inv(s) && s.mode == Playing && s.enemies == [] && WaveOk(Enemy, enemyWave)
    ensures Dies(RefillPools(Simulate(s, elapsed, m), enemyWave, giftWave))
        <==> (if s.frameTime + elapsed > FrameDuration then m.belowBottom else s.player.belowBottom)
  {
    EnemyWaveEmpty(enemyWave);
  }

  /** A gift wave that lands far from the player's lane. */
  const FarGifts: seq<Spawn> := [Spawn(80, 10), Spawn(81, 12)]

  /** One tick of a session that neither aborts nor quits. */
  lemma RunStep(s: GameState, frames: seq<Frame>)
    requires frames != [] && Tick(s, frames[0]).Next? && !Tick(s, frames[0]).quit
    ensures Run(s, frames) == Run(Tick(s, frames[0]).state, frames[1..])
  {
  }

  /** A frame in which only a key is pressed. */
  function Press(k: Key): Frame
  {
    Frame(Some(k), 0.0, Motion(StartY, false), [], FarGifts)
  }

  /** A frame in which a simulation step is due and the player falls below the bottom. */
  const Fall: Frame := Frame(None, 100.0, Motion(60, true), [], FarGifts)

  /** While no enemy exists, a frame where the player falls costs one life and counts one death. */
  lemma FallCostsALife(s: GameState)
    requires Inv(s) && s.mode == Playing && s.enemies == []
    ensures var o := Tick(s, Fall);
      o.Next? && !o.quit && Inv(o.state) && o.state.enemies == []
      && o.state.mode == Question && o.state.life == s.life - 1 && o.state.deaths == s.deaths + 1
  {
    TickPreservesInv(s, Fall);
    EnemiesNeverAppear(s, Fall);
    PlayDeath(s, Fall.elapsed, Fall.motion, Fall.enemyWave, Fall.giftWave);
    OnlyFallsKill(s, Fall.elapsed, Fall.motion, Fall.enemyWave, Fall.giftWave);
  }

  /** A is the answer to none of the questions: it resumes play, or ends the run when no life is left. */
  lemma AnsweringAIsWrong(s: GameState)
    requires Inv(s) && s.mode == Question && s.enemies == [] && s.deaths <= |Quiz.Answers|
    ensures var o := Tick(s, Press(A));
      o.Next? && !o.quit && Inv(o.state) && o.state.enemies == []
      && o.state.life == s.life && o.state.deaths == s.deaths
      && (o.state.mode == End <==> s.life == 0)
      && (s.life != 0 ==> o.state.mode == Playing)
  {
    TickPreservesInv(s, Press(A));
    QuestionOutcome(s, Some(A));
    Quiz.CorrectKey(s.deaths - 1, A);
  }

  /** A session split in two: the second part starts from where the first left off. */
  lemma {:induction false} RunConcat(s: GameState, first: seq<Frame>, second: seq<Frame>)
    requires Run(s, first).Next? && !Run(s, first).quit
    ensures Run(s, first + second) == Run(Run(s, first).state, second)
    decreases |first|
  {
    if first == [] {
      assert first + second == second;
    } else {
      var o := Tick(s, first[0]);
      assert o.Next? && !o.quit && Run(s, first) == Run(o.state, first[1..]);
      assert (first + second)[0] == first[0];
      assert (first + second)[1..] == first[1..] + second;
      RunConcat(o.state, first[1..], second);
    }
  }

  /** One death by falling followed by a wrong answer: one life fewer, and the run ends when it was the last. */
  lemma FallThenWrongAnswer(s: GameState)
    requires Inv(s) && s.mode == Playing && s.enemies == [] && s.deaths < |Quiz.Answers|
    ensures var o := Run(s, [Fall, Press(A)]);
      o.Next? && !o.quit && Inv(o.state) && o.state.enemies == []
      && o.state.life == s.life - 1 && o.state.deaths == s.deaths + 1
      && (o.state.mode == End <==> s.life == 1)
      && (s.life != 1 ==> o.state.mode == Playing)
  {
    FallCostsALife(s);
    var t := Tick(s, Fall).state;
    AnsweringAIsWrong(t);
    RunStep(t, [Press(A)]);
    RunStep(s, [Fall, Press(A)]);
  }

  /** n rounds of a fall followed by the answer A. */
  function Rounds(n: nat): seq<Frame>
  {
    if n == 0 then [] else [Fall, Press(A)] + Rounds(n - 1)
  }

  /**
   * From play with L lives and questions left for every one of them, L deaths each
   * followed by a wrong answer take life to 0 and end the run.
   */
  lemma {:induction false} WrongAnswersEndTheRun(s: GameState)
    requires Inv(s) && s.mode == Playing && s.enemies == [] && s.deaths + s.life <= |Quiz.Answers|
    ensures var o := Run(s, Rounds(s.life));
      o.Next? && o.state.mode == End && o.state.life == 0 && o.state.deaths == s.deaths + s.life
    decreases s.life
  {
    FallThenWrongAnswer(s);
    var t := Run(s, [Fall, Press(A)]).state;
    assert Rounds(s.life) == [Fall, Press(A)] + Rounds(s.life - 1);
    RunConcat(s, [Fall, Press(A)], Rounds(s.life - 1));
    if s.life > 1 {
      WrongAnswersEndTheRun(t);
    }
  }

  /**
   * From a fresh game, P and then three deaths each followed by a wrong answer take
   * life from 3 to 0 and end the run.
   */
  lemma ThreeDeathsEndTheRun()
    ensures var o := Run(Initial(), [Press(P)] + Rounds(3));
      o.Next? && o.state.mode == End && o.state.life == 0 && o.state.deaths == 3
  {
    var s1 := Restart(Initial());
    assert Run(Initial(), [Press(P)]) == Next(s1, false) && Inv(s1) by {
      TickPreservesInv(Initial(), Press(P));
      RunStep(Initial(), [Press(P)]);
    }
    WrongAnswersEndTheRun(s1);
    RunConcat(Initial(), [Press(P)], Rounds(3));
  }
}
