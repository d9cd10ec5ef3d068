/** The game's state machine: the module-level variables of the game as the
    fields of one object, and the handlers that update them. Time is passed
    in as integer milliseconds; the rolls of the random source, the current
    clock value, the boxes of the car and the obstacles, and the obstacles'
    new tops are passed in by the caller. */
module Game {
  import opened Rules
  import opened Enemies

  /** The three car skins the player can choose from. */
  datatype Skin = Blue | Red | Green

  /** The keys the keydown handler reacts to; everything else is `OtherKey`. */
  datatype KeyCode = ArrowLeft | KeyA | ArrowRight | KeyD | Space | Enter | OtherKey

  /** An oil patch slows the traffic for this many milliseconds. */
  const SlowDurationMs: int := 1800

  /** All game variables at one moment, as a value. */
  datatype GameView = GameView(
    currentLane: nat, running: bool, paused: bool, score: nat, speed: int, best: int,
    enemies: seq<Enemy>, elapsed: nat, slowUntil: int, selectedSkin: Option<Skin>,
    spawnTimer: Option<int>, spawnRestarts: nat)

  /** The invariant every handler keeps: the car is on the road; the speed
      lies between 1 and the level the rules allow now (it is updated before
      the score of the same frame is credited, so it may lag behind but
      never runs ahead); only a running game can be paused; a running game
      has a spawn timer, and an installed timer has the period of the
      current speed. Besides, every obstacle carries its type's points tag. */
  predicate Consistent(currentLane: nat, running: bool, paused: bool, score: nat, speed: int,
                       elapsed: nat, spawnTimer: Option<int>)
  {
    && currentLane < LaneCount
    && 1 <= speed <= SpeedLevel(elapsed, score)
    && (paused ==> running)
    && (running ==> spawnTimer.Some?)
    && (spawnTimer.Some? ==> spawnTimer.value == SpawnInterval(speed))
  }

  /** The invariant, read off a snapshot of the variables. */
  predicate ValidView(v: GameView)
  {
    && Consistent(v.currentLane, v.running, v.paused, v.score, v.speed, v.elapsed, v.spawnTimer)
    && Tagged(v.enemies)
  }

  /** The variables right after a start: a fresh run at speed 1 in the middle
      lane with a newly installed spawn timer; best score and skin kept. */
  function Started(v: GameView): (w: GameView)
    ensures ValidView(w)
    ensures w.running && !w.paused && w.best == v.best && w.selectedSkin == v.selectedSkin
    ensures w.spawnRestarts == v.spawnRestarts + 1
  {
    v.(currentLane := 1, running := true, paused := false, score := 0, speed := 1,
       enemies := [], elapsed := 0, slowUntil := 0,
       spawnTimer := Some(SpawnInterval(1)), spawnRestarts := v.spawnRestarts + 1)
  }

  /** The variables after the pause key: flipped when running, else as is. */
  function TogglePause(v: GameView): (w: GameView)
    ensures ValidView(v) ==> ValidView(w)
    ensures w.running == v.running
    ensures !v.running ==> w == v
  {
    if v.running then v.(paused := !v.paused) else v
  }

  /** Pausing twice gives back the variables one started from. */
  lemma TogglePauseTwice(v: GameView)
    ensures TogglePause(TogglePause(v)) == v
  {
  }

  /** The variables after a run ends: stopped, unpaused, timer cleared, and
      the best score raised to the run's score when that is higher. */
  function Ended(v: GameView): (w: GameView)
    ensures ValidView(v) ==> ValidView(w)
    ensures !w.running && !w.paused && w.spawnTimer == None
    ensures w.best >= v.best && w.best >= v.score
    ensures w.best == v.best || w.best == v.score
    ensures w.score == v.score && w.enemies == v.enemies
  {
    v.(running := false, paused := false, spawnTimer := None,
       best := if v.score > v.best then v.score else v.best)
  }

  /** The variables after `updateSpeed`: play time advanced by the step and
      the speed at the rule's level, with the spawn timer reinstalled when
      the level changed. */
  function SpeedUpdated(v: GameView, deltaMs: nat): GameView
  {
    var level := SpeedLevel(v.elapsed + deltaMs, v.score);
    if level != v.speed then
      v.(elapsed := v.elapsed + deltaMs, speed := level,
         spawnTimer := Some(SpawnInterval(level)), spawnRestarts := v.spawnRestarts + 1)
    else v.(elapsed := v.elapsed + deltaMs)
  }

  /** The variables after `updateEnemies`: the survivors of the moved list
      kept and the points of those that left added to the score. */
  function EnemiesMoved(v: GameView, nextTops: seq<int>, roadHeight: int): GameView
    requires |nextTops| == |v.enemies|
  {
    var moved := MoveTo(v.enemies, nextTops);
    v.(enemies := Survivors(moved, roadHeight), score := v.score + ExitPoints(moved, roadHeight))
  }

  /** The exit sweep keeps the invariant: the score only grows, so the speed
      stays within the level allowed, and the obstacles left keep their tags;
      the points credited are the table points of the obstacles that left. */
  lemma EnemiesMovedValid(v: GameView, nextTops: seq<int>, roadHeight: int)
    requires ValidView(v) && |nextTops| == |v.enemies|
    ensures ValidView(EnemiesMoved(v, nextTops, roadHeight))
    ensures EnemiesMoved(v, nextTops, roadHeight).score
              == v.score + TablePoints(Exited(MoveTo(v.enemies, nextTops), roadHeight))
  {
    var moved := MoveTo(v.enemies, nextTops);
    SpeedLevelMonotone(v.elapsed, v.score, v.elapsed, v.score + ExitPoints(moved, roadHeight));
    SurvivorsTagged(v.enemies, nextTops, roadHeight);
  }

  /** The variables after `checkCollision`: the list the collision sweep
      leaves stored, and the slow-down deadline set when oil was hit. */
  function CollisionChecked(v: GameView, touches: Enemy -> bool, now: int): GameView
  {
    var sweep := CollisionSweep(v.enemies, touches);
    v.(enemies := sweep.kept, slowUntil := if sweep.oiled then now + SlowDurationMs else v.slowUntil)
  }

  /** The variables after the body of a frame of a run that is on and not
      paused, before a crash is handled: the three steps in their order.
      Lane, skin, pause flag and best score are untouched. */
  function Advanced(v: GameView, deltaMs: nat, nextTops: seq<int>, roadHeight: int,
                    touches: Enemy -> bool, now: int): GameView
    requires |nextTops| == |v.enemies|
  {
    CollisionChecked(EnemiesMoved(SpeedUpdated(v, deltaMs), nextTops, roadHeight), touches, now)
  }

  /** Ending a run twice is ending it once. */
  lemma EndedIdempotent(v: GameView)
    ensures Ended(Ended(v)) == Ended(v)
  {
  }

  class GameState {
    var currentLane: nat
    var running: bool
    var paused: bool
    var score: nat
    var speed: int
    var best: int
    var enemies: seq<Enemy>
    /** Play time in milliseconds. */
    var elapsed: nat
    /** Clock value until which oil slows the traffic down. */
    var slowUntil: int
    var selectedSkin: Option<Skin>
    /** Period of the active spawn timer, if one is installed. */
    var spawnTimer: Option<int>
    /** How many times the spawn timer has been (re)installed. */
    var spawnRestarts: nat

    function View(): GameView
      reads this
    {
      GameView(currentLane, running, paused, score, speed, best, enemies, elapsed,
               slowUntil, selectedSkin, spawnTimer, spawnRestarts)
    }

    ghost predicate Valid()
      reads this
    {
      && Consistent(currentLane, running, paused, score, speed, elapsed, spawnTimer)
      && Tagged(enemies)
    }

    /** The state when the page loads; `storedBest` is the best score read
        back from storage. */
    constructor (storedBest: int)
      ensures Valid()
      ensures View() == GameView(1, false, false, 0, 1, storedBest, [], 0, 0, None, None, 0)
    {
      currentLane := 1;
      running := false;
      paused := false;
      score := 0;
      speed := 1;
      best := storedBest;
      enemies := [];
      elapsed := 0;
      slowUntil := 0;
      selectedSkin := None;
      spawnTimer := None;
      spawnRestarts := 0;
    }

    /** Move the car to the requested lane, clamped to the road. */
    method SetCarLane(laneIndex: int)
      modifies this`currentLane
      ensures currentLane == ClampLane(laneIndex)
    {
      currentLane := ClampLane(laneIndex);
    }

    /** Choosing a skin in the selection panel. */
    method ChooseSkin(skin: Skin)
      requires Valid()
      modifies this`selectedSkin
      ensures Valid()
      ensures View() == old(View()).(selectedSkin := Some(skin))
    {
      selectedSkin := Some(skin);
    }

    /** Put the run variables back to their starting values; best score,
        skin, timer and the running and paused flags are left alone. */
    method ResetGame()
      modifies this`enemies, this`score, this`speed, this`elapsed, this`slowUntil, this`currentLane
      ensures View() == old(View()).(enemies := [], score := 0, speed := 1, elapsed := 0,
                                     slowUntil := 0, currentLane := 1)
    {
      enemies := [];
      score := 0;
      speed := 1;
      elapsed := 0;
      slowUntil := 0;
      SetCarLane(1);
    }

    /** (Re)install the spawn timer with the period of the current speed. */
    method StartSpawning()
      modifies this`spawnTimer, this`spawnRestarts
      ensures spawnTimer == Some(SpawnInterval(speed))
      ensures spawnRestarts == old(spawnRestarts) + 1
    {
      spawnTimer := Some(SpawnInterval(speed));
      spawnRestarts := spawnRestarts + 1;
    }

    /** Start a fresh run. */
    method StartGame()
      modifies this
      ensures Valid()
      ensures View() == Started(old(View()))
    {
      ResetGame();
      running := true;
      paused := false;
      StartSpawning();
    }

    /** Toggle the pause; only a running game can be paused or resumed. */
    method PauseGame()
      requires Valid()
      modifies this`paused
      ensures Valid()
      ensures View() == TogglePause(old(View()))
    {
      if !running {
        return;
      }
      paused := !paused;
    }

    /** Stop the run and keep the best score as a running maximum. */
    method EndGame()
      requires Valid()
      modifies this`running, this`paused, this`spawnTimer, this`best
      ensures Valid()
      ensures View() == Ended(old(View()))
    {
      running := false;
      paused := false;
      spawnTimer := None;
      if score > best {
        best := score;
      }
    }

    /** The keydown handler: the arrow and A/D keys step the lane (whether
        or not a run is on), the space bar toggles the pause, and Enter
        starts a run when none is on and a skin has been chosen. */
    method HandleKeydown(code: KeyCode)
      requires Valid()
      modifies this
      ensures Valid()
      ensures code == ArrowLeft || code == KeyA ==>
                View() == old(View()).(currentLane := ClampLane(old(currentLane) - 1))
      ensures code == ArrowRight || code == KeyD ==>
                View() == old(View()).(currentLane := ClampLane(old(currentLane) + 1))
      ensures code == Space ==> View() == TogglePause(old(View()))
      ensures code == Enter ==>
                View() == if !old(running) && old(selectedSkin).Some? then Started(old(View()))
                          else old(View())
      ensures code == OtherKey ==> View() == old(View())
    {
      if code == ArrowLeft || code == KeyA {
        SetCarLane(currentLane - 1);
      }
      if code == ArrowRight || code == KeyD {
        SetCarLane(currentLane + 1);
      }
      if code == Space {
        PauseGame();
      }
      if code == Enter {
        if !running {
          if selectedSkin.None? {
            return;
          }
          StartGame();
        }
      }
    }

    /** The start button: starts a run once a skin has been chosen. It does
        not look at whether a run is on. */
    method StartButtonClick()
      requires Valid()
      modifies this
      ensures Valid()
      ensures View() == if old(selectedSkin).Some? then Started(old(View())) else old(View())
    {
      if selectedSkin.None? {
        return;
      }
      StartGame();
    }

    /** One tick of the spawn timer: while a run is on and not paused, a new
        obstacle is appended. */
    method SpawnTick(roll: real, laneRoll: real)
      requires Valid()
      requires 0.0 <= roll < 1.0 && 0.0 <= laneRoll < 1.0
      modifies this`enemies
      ensures Valid()
      ensures View() == if old(running) && !old(paused)
                        then old(View()).(enemies := old(enemies) + [SpawnedEnemy(roll, laneRoll)])
                        else old(View())
    {
      if running && !paused {
        var e := SpawnedEnemy(roll, laneRoll);
        assert Tagged([e]);
        enemies := enemies + [e];
      }
    }

    /** Advance the play time and recompute the speed level; the spawn
        timer is reinstalled only when the level actually changes. */
    method UpdateSpeed(deltaMs: nat)
      requires Valid()
      modifies this`elapsed, this`speed, this`spawnTimer, this`spawnRestarts
      ensures Valid()
      ensures elapsed == old(elapsed) + deltaMs
      ensures speed == SpeedLevel(elapsed, score)
      ensures speed >= old(speed)
      ensures speed != old(speed) ==>
                spawnTimer == Some(SpawnInterval(speed)) && spawnRestarts == old(spawnRestarts) + 1
      ensures speed == old(speed) ==>
                spawnTimer == old(spawnTimer) && spawnRestarts == old(spawnRestarts)
      ensures View() == SpeedUpdated(old(View()), deltaMs)
    {
      ghost var v0 := View();
      SpeedLevelMonotone(elapsed, score, elapsed + deltaMs, score);
      elapsed := elapsed + deltaMs;
      var nextSpeed := SpeedLevel(elapsed, score);
      if nextSpeed != speed {
        speed := nextSpeed;
        StartSpawning();
        assert View() == v0.(elapsed := elapsed, speed := speed,
                             spawnTimer := spawnTimer, spawnRestarts := spawnRestarts);
      } else {
        assert View() == v0.(elapsed := elapsed);
      }
    }

    /** Move every obstacle to its new top, walking the list from the back;
        obstacles past the exit line are spliced out and their points are
        added to the score. */
    method UpdateEnemies(nextTops: seq<int>, roadHeight: int)
      requires Valid()
      requires |nextTops| == |enemies|
      modifies this`enemies, this`score
      ensures Valid()
      ensures enemies == Survivors(MoveTo(old(enemies), nextTops), roadHeight)
      ensures score == old(score) + ExitPoints(MoveTo(old(enemies), nextTops), roadHeight)
      ensures score == old(score) + TablePoints(Exited(MoveTo(old(enemies), nextTops), roadHeight))
      ensures View() == EnemiesMoved(old(View()), nextTops, roadHeight)
    {
      ghost var v0 := View();
      ghost var moved := MoveTo(enemies, nextTops);
      var i := |enemies|;
      while i > 0
        invariant 0 <= i <= |moved|
        invariant enemies == old(enemies)[..i] + Survivors(moved[i..], roadHeight)
        invariant score == old(score) + ExitPoints(moved[i..], roadHeight)
      {
        i := i - 1;
        ExitSweepStep(old(enemies), moved, i, roadHeight, enemies);
        var enemy := enemies[i].(top := nextTops[i]);
        if enemy.top > roadHeight + ExitMargin {
          enemies := enemies[..i] + enemies[i + 1..];
          score := score + PointsOf(enemy);
        } else {
          enemies := enemies[..i] + [enemy] + enemies[i + 1..];
        }
      }
      assert moved[0..] == moved;
      assert View() == EnemiesMoved(v0, nextTops, roadHeight);
      EnemiesMovedValid(v0, nextTops, roadHeight);
    }

    /** The collision check of one frame: the sweep runs over the current
        list; the list it leaves behind is stored, and hitting an oil patch
        sets the slow-down deadline. */
    method CheckCollision(carBox: Rect, boxOf: Enemy -> Rect, now: int) returns (crashed: bool)
      requires Valid()
      modifies this`enemies, this`slowUntil
      ensures Valid()
      ensures var sweep := CollisionSweep(old(enemies), Touching(carBox, boxOf));
        && crashed == sweep.crashed
        && enemies == sweep.kept
        && slowUntil == if sweep.oiled then now + SlowDurationMs else old(slowUntil)
      ensures View() == CollisionChecked(old(View()), Touching(carBox, boxOf), now)
    {
      var kept, oiled;
      crashed, kept, oiled := ScanCollisions(enemies, Touching(carBox, boxOf));
      CollisionSweepTagged(enemies, Touching(carBox, boxOf));
      enemies := kept;
      if oiled {
        slowUntil := now + SlowDurationMs;
      }
    }

    /** The body of one animation frame: nothing happens unless a run is on
        and not paused; otherwise the speed is updated, then the obstacles
        move and leave, then the collision sweep runs and a crash ends the
        run. */
    method Frame(deltaMs: nat, nextTops: seq<int>, roadHeight: int, carBox: Rect,
                 boxOf: Enemy -> Rect, now: int) returns (ended: bool)
      requires Valid()
      requires |nextTops| == |enemies|
      modifies this
      ensures Valid()
      ensures !old(running) || old(paused) ==> !ended && View() == old(View())
      ensures old(running) && !old(paused) ==>
                var w := Advanced(old(View()), deltaMs, nextTops, roadHeight, Touching(carBox, boxOf), now);
                && ended == CollisionSweep(Survivors(MoveTo(old(enemies), nextTops), roadHeight),
                                           Touching(carBox, boxOf)).crashed
                && View() == if ended then Ended(w) else w
    {
      if !running || paused {
        return false;
      }
      UpdateSpeed(deltaMs);
      UpdateEnemies(nextTops, roadHeight);
      ended := CheckCollision(carBox, boxOf, now);
      if ended {
        EndGame();
      }
    }
  }
}
