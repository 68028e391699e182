/** Session state of the game manager (Assets/Scripts/GameManager.cs): the
    countdown, the kill and crystal counters, the pause toggle and the
    game-over latch.

    Each frame the manager first looks for the pause key (and if it was
    pressed does nothing else), then fires the special attack when the
    player holds at least ten crystals and right-clicks, and only then
    consults the pause and game-over flags before running the clock.  The
    clock runs down by the frame time while positive; the first running
    frame that finds it at or below zero clamps it to zero and ends the
    game, and nothing ever clears the game-over flag. */
module Session {
  import Waves

  /** The manager's per-frame state as a value. */
  datatype Status = Status(
    timeRemaining: real,
    kills: int,
    crystals: int,
    paused: bool,
    over: bool,
    running: bool)

  /** What Update reads from the engine in one frame: the P key, the right
      mouse button and Time.deltaTime. */
  datatype FrameInput = FrameInput(pausePressed: bool, rightClick: bool, dt: real)

  /** The minutes and seconds shown by the timer text. */
  datatype Clock = Clock(minutes: int, seconds: int)

  /** The scene objects the manager switches on and off: the title canvas,
      the player, the enemies, the game UI, the pause menu and the crystals. */
  datatype Scene = Scene(
    canvas: bool,
    player: bool,
    enemies: bool,
    gameUI: bool,
    pauseMenu: bool,
    crystals: bool)

  /** The title screen (Start, TriggerGameOver); the pause menu is left as it was. */
  function TitleScene(pauseMenu: bool): Scene
  {
    Scene(true, false, false, false, pauseMenu, false)
  }

  /** The playing scene (StartGame); the pause menu is left as it was. */
  function PlayScene(pauseMenu: bool): Scene
  {
    Scene(false, true, true, true, pauseMenu, true)
  }

  /** Seconds in a minute, as the display and the start time use them. */
  const SecondsPerMinute: int := 60
  /** The crystal price of one special attack. */
  const SpecialAttackCost: int := 10
  /** A crystal is dropped on every kill count that is a multiple of this. */
  const KillsPerCrystal: int := 10
  /** The pause before the spawner restarts after a special attack, in seconds. */
  const RestartDelay: real := 3.0

  /** The state after the field initialisers and Start. */
  function Started(startMinutes: int): Status
  {
    Status((startMinutes * SecondsPerMinute) as real, 0, 0, false, false, false)
  }

  /** The state after StartGame. */
  function GameStarted(s: Status): Status
  {
    s.(running := true)
  }

  /** Whether this frame fires the special attack. */
  predicate SpecialFires(s: Status, i: FrameInput)
  {
    !i.pausePressed && s.crystals >= SpecialAttackCost && i.rightClick
  }

  /** One call of Update. */
  function Frame(s: Status, i: FrameInput): Status
  {
    if i.pausePressed then
      s.(paused := !s.paused)
    else
      var s1 := if SpecialFires(s, i) then s.(crystals := s.crystals - SpecialAttackCost) else s;
      if s1.paused || s1.over then s1
      else if s1.running && s1.timeRemaining > 0.0 then s1.(timeRemaining := s1.timeRemaining - i.dt)
      else if s1.running && s1.timeRemaining <= 0.0 then s1.(timeRemaining := 0.0, over := true, running := false)
      else s1
  }

  /** Consecutive frames. */
  function Run(s: Status, inputs: seq<FrameInput>): Status
    decreases |inputs|
  {
    if |inputs| == 0 then s else Run(Frame(s, inputs[0]), inputs[1..])
  }

  /** n frames of dt seconds with no key pressed. */
  function Ticks(dt: real, n: nat): seq<FrameInput>
  {
    if n == 0 then [] else [FrameInput(false, false, dt)] + Ticks(dt, n - 1)
  }

  /** Whether none of these frames presses P. */
  predicate NoPauseKey(inputs: seq<FrameInput>)
  {
    forall k :: 0 <= k < |inputs| ==> !inputs[k].pausePressed
  }

  /** The number of kill counts in k+1 .. k+n that drop a crystal. */
  function CrystalDrops(k: int, n: nat): nat
  {
    if n == 0 then 0
    else CrystalDrops(k, n - 1) + if (k + n) % KillsPerCrystal == 0 then 1 else 0
  }

  /** C#'s Mathf.FloorToInt. */
  function FloorToInt(x: real): int
  {
    x.Floor
  }

  /** Truncation toward zero, as C#'s float remainder uses it. */
  function Truncate(x: real): int
  {
    if x >= 0.0 then x.Floor else -((-x).Floor)
  }

  /** C#'s float remainder: the sign follows the dividend. */
  function FloatRem(x: real, m: real): real
    requires m != 0.0
  {
    x - m * (Truncate(x / m) as real)
  }

  /** The minutes/seconds split of UpdateTimerDisplay.  For a time that is
      not negative the two fields are the whole minutes and the whole seconds
      past them. */
  function TimerDisplay(t: real): (c: Clock)
    ensures t >= 0.0 ==> 0 <= c.seconds < SecondsPerMinute
    ensures t >= 0.0 ==> c.minutes * SecondsPerMinute + c.seconds == t.Floor
    ensures t >= 0.0 ==> c.minutes >= 0
  {
    var m := SecondsPerMinute as real;
    var c := Clock(FloorToInt(t / m), FloorToInt(FloatRem(t, m)));
    if t >= 0.0 then
      var q := (t / m).Floor;
      assert Truncate(t / m) == q;
      var r := t - m * (q as real);
      assert 0.0 <= r < m;
      FloorPlusInt(r, q * SecondsPerMinute);
      assert t == r + ((q * SecondsPerMinute) as real);
      c
    else c
  }

  /** Taking the floor commutes with adding a whole number. */
  lemma FloorPlusInt(r: real, n: int)
    ensures (r + n as real).Floor == r.Floor + n
  {
  }

  /** On the frame after the clock has run past zero the display shows
      minus one minute and minus one second. */
  lemma NegativeTimeDisplay()
    ensures TimerDisplay(-0.5) == Clock(-1, -1)
  {
    assert Truncate(-0.5 / 60.0) == 0;
  }

  /** Pressing P flips the pause flag and does nothing else that frame (no
      special attack, no clock); a second press restores the state. */
  lemma PauseKeySpec(s: Status, i: FrameInput, j: FrameInput)
    requires i.pausePressed && j.pausePressed
    ensures Frame(s, i) == s.(paused := !s.paused)
    ensures Frame(Frame(s, i), j) == s
  {
  }

  /** The special attack fires exactly when P is not pressed, the player holds
      at least ten crystals and right-clicks; it debits exactly ten, so the
      crystal count never goes negative. */
  lemma SpecialAttackSpec(s: Status, i: FrameInput)
    requires !i.pausePressed
    ensures Frame(s, i).crystals == if s.crystals >= 10 && i.rightClick then s.crystals - 10 else s.crystals
    ensures s.crystals >= 0 ==> Frame(s, i).crystals >= 0
    ensures Frame(s, i).kills == s.kills
  {
  }

  /** The special attack is checked before the pause and game-over guard,
      so it fires while paused and after the game is over. */
  lemma SpecialIgnoresPauseAndGameOver(s: Status, i: FrameInput)
    requires s.paused || s.over
    requires !i.pausePressed && i.rightClick && s.crystals >= 10
    ensures Frame(s, i) == s.(crystals := s.crystals - 10)
  {
  }

  /** A frame in which the game is paused, over or not yet timed leaves the
      clock and the three flags alone. */
  lemma FrozenFrame(s: Status, i: FrameInput)
    requires !i.pausePressed
    requires s.paused || s.over || !s.running
    ensures Frame(s, i).timeRemaining == s.timeRemaining
    ensures Frame(s, i).(crystals := s.crystals) == s
  {
  }

  /** While running, each frame takes dt off a positive clock, whether or not
      the special attack fires in it. */
  lemma TickSpec(s: Status, i: FrameInput)
    requires !i.pausePressed
    requires s.running && !s.paused && !s.over && s.timeRemaining > 0.0
    ensures Frame(s, i) == s.(timeRemaining := s.timeRemaining - i.dt,
                              crystals := if SpecialFires(s, i) then s.crystals - SpecialAttackCost else s.crystals)
  {
  }

  /** The first running frame that finds the clock at or below zero clamps
      it to zero, ends the game and stops the timer, whether or not the
      special attack fires in it. */
  lemma TimeUpSpec(s: Status, i: FrameInput)
    requires !i.pausePressed
    requires s.running && !s.paused && !s.over && s.timeRemaining <= 0.0
    ensures Frame(s, i) == s.(timeRemaining := 0.0, over := true, running := false,
                              crystals := if SpecialFires(s, i) then s.crystals - SpecialAttackCost else s.crystals)
  {
  }

  /** The clock may be below zero for one frame: from 0.25 s a one-second
      frame leaves -0.75 s with the game still on, and the next frame clamps
      it and ends the game. */
  lemma OvershootLastsOneFrame(s: Status)
    requires s == Status(0.25, 0, 0, false, false, true)
    ensures Frame(s, FrameInput(false, false, 1.0)).timeRemaining == -0.75
    ensures !Frame(s, FrameInput(false, false, 1.0)).over
    ensures Run(s, Ticks(1.0, 2)) == Status(0.0, 0, 0, false, true, false)
  {
    assert Ticks(1.0, 2) == [FrameInput(false, false, 1.0), FrameInput(false, false, 1.0)];
  }

  /** Without the P key, a paused, finished or untimed session keeps its
      clock and its flags however many frames pass. */
  lemma {:induction false} FrozenRun(s: Status, inputs: seq<FrameInput>)
    requires NoPauseKey(inputs)
    requires s.paused || s.over || !s.running
    ensures Run(s, inputs).timeRemaining == s.timeRemaining
    ensures Run(s, inputs).(crystals := s.crystals) == s
    decreases |inputs|
  {
    if |inputs| > 0 {
      FrozenFrame(s, inputs[0]);
      FrozenRun(Frame(s, inputs[0]), inputs[1..]);
    }
  }

  /** Nothing clears the game-over latch. */
  lemma {:induction false} GameOverIsForever(s: Status, inputs: seq<FrameInput>)
    requires s.over
    ensures Run(s, inputs).over
    decreases |inputs|
  {
    if |inputs| > 0 {
      GameOverIsForever(Frame(s, inputs[0]), inputs[1..]);
    }
  }

  /** No sequence of frames drives the crystal count below zero, and the
      kill count is untouched by frames. */
  lemma {:induction false} CrystalsNeverNegative(s: Status, inputs: seq<FrameInput>)
    requires s.crystals >= 0
    ensures Run(s, inputs).crystals >= 0
    ensures Run(s, inputs).kills == s.kills
    decreases |inputs|
  {
    if |inputs| > 0 {
      CrystalsNeverNegative(Frame(s, inputs[0]), inputs[1..]);
    }
  }

  /** With n frames of d > 0 seconds and a clock of exactly n * d seconds,
      the clock ends at zero with the game still on. */
  lemma {:induction false} Countdown(s: Status, d: real, n: nat)
    requires s.running && !s.paused && !s.over && d > 0.0
    requires s.timeRemaining == (n as real) * d
    ensures Run(s, Ticks(d, n)) == s.(timeRemaining := 0.0)
    decreases n
  {
    if n > 0 {
      var next := s.(timeRemaining := ((n - 1) as real) * d);
      assert Frame(s, FrameInput(false, false, d)) == next;
      Countdown(next, d, n - 1);
    }
  }

  /** The frame times of these frames added up. */
  function FrameTime(inputs: seq<FrameInput>): real
    decreases |inputs|
  {
    if |inputs| == 0 then 0.0 else inputs[0].dt + FrameTime(inputs[1..])
  }

  /** A running session without the P key either has ended, with the clock
      at zero, or is still running with the clock down by exactly the frame
      time. */
  lemma {:induction false} RunsDown(s: Status, inputs: seq<FrameInput>)
    requires s.running && !s.paused && !s.over
    requires NoPauseKey(inputs)
    ensures !Run(s, inputs).paused
    ensures (Run(s, inputs).over && Run(s, inputs).timeRemaining == 0.0) ||
            (Run(s, inputs).running && !Run(s, inputs).over &&
             Run(s, inputs).timeRemaining == s.timeRemaining - FrameTime(inputs))
    decreases |inputs|
  {
    if |inputs| > 0 {
      var next := Frame(s, inputs[0]);
      assert NoPauseKey(inputs[1..]) by {
        forall k | 0 <= k < |inputs[1..]| ensures !inputs[1..][k].pausePressed {
          assert inputs[1..][k] == inputs[k + 1];
        }
      }
      if s.timeRemaining > 0.0 {
        RunsDown(next, inputs[1..]);
      } else {
        FrozenRun(next, inputs[1..]);
      }
    }
  }

  /** Whatever the frame times, once frames without the P key have used up
      the clock, the next such frame finds the game over with the clock at
      zero. */
  lemma TimeRunsOut(s: Status, inputs: seq<FrameInput>, last: FrameInput)
    requires s.running && !s.paused && !s.over
    requires NoPauseKey(inputs) && !last.pausePressed
    requires FrameTime(inputs) >= s.timeRemaining
    ensures Run(s, inputs + [last]).over
    ensures Run(s, inputs + [last]).timeRemaining == 0.0
  {
    RunsDown(s, inputs);
    RunAppend(s, inputs, [last]);
    var r := Run(s, inputs);
    assert Run(r, [last]) == Run(Frame(r, last), []);
  }

  /** Started with five minutes, 300 one-second frames bring the clock to
      exactly zero without ending the game; frame 301 ends it. */
  lemma FiveMinuteMatch()
    ensures Run(GameStarted(Started(5)), Ticks(1.0, 300)) == Status(0.0, 0, 0, false, false, true)
    ensures Run(GameStarted(Started(5)), Ticks(1.0, 301)) == Status(0.0, 0, 0, false, true, false)
  {
    var s := GameStarted(Started(5));
    Countdown(s, 1.0, 300);
    RunAppend(s, Ticks(1.0, 300), Ticks(1.0, 1));
    TicksAppend(1.0, 300, 1);
  }

  /** Running two stretches of frames is running their concatenation. */
  lemma {:induction false} RunAppend(s: Status, a: seq<FrameInput>, b: seq<FrameInput>)
    ensures Run(Run(s, a), b) == Run(s, a + b)
    decreases |a|
  {
    if |a| == 0 {
      assert a + b == b;
    } else {
      assert (a + b)[0] == a[0] && (a + b)[1..] == a[1..] + b;
      RunAppend(Frame(s, a[0]), a[1..], b);
    }
  }

  lemma {:induction false} TicksAppend(dt: real, n: nat, m: nat)
    ensures Ticks(dt, n) + Ticks(dt, m) == Ticks(dt, n + m)
  {
    if n > 0 {
      TicksAppend(dt, n - 1, m);
    }
  }

  /** Raising the kill count from k to k + n drops one crystal per multiple
      of ten passed, so from zero N kills drop N / 10 crystals. */
  lemma {:induction false} CrystalDropsCount(k: int, n: nat)
    requires k >= 0
    ensures CrystalDrops(k, n) == (k + n) / 10 - k / 10
  {
    if n > 0 {
      CrystalDropsCount(k, n - 1);
      var m := k + n;
      assert m / 10 == (m - 1) / 10 + (if m % 10 == 0 then 1 else 0);
    }
  }

  /** The game manager object: the source's fields, the scene objects it
      switches on and off as ghost flags, and the crystals it drops, the
      enemy wipes of the special attack and the spawner restarts it has
      scheduled but not yet run as ghost counters. */
  class GameManager {
    /** The inspector setting for the match length. */
    const startMinutes: int
    const spawner: Waves.EnemySpawner

    var timeRemaining: real
    var enemyKillCount: int
    var crystalCount: int
    var isPaused: bool
    var isGameOver: bool
    var isTimerRunning: bool

    ghost var canvasActive: bool
    ghost var playerActive: bool
    ghost var enemiesActive: bool
    ghost var gameUIActive: bool
    ghost var pauseMenuActive: bool
    ghost var crystalsActive: bool

    ghost var crystalsSpawned: nat
    ghost var enemyWipes: nat
    ghost var pendingRestarts: nat

    function Snapshot(): Status
      reads this
    {
      Status(timeRemaining, enemyKillCount, crystalCount, isPaused, isGameOver, isTimerRunning)
    }

    /** The scene objects as shown. */
    ghost function Shown(): Scene
      reads this
    {
      Scene(canvasActive, playerActive, enemiesActive, gameUIActive, pauseMenuActive, crystalsActive)
    }

    /** The scene objects are those of the title screen. */
    ghost predicate ShowsTitle()
      reads this
    {
      canvasActive && !playerActive && !enemiesActive && !gameUIActive && !crystalsActive
    }

    /** The field initialisers: a zero clock, no kills or crystals, no flag set. */
    constructor (startMinutes: int, spawner: Waves.EnemySpawner)
      ensures this.startMinutes == startMinutes && this.spawner == spawner
      ensures Snapshot() == Status(0.0, 0, 0, false, false, false)
      ensures crystalsSpawned == 0 && enemyWipes == 0 && pendingRestarts == 0
    {
      this.startMinutes := startMinutes;
      this.spawner := spawner;
      timeRemaining := 0.0;
      enemyKillCount := 0;
      crystalCount := 0;
      isPaused := false;
      isGameOver := false;
      isTimerRunning := false;
      canvasActive := false;
      playerActive := false;
      enemiesActive := false;
      gameUIActive := false;
      pauseMenuActive := false;
      crystalsActive := false;
      crystalsSpawned := 0;
      enemyWipes := 0;
      pendingRestarts := 0;
    }

    /** Shows the title screen and sets the clock to startMinutes minutes. */
    method Start()
      modifies this
      ensures Snapshot() == old(Snapshot()).(timeRemaining := (startMinutes * SecondsPerMinute) as real)
      ensures old(Snapshot()) == Status(0.0, 0, 0, false, false, false) ==> Snapshot() == Started(startMinutes)
      ensures ShowsTitle() && Shown() == TitleScene(false)
      ensures crystalsSpawned == old(crystalsSpawned) && enemyWipes == old(enemyWipes)
      ensures pendingRestarts == old(pendingRestarts)
    {
      canvasActive := true;
      playerActive := false;
      enemiesActive := false;
      gameUIActive := false;
      pauseMenuActive := false;
      crystalsActive := false;
      timeRemaining := (startMinutes * SecondsPerMinute) as real;
    }

    /** Hides the title screen, starts the timer and initialises the spawner
        (`playerTagged` is whether the spawner's lookup by tag finds a player). */
    method StartGame(playerTagged: bool)
      modifies this, spawner
      ensures Snapshot() == GameStarted(old(Snapshot()))
      ensures Shown() == PlayScene(old(pauseMenuActive))
      ensures spawner.hasPlayer == (old(spawner.hasPlayer) || playerTagged)
      ensures spawner.Counters() ==
        if spawner.hasPlayer then Waves.Spawned(old(spawner.Counters()), spawner.initialSpawnCount)
        else old(spawner.Counters())
      ensures spawner.instantiated == old(spawner.instantiated) +
        if spawner.hasPlayer then Waves.Max0(spawner.initialSpawnCount) else 0
      ensures spawner.enabled == old(spawner.enabled)
      ensures crystalsSpawned == old(crystalsSpawned) && enemyWipes == old(enemyWipes)
      ensures pendingRestarts == old(pendingRestarts)
    {
      canvasActive := false;
      playerActive := true;
      enemiesActive := true;
      gameUIActive := true;
      crystalsActive := true;
      isTimerRunning := true;
      spawner.InitializeSpawner(playerTagged);
    }

    /** One frame: the pause key, then the special attack, then the guard,
        then the clock. */
    method Update(input: FrameInput)
      modifies this, spawner
      ensures Snapshot() == Frame(old(Snapshot()), input)
      ensures input.pausePressed ==> pauseMenuActive == isPaused
      ensures Shown() ==
        if isGameOver && !old(isGameOver) then TitleScene(old(pauseMenuActive))
        else old(Shown()).(pauseMenu := if input.pausePressed then isPaused else old(pauseMenuActive))
      ensures enemyWipes == old(enemyWipes) + if SpecialFires(old(Snapshot()), input) then 1 else 0
      ensures pendingRestarts == old(pendingRestarts) + if SpecialFires(old(Snapshot()), input) then 1 else 0
      ensures spawner.enabled == if SpecialFires(old(Snapshot()), input) then false else old(spawner.enabled)
      ensures spawner.Counters() == old(spawner.Counters()) && spawner.hasPlayer == old(spawner.hasPlayer)
      ensures spawner.instantiated == old(spawner.instantiated)
      ensures isGameOver && !old(isGameOver) ==> ShowsTitle()
      ensures crystalsSpawned == old(crystalsSpawned)
    {
      if input.pausePressed {
        TogglePause();
        return;
      }
      if crystalCount >= SpecialAttackCost && input.rightClick {
        SpecialAttack();
      }
      if isPaused || isGameOver {
        return;
      }
      if isTimerRunning && timeRemaining > 0.0 {
        timeRemaining := timeRemaining - input.dt;
      } else if isTimerRunning && timeRemaining <= 0.0 {
        timeRemaining := 0.0;
        TriggerGameOver();
      }
    }

    /** Ends the game: latches game over, stops the timer and returns the
        scene to the title screen. */
    method TriggerGameOver()
      modifies this
      ensures Snapshot() == old(Snapshot()).(over := true, running := false)
      ensures ShowsTitle() && Shown() == TitleScene(old(pauseMenuActive))
      ensures crystalsSpawned == old(crystalsSpawned) && enemyWipes == old(enemyWipes)
      ensures pendingRestarts == old(pendingRestarts)
    {
      isGameOver := true;
      isTimerRunning := false;
      canvasActive := true;
      playerActive := false;
      enemiesActive := false;
      gameUIActive := false;
      crystalsActive := false;
    }

    /** Counts one kill and drops a crystal on every tenth. */
    method IncrementKillCount()
      modifies this
      ensures Snapshot() == old(Snapshot()).(kills := old(enemyKillCount) + 1)
      ensures crystalsSpawned == old(crystalsSpawned) + if enemyKillCount % KillsPerCrystal == 0 then 1 else 0
      ensures crystalsSpawned == old(crystalsSpawned) + CrystalDrops(old(enemyKillCount), 1)
      ensures enemyWipes == old(enemyWipes) && pendingRestarts == old(pendingRestarts)
      ensures Shown() == old(Shown())
    {
      enemyKillCount := enemyKillCount + 1;
      if enemyKillCount % KillsPerCrystal == 0 {
        SpawnCrystal();
      }
    }

    /** Drops one crystal pickup somewhere between the player's boundaries. */
    method SpawnCrystal()
      modifies this
      ensures Snapshot() == old(Snapshot())
      ensures crystalsSpawned == old(crystalsSpawned) + 1
      ensures enemyWipes == old(enemyWipes) && pendingRestarts == old(pendingRestarts)
      ensures Shown() == old(Shown())
    {
      crystalsSpawned := crystalsSpawned + 1;
    }

    /** A crystal pickup adds one crystal and changes nothing else. */
    method CollectCrystal()
      modifies this
      ensures Snapshot() == old(Snapshot()).(crystals := old(crystalCount) + 1)
      ensures crystalsSpawned == old(crystalsSpawned) && enemyWipes == old(enemyWipes)
      ensures pendingRestarts == old(pendingRestarts)
      ensures Shown() == old(Shown())
    {
      crystalCount := crystalCount + 1;
    }

    /** Spends ten crystals, destroys every enemy, switches the spawner off and
        schedules its restart after RestartDelay seconds. */
    method SpecialAttack()
      modifies this, spawner
      ensures Snapshot() == old(Snapshot()).(crystals := old(crystalCount) - SpecialAttackCost)
      ensures enemyWipes == old(enemyWipes) + 1 && pendingRestarts == old(pendingRestarts) + 1
      ensures !spawner.enabled
      ensures spawner.Counters() == old(spawner.Counters()) && spawner.hasPlayer == old(spawner.hasPlayer)
      ensures spawner.instantiated == old(spawner.instantiated)
      ensures crystalsSpawned == old(crystalsSpawned)
      ensures Shown() == old(Shown())
    {
      crystalCount := crystalCount - SpecialAttackCost;
      enemyWipes := enemyWipes + 1;
      spawner.enabled := false;
      pendingRestarts := pendingRestarts + 1;
    }

    /** The end of the restart pause: the spawner is switched back on and
        restarted at wave 1 with a single enemy. */
    method RestartSpawnerAfterPause()
      requires pendingRestarts > 0
      modifies this, spawner
      ensures Snapshot() == old(Snapshot())
      ensures pendingRestarts == old(pendingRestarts) - 1
      ensures spawner.enabled && spawner.Counters() == Waves.Tally(1, 1)
      ensures spawner.instantiated == old(spawner.instantiated) + 1
      ensures spawner.hasPlayer == old(spawner.hasPlayer)
      ensures crystalsSpawned == old(crystalsSpawned) && enemyWipes == old(enemyWipes)
      ensures Shown() == old(Shown())
    {
      spawner.enabled := true;
      spawner.RestartSpawning();
      pendingRestarts := pendingRestarts - 1;
    }

    /** Resumes a paused game and pauses a running one, with the pause menu
        shown exactly while paused. */
    method TogglePause()
      modifies this
      ensures Snapshot() == old(Snapshot()).(paused := !old(isPaused))
      ensures pauseMenuActive == isPaused
      ensures Shown() == old(Shown()).(pauseMenu := isPaused)
      ensures crystalsSpawned == old(crystalsSpawned) && enemyWipes == old(enemyWipes)
      ensures pendingRestarts == old(pendingRestarts)
    {
      if isPaused {
        ResumeGame();
        pauseMenuActive := false;
      } else {
        PauseGame();
        pauseMenuActive := true;
      }
    }

    method PauseGame()
      modifies this
      ensures Snapshot() == old(Snapshot()).(paused := true)
      ensures Shown() == old(Shown())
      ensures crystalsSpawned == old(crystalsSpawned) && enemyWipes == old(enemyWipes)
      ensures pendingRestarts == old(pendingRestarts)
    {
      isPaused := true;
    }

    method ResumeGame()
      modifies this
      ensures Snapshot() == old(Snapshot()).(paused := false)
      ensures Shown() == old(Shown())
      ensures crystalsSpawned == old(crystalsSpawned) && enemyWipes == old(enemyWipes)
      ensures pendingRestarts == old(pendingRestarts)
    {
      isPaused := false;
    }
  }
}
