# Session, wave and combat state of a 2D side-scrolling action game

The game is a set of engine behaviours driven once per frame. Under the
engine calls sits a small amount of integer, flag and timer state, and that
state is what this project models and proves things about:

- **Waves** (`waves.dfy`, `Assets/Scripts/EnemySpawner.cs`): the current wave
  number and the spawner's tally of live enemies. Spawning n enemies adds n.
  A kill takes one off, with no floor. A tally at or below zero starts the
  next wave, which is as large as its number. Both restarts go back to wave 1
  with a single enemy.
- **Session** (`session.dfy`, `Assets/Scripts/GameManager.cs`): the countdown,
  the kill and crystal counters, the pause toggle and the game-over latch,
  and the minutes/seconds split of the timer text. A crystal drops on every
  tenth kill. The special attack costs ten crystals, wipes the enemies and
  restarts the spawner after a pause.
- **Sword** (`sword.dfy`, `Assets/Scripts/PlayerAttack.cs`): the attack lock and
  its timer, the facing, the sword's pose, and the hit box. Every live enemy
  in the box is destroyed and reported once to the game manager and once to
  the spawner.
- **Player** (`player.dfy`, `Assets/Scripts/PlayerMovement.cs`): lives and the
  three heart icons, jumping only when grounded, the input lock during
  knockback, the horizontal clamp and the sprite's facing.
- **Chase** (`chase.dfy`, `Assets/Scripts/BasicEnemyMovement.cs`): the enemy's
  turn delay: its direction, its moving flag and the time it has waited.

Each module has two parts. The first is a value datatype for the component's
state, with pure functions for what one call does (`Waves.Killed`,
`Session.Frame`, `Sword.Step`, `Player.UpdatedHearts`, `Chase.Step`) and for
runs of calls. The second is a class with the source's fields whose methods
change them in place. Each method's `ensures` ties the new state to the pure
function of the old state (`Counters() == Killed(old(Counters()))`,
`Snapshot() == Frame(old(Snapshot()), input)`). Lemmas over the pure
functions state the multi-frame properties.

The engine's side effects are ghost state on the classes:

- scene objects switched on and off;
- enemies instantiated and destroyed;
- crystals dropped;
- spawner restarts scheduled;
- jumps and knockbacks;
- the animator's moving flag;
- sprite flips.

Frame inputs become method parameters: key presses, the horizontal axis,
`Time.deltaTime`, positions, and the list of colliders the overlap query
returns. Coroutine waits become separate event methods:
`GameManager.RestartSpawnerAfterPause` and `PlayerMovement.EndKnockback`.
Times and positions are `real`.

The model follows the code, including these behaviours:

- The tally has no floor at zero.
- `ResetSpawner`/`RestartSpawning` spawn one enemy, not `initialSpawnCount`.
- A hit reports the kill to the game manager before the spawner.
- The special attack is not gated by pause or game over.
- A kill or a crystal pickup is counted whatever the session phase.

## Model

| member | source | states |
|---|---|---|
| Waves.KilledSpec | Assets/Scripts/EnemySpawner.cs:35-47 | a kill lowers the tally by exactly one; the wave advances iff that leaves it ≤ 0, and then the tally becomes (old − 1) + new wave; otherwise the wave is unchanged |
| Waves.SpawnedSpec | Assets/Scripts/EnemySpawner.cs:49-66 | spawning `count` raises the tally by exactly `count` (nothing for a negative count) and keeps the wave |
| Waves.KillOnEmptyTallyAdvances | Assets/Scripts/EnemySpawner.cs:37-46 | with no floor, a kill on a zero tally goes to −1 and so advances the wave |
| Waves.RestartedSpec | Assets/Scripts/EnemySpawner.cs:88-102 | both restarts end at wave 1 with exactly one enemy, whatever `initialSpawnCount` is |
| Waves.StepsStayReachable | Assets/Scripts/EnemySpawner.cs:35-102 | spawn, kill and restart keep wave ≥ 1 and tally ≥ 0, and a kill always leaves at least one enemy counted |
| Waves.KillsStayReachable | Assets/Scripts/EnemySpawner.cs:35-47 | any run of kills from a reachable state keeps wave ≥ 1 and tally ≥ 0, so the missing floor never makes the tally negative |
| Waves.WaveNeverDecreases | Assets/Scripts/EnemySpawner.cs:44 | n kills never lower the wave and raise it by at most n |
| Waves.KillsWithinWave | Assets/Scripts/EnemySpawner.cs:37-41 | inside a wave of n live enemies, the first j < n kills only count down |
| Waves.WaveClearedByItsKills | Assets/Scripts/EnemySpawner.cs:37-46 | from a wave holding n ≥ 1 enemies, exactly n kills cause exactly one advance, after which the tally equals the new wave number |
| Waves.WavesInSequence | Assets/Scripts/EnemySpawner.cs:41-46 | from wave w with w enemies, killing every enemy of k successive waves leads to wave w + k with w + k enemies |
| Waves.TallyCountsLiveEnemies | Assets/Scripts/EnemySpawner.cs:35-66 | after n kills the tally equals the old tally minus n plus the enemies the wave advances instantiated (`KillsSpawn`), so it counts live enemies |
| Waves.EnemySpawner.constructor | Assets/Scripts/EnemySpawner.cs:10-13 | a new spawner is at wave 1 with no enemies |
| Waves.EnemySpawner.InitializeSpawner | Assets/Scripts/EnemySpawner.cs:15-33 | with a player (assigned or found by tag) the first wave of `initialSpawnCount` is spawned; with none no counter changes |
| Waves.EnemySpawner.OnEnemyKilled | Assets/Scripts/EnemySpawner.cs:35-47 | the counters become `Killed` of the old counters; the enemies instantiated are the new wave's (`WaveSpawn`), if one starts |
| Waves.EnemySpawner.SpawnEnemies | Assets/Scripts/EnemySpawner.cs:49-66 | the loop raises the tally and the instantiated count by max(count, 0) and leaves the wave alone |
| Waves.EnemySpawner.ResetSpawner | Assets/Scripts/EnemySpawner.cs:88-94 | counters end at wave 1 with one enemy; one enemy is instantiated |
| Waves.EnemySpawner.RestartSpawning | Assets/Scripts/EnemySpawner.cs:96-102 | counters end at wave 1 with one enemy; one enemy is instantiated |
| Session.TimerDisplay | Assets/Scripts/GameManager.cs:94-99 | for a non-negative time the display shows whole minutes and 0 ≤ seconds < 60 with minutes·60 + seconds = ⌊t⌋ |
| Session.NegativeTimeDisplay | Assets/Scripts/GameManager.cs:94-99 | with C#'s truncating float remainder, a time of −0.5 s shows as −1 minute −1 second |
| Session.PauseKeySpec | Assets/Scripts/GameManager.cs:67-71 | pressing P flips `isPaused` and ends the frame before the attack and clock logic; two presses restore the state |
| Session.SpecialAttackSpec | Assets/Scripts/GameManager.cs:74-77 | the special attack fires only with ≥ 10 crystals and a right click, debits exactly 10, so crystals never go negative |
| Session.SpecialIgnoresPauseAndGameOver | Assets/Scripts/GameManager.cs:74-79 | the special attack fires while paused and after game over, because its check precedes the guard |
| Session.FrozenFrame | Assets/Scripts/GameManager.cs:79-81 | a frame that is paused, over or untimed leaves the clock and the flags alone |
| Session.TickSpec | Assets/Scripts/GameManager.cs:74-85 | while running, a positive clock goes down by exactly dt, whether or not the special attack fires that frame (which only debits its 10 crystals) |
| Session.TimeUpSpec | Assets/Scripts/GameManager.cs:74-91 | the first running frame with time ≤ 0 clamps it to 0, latches game over and stops the timer, whether or not the special attack fires that frame |
| Session.OvershootLastsOneFrame | Assets/Scripts/GameManager.cs:81-91 | the clock can be negative for one frame (0.25 s − 1 s = −0.75 s, game still on); the next frame clamps it and ends the game |
| Session.FrozenRun | Assets/Scripts/GameManager.cs:79 | without the P key, a paused, finished or untimed session keeps its clock and flags over any number of frames |
| Session.GameOverIsForever | Assets/Scripts/GameManager.cs:101-104 | once over, the session stays over through every later frame |
| Session.CrystalsNeverNegative | Assets/Scripts/GameManager.cs:74-77 | no sequence of frames takes the crystal count below zero or changes the kill count |
| Session.Countdown | Assets/Scripts/GameManager.cs:81-85 | n frames of d > 0 seconds run a clock of n·d seconds down to exactly 0 with the game still on |
| Session.RunsDown | Assets/Scripts/GameManager.cs:79-91 | over frames without P, a running session is either over with the clock at 0, or still running with the clock down by exactly the frames' total time, whatever the frame times |
| Session.TimeRunsOut | Assets/Scripts/GameManager.cs:79-111 | for any frame times that add up to at least the clock, one more frame without P finds the game over with the clock at 0 |
| Session.FiveMinuteMatch | Assets/Scripts/GameManager.cs:20-91 | a five-minute match reaches 0 after 300 one-second frames and ends on frame 301 |
| Session.CrystalDropsCount | Assets/Scripts/GameManager.cs:113-124 | raising the kill count from k to k + n drops (k+n)/10 − k/10 crystals, so N kills from zero drop ⌊N/10⌋ |
| Session.GameManager.constructor | Assets/Scripts/GameManager.cs:23-28 | a new manager has zero time, kills and crystals, and no flag set |
| Session.GameManager.Start | Assets/Scripts/GameManager.cs:30-43 | the clock is set to startMinutes·60 with everything else unchanged, and the title screen is shown |
| Session.GameManager.StartGame | Assets/Scripts/GameManager.cs:45-56 | the timer runs, the scene becomes the playing scene, and the spawner is initialised: with a player its first wave of `initialSpawnCount` is counted and instantiated |
| Session.GameManager.Update | Assets/Scripts/GameManager.cs:64-92 | the state becomes `Frame` of the old state; the scene is the title screen on the frame that ends the game and otherwise unchanged except the pause menu, which tracks the P toggle; the special attack wipes enemies, switches the spawner off and schedules a restart; the spawner's counters and instantiations stay |
| Session.GameManager.TriggerGameOver | Assets/Scripts/GameManager.cs:101-111 | sets game over, stops the timer and shows the title screen |
| Session.GameManager.IncrementKillCount | Assets/Scripts/GameManager.cs:113-124 | raises the kill count by exactly one and drops a crystal iff the new count is a multiple of 10; the scene and the other counters stay |
| Session.GameManager.SpawnCrystal | Assets/Scripts/GameManager.cs:136-149 | drops one crystal; no counter and no scene object changes |
| Session.GameManager.CollectCrystal | Assets/Scripts/GameManager.cs:152-157 | raises the crystal count by exactly one; no other field and no scene object changes |
| Session.GameManager.SpecialAttack | Assets/Scripts/GameManager.cs:159-173 | debits 10 crystals, wipes the enemies, switches the spawner off and schedules its restart; the scene and the spawner's counters and instantiations stay |
| Session.GameManager.RestartSpawnerAfterPause | Assets/Scripts/GameManager.cs:182-183 | the spawner is switched back on and restarted at wave 1 with one enemy instantiated; the manager's state, its scene and the spawner's player stay |
| Session.GameManager.TogglePause | Assets/Scripts/GameManager.cs:187-199 | flips `isPaused`, with the pause menu shown exactly while paused and no other scene object changed |
| Session.GameManager.PauseGame | Assets/Scripts/GameManager.cs:201-205 | sets `isPaused`; nothing else changes |
| Session.GameManager.ResumeGame | Assets/Scripts/GameManager.cs:207-211 | clears `isPaused`; nothing else changes |
| Sword.LiveHitsSpec | Assets/Scripts/PlayerAttack.cs:120-129 | each non-null collider counts once and null entries not at all |
| Sword.FacingSpec | Assets/Scripts/PlayerAttack.cs:134-145 | positive axis input faces right, negative faces left, zero keeps the facing |
| Sword.SwordPoseSpec | Assets/Scripts/PlayerAttack.cs:147-159 | sword `flipX == !facingRight`; local x is +5.5 facing right and −5.5 facing left |
| Sword.HitBoxSpec | Assets/Scripts/PlayerAttack.cs:104-115 | the box is 1.5 × 1.0, centred at player x ± 0.5 by facing at the player's y, and always covers the player's own position |
| Sword.AttackingFrame | Assets/Scripts/PlayerAttack.cs:32-63 | while attacking, pressing starts nothing, the timer grows by dt and the attack ends iff the timer reaches the duration |
| Sword.StrikeFrame | Assets/Scripts/PlayerAttack.cs:32-66 | a new attack resets the timer and already counts its own frame's time |
| Sword.StrikeUsesPreviousFacing | Assets/Scripts/PlayerAttack.cs:47-112 | for any striking frame, the frame turns iff the axis points against the old facing, and then the box (placed with the old facing) lies on the side the player no longer faces |
| Sword.AttackHolds | Assets/Scripts/PlayerAttack.cs:32-63 | an attack stays on, with timer = start + total frame time and no new strike, while that total is below the duration |
| Sword.AttackEnds | Assets/Scripts/PlayerAttack.cs:32-40 | the attack ends on the first frame at which its timer reaches the duration |
| Sword.PlayerAttack.constructor | Assets/Scripts/PlayerAttack.cs:14-16 | a new attack object is idle, with timer 0 and facing right |
| Sword.PlayerAttack.Start | Assets/Scripts/PlayerAttack.cs:19-24 | hides the sword; the stance, the sword's pose and the last box stay |
| Sword.PlayerAttack.Update | Assets/Scripts/PlayerAttack.cs:27-42 | the stance becomes `Step` of the old one; the sword is shown iff attacking; a strike's box uses the old facing, and a frame without a strike queries no box; a strike reports each live hit once to both tallies (`Reported`: kills, crystal drops, spawner kills and the waves they instantiate), and nothing else of the manager or the spawner changes |
| Sword.PlayerAttack.HandleInput | Assets/Scripts/PlayerAttack.cs:44-59 | attack first (with the old facing), then the facing update, then the sword pose; no box is queried without a strike; the strike's effects on the manager and the spawner are exactly `Reported` of its live hits |
| Sword.PlayerAttack.StartAttack | Assets/Scripts/PlayerAttack.cs:61-77 | no effect while attacking (not even on the last box); otherwise locks, resets the timer to 0, shows the sword and runs hit detection once, with exactly `Reported` of its live hits |
| Sword.PlayerAttack.DetectEnemyHit | Assets/Scripts/PlayerAttack.cs:102-130 | queries the box at `HitBoxCenter`; k live hits destroy k enemies, add k kills (with their crystal drops) and apply k spawner kills (with the enemies their wave advances instantiate); the manager's scene, wipes and pending restarts and the spawner's enabled flag and player stay |
| Sword.PlayerAttack.UpdatePlayerFacingDirection | Assets/Scripts/PlayerAttack.cs:134-145 | the facing becomes `Facing(old facing, axis)` |
| Sword.PlayerAttack.FlipSword | Assets/Scripts/PlayerAttack.cs:147-159 | the sword's flip and offset become `SwordPose(facing)` |
| Player.Clamp | Assets/Scripts/PlayerMovement.cs:61-62 | when left ≤ right the result lies in [left, right], and a value already inside is kept |
| Player.UpdatedHeartsSpec | Assets/Scripts/PlayerMovement.cs:163-178 | 2 lives puts out heart 3, 1 puts out heart 2, ≤ 0 puts out heart 1, other values change nothing; no heart is switched on |
| Player.DamagedSpec | Assets/Scripts/PlayerMovement.cs:137-155 | a hit takes exactly one life, with no floor, and never switches a heart on |
| Player.DamageKeepsHeartsInStep | Assets/Scripts/PlayerMovement.cs:139-178 | hearts matching the lives still match after a hit |
| Player.HeartsTrackLives | Assets/Scripts/PlayerMovement.cs:15-178 | with maxLives ≥ 3 and one hit at a time, the hearts shown equal the lives left clamped to [0, 3]; for maxLives = 3 that is max(lives, 0) |
| Player.HeartsOnlyGoOut | Assets/Scripts/PlayerMovement.cs:46-178 | after Start, every hit leaves at most the hearts that were on before it |
| Player.HeartsMismatchBelowThree | Assets/Scripts/PlayerMovement.cs:43-178 | with maxLives = 2, one hit leaves hearts 1 and 3 on for a single life |
| Player.GroundStepSpec | Assets/Scripts/PlayerMovement.cs:65-128 | a jump needs `isGrounded` and clears it; only a Ground collision sets it |
| Player.NoDoubleJump | Assets/Scripts/PlayerMovement.cs:65-128 | over any run of frames and collisions, jumps never exceed Ground landings plus one for starting grounded |
| Player.FlipAfterSpec | Assets/Scripts/PlayerMovement.cs:99-106 | input > 0 gives `flipX` false, < 0 gives true, 0 leaves it |
| Player.PlayerMovement.constructor | Assets/Scripts/PlayerMovement.cs:11-27 | a new player is grounded and not knocked back |
| Player.PlayerMovement.Start | Assets/Scripts/PlayerMovement.cs:43-48 | lives become `maxLives` and all three hearts are on |
| Player.PlayerMovement.Update | Assets/Scripts/PlayerMovement.cs:51-106 | knocked back: nothing changes; otherwise x is clamped to the boundaries, W jumps only when grounded, and the sprite faces the input |
| Player.PlayerMovement.MoveBody | Assets/Scripts/PlayerMovement.cs:57 | the physics engine moves the body between frames |
| Player.PlayerMovement.OnCollisionEnter2D | Assets/Scripts/PlayerMovement.cs:122-135 | Ground sets `isGrounded`; Enemy costs exactly one life, updates the hearts and locks input |
| Player.PlayerMovement.TakeDamage | Assets/Scripts/PlayerMovement.cs:137-161 | one life less, knockback counted, input locked, hearts updated |
| Player.PlayerMovement.UpdateHearts | Assets/Scripts/PlayerMovement.cs:163-178 | the hearts become `UpdatedHearts(currentLives, old hearts)` |
| Player.PlayerMovement.EndKnockback | Assets/Scripts/PlayerMovement.cs:180-185 | the end of the knockback pause unlocks input |
| Chase.DesiredSpec | Assets/Scripts/BasicEnemyMovement.cs:49 | the wanted direction is 1 iff the player is strictly right of the enemy, otherwise −1, ties included |
| Chase.StepSpec | Assets/Scripts/BasicEnemyMovement.cs:51-62 | a different wanted direction stops the enemy and adds dt; reaching the delay turns, moves and resets the timer; the same direction changes nothing |
| Chase.FirstFrameTurns | Assets/Scripts/BasicEnemyMovement.cs:13-62 | the initial direction 0 is never wanted, so the first frame always begins a turn delay |
| Chase.DirectionIsUnit | Assets/Scripts/BasicEnemyMovement.cs:13-62 | over frames that all want one direction, the direction stays in {−1, 0, 1} and once changed is that wanted direction |
| Chase.DirectionStaysUnit | Assets/Scripts/BasicEnemyMovement.cs:13-62 | over any frames, however often the wanted direction switches between ±1, the direction stays in {−1, 0, 1} and once changed is ±1 |
| Chase.TurnWaits | Assets/Scripts/BasicEnemyMovement.cs:51-55 | while the accumulated time is below the delay the enemy keeps its direction, stands still and has waited exactly the total frame time |
| Chase.TurnCompletes | Assets/Scripts/BasicEnemyMovement.cs:58-62 | the frame that brings the wait to the delay turns the enemy, lets it move and resets the timer |
| Chase.SameSideFreezes | Assets/Scripts/BasicEnemyMovement.cs:51-70 | frames that want the current direction change nothing at all: a pending pause is neither cancelled nor reset |
| Chase.CrossBackStopsForGood | Assets/Scripts/BasicEnemyMovement.cs:51-70 | a reachable run in which the player steps back and forth leaves the enemy standing still for good while the player stays on its right |
| Chase.BasicEnemyMovement.constructor | Assets/Scripts/BasicEnemyMovement.cs:11-13 | direction 0, moving, timer 0 |
| Chase.BasicEnemyMovement.Start | Assets/Scripts/BasicEnemyMovement.cs:17-42 | finds the player by tag when unassigned and faces the sprite toward it |
| Chase.BasicEnemyMovement.Update | Assets/Scripts/BasicEnemyMovement.cs:44-87 | no player: nothing changes; otherwise the state becomes `Step` of the old one, and the enemy moves and the animator flag is set exactly when `isMoving` holds |
| Chase.BasicEnemyMovement.UpdateSpriteDirection | Assets/Scripts/BasicEnemyMovement.cs:90-97 | the sprite is flipped iff the player is to the right |

## Left out

- Where enemies and crystals appear: `GetSpawnPosition` (random angle, trigonometry, a ground raycast in a loop that need not end) and the random crystal x. A spawn is a counter update plus a ghost instantiation count.
- Waves.EnemySpawner.SpawnEnemies: when no player was ever found, the source's spawn-position lookup dereferences a missing player and throws before the first enemy. The model counts the spawn anyway. The missing player only arises when no object has the Player tag; then the first wave never spawns, so no enemy is ever killed.
- Physics: velocities, jump and knockback impulses, collision resolution and `Vector2.MoveTowards`. The overlap query is a given list of colliders. The body's motion is the `MoveBody` event, and an enemy step is a ghost counter.
- Coroutine timing: the 3-second spawner pause and the half-second knockback are the explicit events `RestartSpawnerAfterPause` and `EndKnockback`. Nothing here measures the delay. Overlapping knockbacks, where an earlier coroutine unlocks input early, are not distinguished.
- `Time.timeScale`: pausing sets it to 0, which zeroes `Time.deltaTime` for the other behaviours. The model passes each frame's dt as a parameter.
- Audio (`AudioManager.cs`, `SwitchMusicTrigger.cs`, the sounds in `PlayerMovement.Update`), animator calls, gizmo drawing, UI text formatting beyond the minutes/seconds split, `QuitGame`/`Application.Quit`, and the sword's z position.
- `RepeatBackground.cs` is not part of this model: it only resets a transform.
- `Crystal.cs` is not part of this model: it only calls `CollectCrystal` from a trigger.
- 32-bit integer overflow of the kill, crystal, wave and enemy counters, and of `startMinutes * 60`. Counters are unbounded integers.
- Float rounding: times and positions are exact reals.
- `Player.Clamp` follows `Mathf.Clamp` as the engine documents it. The engine's source is not part of this model.
