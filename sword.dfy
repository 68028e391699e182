/** The player's sword attack (Assets/Scripts/PlayerAttack.cs): an attack
    lock with its timer, the facing direction, the sword's pose, and the hit
    box whose enemies are each destroyed and reported once to the game
    manager and once to the spawner.

    Each frame first handles input (start an attack, then update the facing,
    then pose the sword) and then runs the attack timer.  So an attack that
    starts this frame already gets this frame's time added, and its hit box
    is placed with last frame's facing. */
module Sword {
  import Waves
  import Session

  /** The attack state as a value. */
  datatype Stance = Stance(attacking: bool, timer: real, facingRight: bool)

  /** What one frame reads from the engine: the attack button (left click
      or space), the horizontal axis and Time.deltaTime. */
  datatype FrameInput = FrameInput(attackPressed: bool, axis: real, dt: real)

  /** A point or size in the plane. */
  datatype Vec = Vec(x: real, y: real)

  /** The hit box: 1.5 wide, 1.0 high, its centre 0.5 from the player. */
  const BoxWidth: real := 1.5
  const BoxHeight: real := 1.0
  const BoxDistance: real := 0.5
  /** The sword's local x offset when facing right (mirrored when facing left). */
  const SwordOffset: real := 5.5

  /** The facing after UpdatePlayerFacingDirection reads the axis. */
  function Facing(facingRight: bool, axis: real): bool
  {
    if axis > 0.0 then true else if axis < 0.0 then false else facingRight
  }

  /** The sword's (flipX, local x) after FlipSword. */
  function SwordPose(facingRight: bool): (bool, real)
  {
    if facingRight then (false, SwordOffset) else (true, -SwordOffset)
  }

  /** The centre of the box DetectEnemyHit queries. */
  function HitBoxCenter(player: Vec, facingRight: bool): Vec
  {
    Vec(player.x + (if facingRight then BoxDistance else -BoxDistance), player.y)
  }

  function HitBoxSize(): Vec
  {
    Vec(BoxWidth, BoxHeight)
  }

  /** Whether p lies in the axis-aligned box of this centre and size. */
  predicate InBox(center: Vec, size: Vec, p: Vec)
  {
    center.x - size.x / 2.0 <= p.x <= center.x + size.x / 2.0 &&
    center.y - size.y / 2.0 <= p.y <= center.y + size.y / 2.0
  }

  /** Whether this frame starts an attack (and so runs hit detection). */
  predicate Strikes(s: Stance, i: FrameInput)
  {
    i.attackPressed && !s.attacking
  }

  /** One call of Update. */
  function Step(s: Stance, i: FrameInput, duration: real): Stance
  {
    var s1 := if Strikes(s, i) then s.(attacking := true, timer := 0.0) else s;
    var s2 := s1.(facingRight := Facing(s1.facingRight, i.axis));
    if s2.attacking then
      var t := s2.timer + i.dt;
      if t >= duration then s2.(attacking := false, timer := t) else s2.(timer := t)
    else s2
  }

  /** Consecutive frames. */
  function Run(s: Stance, inputs: seq<FrameInput>, duration: real): Stance
    decreases |inputs|
  {
    if |inputs| == 0 then s else Run(Step(s, inputs[0], duration), inputs[1..], duration)
  }

  /** The number of frames among these that start an attack. */
  function StrikeCount(s: Stance, inputs: seq<FrameInput>, duration: real): nat
    decreases |inputs|
  {
    if |inputs| == 0 then 0
    else (if Strikes(s, inputs[0]) then 1 else 0) + StrikeCount(Step(s, inputs[0], duration), inputs[1..], duration)
  }

  /** The total frame time of these frames. */
  function TotalTime(inputs: seq<FrameInput>): real
    decreases |inputs|
  {
    if |inputs| == 0 then 0.0 else inputs[0].dt + TotalTime(inputs[1..])
  }

  /** Whether no frame time is negative. */
  predicate TimeMovesForward(inputs: seq<FrameInput>)
  {
    forall k :: 0 <= k < |inputs| ==> inputs[k].dt >= 0.0
  }

  /** The number of hit entries that are live colliders. */
  function LiveHits(hits: seq<bool>): nat
  {
    if |hits| == 0 then 0 else LiveHits(hits[..|hits| - 1]) + if hits[|hits| - 1] then 1 else 0
  }

  /** Every live entry counts once and null entries not at all: the count is
      at most the number of entries, all of them when every entry is live,
      and appending an entry adds one exactly when it is live. */
  lemma {:induction false} LiveHitsSpec(hits: seq<bool>)
    ensures LiveHits(hits) <= |hits|
    ensures (forall k :: 0 <= k < |hits| ==> hits[k]) ==> LiveHits(hits) == |hits|
    ensures (forall k :: 0 <= k < |hits| ==> !hits[k]) ==> LiveHits(hits) == 0
    ensures forall b :: LiveHits(hits + [b]) == LiveHits(hits) + if b then 1 else 0
    decreases |hits|
  {
    if |hits| > 0 {
      LiveHitsSpec(hits[..|hits| - 1]);
    }
    forall b
      ensures LiveHits(hits + [b]) == LiveHits(hits) + if b then 1 else 0
    {
      assert (hits + [b])[..|hits|] == hits;
    }
  }

  /** Positive axis input faces right, negative faces left, zero keeps the facing. */
  lemma FacingSpec(facingRight: bool, axis: real)
    ensures Facing(facingRight, axis) == (axis > 0.0 || (axis == 0.0 && facingRight))
  {
  }

  /** The sword is flipped exactly when the player faces left, and sits 5.5
      units to the side the player faces. */
  lemma SwordPoseSpec(facingRight: bool)
    ensures SwordPose(facingRight).0 == !facingRight
    ensures SwordPose(facingRight).1 == if facingRight then 5.5 else -5.5
    ensures SwordPose(!facingRight).1 == -SwordPose(facingRight).1
  {
  }

  /** The hit box is centred half a unit ahead of the player at the player's
      height, mirrored between the two facings, and always reaches back over
      the player's own position. */
  lemma HitBoxSpec(player: Vec, facingRight: bool)
    ensures HitBoxCenter(player, facingRight).y == player.y
    ensures HitBoxCenter(player, true).x - player.x == player.x - HitBoxCenter(player, false).x == 0.5
    ensures HitBoxSize() == Vec(1.5, 1.0)
    ensures InBox(HitBoxCenter(player, facingRight), HitBoxSize(), player)
  {
  }

  /** While an attack is on, pressing again starts nothing; the timer grows by
      the frame time and the attack ends exactly when it reaches the duration. */
  lemma AttackingFrame(s: Stance, i: FrameInput, duration: real)
    requires s.attacking
    ensures !Strikes(s, i)
    ensures Step(s, i, duration).timer == s.timer + i.dt
    ensures Step(s, i, duration).attacking <==> s.timer + i.dt < duration
  {
  }

  /** A new attack resets the timer and then already counts this frame's time. */
  lemma StrikeFrame(s: Stance, i: FrameInput, duration: real)
    requires Strikes(s, i)
    ensures Step(s, i, duration).timer == i.dt
    ensures Step(s, i, duration).attacking <==> i.dt < duration
  {
  }

  /** The hit box of a new attack is placed with the facing of the previous
      frame (PlayerAttack.Update promises `lastBoxCenter == HitBoxCenter(player,
      old(playerFacingRight))` for a striking frame): whenever a frame both
      strikes and turns, the frame ends facing one way with the box on the
      other side of the player. */
  lemma StrikeUsesPreviousFacing(s: Stance, i: FrameInput, duration: real, player: Vec)
    requires Strikes(s, i)
    ensures Step(s, i, duration).facingRight != s.facingRight <==>
      (s.facingRight && i.axis < 0.0) || (!s.facingRight && i.axis > 0.0)
    ensures Step(s, i, duration).facingRight != s.facingRight ==>
      (HitBoxCenter(player, s.facingRight).x > player.x <==> !Step(s, i, duration).facingRight)
  {
  }

  /** An attack that has not yet reached its duration stays on through frames
      whose time keeps it short, with the timer the sum of the frame times and
      no further attack started. */
  lemma {:induction false} AttackHolds(s: Stance, inputs: seq<FrameInput>, duration: real)
    requires s.attacking && TimeMovesForward(inputs)
    requires s.timer + TotalTime(inputs) < duration
    ensures Run(s, inputs, duration).attacking
    ensures Run(s, inputs, duration).timer == s.timer + TotalTime(inputs)
    ensures StrikeCount(s, inputs, duration) == 0
    decreases |inputs|
  {
    if |inputs| > 0 {
      TotalTimeNonNegative(inputs[1..]);
      AttackHolds(Step(s, inputs[0], duration), inputs[1..], duration);
    }
  }

  /** The attack ends on the first frame at which the timer reaches the
      duration: after frames that keep it short, one more frame that brings
      the timer to the duration ends it. */
  lemma {:induction false} AttackEnds(s: Stance, inputs: seq<FrameInput>, last: FrameInput, duration: real)
    requires s.attacking && TimeMovesForward(inputs)
    requires s.timer + TotalTime(inputs) < duration <= s.timer + TotalTime(inputs) + last.dt
    ensures !Run(s, inputs + [last], duration).attacking
    ensures StrikeCount(s, inputs + [last], duration) == 0
  {
    AttackHolds(s, inputs, duration);
    RunSnoc(s, inputs, last, duration);
  }

  /** Running frames and then one more. */
  lemma {:induction false} RunSnoc(s: Stance, inputs: seq<FrameInput>, last: FrameInput, duration: real)
    ensures Run(s, inputs + [last], duration) == Step(Run(s, inputs, duration), last, duration)
    ensures StrikeCount(s, inputs + [last], duration) ==
      StrikeCount(s, inputs, duration) + if Strikes(Run(s, inputs, duration), last) then 1 else 0
    decreases |inputs|
  {
    if |inputs| == 0 {
      assert inputs + [last] == [last];
    } else {
      assert (inputs + [last])[0] == inputs[0] && (inputs + [last])[1..] == inputs[1..] + [last];
      RunSnoc(Step(s, inputs[0], duration), inputs[1..], last, duration);
    }
  }

  lemma {:induction false} TotalTimeNonNegative(inputs: seq<FrameInput>)
    requires TimeMovesForward(inputs)
    ensures TotalTime(inputs) >= 0.0
    decreases |inputs|
  {
    if |inputs| > 0 {
      TotalTimeNonNegative(inputs[1..]);
    }
  }

  /** The player's attack object.  It reports kills to the game manager and
      the spawner that FindObjectOfType returns; the sword's visibility and
      pose, the last box queried and the enemies destroyed are ghost state. */
  class PlayerAttack {
    const manager: Session.GameManager
    const spawner: Waves.EnemySpawner
    /** The inspector setting for how long the sword stays out. */
    const attackDuration: real

    var isAttacking: bool
    var attackTimer: real
    var playerFacingRight: bool

    ghost var swordActive: bool
    ghost var swordFlipX: bool
    ghost var swordLocalX: real
    ghost var lastBoxCenter: Vec
    ghost var enemiesDestroyed: nat

    function Snapshot(): Stance
      reads this
    {
      Stance(isAttacking, attackTimer, playerFacingRight)
    }

    /** The sword is shown exactly while an attack is on. */
    ghost predicate Valid()
      reads this
    {
      swordActive == isAttacking
    }

    /** What k live hits did to the rest of the scene since the method began:
        k enemies destroyed, k kills counted with the manager (with their
        crystal drops), k kill notifications applied to the spawner (with the
        waves they start), and nothing else of the manager or the spawner
        changed. */
    twostate predicate Reported(k: nat)
      reads this, manager, spawner
    {
      && enemiesDestroyed == old(enemiesDestroyed) + k
      && manager.Snapshot() == old(manager.Snapshot()).(kills := old(manager.enemyKillCount) + k)
      && manager.crystalsSpawned == old(manager.crystalsSpawned) + Session.CrystalDrops(old(manager.enemyKillCount), k)
      && manager.Shown() == old(manager.Shown())
      && manager.enemyWipes == old(manager.enemyWipes) && manager.pendingRestarts == old(manager.pendingRestarts)
      && spawner.Counters() == Waves.KilledTimes(old(spawner.Counters()), k)
      && spawner.instantiated == old(spawner.instantiated) + Waves.KillsSpawn(old(spawner.Counters()), k)
      && spawner.enabled == old(spawner.enabled) && spawner.hasPlayer == old(spawner.hasPlayer)
    }

    /** The field initialisers: not attacking, timer zero, facing right. */
    constructor (manager: Session.GameManager, spawner: Waves.EnemySpawner, attackDuration: real)
      ensures this.manager == manager && this.spawner == spawner && this.attackDuration == attackDuration
      ensures Valid() && Snapshot() == Stance(false, 0.0, true)
      ensures enemiesDestroyed == 0
    {
      this.manager := manager;
      this.spawner := spawner;
      this.attackDuration := attackDuration;
      isAttacking := false;
      attackTimer := 0.0;
      playerFacingRight := true;
      swordActive := false;
      swordFlipX := false;
      swordLocalX := SwordOffset;
      lastBoxCenter := Vec(0.0, 0.0);
      enemiesDestroyed := 0;
    }

    /** The sword starts hidden. */
    method Start()
      modifies this
      ensures Snapshot() == old(Snapshot()) && !swordActive
      ensures swordFlipX == old(swordFlipX) && swordLocalX == old(swordLocalX)
      ensures lastBoxCenter == old(lastBoxCenter)
      ensures !isAttacking ==> Valid()
      ensures enemiesDestroyed == old(enemiesDestroyed)
    {
      swordActive := false;
    }

    /** One frame: input handling, then the attack timer.  `player` is the
        player's position and `hits` what the overlap query returns, one entry
        per collider (false for an entry that is null). */
    method Update(i: FrameInput, player: Vec, hits: seq<bool>)
      requires Valid()
      modifies this, manager, spawner
      ensures Valid() && Snapshot() == Step(old(Snapshot()), i, attackDuration)
      ensures (swordFlipX, swordLocalX) == SwordPose(playerFacingRight)
      ensures Strikes(old(Snapshot()), i) ==> lastBoxCenter == HitBoxCenter(player, old(playerFacingRight))
      ensures !Strikes(old(Snapshot()), i) ==> lastBoxCenter == old(lastBoxCenter)
      ensures Reported(if Strikes(old(Snapshot()), i) then LiveHits(hits) else 0)
    {
      HandleInput(i, player, hits);
      if isAttacking {
        attackTimer := attackTimer + i.dt;
        if attackTimer >= attackDuration {
          isAttacking := false;
          swordActive := false;
        }
      }
    }

    method HandleInput(i: FrameInput, player: Vec, hits: seq<bool>)
      requires Valid()
      modifies this, manager, spawner
      ensures Snapshot() == Stance(
        old(isAttacking) || i.attackPressed,
        if Strikes(old(Snapshot()), i) then 0.0 else old(attackTimer),
        Facing(old(playerFacingRight), i.axis))
      ensures (swordFlipX, swordLocalX) == SwordPose(playerFacingRight)
      ensures Valid()
      ensures Strikes(old(Snapshot()), i) ==> lastBoxCenter == HitBoxCenter(player, old(playerFacingRight))
      ensures !Strikes(old(Snapshot()), i) ==> lastBoxCenter == old(lastBoxCenter)
      ensures Reported(if Strikes(old(Snapshot()), i) then LiveHits(hits) else 0)
    {
      if i.attackPressed {
        StartAttack(player, hits);
      }
      UpdatePlayerFacingDirection(i.axis);
      FlipSword();
    }

    /** Starts an attack unless one is on: lock, reset the timer, show the
        sword and run hit detection once. */
    method StartAttack(player: Vec, hits: seq<bool>)
      requires Valid()
      modifies this, manager, spawner
      ensures Valid() && isAttacking
      ensures attackTimer == if old(isAttacking) then old(attackTimer) else 0.0
      ensures playerFacingRight == old(playerFacingRight)
      ensures swordFlipX == old(swordFlipX) && swordLocalX == old(swordLocalX)
      ensures !old(isAttacking) ==> lastBoxCenter == HitBoxCenter(player, playerFacingRight)
      ensures old(isAttacking) ==> lastBoxCenter == old(lastBoxCenter)
      ensures Reported(if old(isAttacking) then 0 else LiveHits(hits))
    {
      if !isAttacking {
        isAttacking := true;
        attackTimer := 0.0;
        swordActive := true;
        DetectEnemyHit(player, hits);
      }
    }

    /** Queries the hit box and, for every live collider in it, destroys the
        enemy, counts a kill with the game manager and then notifies the
        spawner, in that order. */
    method DetectEnemyHit(player: Vec, hits: seq<bool>)
      modifies this, manager, spawner
      ensures Snapshot() == old(Snapshot())
      ensures swordActive == old(swordActive)
      ensures swordFlipX == old(swordFlipX) && swordLocalX == old(swordLocalX)
      ensures lastBoxCenter == HitBoxCenter(player, playerFacingRight)
      ensures Reported(LiveHits(hits))
    {
      lastBoxCenter := HitBoxCenter(player, playerFacingRight);
      var n := 0;
      while n < |hits|
        invariant 0 <= n <= |hits|
        invariant Snapshot() == old(Snapshot()) && swordActive == old(swordActive)
        invariant swordFlipX == old(swordFlipX) && swordLocalX == old(swordLocalX)
        invariant lastBoxCenter == HitBoxCenter(player, playerFacingRight)
        invariant Reported(LiveHits(hits[..n]))
      {
        assert hits[..n + 1][..n] == hits[..n];
        if hits[n] {
          enemiesDestroyed := enemiesDestroyed + 1;
          manager.IncrementKillCount();
          spawner.OnEnemyKilled();
        }
        n := n + 1;
      }
      assert hits[..|hits|] == hits;
    }

    /** Positive axis input faces right, negative faces left. */
    method UpdatePlayerFacingDirection(axis: real)
      modifies this
      ensures Snapshot() == old(Snapshot()).(facingRight := Facing(old(playerFacingRight), axis))
      ensures swordActive == old(swordActive) && swordFlipX == old(swordFlipX) && swordLocalX == old(swordLocalX)
      ensures lastBoxCenter == old(lastBoxCenter) && enemiesDestroyed == old(enemiesDestroyed)
    {
      if axis > 0.0 {
        playerFacingRight := true;
      } else if axis < 0.0 {
        playerFacingRight := false;
      }
    }

    /** Flips the sword sprite and mirrors its position to the facing side. */
    method FlipSword()
      modifies this
      ensures Snapshot() == old(Snapshot())
      ensures (swordFlipX, swordLocalX) == SwordPose(playerFacingRight)
      ensures swordActive == old(swordActive)
      ensures lastBoxCenter == old(lastBoxCenter) && enemiesDestroyed == old(enemiesDestroyed)
    {
      if playerFacingRight {
        swordFlipX := false;
        swordLocalX := SwordOffset;
      } else {
        swordFlipX := true;
        swordLocalX := -SwordOffset;
      }
    }
  }
}
