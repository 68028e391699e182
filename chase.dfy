/** Chase-direction hysteresis of the basic enemy
    (Assets/Scripts/BasicEnemyMovement.cs).

    The enemy wants to head toward the player (right exactly when the player
    is strictly to its right).  While that differs from its current
    direction it stands still and accumulates time; once the accumulated
    time reaches the delay it turns, resets the timer and moves again.  A
    frame whose wanted direction equals the current one touches neither the
    timer nor the moving flag, so a pause that has begun is not cancelled
    when the player crosses back. */
module Chase {

  /** The enemy's direction state as a value. */
  datatype Pursuit = Pursuit(direction: int, moving: bool, timer: real)

  /** The state the field initialisers give: no direction (the C# default
      0), allowed to move, timer zero. */
  function Initial(): Pursuit
  {
    Pursuit(0, true, 0.0)
  }

  /** The direction the enemy wants: 1 when the player is strictly to its
      right, otherwise -1 (so a tie heads left). */
  function Desired(playerX: real, enemyX: real): int
  {
    if playerX > enemyX then 1 else -1
  }

  /** One call of Update with a player present. */
  function Step(s: Pursuit, desired: int, dt: real, delay: real): Pursuit
  {
    if desired != s.direction then
      var t := s.timer + dt;
      if t >= delay then Pursuit(desired, true, 0.0) else Pursuit(s.direction, false, t)
    else s
  }

  /** Consecutive frames that all want the same direction: the special case
      of `Pursue` below in which the player stays on one side. */
  function Hold(s: Pursuit, desired: int, dts: seq<real>, delay: real): Pursuit
    decreases |dts|
  {
    if |dts| == 0 then s else Hold(Step(s, desired, dts[0], delay), desired, dts[1..], delay)
  }

  /** The total of these frame times. */
  function Total(dts: seq<real>): real
    decreases |dts|
  {
    if |dts| == 0 then 0.0 else dts[0] + Total(dts[1..])
  }

  predicate AllNonNegative(dts: seq<real>)
  {
    forall k :: 0 <= k < |dts| ==> dts[k] >= 0.0
  }

  /** The wanted direction is 1 exactly when the player is strictly to the
      right, and -1 otherwise, ties included. */
  lemma DesiredSpec(playerX: real, enemyX: real)
    ensures Desired(playerX, enemyX) == 1 <==> playerX > enemyX
    ensures Desired(playerX, enemyX) == -1 <==> playerX <= enemyX
  {
  }

  /** A frame that wants a different direction stops the enemy and adds the
      frame time; reaching the delay turns it, lets it move and resets the
      timer.  A frame that wants the current direction changes nothing. */
  lemma StepSpec(s: Pursuit, desired: int, dt: real, delay: real)
    ensures desired != s.direction && s.timer + dt < delay ==>
      Step(s, desired, dt, delay) == s.(moving := false, timer := s.timer + dt)
    ensures desired != s.direction && s.timer + dt >= delay ==>
      Step(s, desired, dt, delay) == Pursuit(desired, true, 0.0)
    ensures desired == s.direction ==> Step(s, desired, dt, delay) == s
    ensures Step(s, desired, dt, delay).direction != s.direction ==> Step(s, desired, dt, delay).direction == desired
  {
  }

  /** The first frame always begins a turn: the initial direction 0 is never
      wanted, so the enemy stops unless the first frame already reaches the
      delay, in which case it turns at once. */
  lemma FirstFrameTurns(playerX: real, enemyX: real, dt: real, delay: real)
    ensures var d := Desired(playerX, enemyX);
      Step(Initial(), d, dt, delay) == if dt >= delay then Pursuit(d, true, 0.0) else Pursuit(0, false, dt)
  {
  }

  /** The direction is always -1, 0 or 1, and once changed it is -1 or 1. */
  lemma {:induction false} DirectionIsUnit(s: Pursuit, desired: int, dts: seq<real>, delay: real)
    requires desired == 1 || desired == -1
    requires -1 <= s.direction <= 1
    ensures -1 <= Hold(s, desired, dts, delay).direction <= 1
    ensures Hold(s, desired, dts, delay).direction != s.direction ==> Hold(s, desired, dts, delay).direction == desired
    decreases |dts|
  {
    if |dts| > 0 {
      DirectionIsUnit(Step(s, desired, dts[0], delay), desired, dts[1..], delay);
    }
  }

  /** What one frame of Update reads: the wanted direction and the frame time. */
  datatype Sighting = Sighting(desired: int, dt: real)

  /** Consecutive frames in which the player may cross from side to side. */
  function Pursue(s: Pursuit, frames: seq<Sighting>, delay: real): Pursuit
    decreases |frames|
  {
    if |frames| == 0 then s
    else Pursue(Step(s, frames[0].desired, frames[0].dt, delay), frames[1..], delay)
  }

  /** Whether every frame wants one of the two directions Desired yields. */
  predicate WantsUnit(frames: seq<Sighting>)
  {
    forall k :: 0 <= k < |frames| ==> frames[k].desired == 1 || frames[k].desired == -1
  }

  /** However often the player crosses, the direction stays -1, 0 or 1, and
      once it has changed it is -1 or 1. */
  lemma {:induction false} DirectionStaysUnit(s: Pursuit, frames: seq<Sighting>, delay: real)
    requires WantsUnit(frames)
    requires -1 <= s.direction <= 1
    ensures -1 <= Pursue(s, frames, delay).direction <= 1
    ensures Pursue(s, frames, delay).direction != s.direction ==>
      Pursue(s, frames, delay).direction == 1 || Pursue(s, frames, delay).direction == -1
    decreases |frames|
  {
    if |frames| > 0 {
      assert WantsUnit(frames[1..]) by {
        forall k | 0 <= k < |frames[1..]| ensures frames[1..][k].desired == 1 || frames[1..][k].desired == -1 {
          assert frames[1..][k] == frames[k + 1];
        }
      }
      DirectionStaysUnit(Step(s, frames[0].desired, frames[0].dt, delay), frames[1..], delay);
    }
  }

  /** While the player stays on the other side, the enemy waits: if the frame
      times so far leave the timer short of the delay, it keeps its
      direction, stands still and has accumulated exactly their total. */
  lemma {:induction false} TurnWaits(s: Pursuit, desired: int, dts: seq<real>, delay: real)
    requires desired != s.direction && AllNonNegative(dts)
    requires s.timer + Total(dts) < delay
    ensures Hold(s, desired, dts, delay).direction == s.direction
    ensures |dts| > 0 ==> !Hold(s, desired, dts, delay).moving
    ensures Hold(s, desired, dts, delay).timer == s.timer + Total(dts)
    decreases |dts|
  {
    if |dts| > 0 {
      TotalNonNegative(dts[1..]);
      TurnWaits(Step(s, desired, dts[0], delay), desired, dts[1..], delay);
    }
  }

  /** ... and the frame that brings the timer to the delay completes the
      turn: the enemy faces the player, moves, and the timer is back at zero. */
  lemma TurnCompletes(s: Pursuit, desired: int, dts: seq<real>, last: real, delay: real)
    requires desired != s.direction && AllNonNegative(dts)
    requires s.timer + Total(dts) < delay <= s.timer + Total(dts) + last
    ensures Hold(s, desired, dts + [last], delay) == Pursuit(desired, true, 0.0)
  {
    TurnWaits(s, desired, dts, delay);
    HoldSnoc(s, desired, dts, last, delay);
  }

  /** Frames that want the current direction change nothing at all, however
      many there are; in particular a stopped enemy whose player has crossed
      back stays stopped. */
  lemma {:induction false} SameSideFreezes(s: Pursuit, dts: seq<real>, delay: real)
    ensures Hold(s, s.direction, dts, delay) == s
    decreases |dts|
  {
    if |dts| > 0 {
      SameSideFreezes(Step(s, s.direction, dts[0], delay), dts[1..], delay);
    }
  }

  /** A reachable stuck state: with a half-second delay an enemy that has
      turned right, then sees the player step left for a tenth of a second,
      and then sees the player back on the right, stands still for good. */
  lemma CrossBackStopsForGood(dts: seq<real>)
    ensures Step(Initial(), 1, 0.5, 0.5) == Pursuit(1, true, 0.0)
    ensures Step(Pursuit(1, true, 0.0), -1, 0.1, 0.5) == Pursuit(1, false, 0.1)
    ensures !Hold(Pursuit(1, false, 0.1), 1, dts, 0.5).moving
  {
    SameSideFreezes(Pursuit(1, false, 0.1), dts, 0.5);
  }

  lemma {:induction false} HoldSnoc(s: Pursuit, desired: int, dts: seq<real>, last: real, delay: real)
    ensures Hold(s, desired, dts + [last], delay) == Step(Hold(s, desired, dts, delay), desired, last, delay)
    decreases |dts|
  {
    if |dts| == 0 {
      assert dts + [last] == [last];
    } else {
      assert (dts + [last])[0] == dts[0] && (dts + [last])[1..] == dts[1..] + [last];
      HoldSnoc(Step(s, desired, dts[0], delay), desired, dts[1..], last, delay);
    }
  }

  lemma {:induction false} TotalNonNegative(dts: seq<real>)
    requires AllNonNegative(dts)
    ensures Total(dts) >= 0.0
    decreases |dts|
  {
    if |dts| > 0 {
      TotalNonNegative(dts[1..]);
    }
  }

  /** The enemy object.  The player reference is a flag; the sprite's flip,
      the animator's IsMoving parameter and the moves toward the player are
      ghost state. */
  class BasicEnemyMovement {
    /** Inspector setting: the pause before turning, in seconds. */
    const directionChangeDelay: real

    var hasPlayer: bool
    var isMoving: bool
    var timeSinceLastChange: real
    var currentDirection: int

    ghost var flipX: bool
    ghost var animatorIsMoving: bool
    ghost var moves: nat

    function Snapshot(): Pursuit
      reads this
    {
      Pursuit(currentDirection, isMoving, timeSinceLastChange)
    }

    /** The field initialisers. */
    constructor (directionChangeDelay: real, hasPlayer: bool)
      ensures this.directionChangeDelay == directionChangeDelay && this.hasPlayer == hasPlayer
      ensures Snapshot() == Initial()
      ensures moves == 0
    {
      this.directionChangeDelay := directionChangeDelay;
      this.hasPlayer := hasPlayer;
      isMoving := true;
      timeSinceLastChange := 0.0;
      currentDirection := 0;
      flipX := false;
      animatorIsMoving := false;
      moves := 0;
    }

    /** Finds the player by tag when none is assigned (`playerTagged` is
        whether that finds one) and then faces the sprite toward it. */
    method Start(playerTagged: bool, playerX: real, enemyX: real)
      modifies this
      ensures hasPlayer == (old(hasPlayer) || playerTagged)
      ensures flipX == if hasPlayer then playerX > enemyX else old(flipX)
      ensures Snapshot() == old(Snapshot()) && moves == old(moves)
      ensures animatorIsMoving == old(animatorIsMoving)
    {
      if !hasPlayer {
        if playerTagged {
          hasPlayer := true;
        }
      }
      if hasPlayer {
        UpdateSpriteDirection(playerX, enemyX);
      }
    }

    /** One frame.  With no player nothing happens; otherwise the direction
        state takes one step, the enemy moves exactly when it is allowed to,
        and the animator's flag says whether it moved. */
    method Update(playerX: real, enemyX: real, dt: real)
      modifies this
      ensures !hasPlayer ==>
        Snapshot() == old(Snapshot()) && flipX == old(flipX) &&
        animatorIsMoving == old(animatorIsMoving) && moves == old(moves)
      ensures hasPlayer ==> Snapshot() == Step(old(Snapshot()), Desired(playerX, enemyX), dt, directionChangeDelay)
      ensures hasPlayer ==> animatorIsMoving == isMoving
      ensures hasPlayer ==> moves == old(moves) + if isMoving then 1 else 0
      ensures flipX == if hasPlayer && currentDirection != old(currentDirection) then playerX > enemyX else old(flipX)
      ensures hasPlayer == old(hasPlayer)
    {
      if hasPlayer {
        var newDirection := if playerX > enemyX then 1 else -1;
        if newDirection != currentDirection {
          isMoving := false;
          timeSinceLastChange := timeSinceLastChange + dt;
          if timeSinceLastChange >= directionChangeDelay {
            isMoving := true;
            timeSinceLastChange := 0.0;
            currentDirection := newDirection;
            UpdateSpriteDirection(playerX, enemyX);
          }
        }
        if isMoving {
          moves := moves + 1;
          animatorIsMoving := true;
        } else {
          animatorIsMoving := false;
        }
      }
    }

    /** Flips the sprite to face the player. */
    method UpdateSpriteDirection(playerX: real, enemyX: real)
      modifies this
      ensures hasPlayer ==> flipX == (playerX > enemyX)
      ensures !hasPlayer ==> flipX == old(flipX)
      ensures Snapshot() == old(Snapshot()) && hasPlayer == old(hasPlayer)
      ensures animatorIsMoving == old(animatorIsMoving) && moves == old(moves)
    {
      if hasPlayer {
        flipX := playerX > enemyX;
      }
    }
  }
}
