/** Player status (Assets/Scripts/PlayerMovement.cs): lives and the three
    heart icons, jump gating on the grounded flag, the input lock during
    knockback, the horizontal clamp and the sprite's facing.

    Velocities, impulses, sounds and the animator are engine effects and are
    not modelled; jumps and knockbacks are counted in ghost counters. */
module Player {

  /** The three heart icons' active flags. */
  datatype Hearts = Hearts(heart1: bool, heart2: bool, heart3: bool)

  /** What the player collides with, by tag. */
  datatype Tag = Ground | Enemy | Untagged

  /** The hearts that Start shows. */
  function AllHearts(): Hearts
  {
    Hearts(true, true, true)
  }

  /** UpdateHearts: one heart goes out at 2, 1 and 0-or-fewer lives. */
  function UpdatedHearts(lives: int, h: Hearts): Hearts
  {
    if lives == 2 then h.(heart3 := false)
    else if lives == 1 then h.(heart2 := false)
    else if lives <= 0 then h.(heart1 := false)
    else h
  }

  /** Lives and hearts after one TakeDamage. */
  function Damaged(lives: int, h: Hearts): (int, Hearts)
  {
    (lives - 1, UpdatedHearts(lives - 1, h))
  }

  /** Lives and hearts after Start and then n hits. */
  function AfterHits(maxLives: int, n: nat): (int, Hearts)
  {
    if n == 0 then (maxLives, AllHearts())
    else var p := AfterHits(maxLives, n - 1); Damaged(p.0, p.1)
  }

  /** The hearts that match a number of lives: one per life up to three. */
  function HeartsFor(lives: int): Hearts
  {
    Hearts(lives >= 1, lives >= 2, lives >= 3)
  }

  function ActiveHearts(h: Hearts): nat
  {
    (if h.heart1 then 1 else 0) + (if h.heart2 then 1 else 0) + (if h.heart3 then 1 else 0)
  }

  /** Whether every heart shown in h is also shown in g. */
  predicate NoMoreThan(h: Hearts, g: Hearts)
  {
    (h.heart1 ==> g.heart1) && (h.heart2 ==> g.heart2) && (h.heart3 ==> g.heart3)
  }

  /** Mathf.Clamp: below the minimum gives the minimum, otherwise above the
      maximum gives the maximum. */
  function Clamp(v: real, lo: real, hi: real): (r: real)
    ensures lo <= hi ==> lo <= r <= hi
    ensures lo <= v <= hi ==> r == v
    ensures r == v || r == lo || r == hi
  {
    if v < lo then lo else if v > hi then hi else v
  }

  /** The sprite's flipX after a frame with this horizontal input. */
  function FlipAfter(flipX: bool, moveInput: real): bool
  {
    if moveInput > 0.0 then false else if moveInput < 0.0 then true else flipX
  }

  /** Events that change the grounded flag or count a jump: a frame (with or
      without the jump key, knocked back or not) or a collision. */
  datatype Event = Frame(jumpPressed: bool, knockedBack: bool) | Collision(tag: Tag)

  /** The grounded flag after an event, and whether the event jumped. */
  function GroundStep(grounded: bool, e: Event): (bool, bool)
  {
    match e
    case Frame(jump, knocked) =>
      if !knocked && jump && grounded then (false, true) else (grounded, false)
    case Collision(tag) =>
      if tag == Ground then (true, false) else (grounded, false)
  }

  /** The number of jumps in a run of events. */
  function Jumps(grounded: bool, events: seq<Event>): nat
    decreases |events|
  {
    if |events| == 0 then 0
    else var r := GroundStep(grounded, events[0]);
      (if r.1 then 1 else 0) + Jumps(r.0, events[1..])
  }

  /** The grounded flag after a run of events. */
  function GroundedAfter(grounded: bool, events: seq<Event>): bool
    decreases |events|
  {
    if |events| == 0 then grounded else GroundedAfter(GroundStep(grounded, events[0]).0, events[1..])
  }

  /** The number of Ground collisions in a run of events. */
  function Landings(events: seq<Event>): nat
    decreases |events|
  {
    if |events| == 0 then 0
    else (if events[0] == Collision(Ground) then 1 else 0) + Landings(events[1..])
  }

  /** UpdateHearts answers the new lives: 2 puts out heart 3, 1 heart 2, zero
      or fewer heart 1, anything else nothing; no heart is ever switched on. */
  lemma UpdatedHeartsSpec(lives: int, h: Hearts)
    ensures lives == 2 ==> UpdatedHearts(lives, h) == h.(heart3 := false)
    ensures lives == 1 ==> UpdatedHearts(lives, h) == h.(heart2 := false)
    ensures lives <= 0 ==> UpdatedHearts(lives, h) == h.(heart1 := false)
    ensures lives >= 3 ==> UpdatedHearts(lives, h) == h
    ensures NoMoreThan(UpdatedHearts(lives, h), h)
  {
  }

  /** A hit takes exactly one life, with no floor. */
  lemma DamagedSpec(lives: int, h: Hearts)
    ensures Damaged(lives, h).0 == lives - 1
    ensures NoMoreThan(Damaged(lives, h).1, h)
  {
  }

  /** Hearts that match the lives still match after a hit. */
  lemma DamageKeepsHeartsInStep(lives: int)
    ensures Damaged(lives, HeartsFor(lives)).1 == HeartsFor(lives - 1)
  {
  }

  /** With at least three lives to start with, taking hits one at a time
      keeps the hearts shown equal to the lives left, capped at three and
      never below zero; with exactly three that is max(lives, 0). */
  lemma {:induction false} HeartsTrackLives(maxLives: int, n: nat)
    requires maxLives >= 3
    ensures AfterHits(maxLives, n).0 == maxLives - n
    ensures AfterHits(maxLives, n).1 == HeartsFor(maxLives - n)
    ensures ActiveHearts(AfterHits(maxLives, n).1) == if maxLives - n <= 0 then 0 else if maxLives - n >= 3 then 3 else maxLives - n
    ensures maxLives == 3 ==> ActiveHearts(AfterHits(maxLives, n).1) == if 3 - n <= 0 then 0 else 3 - n
  {
    if n > 0 {
      HeartsTrackLives(maxLives, n - 1);
      DamageKeepsHeartsInStep(maxLives - (n - 1));
    }
  }

  /** Hearts only ever go out: after any number of hits none is on that Start
      did not switch on, and each hit keeps at most the hearts before it. */
  lemma {:induction false} HeartsOnlyGoOut(maxLives: int, n: nat)
    ensures NoMoreThan(AfterHits(maxLives, n + 1).1, AfterHits(maxLives, n).1)
    ensures AfterHits(maxLives, n).0 == maxLives - n
  {
    if n > 0 {
      HeartsOnlyGoOut(maxLives, n - 1);
    }
  }

  /** With fewer than three lives to start with the hearts do not match the
      lives: two lives and one hit leave hearts 1 and 3 on. */
  lemma HeartsMismatchBelowThree()
    ensures AfterHits(2, 1) == (1, Hearts(true, false, true))
  {
  }

  /** A jump needs the grounded flag and clears it. */
  lemma GroundStepSpec(grounded: bool, e: Event)
    ensures GroundStep(grounded, e).1 ==> grounded && !GroundStep(grounded, e).0
    ensures GroundStep(grounded, e).0 && !grounded ==> e == Collision(Ground)
  {
  }

  /** No double jump: every jump but the first needs a Ground collision since
      the one before, so the jumps never exceed the landings plus one for
      starting grounded. */
  lemma {:induction false} NoDoubleJump(grounded: bool, events: seq<Event>)
    ensures Jumps(grounded, events) + (if GroundedAfter(grounded, events) then 1 else 0)
      <= Landings(events) + (if grounded then 1 else 0)
    decreases |events|
  {
    if |events| > 0 {
      NoDoubleJump(GroundStep(grounded, events[0]).0, events[1..]);
    }
  }

  /** The sprite faces the way the player moves and keeps its facing with no
      input. */
  lemma FlipAfterSpec(flipX: bool, moveInput: real)
    ensures moveInput > 0.0 ==> !FlipAfter(flipX, moveInput)
    ensures moveInput < 0.0 ==> FlipAfter(flipX, moveInput)
    ensures moveInput == 0.0 ==> FlipAfter(flipX, moveInput) == flipX
  {
  }

  /** The player object: lives, the grounded and knockback flags and the x
      position the clamp works on; hearts and sprite facing are the scene's
      active and flip flags, jumps and knockbacks ghost counters. */
  class PlayerMovement {
    /** Inspector settings. */
    const maxLives: int
    const leftBoundary: real
    const rightBoundary: real

    var currentLives: int
    var isGrounded: bool
    var isKnockedBack: bool
    /** The x coordinate of the player's transform. */
    var x: real

    ghost var hearts: Hearts
    ghost var flipX: bool
    ghost var jumps: nat
    ghost var knockbacks: nat

    /** The field initialisers: grounded, not knocked back, no lives yet. */
    constructor (maxLives: int, leftBoundary: real, rightBoundary: real, x: real, hearts: Hearts)
      ensures this.maxLives == maxLives && this.leftBoundary == leftBoundary && this.rightBoundary == rightBoundary
      ensures this.x == x && this.hearts == hearts
      ensures currentLives == 0 && isGrounded && !isKnockedBack
      ensures jumps == 0 && knockbacks == 0
    {
      this.maxLives := maxLives;
      this.leftBoundary := leftBoundary;
      this.rightBoundary := rightBoundary;
      this.x := x;
      this.hearts := hearts;
      currentLives := 0;
      isGrounded := true;
      isKnockedBack := false;
      flipX := false;
      jumps := 0;
      knockbacks := 0;
    }

    /** Full lives and all three hearts on. */
    method Start()
      modifies this
      ensures currentLives == maxLives && hearts == AllHearts()
      ensures isGrounded == old(isGrounded) && isKnockedBack == old(isKnockedBack) && x == old(x)
      ensures flipX == old(flipX) && jumps == old(jumps) && knockbacks == old(knockbacks)
    {
      currentLives := maxLives;
      hearts := AllHearts();
    }

    /** One frame: nothing while knocked back; otherwise clamp x to the
        boundaries, jump if W is pressed on the ground, and face the sprite
        the way of the input. */
    method Update(moveInput: real, jumpPressed: bool)
      modifies this
      ensures old(isKnockedBack) ==>
        x == old(x) && isGrounded == old(isGrounded) && flipX == old(flipX) && jumps == old(jumps)
      ensures !old(isKnockedBack) ==> x == Clamp(old(x), leftBoundary, rightBoundary)
      ensures !old(isKnockedBack) && leftBoundary <= rightBoundary ==> leftBoundary <= x <= rightBoundary
      ensures (isGrounded, jumps > old(jumps)) == GroundStep(old(isGrounded), Frame(jumpPressed, old(isKnockedBack)))
      ensures jumps <= old(jumps) + 1
      ensures flipX == if old(isKnockedBack) then old(flipX) else FlipAfter(old(flipX), moveInput)
      ensures currentLives == old(currentLives) && hearts == old(hearts) && isKnockedBack == old(isKnockedBack)
      ensures knockbacks == old(knockbacks)
    {
      if isKnockedBack {
        return;
      }
      x := Clamp(x, leftBoundary, rightBoundary);
      if jumpPressed && isGrounded {
        jumps := jumps + 1;
        isGrounded := false;
      }
      if moveInput > 0.0 {
        flipX := false;
      } else if moveInput < 0.0 {
        flipX := true;
      }
    }

    /** The physics engine moves the body between frames. */
    method MoveBody(newX: real)
      modifies this
      ensures x == newX
      ensures currentLives == old(currentLives) && hearts == old(hearts) && isGrounded == old(isGrounded)
      ensures isKnockedBack == old(isKnockedBack) && flipX == old(flipX)
      ensures jumps == old(jumps) && knockbacks == old(knockbacks)
    {
      x := newX;
    }

    /** Landing on Ground sets the grounded flag; touching an Enemy costs a
        life. */
    method OnCollisionEnter2D(tag: Tag)
      modifies this
      ensures (isGrounded, false) == GroundStep(old(isGrounded), Collision(tag))
      ensures tag == Enemy ==> (currentLives, hearts) == Damaged(old(currentLives), old(hearts)) && isKnockedBack
      ensures tag == Enemy ==> knockbacks == old(knockbacks) + 1
      ensures tag != Enemy ==>
        currentLives == old(currentLives) && hearts == old(hearts) &&
        isKnockedBack == old(isKnockedBack) && knockbacks == old(knockbacks)
      ensures x == old(x) && flipX == old(flipX) && jumps == old(jumps)
    {
      if tag == Ground {
        isGrounded := true;
      }
      if tag == Enemy {
        TakeDamage();
      }
    }

    /** One life less, knocked back with input locked, hearts updated. */
    method TakeDamage()
      modifies this
      ensures currentLives == old(currentLives) - 1
      ensures hearts == UpdatedHearts(currentLives, old(hearts))
      ensures isKnockedBack && knockbacks == old(knockbacks) + 1
      ensures isGrounded == old(isGrounded) && x == old(x) && flipX == old(flipX) && jumps == old(jumps)
    {
      currentLives := currentLives - 1;
      knockbacks := knockbacks + 1;
      isKnockedBack := true;
      UpdateHearts();
    }

    /** Puts out the heart that the new number of lives calls for. */
    method UpdateHearts()
      modifies this
      ensures hearts == UpdatedHearts(currentLives, old(hearts))
      ensures currentLives == old(currentLives) && isGrounded == old(isGrounded) && isKnockedBack == old(isKnockedBack)
      ensures x == old(x) && flipX == old(flipX) && jumps == old(jumps) && knockbacks == old(knockbacks)
    {
      if currentLives == 2 {
        hearts := hearts.(heart3 := false);
      } else if currentLives == 1 {
        hearts := hearts.(heart2 := false);
      } else if currentLives <= 0 {
        hearts := hearts.(heart1 := false);
      }
    }

    /** The end of the half-second knockback pause: input is unlocked. */
    method EndKnockback()
      modifies this
      ensures !isKnockedBack
      ensures currentLives == old(currentLives) && hearts == old(hearts) && isGrounded == old(isGrounded)
      ensures x == old(x) && flipX == old(flipX) && jumps == old(jumps) && knockbacks == old(knockbacks)
    {
      isKnockedBack := false;
    }
  }
}
