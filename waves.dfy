/** Wave and kill accounting of the enemy spawner (Assets/Scripts/EnemySpawner.cs).

    The spawner keeps two integers, the current wave number and the number of
    enemies it believes are alive.  Spawning n enemies raises the tally by n;
    a kill lowers it by one, with no floor, and a tally at or below zero starts
    the next wave, whose size is the new wave number.  Where the enemies appear
    (random angle, ground raycast) is not part of this model: a spawn is a
    counter update plus a ghost count of instantiated enemies. */
module Waves {

  /** The spawner's counters as a value. */
  datatype Tally = Tally(wave: int, active: int)

  /** The number of times `for (int i = 0; i < count; i++)` runs its body. */
  function Max0(n: int): nat
  {
    if n < 0 then 0 else n
  }

  /** The counters after SpawnEnemies(count). */
  function Spawned(t: Tally, count: int): Tally
  {
    Tally(t.wave, t.active + Max0(count))
  }

  /** The counters after OnEnemyKilled: decrement, and at or below zero
      advance the wave and spawn as many enemies as the new wave number. */
  function Killed(t: Tally): Tally
  {
    var left := t.active - 1;
    if left <= 0 then Spawned(Tally(t.wave + 1, left), t.wave + 1)
    else Tally(t.wave, left)
  }

  /** The counters after ResetSpawner or RestartSpawning: wave 1 with one
      enemy, whatever the counters were and whatever initialSpawnCount is. */
  function Restarted(t: Tally): Tally
  {
    Spawned(Tally(1, 0), 1)
  }

  /** The counters after n kills in a row. */
  function KilledTimes(t: Tally, n: nat): Tally
  {
    if n == 0 then t else Killed(KilledTimes(t, n - 1))
  }

  /** The counters of any state the spawner can reach: the wave number is
      positive and the tally is not negative. */
  predicate Reachable(t: Tally)
  {
    t.wave >= 1 && t.active >= 0
  }

  /** A kill lowers the tally by exactly one, and advances the wave exactly
      when that leaves the tally at or below zero; the new wave adds as many
      enemies as its number. */
  lemma KilledSpec(t: Tally)
    requires t.wave >= 0
    ensures Killed(t).wave == t.wave + 1 <==> t.active - 1 <= 0
    ensures Killed(t).wave == t.wave <==> t.active - 1 > 0
    ensures t.active - 1 <= 0 ==> Killed(t).active == (t.active - 1) + Killed(t).wave
    ensures t.active - 1 > 0 ==> Killed(t).active == t.active - 1
  {
  }

  /** Spawning adds exactly the count (none for a negative count) and keeps the wave. */
  lemma SpawnedSpec(t: Tally, count: int)
    ensures Spawned(t, count).wave == t.wave
    ensures count >= 0 ==> Spawned(t, count).active == t.active + count
    ensures count < 0 ==> Spawned(t, count) == t
  {
  }

  /** Because there is no floor, a kill reported while the tally is already
      zero (before the first wave, say) still drives it to -1 and therefore
      advances the wave. */
  lemma KillOnEmptyTallyAdvances(w: int)
    requires w >= 0
    ensures Killed(Tally(w, 0)) == Tally(w + 1, w)
  {
  }

  /** Both restarts end at wave 1 with one live enemy. */
  lemma RestartedSpec(t: Tally)
    ensures Restarted(t) == Tally(1, 1)
    ensures Reachable(Restarted(t))
  {
  }

  /** Every operation keeps the counters reachable, and a kill always leaves
      at least one enemy counted. */
  lemma StepsStayReachable(t: Tally, count: int)
    requires Reachable(t)
    ensures Reachable(Spawned(t, count))
    ensures Reachable(Killed(t)) && Killed(t).active >= 1
    ensures Reachable(Restarted(t))
  {
  }

  /** Any run of kills keeps the counters reachable, so the missing floor
      never actually drives the tally below zero from a reachable state. */
  lemma {:induction false} KillsStayReachable(t: Tally, n: nat)
    requires Reachable(t)
    ensures Reachable(KilledTimes(t, n))
    ensures n >= 1 ==> KilledTimes(t, n).active >= 1
  {
    if n > 0 {
      KillsStayReachable(t, n - 1);
      StepsStayReachable(KilledTimes(t, n - 1), 0);
    }
  }

  /** Kills never lower the wave number, and each raises it by at most one. */
  lemma {:induction false} WaveNeverDecreases(t: Tally, n: nat)
    ensures t.wave <= KilledTimes(t, n).wave <= t.wave + n
  {
    if n > 0 {
      WaveNeverDecreases(t, n - 1);
    }
  }

  /** Inside a wave of n live enemies the first j < n kills only count down. */
  lemma {:induction false} KillsWithinWave(t: Tally, j: nat)
    requires j < t.active
    ensures KilledTimes(t, j) == Tally(t.wave, t.active - j)
  {
    if j > 0 {
      KillsWithinWave(t, j - 1);
    }
  }

  /** From a wave holding n >= 1 live enemies, exactly n kills cause exactly
      one wave advance: the first n - 1 leave the wave number alone, the n-th
      raises it by one, and the new tally equals the new wave number. */
  lemma {:induction false} WaveClearedByItsKills(t: Tally)
    requires t.wave >= 0 && t.active >= 1
    ensures forall j :: 0 <= j < t.active ==> KilledTimes(t, j).wave == t.wave
    ensures KilledTimes(t, t.active) == Tally(t.wave + 1, t.wave + 1)
  {
    forall j | 0 <= j < t.active
      ensures KilledTimes(t, j).wave == t.wave
    {
      KillsWithinWave(t, j);
    }
    KillsWithinWave(t, t.active - 1);
  }

  /** Every wave that starts with as many enemies as its number is cleared by
      that many kills and is followed by the next such wave: after the kills
      of waves w, w+1, ..., w+k-1 the spawner is at wave w+k with w+k enemies. */
  lemma {:induction false} WavesInSequence(w: nat, k: nat)
    requires w >= 1
    ensures KilledTimes(Tally(w, w), WaveKills(w, k)) == Tally(w + k, w + k)
  {
    if k > 0 {
      WavesInSequence(w, k - 1);
      var before := Tally(w + k - 1, w + k - 1);
      WaveClearedByItsKills(before);
      KillsCompose(Tally(w, w), WaveKills(w, k - 1), w + k - 1);
    }
  }

  /** The kills needed to clear waves w, w+1, ..., w+k-1. */
  function WaveKills(w: nat, k: nat): nat
  {
    if k == 0 then 0 else WaveKills(w, k - 1) + (w + k - 1)
  }

  /** n kills followed by m kills are n + m kills. */
  lemma {:induction false} KillsCompose(t: Tally, n: nat, m: nat)
    ensures KilledTimes(KilledTimes(t, n), m) == KilledTimes(t, n + m)
  {
    if m > 0 {
      KillsCompose(t, n, m - 1);
    }
  }

  /** The enemies one kill instantiates: the whole new wave when it starts
      one, none otherwise. */
  function WaveSpawn(t: Tally): nat
  {
    if t.active - 1 <= 0 then Max0(t.wave + 1) else 0
  }

  /** The enemies n kills in a row instantiate. */
  function KillsSpawn(t: Tally, n: nat): nat
  {
    if n == 0 then 0 else KillsSpawn(t, n - 1) + WaveSpawn(KilledTimes(t, n - 1))
  }

  /** The tally is bookkeeping of live enemies: after n kills it equals the
      tally before, less the n enemies killed, plus those the wave advances
      instantiated. */
  lemma {:induction false} TallyCountsLiveEnemies(t: Tally, n: nat)
    requires t.wave >= 0
    ensures KilledTimes(t, n).active == t.active - n + KillsSpawn(t, n)
  {
    if n > 0 {
      TallyCountsLiveEnemies(t, n - 1);
      WaveNeverDecreases(t, n - 1);
    }
  }

  /** The spawner object: the two counters the source keeps, the settings it
      reads, and the engine-side effects of spawning as ghost state. */
  class EnemySpawner {
    /** The inspector setting for the size of the first wave. */
    const initialSpawnCount: int
    /** Whether playerTransform refers to a player. */
    var hasPlayer: bool
    var currentWave: int
    var activeEnemies: int
    /** The engine's Behaviour.enabled flag, which GameManager switches. */
    var enabled: bool
    /** Enemies instantiated so far. */
    ghost var instantiated: nat

    function Counters(): Tally
      reads this
    {
      Tally(currentWave, activeEnemies)
    }

    /** The field initialisers: wave 1, no enemies. */
    constructor (initialSpawnCount: int, hasPlayer: bool)
      ensures this.initialSpawnCount == initialSpawnCount && this.hasPlayer == hasPlayer
      ensures Counters() == Tally(1, 0) && Reachable(Counters())
      ensures enabled && instantiated == 0
    {
      this.initialSpawnCount := initialSpawnCount;
      this.hasPlayer := hasPlayer;
      currentWave := 1;
      activeEnemies := 0;
      enabled := true;
      instantiated := 0;
    }

    /** Looks the player up by tag when none is assigned (`playerTagged` is
        whether that lookup finds one); with no player it returns without
        spawning, otherwise it spawns the first wave of initialSpawnCount. */
    method InitializeSpawner(playerTagged: bool)
      modifies this
      ensures hasPlayer == (old(hasPlayer) || playerTagged)
      ensures Counters() == if hasPlayer then Spawned(old(Counters()), initialSpawnCount) else old(Counters())
      ensures instantiated == old(instantiated) + if hasPlayer then Max0(initialSpawnCount) else 0
      ensures enabled == old(enabled)
    {
      if !hasPlayer {
        if playerTagged {
          hasPlayer := true;
        } else {
          return;
        }
      }
      SpawnEnemies(initialSpawnCount);
    }

    /** Kill notification: one fewer live enemy, and when none are left by
        the count the next wave is spawned. */
    method OnEnemyKilled()
      modifies this
      ensures Counters() == Killed(old(Counters()))
      ensures instantiated == old(instantiated) + WaveSpawn(old(Counters()))
      ensures hasPlayer == old(hasPlayer) && enabled == old(enabled)
    {
      activeEnemies := activeEnemies - 1;
      if activeEnemies <= 0 {
        currentWave := currentWave + 1;
        SpawnEnemies(currentWave);
      }
    }

    /** Spawns `count` enemies one at a time; each raises the tally by one. */
    method SpawnEnemies(count: int)
      modifies this
      ensures Counters() == Spawned(old(Counters()), count)
      ensures instantiated == old(instantiated) + Max0(count)
      ensures hasPlayer == old(hasPlayer) && enabled == old(enabled)
    {
      var i := 0;
      while i < count
        invariant 0 <= i <= Max0(count)
        invariant currentWave == old(currentWave)
        invariant activeEnemies == old(activeEnemies) + i
        invariant instantiated == old(instantiated) + i
        invariant hasPlayer == old(hasPlayer) && enabled == old(enabled)
      {
        instantiated := instantiated + 1;
        activeEnemies := activeEnemies + 1;
        i := i + 1;
      }
    }

    /** Back to wave 1, with the tally cleared and a single enemy spawned. */
    method ResetSpawner()
      modifies this
      ensures Counters() == Restarted(old(Counters())) == Tally(1, 1)
      ensures instantiated == old(instantiated) + 1
      ensures hasPlayer == old(hasPlayer) && enabled == old(enabled)
    {
      currentWave := 1;
      activeEnemies := 0;
      SpawnEnemies(currentWave);
    }

    /** The same as ResetSpawner; this is the one the special attack uses. */
    method RestartSpawning()
      modifies this
      ensures Counters() == Restarted(old(Counters())) == Tally(1, 1)
      ensures instantiated == old(instantiated) + 1
      ensures hasPlayer == old(hasPlayer) && enabled == old(enabled)
    {
      currentWave := 1;
      activeEnemies := 0;
      SpawnEnemies(currentWave);
    }
  }
}
