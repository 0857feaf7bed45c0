/** Waves: the counters that pace enemy spawning. One enemy is released per
    spawn interval until the wave's quota is reached; each new wave raises the
    quota and shortens the interval down to a floor. */
module Waves {
  import opened Geometry

  /** Quota and interval of the first wave (and after a reset). */
  const FirstWaveQuota: int := 5
  const FirstWaveInterval: real := 1.0
  /** The spawn interval never drops below this. */
  const MinInterval: real := 0.3

  /** The larger of two reals. */
  function Max(a: real, b: real): (r: real)
    ensures r >= a && r >= b
    ensures r == a || r == b
  {
    if a >= b then a else b
  }

  /** Enemies to release in wave `wave`: 5 for the first wave, then 5 + 2 * wave.
      Every real wave releases at least the first wave's 5, and from the second
      wave on the quota is past 5 + 2 = 7 (wave 2 jumps from 5 to 9). */
  function Quota(wave: int): (r: int)
    ensures wave == 1 ==> r == FirstWaveQuota
    ensures wave != 1 ==> r == 5 + 2 * wave
    ensures wave >= 1 ==> r >= FirstWaveQuota
    ensures wave >= 2 ==> r >= FirstWaveQuota + 4
  {
    if wave == 1 then FirstWaveQuota else 5 + 2 * wave
  }

  /** Seconds between releases in wave `wave`: 1.0 for the first wave, then
      1.0 - 0.05 * wave with a floor of 0.3. */
  function Interval(wave: int): (r: real)
    ensures wave == 1 ==> r == FirstWaveInterval
    ensures wave != 1 ==> r == Max(MinInterval, 1.0 - (wave as real) * 0.05)
    ensures r >= MinInterval
    ensures wave >= 1 ==> r <= FirstWaveInterval
    ensures wave >= 2 ==> r <= 0.9
  {
    if wave == 1 then FirstWaveInterval else Max(MinInterval, 1.0 - (wave as real) * 0.05)
  }

  /** The interval of every wave is at least 0.3 and at most 1.0, and it never
      grows from one wave to a later one. */
  lemma IntervalShrinks(w1: int, w2: int)
    requires 1 <= w1 <= w2
    ensures MinInterval <= Interval(w2) <= Interval(w1) <= FirstWaveInterval
  {
  }

  /** The quota grows with the wave: later waves release more enemies. */
  lemma QuotaGrows(w1: int, w2: int)
    requires 1 <= w1 < w2
    ensures Quota(w1) < Quota(w2)
  {
  }

  /** From wave 14 on, the interval sits at its floor of 0.3 seconds. */
  lemma IntervalFloor(w: int)
    requires w >= 14
    ensures Interval(w) == MinInterval
  {
  }

  class WaveManager {
    var currentWave: int
    var enemiesPerWave: int
    /** Enemies released so far in this wave. */
    var enemiesSpawned: int
    var waveComplete: bool
    /** Seconds since the last release. */
    var spawnTimer: real
    var spawnInterval: real
    var screenWidth: real
    var screenHeight: real

    /** The counters agree with the current wave and the released count stays
        within the quota. */
    predicate Valid()
      reads this
    {
      && currentWave >= 1
      && enemiesPerWave == Quota(currentWave)
      && spawnInterval == Interval(currentWave)
      && 0 <= enemiesSpawned <= enemiesPerWave
      && spawnTimer >= 0.0
    }

    /** Wave 1: quota 5, none released, interval 1.0, timer 0. */
    constructor (screenWidth0: real, screenHeight0: real)
      ensures currentWave == 1 && enemiesPerWave == FirstWaveQuota && enemiesSpawned == 0
      ensures !waveComplete && spawnTimer == 0.0 && spawnInterval == FirstWaveInterval
      ensures screenWidth == screenWidth0 && screenHeight == screenHeight0
      ensures Valid()
    {
      currentWave := 1;
      enemiesPerWave := FirstWaveQuota;
      enemiesSpawned := 0;
      waveComplete := false;
      spawnTimer := 0.0;
      spawnInterval := FirstWaveInterval;
      screenWidth, screenHeight := screenWidth0, screenHeight0;
    }

    /** One tick: nothing while the wave is complete; otherwise the timer runs one
        frame, and once it reaches the interval with quota left, one enemy is
        released and the timer restarts at 0. */
    method Update()
      modifies this`spawnTimer, this`enemiesSpawned
      ensures old(waveComplete) ==> spawnTimer == old(spawnTimer) && enemiesSpawned == old(enemiesSpawned)
      ensures !old(waveComplete) && old(spawnTimer) + FrameStep >= spawnInterval
              && old(enemiesSpawned) < enemiesPerWave
              ==> spawnTimer == 0.0 && enemiesSpawned == old(enemiesSpawned) + 1
      ensures !old(waveComplete) && !(old(spawnTimer) + FrameStep >= spawnInterval
              && old(enemiesSpawned) < enemiesPerWave)
              ==> spawnTimer == old(spawnTimer) + FrameStep && enemiesSpawned == old(enemiesSpawned)
      ensures old(enemiesSpawned) <= enemiesSpawned <= old(enemiesSpawned) + 1
      ensures old(Valid()) ==> Valid()
    {
      if waveComplete {
        return;
      }
      spawnTimer := spawnTimer + FrameStep;
      if spawnTimer >= spawnInterval && enemiesSpawned < enemiesPerWave {
        spawnTimer := 0.0;
        enemiesSpawned := enemiesSpawned + 1;
      }
    }

    /** Moves to the next wave: quota and interval of the new wave, nothing
        released, timer 0; the screen size is kept. */
    method StartNextWave()
      modifies this`currentWave, this`enemiesPerWave, this`enemiesSpawned, this`waveComplete,
               this`spawnTimer, this`spawnInterval
      ensures currentWave == old(currentWave) + 1
      ensures enemiesPerWave == 5 + 2 * currentWave
      ensures enemiesSpawned == 0 && !waveComplete && spawnTimer == 0.0
      ensures spawnInterval == Max(MinInterval, 1.0 - (currentWave as real) * 0.05)
      ensures old(currentWave) >= 1 ==> Valid() && spawnInterval <= old(Interval(currentWave))
    {
      currentWave := currentWave + 1;
      enemiesPerWave := 5 + currentWave * 2;
      enemiesSpawned := 0;
      waveComplete := false;
      spawnTimer := 0.0;
      spawnInterval := Max(MinInterval, 1.0 - (currentWave as real) * 0.05);
      if old(currentWave) >= 1 {
        IntervalShrinks(old(currentWave), currentWave);
      }
    }

    /** Back to wave 1; the screen size is kept. */
    method Reset()
      modifies this`currentWave, this`enemiesPerWave, this`enemiesSpawned, this`waveComplete,
               this`spawnTimer, this`spawnInterval
      ensures currentWave == 1 && enemiesPerWave == FirstWaveQuota && enemiesSpawned == 0
      ensures !waveComplete && spawnTimer == 0.0 && spawnInterval == FirstWaveInterval
      ensures Valid()
    {
      currentWave := 1;
      enemiesPerWave := FirstWaveQuota;
      enemiesSpawned := 0;
      waveComplete := false;
      spawnTimer := 0.0;
      spawnInterval := FirstWaveInterval;
    }
  }
}
