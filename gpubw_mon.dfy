/**
 * drivers/devfreq/governor_gpubw_mon.c: the "gpubw_mon" devfreq governor
 * that votes GPU bus bandwidth from VBIF counters.  Each sample adds the
 * window's GPU busy time, RAM time and RAM wait into accumulators; once a
 * window of `sampling_ms` has gathered, the governor derives cycle ratios,
 * adapts the sampling interval, raises the cut-off of a floating bus or
 * chooses a fast/slow hint against per-level up/down thresholds, computes
 * an average-bandwidth vote, and resets the accumulators.
 *
 * The threshold tables are percentages (`p_up`/`p_down`) of the top bus
 * level's instantaneous bandwidth `ib`, scaled by the bus maximum into
 * absolute cut-offs (`up`/`down`).
 */
module GpuBwMon {
  import opened Machine

  const ENOMEM: int := 12
  const EINVAL: int := 22

  const MIN_BUSY: nat := 1000
  const LONG_FLOOR: nat := 50000
  const HIST: nat := 5
  const TARGET: nat := 80
  const CAP: nat := 75
  const WAIT_THRESHOLD: nat := 10
  /** The average-bandwidth vote is a multiple of BW_STEP megabytes. */
  const BW_STEP: nat := 160
  const HIGH_GPU_LOAD_THRESHOLD: nat := 90
  const LOW_GPU_LOAD_THRESHOLD: nat := 20
  const HIGH_SAMPLING_MS: nat := 10
  const LOW_SAMPLING_MS: nat := 50
  /** The initial value of the function-static `norm_ab_max`. */
  const NORM_AB_MAX_INIT: nat := 300

  /** bus_profile->flag: no hint, DEVFREQ_FLAG_FAST_HINT or DEVFREQ_FLAG_SLOW_HINT. */
  datatype Hint = NoHint | FastHint | SlowHint

  /**
   * What devfreq_update_stats leaves in df->last_status and the xstats
   * block: the window's total and busy time, the current frequency, RAM
   * time, RAM wait and the level adjustment `mod`.
   */
  datatype Stats = Stats(totalTime: nat, busyTime: nat, currentFrequency: nat,
                         ramTime: nat, ramWait: nat, mod: int)

  /** The accumulated counters of a closed sampling window. */
  datatype Window = Window(total: nat, gpu: nat, ram: nat, wait: nat)

  // ---------------------------------------------------------------------
  // Frequency level lookup
  // ---------------------------------------------------------------------

  /** The first level at or after `from` whose frequency is `freq`, else -EINVAL. */
  function FirstLevelFrom(table: seq<nat>, freq: nat, from: nat): (r: int)
    requires from <= |table|
    ensures r == -EINVAL || from <= r < |table|
    decreases |table| - from
  {
    if from == |table| then -EINVAL
    else if table[from] == freq then from
    else FirstLevelFrom(table, freq, from + 1)
  }

  /** devfreq_get_freq_level as a function of the frequency table. */
  function FreqLevel(table: seq<nat>, freq: nat): (r: int)
    ensures r == -EINVAL || 0 <= r < |table|
  {
    FirstLevelFrom(table, freq, 0)
  }

  lemma {:induction false} FirstLevelFromIsFirst(table: seq<nat>, freq: nat, from: nat)
    requires from <= |table|
    ensures var lev := FirstLevelFrom(table, freq, from);
      (lev == -EINVAL <==> freq !in table[from..])
      && (lev != -EINVAL ==> from <= lev < |table| && table[lev] == freq
                             && forall k :: from <= k < lev ==> table[k] != freq)
    decreases |table| - from
  {
    if from < |table| && table[from] != freq {
      FirstLevelFromIsFirst(table, freq, from + 1);
      assert table[from..] == [table[from]] + table[from + 1..];
    }
  }

  /**
   * The level is the first index whose table entry is `freq`, and -EINVAL
   * exactly when no entry is.
   */
  lemma FreqLevelIsFirst(table: seq<nat>, freq: nat)
    ensures FreqLevel(table, freq) == -EINVAL <==> freq !in table
    ensures FreqLevel(table, freq) != -EINVAL ==>
      0 <= FreqLevel(table, freq) < |table| && table[FreqLevel(table, freq)] == freq
      && forall k :: 0 <= k < FreqLevel(table, freq) ==> table[k] != freq
  {
    FirstLevelFromIsFirst(table, freq, 0);
    assert table[0..] == table;
  }

  /** devfreq_get_freq_level: scan `freq_table[0..max_state)` for `freq`. */
  method GetFreqLevel(table: seq<nat>, freq: nat) returns (lev: int)
    ensures lev == FreqLevel(table, freq)
  {
    var i := 0;
    while i < |table|
      invariant 0 <= i <= |table|
      invariant FreqLevel(table, freq) == FirstLevelFrom(table, freq, i)
    {
      if freq == table[i] {
        return i;
      }
      i := i + 1;
    }
    return -EINVAL;
  }

  // ---------------------------------------------------------------------
  // Thresholds
  // ---------------------------------------------------------------------

  /**
   * One cut-off: `p * norm_max / 100`. `norm_max` is an `unsigned int`, so
   * the product is taken in 32-bit unsigned arithmetic and wraps before the
   * division.
   */
  function Cutoff(p: int, normMax: nat): (c: nat)
    ensures c <= UINT_MAX / 100
  {
    Wrap32(p * Wrap32(normMax)) / 100
  }

  /**
   * Without wrap-around, a percentage in [0, 100] gives a cut-off between 0
   * and the maximum and 100 percent gives the maximum itself; a negative
   * percentage wraps to a cut-off near 2^32 / 100.
   */
  lemma CutoffBounds(p: int, normMax: nat)
    ensures 0 <= p <= 100 && normMax < U32 && p * normMax < U32 ==> Cutoff(p, normMax) <= normMax
    ensures 100 * normMax < U32 ==> Cutoff(100, normMax) == normMax
    ensures p < 0 && 0 < normMax < U32 && -p * normMax < U32 ==>
              Cutoff(p, normMax) == (U32 + p * normMax) / 100
  {
    if 0 <= p <= 100 && normMax < U32 && p * normMax < U32 {
      MulLe(p, 100, normMax);
      DivLe(p * normMax, 100 * normMax, 100);
    }
    if p < 0 && 0 < normMax < U32 && -p * normMax < U32 {
      MulLe(p, -1, normMax);
      ModShift(p * normMax);
    }
  }

  /** -U32 < x < 0 is congruent to U32 + x. */
  lemma ModShift(x: int)
    requires -(U32 as int) < x < 0
    ensures x % U32 == U32 + x
  {
  }

  /** A cut-off of -5 % of a maximum of 100 is 42949667, not -5. */
  lemma NegativePercentCutoff()
    ensures Cutoff(-5, 100) == 42949667
  {
    assert -500 % U32 == U32 - 500 by {
      ModShift(-500);
    }
  }

  /** Cut-offs grow with the percentage they scale, while the product does not wrap. */
  lemma CutoffMonotone(p: int, q: int, normMax: nat)
    requires 0 <= p <= q && normMax < U32 && q * normMax < U32
    ensures Cutoff(p, normMax) <= Cutoff(q, normMax)
  {
    assert p * normMax <= q * normMax by {
      MulLe(p, q, normMax);
    }
    DivLe(p * normMax, q * normMax, 100);
  }

  lemma MulLe(a: int, b: int, c: nat)
    requires a <= b
    ensures a * c <= b * c
  {
  }

  lemma DivLe(a: nat, b: nat, d: nat)
    requires a <= b && d > 0
    ensures a / d <= b / d
  {
    var qa, qb := a / d, b / d;
    assert qa * d <= a;
    assert b < qb * d + d;
    if qa > qb {
      MulLe(qb + 1, qa, d);
    }
  }

  /** The bandwidth share of level `i`, in percent of the top level: `t1` of gpubw_start. */
  function LevelPercent(ib: seq<nat>, i: nat): nat
    requires i < |ib| && ib[|ib| - 1] > 0
  {
    (100 * ib[i]) / ib[|ib| - 1]
  }

  /** p_up[i] as gpubw_start leaves it: HIST below the level's share, and 100 at the top. */
  function PUpOf(ib: seq<nat>, i: nat): int
    requires i < |ib| && ib[|ib| - 1] > 0
  {
    if i == |ib| - 1 then 100 else LevelPercent(ib, i) - HIST
  }

  /**
   * p_down[i] as gpubw_start leaves it: 0 at the bottom, 2*HIST below the
   * share of the level beneath, and at least 2*HIST at level 1.
   */
  function PDownOf(ib: seq<nat>, i: nat): int
    requires i < |ib| && ib[|ib| - 1] > 0
  {
    if i == 0 then 0
    else if i == 1 then Max(LevelPercent(ib, 0) - 2 * HIST, 2 * HIST)
    else LevelPercent(ib, i - 1) - 2 * HIST
  }

  predicate NonDecreasing(ib: seq<nat>)
  {
    forall i, j :: 0 <= i <= j < |ib| ==> ib[i] <= ib[j]
  }

  /**
   * With bus levels ordered by bandwidth, each level from 2 up has a
   * hysteresis band: its down threshold lies below its up threshold, and
   * the top level's up threshold is 100 percent.
   */
  lemma HysteresisBand(ib: seq<nat>, i: nat)
    requires 2 <= i < |ib| && ib[|ib| - 1] > 0 && NonDecreasing(ib)
    ensures PDownOf(ib, i) < PUpOf(ib, i)
    ensures PUpOf(ib, |ib| - 1) == 100
  {
    var top := ib[|ib| - 1];
    assert 100 * ib[i - 1] <= 100 * ib[i];
    DivLe(100 * ib[i - 1], 100 * ib[i], top);
    assert 100 * ib[i] <= 100 * top;
    DivLe(100 * ib[i], 100 * top, top);
    assert (100 * top) / top == 100;
  }

  /** The down threshold of each level from 2 up is HIST below the up threshold of the level beneath. */
  lemma DownFollowsUpBelow(ib: seq<nat>, i: nat)
    requires 2 <= i < |ib| && ib[|ib| - 1] > 0
    ensures PDownOf(ib, i) == PUpOf(ib, i - 1) - HIST
  {
  }

  // ---------------------------------------------------------------------
  // Window figures
  // ---------------------------------------------------------------------

  /** norm_max_cycles: RAM time per unit of window time. */
  function NormMaxCycles(w: Window): nat
    requires w.total > 0
  {
    w.ram / w.total
  }

  /** norm_cycles after its rescaling by TARGET: busy-plus-wait cycles as a percentage of the target. */
  function NormCyclesPercent(w: Window): nat
    requires w.total > 0
  {
    (100 * ((w.ram + w.wait) / w.total)) / TARGET
  }

  /** wait_active_percent: 0 without waits, 100 with waits and no RAM time, else the ratio in percent. */
  function WaitActivePercent(ram: nat, wait: nat): nat
  {
    if wait == 0 then 0
    else if ram == 0 then 100
    else (100 * wait) / ram
  }

  /**
   * The wait percentage is 0 without waits, 100 with waits but no RAM
   * time, and otherwise the wait-to-time ratio in percent, rounded down.
   */
  lemma WaitActivePercentCases(ram: nat, wait: nat)
    ensures wait == 0 ==> WaitActivePercent(ram, wait) == 0
    ensures wait != 0 && ram == 0 ==> WaitActivePercent(ram, wait) == 100
    ensures wait != 0 && ram != 0 ==>
      WaitActivePercent(ram, wait) * ram <= 100 * wait < (WaitActivePercent(ram, wait) + 1) * ram
  {
  }

  /** gpu_percent: GPU busy time as a percentage of the window. */
  function GpuPercent(w: Window): nat
    requires w.total > 0
  {
    (100 * w.gpu) / w.total
  }

  /** With the GPU busy for at most the window's time, its load is at most 100 percent. */
  lemma GpuPercentBounded(w: Window)
    requires w.total > 0 && w.gpu <= w.total
    ensures GpuPercent(w) <= 100
  {
    DivLe(100 * w.gpu, 100 * w.total, w.total);
    assert (100 * w.total) / w.total == 100;
  }

  /** The sampling interval after a window: shortened under high GPU load, lengthened under low load. */
  function NextSampling(gpuPercent: nat, samplingMs: nat): (r: nat)
    ensures gpuPercent > HIGH_GPU_LOAD_THRESHOLD ==> r == HIGH_SAMPLING_MS
    ensures gpuPercent < LOW_GPU_LOAD_THRESHOLD ==> r == LOW_SAMPLING_MS
    ensures LOW_GPU_LOAD_THRESHOLD <= gpuPercent <= HIGH_GPU_LOAD_THRESHOLD ==> r == samplingMs
  {
    if gpuPercent > HIGH_GPU_LOAD_THRESHOLD then HIGH_SAMPLING_MS
    else if gpuPercent < LOW_GPU_LOAD_THRESHOLD then LOW_SAMPLING_MS
    else samplingMs
  }

  /** The kernel's clamp(x, 0, num - 1): the level the thresholds are read at. */
  function ActLevel(x: int, num: nat): (r: nat)
    requires num >= 1
    ensures r < num
    ensures 0 <= x < num ==> r == x
    ensures x < 0 ==> r == 0
    ensures x >= num ==> r == num - 1
  {
    if x < 0 then 0 else if x > num - 1 then num - 1 else x
  }

  /**
   * The hint chosen when the cut-off is not raised: fast when cycles exceed
   * the up threshold or the RAM wait is high, and the GPU is busy beyond CAP;
   * otherwise slow when cycles fall below the down threshold at a nonzero
   * level; otherwise the previous hint stays.
   */
  function HintAfter(flag: Hint, normCycles: int, up: int, down: int,
                     waitActive: nat, gpuPercent: nat, level: int): (r: Hint)
    ensures r == FastHint && flag != FastHint ==> gpuPercent > CAP
    ensures r == SlowHint && flag != SlowHint ==> level != 0 && normCycles < down
    ensures gpuPercent > CAP && normCycles > up ==> r == FastHint
    ensures r != flag ==> r != NoHint
  {
    if (normCycles > up || waitActive > WAIT_THRESHOLD) && gpuPercent > CAP then FastHint
    else if normCycles < down && level != 0 then SlowHint
    else flag
  }

  /** roundup(x, BW_STEP). */
  function RoundUpStep(x: nat): nat
  {
    ((x + BW_STEP - 1) / BW_STEP) * BW_STEP
  }

  /** roundup gives the least multiple of BW_STEP at or above its argument. */
  lemma RoundUpStepIsLeastMultiple(x: nat)
    ensures RoundUpStep(x) % BW_STEP == 0
    ensures x <= RoundUpStep(x) < x + BW_STEP
  {
    var q := (x + BW_STEP - 1) / BW_STEP;
    assert q * BW_STEP <= x + BW_STEP - 1 < q * BW_STEP + BW_STEP;
  }

  /** The average-bandwidth vote in megabytes for a bus `width` bytes wide: `(norm_ab*width*10^6) >> 20`, rounded up. */
  function BwVote(normAb: nat, width: nat): nat
  {
    RoundUpStep(normAb * width * 1000000 / 0x10_0000)
  }

  /**
   * The vote is a whole number of BW_STEP-megabyte steps and exceeds the
   * unrounded megabytes by less than one step.
   */
  lemma BwVoteIsStepped(normAb: nat, width: nat)
    ensures BwVote(normAb, width) % BW_STEP == 0
    ensures normAb * width * 1000000 / 0x10_0000 <= BwVote(normAb, width)
                                                 < normAb * width * 1000000 / 0x10_0000 + BW_STEP
  {
    RoundUpStepIsLeastMultiple(normAb * width * 1000000 / 0x10_0000);
  }

  /** percent_ab: the window's RAM ratio as a percentage of the largest ratio seen. */
  function PercentAb(normAb: nat, normAbMax: nat): nat
    requires normAbMax > 0
  {
    (100 * normAb) / normAbMax
  }

  /** Against a maximum at least as large as the ratio, the percentage is at most 100, and exactly 100 at the maximum. */
  lemma PercentAbBounded(normAb: nat, normAbMax: nat)
    requires normAbMax > 0 && normAb <= normAbMax
    ensures PercentAb(normAb, normAbMax) <= 100
    ensures normAb == normAbMax ==> PercentAb(normAb, normAbMax) == 100
  {
    DivLe(100 * normAb, 100 * normAbMax, normAbMax);
    assert (100 * normAbMax) / normAbMax == 100;
  }

  /**
   * The percentage tables of gpubw_start, filled from the top level's
   * bandwidth share: `p_up[i] = t1 - HIST` and `p_down[i] = t2 - 2*HIST`
   * with `t2` the previous level's share, then `p_down[0] = 0`,
   * `p_down[1] = max(p_down[1], 2*HIST)` and `p_up[num-1] = 100`.
   */
  method FillPercentTables(ib: seq<nat>, pu: array<int>, pd: array<int>)
    requires |ib| >= 1 && ib[|ib| - 1] > 0
    requires pu.Length == |ib| && pd.Length == |ib| && pu != pd
    modifies pu, pd
    ensures forall k :: 0 <= k < |ib| ==> pu[k] == PUpOf(ib, k)
    ensures forall k :: 0 <= k < |ib| ==> pd[k] == PDownOf(ib, k)
  {
    var num := |ib|;
    var t2: int := 2 * HIST;
    for i := 0 to num
      invariant forall k :: 0 <= k < i ==> pu[k] == LevelPercent(ib, k) - HIST
      invariant forall k :: 0 <= k < i ==> pd[k] == (if k == 0 then 0 else LevelPercent(ib, k - 1) - 2 * HIST)
      invariant i > 0 ==> t2 == LevelPercent(ib, i - 1)
      invariant i == 0 ==> t2 == 2 * HIST
    {
      var t1 := LevelPercent(ib, i);
      pu[i] := t1 - HIST;
      pd[i] := t2 - 2 * HIST;
      t2 := t1;
    }
    pd[0] := 0;
    // The source writes p_down[1] unconditionally; with a single level the
    // index is past the table and the model drops the write.
    if num >= 2 {
      pd[1] := Max(pd[1], 2 * HIST);
    }
    pu[num - 1] := 100;
  }

  /**
   * The governor's state: `priv->bus` of devfreq_msm_adreno_tz_data (the
   * device-tree tables, the threshold arrays and the accumulators), the
   * msm_busmon_extended_profile fields the governor writes, and the
   * function-static `norm_ab_max`.
   */
  class BusMon {
    const num: nat
    const ib: seq<nat>
    const index: seq<int>
    const width: nat
    const floating: bool
    const freqTable: seq<nat>

    var started: bool
    var max: nat
    const up: array<int>
    const down: array<int>
    const pUp: array<int>
    const pDown: array<int>

    var totalTime: nat
    var gpuTime: nat
    var ramTime: nat
    var ramWait: nat

    var samplingMs: nat
    var flag: Hint
    var abMbytes: nat
    var percentAb: nat
    var normAbMax: nat

    ghost predicate Valid()
      reads this
    {
      && num >= 1 && |ib| == num && ib[num - 1] > 0
      && |index| == |freqTable|
      && samplingMs > 0 && normAbMax > 0
      && up.Length == num && down.Length == num
      && pUp.Length == num && pDown.Length == num
      && up != down && up != pUp && up != pDown
      && down != pUp && down != pDown && pUp != pDown
    }

    /** The profile as the driver registers it, before the governor starts. */
    constructor (ib: seq<nat>, index: seq<int>, freqTable: seq<nat>, max: nat,
                 width: nat, floating: bool, samplingMs: nat)
      requires |ib| >= 1 && ib[|ib| - 1] > 0 && |index| == |freqTable| && samplingMs > 0
      ensures Valid() && !started
      ensures this.num == |ib| && this.ib == ib && this.index == index
      ensures this.freqTable == freqTable && this.max == max && this.width == width
      ensures this.floating == floating && this.samplingMs == samplingMs
      ensures totalTime == 0 && gpuTime == 0 && ramTime == 0 && ramWait == 0
      ensures flag == NoHint && normAbMax == NORM_AB_MAX_INIT
    {
      num := |ib|;
      this.ib := ib;
      this.index := index;
      this.freqTable := freqTable;
      this.max := max;
      this.width := width;
      this.floating := floating;
      this.samplingMs := samplingMs;
      started := false;
      up := new int[|ib|];
      down := new int[|ib|];
      pUp := new int[|ib|];
      pDown := new int[|ib|];
      totalTime, gpuTime, ramTime, ramWait := 0, 0, 0, 0;
      flag := NoHint;
      abMbytes, percentAb := 0, 0;
      normAbMax := NORM_AB_MAX_INIT;
    }

    /** _update_cutoff(norm_max): record the new maximum and rescale both threshold tables. */
    method UpdateCutoff(normMax: nat)
      requires Valid() && started
      modifies this`max, up, down
      ensures Valid()
      ensures max == normMax
      ensures forall k :: 0 <= k < num ==> up[k] == Cutoff(pUp[k], normMax)
      ensures forall k :: 0 <= k < num ==> down[k] == Cutoff(pDown[k], normMax)
    {
      max := normMax;
      for i := 0 to num
        invariant max == normMax
        invariant forall k :: 0 <= k < i ==> up[k] == Cutoff(pUp[k], normMax)
        invariant forall k :: 0 <= k < i ==> down[k] == Cutoff(pDown[k], normMax)
      {
        up[i] := Cutoff(pUp[i], normMax);
        down[i] := Cutoff(pDown[i], normMax);
      }
    }

    /** The table-filling half of gpubw_start. */
    method InstallTables()
      requires Valid() && !started
      modifies this`started, this`max, up, down, pUp, pDown
      ensures Valid() && started && max == old(max)
      ensures forall k :: 0 <= k < num ==> pUp[k] == PUpOf(ib, k) && pDown[k] == PDownOf(ib, k)
      ensures forall k :: 0 <= k < num ==> up[k] == Cutoff(pUp[k], max) && down[k] == Cutoff(pDown[k], max)
    {
      FillPercentTables(ib, pUp, pDown);
      started := true;
      UpdateCutoff(max);
    }

    /**
     * gpubw_start: the four tables come from kzalloc (`allocOk` false stands
     * for a failed allocation, answered with -ENOMEM; the model holds the
     * tables from construction on), fill the percentage tables from
     * `ib`, scale them by the bus maximum and start with the long sampling
     * interval.
     */
    method Start(allocOk: bool) returns (ret: int)
      requires Valid() && !started
      modifies this`started, this`max, this`samplingMs, up, down, pUp, pDown
      ensures Valid()
      ensures !allocOk ==> ret == -ENOMEM && started == old(started) && max == old(max)
                           && samplingMs == old(samplingMs)
      ensures allocOk ==> ret == 0 && started && samplingMs == LONG_FLOOR
      ensures allocOk ==> max == old(max)
      ensures allocOk ==> pUp[num - 1] == 100 && pDown[0] == 0
      ensures allocOk && num >= 2 ==> pDown[1] >= 2 * HIST
      ensures allocOk ==> forall k :: 0 <= k < num ==> pUp[k] == PUpOf(ib, k)
      ensures allocOk ==> forall k :: 0 <= k < num ==> pDown[k] == PDownOf(ib, k)
      ensures allocOk ==> forall k :: 0 <= k < num ==> up[k] == Cutoff(pUp[k], max) && down[k] == Cutoff(pDown[k], max)
      ensures allocOk && 100 * max < U32 ==> up[num - 1] == max
      ensures totalTime == old(totalTime) && gpuTime == old(gpuTime)
      ensures ramTime == old(ramTime) && ramWait == old(ramWait)
      ensures flag == old(flag) && normAbMax == old(normAbMax)
      ensures abMbytes == old(abMbytes) && percentAb == old(percentAb)
    {
      if !allocOk {
        return -ENOMEM;
      }
      InstallTables();
      samplingMs := LONG_FLOOR;
      return 0;
    }

    /**
     * The hint a closed window leaves, from the hint before it: fast when
     * the window raises the cut-off of a floating bus; otherwise HintAfter
     * with the thresholds `upAct`/`downAct` of the clamped level.
     */
    predicate HintOutcome(w: Window, level: int, oldMax: nat, oldFlag: Hint, upAct: int, downAct: int,
                          newFlag: Hint)
      requires w.total > 0
    {
      if Raises(w, oldMax) then
        newFlag == FastHint
      else
        newFlag == HintAfter(oldFlag, NormCyclesPercent(w), upAct, downAct,
                             WaitActivePercent(w.ram, w.wait), GpuPercent(w), level)
    }

    /** Whether a window raises the cut-off of a floating bus above `oldMax`. */
    predicate Raises(w: Window, oldMax: nat)
      requires w.total > 0
    {
      NormMaxCycles(w) > oldMax && floating
    }

    /** The cut-off tables are the percentage tables scaled by `normMax`. */
    ghost predicate Scaled(normMax: nat)
      requires up.Length == num && down.Length == num && pUp.Length == num && pDown.Length == num
      reads up, down, pUp, pDown
    {
      forall k :: 0 <= k < num ==> up[k] == Cutoff(pUp[k], normMax) && down[k] == Cutoff(pDown[k], normMax)
    }

    /**
     * The vote's outcome, from the old vote fields to the new ones: with a
     * bus width, the rounded absolute vote; with none and a hint set, the
     * largest ratio seen grows to this window's and the percentage is taken
     * against it; otherwise nothing changes.
     */
    predicate VoteOutcome(w: Window, hint: Hint, oldAb: nat, oldPercent: nat, oldNormAbMax: nat,
                          newAb: nat, newPercent: nat, newNormAbMax: nat)
      requires w.total > 0 && oldNormAbMax > 0
    {
      if width != 0 then
        newAb == BwVote(NormMaxCycles(w), width) && newPercent == oldPercent && newNormAbMax == oldNormAbMax
      else if hint != NoHint then
        && newNormAbMax == Max(NormMaxCycles(w), oldNormAbMax)
        && newPercent == PercentAb(NormMaxCycles(w), newNormAbMax) && newAb == oldAb
      else
        newPercent == oldPercent && newNormAbMax == oldNormAbMax && newAb == oldAb
    }

    /**
     * The hint step of a closed window, from the current hint: a floating
     * bus whose RAM ratio exceeds the current maximum hints fast (its
     * cut-offs are raised by CloseWindow); otherwise the cycle percentage is
     * compared with the thresholds of the clamped level `adj`.
     */
    method ChooseHint(w: Window, level: int, adj: int) returns (hint: Hint)
      requires Valid() && started && w.total > 0
      ensures Raises(w, max) ==> hint == FastHint
      ensures !Raises(w, max) ==>
        hint == HintAfter(flag, NormCyclesPercent(w), up[ActLevel(adj, num)], down[ActLevel(adj, num)],
                          WaitActivePercent(w.ram, w.wait), GpuPercent(w), level)
    {
      hint := flag;
      var normMaxCycles := w.ram / w.total;
      var normCycles := (w.ram + w.wait) / w.total;
      var waitActivePercent := WaitActivePercent(w.ram, w.wait);
      var gpuPercent := GpuPercent(w);
      if normMaxCycles > max && floating {
        hint := FastHint;
      } else {
        normCycles := (100 * normCycles) / TARGET;
        var actLevel := ActLevel(adj, num);
        if (normCycles > up[actLevel] || waitActivePercent > WAIT_THRESHOLD) && gpuPercent > CAP {
          hint := FastHint;
        } else if normCycles < down[actLevel] && level != 0 {
          hint := SlowHint;
        }
      }
    }

    /**
     * The bandwidth vote of a closed window under `hint`: with a known bus
     * width an absolute vote in megabytes rounded up to BW_STEP; otherwise,
     * while a hint is set, a percentage of the largest RAM ratio seen so far.
     */
    method Vote(w: Window, hint: Hint) returns (ab: nat, percent: nat, normMax: nat)
      requires Valid() && w.total > 0
      ensures VoteOutcome(w, hint, abMbytes, percentAb, normAbMax, ab, percent, normMax)
      ensures normMax > 0
    {
      ab, percent, normMax := abMbytes, percentAb, normAbMax;
      if width != 0 {
        var normAb := w.ram / w.total;
        var abMb := (normAb * width * 1000000) / 0x10_0000;
        ab := RoundUpStep(abMb);
      } else if hint != NoHint {
        var normAb := w.ram / w.total;
        normMax := Max(normAb, normMax);
        percent := (100 * normAb) / normMax;
      }
    }

    /**
     * The part of devfreq_gpubw_get_target after a window has closed:
     * `adj` is `bus.index[level] + b.mod`.  Adapt the sampling interval,
     * raise the cut-off of a floating bus or pick a hint at the clamped
     * level, vote average bandwidth, and clear the accumulators.
     */
    method CloseWindow(w: Window, level: int, adj: int)
      requires Valid() && started && w.total > 0
      modifies this`samplingMs, this`flag, this`abMbytes, this`percentAb, this`normAbMax
      modifies this`totalTime, this`gpuTime, this`ramTime, this`ramWait
      ensures Valid()
      ensures totalTime == 0 && gpuTime == 0 && ramTime == 0 && ramWait == 0
      ensures samplingMs == NextSampling(GpuPercent(w), old(samplingMs))
      ensures HintOutcome(w, level, max, old(flag), up[ActLevel(adj, num)], down[ActLevel(adj, num)], flag)
      ensures VoteOutcome(w, flag, old(abMbytes), old(percentAb), old(normAbMax), abMbytes, percentAb, normAbMax)
    {
      var sampling, hint, ab, percent, normMax := DecideWindow(w, level, adj);
      samplingMs, flag, abMbytes, percentAb, normAbMax := sampling, hint, ab, percent, normMax;
      totalTime, gpuTime, ramTime, ramWait := 0, 0, 0, 0;
    }

    /**
     * What a closed window decides, before anything is written: the next
     * sampling interval, the hint and the bandwidth vote.
     */
    method DecideWindow(w: Window, level: int, adj: int)
      returns (sampling: nat, hint: Hint, ab: nat, percent: nat, normMax: nat)
      requires Valid() && started && w.total > 0
      ensures sampling == NextSampling(GpuPercent(w), samplingMs) && sampling > 0
      ensures HintOutcome(w, level, max, flag, up[ActLevel(adj, num)], down[ActLevel(adj, num)], hint)
      ensures VoteOutcome(w, hint, abMbytes, percentAb, normAbMax, ab, percent, normMax) && normMax > 0
    {
      var gpuPercent := GpuPercent(w);
      sampling := samplingMs;
      if gpuPercent > HIGH_GPU_LOAD_THRESHOLD {
        sampling := HIGH_SAMPLING_MS;
      } else if gpuPercent < LOW_GPU_LOAD_THRESHOLD {
        sampling := LOW_SAMPLING_MS;
      }
      hint := ChooseHint(w, level, adj);
      ab, percent, normMax := Vote(w, hint);
    }

    /**
     * devfreq_gpubw_get_target.  `st` is what devfreq_update_stats returned
     * (with status `result`), `freqIn` the caller's `*freq`, and
     * `strayIndex` the value the lookup `bus.index[level]` yields when the
     * current frequency is missing from the table and `level` is -EINVAL
     * (the read lies outside the table).  Before the governor has started
     * (`priv` is NULL) nothing happens.  Otherwise the sample is added to
     * the accumulators; only a window of at least `sampling_ms` is acted on.
     */
    method GetTarget(st: Stats, result: int, strayIndex: int, freqIn: nat) returns (freq: nat, ret: int)
      requires Valid()
      modifies this`samplingMs, this`flag, this`abMbytes, this`percentAb, this`normAbMax, this`max
      modifies this`totalTime, this`gpuTime, this`ramTime, this`ramWait, up, down
      ensures Valid()
      ensures !started ==> freq == freqIn && ret == 0 && totalTime == old(totalTime) && gpuTime == old(gpuTime)
                           && ramTime == old(ramTime) && ramWait == old(ramWait)
                           && samplingMs == old(samplingMs) && flag == old(flag) && max == old(max)
                           && abMbytes == old(abMbytes) && percentAb == old(percentAb) && normAbMax == old(normAbMax)
                           && unchanged(up) && unchanged(down)
      ensures started ==> freq == st.currentFrequency && ret == result
      ensures started && old(totalTime) + st.totalTime < old(samplingMs) ==>
        && totalTime == old(totalTime) + st.totalTime && gpuTime == old(gpuTime) + st.busyTime
        && ramTime == old(ramTime) + st.ramTime && ramWait == old(ramWait) + st.ramWait
        && samplingMs == old(samplingMs) && flag == old(flag) && max == old(max)
        && abMbytes == old(abMbytes) && percentAb == old(percentAb) && normAbMax == old(normAbMax)
        && unchanged(up) && unchanged(down)
      ensures started && old(totalTime) + st.totalTime >= old(samplingMs) ==>
        var w := Window(old(totalTime) + st.totalTime, old(gpuTime) + st.busyTime,
                        old(ramTime) + st.ramTime, old(ramWait) + st.ramWait);
        var level := FreqLevel(freqTable, st.currentFrequency);
        var adj := (if level >= 0 then index[level] else strayIndex) + st.mod;
        && totalTime == 0 && gpuTime == 0 && ramTime == 0 && ramWait == 0
        && samplingMs == NextSampling(GpuPercent(w), old(samplingMs))
        && HintOutcome(w, level, old(max), old(flag), old(up[ActLevel(adj, num)]), old(down[ActLevel(adj, num)]), flag)
        && (Raises(w, old(max)) ==> max == NormMaxCycles(w) && Scaled(max))
        && (!Raises(w, old(max)) ==> max == old(max) && unchanged(up) && unchanged(down))
        && VoteOutcome(w, flag, old(abMbytes), old(percentAb), old(normAbMax), abMbytes, percentAb, normAbMax)
    {
      if !started {
        return freqIn, 0;
      }
      freq, ret := st.currentFrequency, result;
      totalTime := totalTime + st.totalTime;
      gpuTime := gpuTime + st.busyTime;
      ramTime := ramTime + st.ramTime;
      ramWait := ramWait + st.ramWait;

      var level := GetFreqLevel(freqTable, st.currentFrequency);

      if totalTime < samplingMs {
        return;
      }
      var w := Window(totalTime, gpuTime, ramTime, ramWait);
      assert w == Window(old(totalTime) + st.totalTime, old(gpuTime) + st.busyTime,
                         old(ramTime) + st.ramTime, old(ramWait) + st.ramWait);
      // With the frequency missing from the table the source reads
      // index[-EINVAL]; the model takes that value as `strayIndex`.
      var idx := if level >= 0 then index[level] else strayIndex;
      var raise := Raises(w, max);
      CloseWindow(w, level, idx + st.mod);
      // The cut-off tables are rewritten after the window's other state;
      // nothing above reads them once the hint is chosen.
      if raise {
        UpdateCutoff(w.ram / w.total);
      }
    }

    /** The DEVFREQ_GOV_SUSPEND event: clear the time accumulators, keeping the RAM wait. */
    method Suspend()
      requires Valid()
      modifies this`totalTime, this`gpuTime, this`ramTime
      ensures Valid()
      ensures started ==> totalTime == 0 && gpuTime == 0 && ramTime == 0
      ensures !started ==> totalTime == old(totalTime) && gpuTime == old(gpuTime) && ramTime == old(ramTime)
      ensures ramWait == old(ramWait)
    {
      if started {
        totalTime, gpuTime, ramTime := 0, 0, 0;
      }
    }
  }
}
