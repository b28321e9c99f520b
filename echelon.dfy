/**
 * drivers/devfreq/governor_echelon.c: the "Echelon" devfreq governor.  From
 * the last busy/total time sample it predicts a frequency (the maximum under
 * high load, the minimum plus a down-scale offset under low load), applies
 * two hysteresis flags that persist across calls, clamps to the device's
 * range, limits how far the result may move from the current frequency, and
 * falls to the minimum when the GPU is hotter than 80 degrees Celsius.
 *
 * Frequencies, times and the current frequency are `unsigned long`
 * (64 bits); the tunables are `unsigned int`.
 */
module Echelon {
  import opened Machine

  const ECHELON_UPTHRESHOLD: nat := 85
  const ECHELON_DOWNTHRESHOLD: nat := 30
  const ECHELON_DOWNSCALE_FACTOR: nat := 50
  const ECHELON_MAX_SCALE_STEP: nat := 2
  /** Samples at or above 2^24 are scaled down by 2^7 before use. */
  const OVERFLOW_LIMIT: nat := 0x100_0000
  const OVERFLOW_SHIFT_DIV: nat := 128
  /** 80 degrees Celsius in millidegrees. */
  const THERMAL_LIMIT: int := 80000

  /** struct devfreq_echelon_data: a zero field keeps the built-in default. */
  datatype EchelonData = EchelonData(upthreshold: nat, downthreshold: nat,
                                     downscaleFactor: nat, maxScaleStep: nat)

  /** The governor data reference, which may be NULL. */
  datatype DataPtr = NoData | Data(data: EchelonData)

  /** A thermal zone reading: none when the zone is missing or the read fails. */
  datatype Thermal = NoReading | Reading(milliCelsius: int)

  /** The tunables in effect: the nonzero fields of `data` over the defaults 85/30/50/2. */
  function Effective(p: DataPtr): (t: EchelonData)
    ensures p.NoData? ==>
      t == EchelonData(ECHELON_UPTHRESHOLD, ECHELON_DOWNTHRESHOLD, ECHELON_DOWNSCALE_FACTOR, ECHELON_MAX_SCALE_STEP)
    ensures p.Data? ==>
      && t.upthreshold == (if p.data.upthreshold != 0 then p.data.upthreshold else ECHELON_UPTHRESHOLD)
      && t.downthreshold == (if p.data.downthreshold != 0 then p.data.downthreshold else ECHELON_DOWNTHRESHOLD)
      && t.downscaleFactor == (if p.data.downscaleFactor != 0 then p.data.downscaleFactor else ECHELON_DOWNSCALE_FACTOR)
      && t.maxScaleStep == (if p.data.maxScaleStep != 0 then p.data.maxScaleStep else ECHELON_MAX_SCALE_STEP)
    ensures t.upthreshold > 0 && t.downthreshold > 0 && t.downscaleFactor > 0 && t.maxScaleStep > 0
  {
    var d := EchelonData(ECHELON_UPTHRESHOLD, ECHELON_DOWNTHRESHOLD, ECHELON_DOWNSCALE_FACTOR, ECHELON_MAX_SCALE_STEP);
    match p
    case NoData => d
    case Data(x) =>
      EchelonData(if x.upthreshold != 0 then x.upthreshold else d.upthreshold,
                  if x.downthreshold != 0 then x.downthreshold else d.downthreshold,
                  if x.downscaleFactor != 0 then x.downscaleFactor else d.downscaleFactor,
                  if x.maxScaleStep != 0 then x.maxScaleStep else d.maxScaleStep)
  }

  /** The frequency ceiling: df->max_freq, or UINT_MAX when it is 0. */
  function Ceiling(maxFreq: nat): (r: nat)
    ensures maxFreq != 0 ==> r == maxFreq
    ensures maxFreq == 0 ==> r == UINT_MAX
  {
    if maxFreq != 0 then maxFreq else UINT_MAX
  }

  /** `busy * 100 > total * threshold` in 64-bit unsigned arithmetic. */
  predicate LoadAbove(busy: nat, total: nat, threshold: nat)
  {
    Wrap64(busy * 100) > Wrap64(total * threshold)
  }

  /** `busy * 100 < total * threshold` in 64-bit unsigned arithmetic. */
  predicate LoadBelow(busy: nat, total: nat, threshold: nat)
  {
    Wrap64(busy * 100) < Wrap64(total * threshold)
  }

  /**
   * Once a sample has been through the overflow guard, the 64-bit products
   * do not wrap for thresholds up to 128 percent: the comparisons are the
   * plain load comparisons `busy/total` against `threshold/100`.
   */
  lemma {:induction false} LoadTestsExact(busy: nat, total: nat, threshold: nat)
    requires busy < U64 && total < U64 && threshold <= OVERFLOW_SHIFT_DIV
    requires (busy < OVERFLOW_LIMIT && total < OVERFLOW_LIMIT) ||
             (busy < U64 / OVERFLOW_SHIFT_DIV && total < U64 / OVERFLOW_SHIFT_DIV)
    ensures LoadAbove(busy, total, threshold) <==> busy * 100 > total * threshold
    ensures LoadBelow(busy, total, threshold) <==> busy * 100 < total * threshold
  {
    ProductFits(busy, 100);
    ProductFits(total, threshold);
  }

  /** A guarded sample times at most 128 fits in 64 bits. */
  lemma ProductFits(x: nat, k: nat)
    requires x < U64 / OVERFLOW_SHIFT_DIV && k <= OVERFLOW_SHIFT_DIV
    ensures x * k < U64
  {
    MulLeft(x, k, OVERFLOW_SHIFT_DIV);
    assert x * 128 < (U64 / 128) * 128 == U64;
  }

  /** The kernel's two-step clamp: raise to `min`, then lower to `max`. */
  function Clamp(f: nat, min: nat, max: nat): (r: nat)
    ensures min <= max ==> min <= r <= max
    ensures min <= f <= max ==> r == f
    ensures f < min && min <= max ==> r == min
    ensures f > max ==> r == max
    // An inverted range (min above max) yields max: the upper clamp runs last.
    ensures min > max ==> r == max
  {
    var g := if f < min then min else f;
    if g > max then max else g
  }

  /**
   * The step limiter as written: `cur > f + step` and `cur < f - step`
   * in 64-bit unsigned arithmetic, so `f - step` wraps for `f < step`.
   */
  function StepLimitAsWritten(f: nat, cur: nat, step: nat): nat
  {
    if cur > Wrap64(f + step) then Wrap64(cur - step)
    else if cur < Wrap64(f - step) then Wrap64(cur + step)
    else f
  }

  /**
   * The step limiter as intended: a frequency more than `step` away from
   * the current one is replaced by the frequency exactly `step` away from
   * the current one, towards it; otherwise it stays.
   */
  function StepLimit(f: nat, cur: nat, step: nat): (r: nat)
    ensures cur > f + step ==> r == cur - step && f < r <= cur
    ensures cur + step < f ==> r == cur + step && cur <= r < f
    ensures r == f || r + step == cur || r == cur + step
  {
    if cur > f + step then cur - step
    else if cur + step < f then cur + step
    else f
  }

  /**
   * The intended limiter keeps a frequency that is within `step` of the
   * current one, and otherwise moves it to exactly `step` from the current
   * frequency.
   */
  lemma StepLimitWithinStep(f: nat, cur: nat, step: nat)
    ensures (cur <= f + step && f <= cur + step) <==> StepLimit(f, cur, step) == f
    ensures StepLimit(f, cur, step) != f ==>
      (StepLimit(f, cur, step) + step == cur || StepLimit(f, cur, step) == cur + step)
  {
  }

  /**
   * Away from the wrap (a frequency of at least `step`, and no 64-bit
   * overflow in `f + step` or `cur + step`) the limiter as written is the
   * intended one.
   */
  lemma StepLimitAsWrittenAgrees(f: nat, cur: nat, step: nat)
    requires f >= step && f + step < U64 && cur + step < U64
    ensures StepLimitAsWritten(f, cur, step) == StepLimit(f, cur, step)
  {
  }

  /**
   * With the frequency below the step, `f - step` wraps to a huge value
   * and the limiter as written moves a frequency that is already within
   * `step` of the current one: f = 1, current 2, step 2 gives 4.
   */
  lemma StepLimitAsWrittenMovesNearFrequency()
    ensures StepLimit(1, 2, 2) == 1
    ensures StepLimitAsWritten(1, 2, 2) == 4
  {
    assert Wrap64(1 + 2) == 3;
    assert Wrap64(1 - 2) == U64 - 1;
    assert Wrap64(2 + 2) == 4;
  }

  /** The frequency predicted from the load, before the hysteresis step. */
  function Predicted(freqIn: nat, above: bool, below: bool, min: nat, max: nat, downscale: nat): (r: nat)
    ensures above ==> r == max
    ensures !above && below ==> r == Wrap64(min + downscale)
    ensures !above && !below ==> r == freqIn
  {
    if above then max else if below then Wrap64(min + downscale) else freqIn
  }

  /** The hysteresis step: the frequency and the two flags it leaves. */
  datatype Hysteresis = Hysteresis(freq: nat, scalingUp: bool, scalingDown: bool)

  function HysteresisStep(predicted: nat, above: bool, below: bool, min: nat, max: nat, downscale: nat,
                          scalingUp: bool, scalingDown: bool): (h: Hysteresis)
    // A flag survives only while the frequency stays at its end of the range.
    ensures !(above && !(scalingUp && predicted == max)) && !(below && !(scalingDown && predicted == min)) ==>
      h == Hysteresis(predicted, scalingUp && predicted == max, scalingDown && predicted == min)
    // A move to the top sets the up flag; a move to the bottom sets the down flag.
    ensures above && !(scalingUp && predicted == max) ==> h.freq == max && h.scalingUp
    ensures !(above && !(scalingUp && predicted == max)) && below && !(scalingDown && predicted == min) ==>
      h.freq == Wrap64(min + downscale) && h.scalingDown
  {
    var up := scalingUp && predicted == max;
    var down := scalingDown && predicted == min;
    if above && !up then Hysteresis(max, true, down)
    else if below && !down then Hysteresis(Wrap64(min + downscale), up, true)
    else Hysteresis(predicted, up, down)
  }

  /**
   * The hysteresis flags never change the frequency the load predicted,
   * unless the load is at once above the up threshold and below the down
   * threshold (which needs a down threshold above the up threshold).
   */
  lemma HysteresisKeepsPrediction(freqIn: nat, above: bool, below: bool, min: nat, max: nat, downscale: nat,
                                  scalingUp: bool, scalingDown: bool)
    requires !(above && below)
    ensures var p := Predicted(freqIn, above, below, min, max, downscale);
      HysteresisStep(p, above, below, min, max, downscale, scalingUp, scalingDown).freq == p
  {
  }

  /** With a down threshold at or below the up threshold, no load is both above and below. */
  lemma ThresholdsExclusive(busy: nat, total: nat, up: nat, down: nat)
    requires down <= up
    ensures !(busy * 100 > total * up && busy * 100 < total * down)
  {
    MulLeft(total, down, up);
  }

  lemma MulLeft(a: nat, b: nat, c: nat)
    requires b <= c
    ensures a * b <= a * c
  {
  }

  /** df->last_status: the sample devfreq_update_stats left, whose times the governor scales in place. */
  class DevStatus {
    var busyTime: nat
    var totalTime: nat
    var currentFrequency: nat

    ghost predicate Valid()
      reads this
    {
      busyTime < U64 && totalTime < U64 && currentFrequency < U64
    }

    constructor (busyTime: nat, totalTime: nat, currentFrequency: nat)
      requires busyTime < U64 && totalTime < U64 && currentFrequency < U64
      ensures Valid() && this.busyTime == busyTime && this.totalTime == totalTime
      ensures this.currentFrequency == currentFrequency
    {
      this.busyTime := busyTime;
      this.totalTime := totalTime;
      this.currentFrequency := currentFrequency;
    }

    /** The overflow guard: both times shift right by 7 when either reaches 2^24. */
    method GuardOverflow()
      requires Valid()
      modifies this`busyTime, this`totalTime
      ensures Valid()
      ensures old(busyTime) >= OVERFLOW_LIMIT || old(totalTime) >= OVERFLOW_LIMIT ==>
        busyTime == old(busyTime) / OVERFLOW_SHIFT_DIV && totalTime == old(totalTime) / OVERFLOW_SHIFT_DIV
      ensures old(busyTime) < OVERFLOW_LIMIT && old(totalTime) < OVERFLOW_LIMIT ==>
        busyTime == old(busyTime) && totalTime == old(totalTime)
      ensures (busyTime < OVERFLOW_LIMIT && totalTime < OVERFLOW_LIMIT)
              || (busyTime < U64 / OVERFLOW_SHIFT_DIV && totalTime < U64 / OVERFLOW_SHIFT_DIV)
    {
      if busyTime >= OVERFLOW_LIMIT || totalTime >= OVERFLOW_LIMIT {
        busyTime := busyTime / OVERFLOW_SHIFT_DIV;
        totalTime := totalTime / OVERFLOW_SHIFT_DIV;
      }
    }
  }

  /** Above 80 degrees Celsius the thermal override applies. */
  predicate TooHot(thermal: Thermal)
  {
    thermal.Reading? && thermal.milliCelsius > THERMAL_LIMIT
  }

  /**
   * What one call with a nonzero total time decides: the new frequency
   * and the new hysteresis flags, from the (guarded) sample, the tunables
   * in effect, the range and the old flags.
   */
  predicate Outcome(busy: nat, total: nat, cur: nat, t: EchelonData, min: nat, max: nat, freqIn: nat,
                    thermal: Thermal, oldUp: bool, oldDown: bool, freq: nat, up: bool, down: bool)
  {
    var above := LoadAbove(busy, total, t.upthreshold);
    var below := LoadBelow(busy, total, t.downthreshold);
    var p := Predicted(freqIn, above, below, min, max, t.downscaleFactor);
    var h := HysteresisStep(p, above, below, min, max, t.downscaleFactor, oldUp, oldDown);
    && up == h.scalingUp && down == h.scalingDown
    && (TooHot(thermal) ==> freq == min)
    && (!TooHot(thermal) ==> freq == StepLimit(Clamp(h.freq, min, max), cur, t.maxScaleStep))
  }

  /**
   * The result stays within the device's range whenever the range is not
   * inverted and the current frequency is in it: the clamp puts the
   * frequency in range and the step limiter only moves it towards the
   * current frequency.
   */
  lemma OutcomeInRange(busy: nat, total: nat, cur: nat, t: EchelonData, min: nat, max: nat, freqIn: nat,
                       thermal: Thermal, oldUp: bool, oldDown: bool, freq: nat, up: bool, down: bool)
    requires Outcome(busy, total, cur, t, min, max, freqIn, thermal, oldUp, oldDown, freq, up, down)
    requires min <= cur <= max
    ensures min <= freq <= max
  {
  }

  /**
   * The decision part of devfreq_echelon_func for a nonzero total time,
   * step by step on local copies of the frequency and the flags.
   */
  method Decide(busy: nat, total: nat, cur: nat, t: EchelonData, min: nat, max: nat, freqIn: nat,
                thermal: Thermal, oldUp: bool, oldDown: bool) returns (freq: nat, up: bool, down: bool)
    ensures Outcome(busy, total, cur, t, min, max, freqIn, thermal, oldUp, oldDown, freq, up, down)
  {
    up, down := oldUp, oldDown;
    var predicted := freqIn;
    freq := freqIn;

    var above := LoadAbove(busy, total, t.upthreshold);
    var below := LoadBelow(busy, total, t.downthreshold);
    if above {
      predicted := max;
    } else if below {
      predicted := Wrap64(min + t.downscaleFactor);
    }
    if predicted != freq {
      freq := predicted;
    }

    if up && freq != max {
      up := false;
    }
    if down && freq != min {
      down := false;
    }
    if above && !up {
      freq := max;
      up := true;
    } else if below && !down {
      freq := Wrap64(min + t.downscaleFactor);
      down := true;
    }

    if freq < min {
      freq := min;
    }
    if freq > max {
      freq := max;
    }

    freq := StepLimit(freq, cur, t.maxScaleStep);

    if TooHot(thermal) {
      freq := min;
    }
  }

  /** The governor: its function-static hysteresis flags, shared by every call. */
  class Governor {
    var scalingUp: bool
    var scalingDown: bool

    /** Both flags start false. */
    constructor ()
      ensures !scalingUp && !scalingDown
    {
      scalingUp := false;
      scalingDown := false;
    }

    /**
     * devfreq_echelon_func.  `updateErr` is the status devfreq_update_stats
     * returned, `freqIn` the caller's `*freq`, `maxFreq`/`minFreq` the
     * device's limits and `thermal` the zone reading.  The step limiter
     * used is the intended one (StepLimit).
     */
    method Func(stat: DevStatus, data: DataPtr, updateErr: int, freqIn: nat, maxFreq: nat, minFreq: nat,
                thermal: Thermal) returns (freq: nat, ret: int)
      requires stat.Valid() && freqIn < U64 && maxFreq < U64 && minFreq < U64
      modifies this, stat`busyTime, stat`totalTime
      ensures stat.Valid()
      ensures updateErr != 0 ==>
        && ret == updateErr && freq == freqIn
        && scalingUp == old(scalingUp) && scalingDown == old(scalingDown)
        && stat.busyTime == old(stat.busyTime) && stat.totalTime == old(stat.totalTime)
      ensures updateErr == 0 ==> ret == 0
      ensures updateErr == 0 && (old(stat.busyTime) >= OVERFLOW_LIMIT || old(stat.totalTime) >= OVERFLOW_LIMIT) ==>
        stat.busyTime == old(stat.busyTime) / OVERFLOW_SHIFT_DIV && stat.totalTime == old(stat.totalTime) / OVERFLOW_SHIFT_DIV
      ensures updateErr == 0 && old(stat.busyTime) < OVERFLOW_LIMIT && old(stat.totalTime) < OVERFLOW_LIMIT ==>
        stat.busyTime == old(stat.busyTime) && stat.totalTime == old(stat.totalTime)
      ensures updateErr == 0 && stat.totalTime == 0 ==>
        freq == Ceiling(maxFreq) && scalingUp == old(scalingUp) && scalingDown == old(scalingDown)
      ensures updateErr == 0 && stat.totalTime != 0 ==>
        Outcome(stat.busyTime, stat.totalTime, stat.currentFrequency, Effective(data), minFreq, Ceiling(maxFreq),
                freqIn, thermal, old(scalingUp), old(scalingDown), freq, scalingUp, scalingDown)
    {
      if updateErr != 0 {
        return freqIn, updateErr;
      }
      ret := 0;
      stat.GuardOverflow();
      if stat.totalTime == 0 {
        freq := Ceiling(maxFreq);
        return;
      }
      var up, down;
      freq, up, down := Decide(stat.busyTime, stat.totalTime, stat.currentFrequency, Effective(data),
                               minFreq, Ceiling(maxFreq), freqIn, thermal, scalingUp, scalingDown);
      scalingUp, scalingDown := up, down;
    }
  }
}
