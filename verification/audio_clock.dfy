/** Where an audio buffer lands on the recording's time line, in the 64-bit arithmetic of the encoder,
    and what that arithmetic promises: trimming at the epoch keeps something, a gap fill never
    overshoots, and nothing wraps while the time line is short enough. */
module AudioClock {
  const NANOSECONDS: int := 1_000_000_000
  const GAP_THRESHOLD_NS: int := 100_000_000
  const STALL_TOLERANCE_NS: int := 1_000_000_000
  const TWO_31: int := 0x8000_0000
  const TWO_32: int := 0x1_0000_0000
  const TWO_63: int := 0x8000_0000_0000_0000
  const TWO_64: int := 0x1_0000_0000_0000_0000

  /** What a recording fixes about its audio; `epochNs` is the first video frame's time stamp, and zero
      means there is none yet. */
  datatype Clock = Clock(sampleRate: nat, channels: nat, epochNs: nat)

  ghost predicate ValidClock(clock: Clock) {
    0 < clock.sampleRate < TWO_31 && 0 < clock.channels && clock.epochNs < TWO_64
  }

  /** Unsigned 64-bit wrap-around. */
  function U64(value: int): (r: nat)
    ensures r < TWO_64
    ensures 0 <= value < TWO_64 ==> r == value
  {
    value % TWO_64
  }

  /** The cast from unsigned to signed 64 bits. */
  function S64(value: nat): (r: int)
    requires value < TWO_64
    ensures -TWO_63 <= r < TWO_63
    ensures value < TWO_63 ==> r == value
  {
    if value < TWO_63 then value else value - TWO_64
  }

  function Max(a: int, b: int): int { if a < b then b else a }
  function Min(a: int, b: int): int { if a < b then a else b }

  /** A buffer either ends before the epoch, or loses `skipped` samples at its head and finds the track
      `driftNs` short of where the buffer's time stamp says it should be. */
  datatype Placement = BeforeEpoch | Placed(skipped: nat, driftNs: int)

  /** When a buffer ends. */
  function EndNs(clock: Clock, numFrames: nat, timestampNs: nat): nat
    requires 0 < clock.sampleRate
  {
    U64(timestampNs + U64(numFrames * NANOSECONDS) / clock.sampleRate)
  }

  /** The samples at a buffer's head that come before the epoch. */
  function HeadTrim(clock: Clock, numFrames: nat, timestampNs: nat): (skipped: nat)
    ensures skipped <= numFrames
  {
    if timestampNs < clock.epochNs then
      Min((U64((clock.epochNs - timestampNs) * clock.sampleRate) / NANOSECONDS) % TWO_32, numFrames)
    else 0
  }

  /** How far the track falls short of the trimmed buffer's start. */
  function TrackDriftNs(clock: Clock, numSamples: nat, timestampNs: nat): int
    requires 0 < clock.sampleRate
  {
    var startNs := Max(timestampNs, clock.epochNs);
    S64(U64(startNs - clock.epochNs)) - S64(U64(numSamples * NANOSECONDS) / clock.sampleRate)
  }

  /** The encoder's own arithmetic. */
  function Place(clock: Clock, numSamples: nat, numFrames: nat, timestampNs: nat): (p: Placement)
    requires 0 < clock.sampleRate
    ensures p.Placed? ==> p.skipped <= numFrames
  {
    if EndNs(clock, numFrames, timestampNs) <= clock.epochNs then BeforeEpoch
    else Placed(HeadTrim(clock, numFrames, timestampNs), TrackDriftNs(clock, numSamples, timestampNs))
  }

  /** The samples of silence a drift calls for: none up to the threshold. */
  function GapSamples(clock: Clock, driftNs: int): nat {
    if driftNs > GAP_THRESHOLD_NS then U64(driftNs * clock.sampleRate) / NANOSECONDS else 0
  }

  /** How far, in nanoseconds, a track of `numSamples` samples falls short of `offsetNs` after the epoch,
      in unbounded arithmetic. */
  function DriftAt(clock: Clock, offsetNs: nat, numSamples: nat): int
    requires 0 < clock.sampleRate
  {
    offsetNs - numSamples * NANOSECONDS / clock.sampleRate
  }

  /** The buffer's offset from the epoch, once trimmed. */
  function OffsetNs(clock: Clock, timestampNs: nat): nat {
    Max(timestampNs, clock.epochNs) - clock.epochNs
  }

  /** The time line is under 2^64 / 10^9 samples long, the buffer is one the audio stream could hand over,
      and its end is a time that 64 bits hold. */
  ghost predicate InRange(clock: Clock, numSamples: nat, numFrames: nat, timestampNs: nat)
  {
    && ValidClock(clock)
    && 2 <= clock.sampleRate
    && numFrames < TWO_32
    && timestampNs + numFrames * NANOSECONDS / clock.sampleRate < TWO_64
    && numSamples * NANOSECONDS < TWO_64
    && OffsetNs(clock, timestampNs) * clock.sampleRate < TWO_64
  }

  // ---- Rounding ------------------------------------------------------------------------------------

  /** Division rounds down, said without a division. */
  lemma DivBounds(x: int, d: int)
    requires 0 < d
    ensures x / d * d <= x < x / d * d + d
  {
  }

  lemma DivIsLargest(x: int, d: int, q: int)
    requires 0 < d && q * d <= x
    ensures q <= x / d
  {
    DivBounds(x, d);
    if x / d < q {
      assert x / d + 1 <= q;
      MulMonotone(x / d + 1, q, d);
      assert false;
    }
  }

  lemma DivIsSmaller(x: int, d: int, q: int)
    requires 0 < d && x < q * d
    ensures x / d < q
  {
    DivBounds(x, d);
    if q <= x / d {
      MulMonotone(q, x / d, d);
      assert false;
    }
  }

  lemma MulMonotone(a: int, b: int, m: int)
    requires a <= b && 0 <= m
    ensures a * m <= b * m
  {
  }

  // ---- The epoch -----------------------------------------------------------------------------------

  /** The samples trimmed from a buffer that straddles the epoch fall short of the whole buffer. */
  lemma TrimKeepsSome(rate: int, numFrames: nat, headNs: nat)
    requires 0 < rate && headNs < numFrames * NANOSECONDS / rate
    ensures headNs * rate < numFrames * NANOSECONDS
    ensures headNs * rate / NANOSECONDS < numFrames
  {
    var durationNs := numFrames * NANOSECONDS / rate;
    DivBounds(numFrames * NANOSECONDS, rate);
    MulMonotone(headNs + 1, durationNs, rate);
    DivIsSmaller(headNs * rate, NANOSECONDS, numFrames);
  }

  /** The placement in unbounded arithmetic. */
  function ExactPlace(clock: Clock, numSamples: nat, numFrames: nat, timestampNs: nat): Placement
    requires 0 < clock.sampleRate
  {
    if timestampNs + numFrames * NANOSECONDS / clock.sampleRate <= clock.epochNs then
      BeforeEpoch
    else
      var headNs := Max(clock.epochNs - timestampNs, 0);
      Placed(headNs * clock.sampleRate / NANOSECONDS, DriftAt(clock, OffsetNs(clock, timestampNs), numSamples))
  }

  lemma HalfOf(value: nat, rate: int)
    requires 2 <= rate && value * rate < TWO_64
    ensures value < TWO_63
  {
    MulMonotone(2, rate, value);
    assert value * rate == rate * value;
  }

  /** The two signed casts of the drift change nothing. */
  lemma DriftIsExact(rate: int, offsetNs: nat, numSamples: nat)
    requires 2 <= rate && offsetNs * rate < TWO_64 && numSamples * NANOSECONDS < TWO_64
    ensures offsetNs < TWO_63 && numSamples * NANOSECONDS / rate < TWO_63
    ensures S64(U64(offsetNs)) - S64(U64(numSamples * NANOSECONDS) / rate)
         == offsetNs - numSamples * NANOSECONDS / rate
  {
    HalfOf(offsetNs, rate);
    var placedNs := numSamples * NANOSECONDS / rate;
    DivIsLargest(numSamples * NANOSECONDS, rate, 0);
    DivBounds(numSamples * NANOSECONDS, rate);
    HalfOf(placedNs, rate);
  }

  /** The trimmed head: the product does not wrap, the 32-bit cast keeps the count, and the clamp to the
      buffer's length does nothing. */
  lemma SkipIsExact(rate: int, numFrames: nat, headNs: nat)
    requires 0 < rate && numFrames < TWO_32 && headNs < numFrames * NANOSECONDS / rate
    ensures Min((U64(headNs * rate) / NANOSECONDS) % TWO_32, numFrames) == headNs * rate / NANOSECONDS
    ensures headNs * rate / NANOSECONDS < numFrames
  {
    TrimKeepsSome(rate, numFrames, headNs);
    MulMonotone(0, headNs, rate);
  }

  /** In range no product wraps, no cast changes a value and the clamp to the buffer's length does
      nothing: the encoder's placement is the exact one. */
  lemma PlaceIsExact(clock: Clock, numSamples: nat, numFrames: nat, timestampNs: nat)
    requires InRange(clock, numSamples, numFrames, timestampNs)
    ensures Place(clock, numSamples, numFrames, timestampNs)
         == ExactPlace(clock, numSamples, numFrames, timestampNs)
  {
    var rate := clock.sampleRate;
    var durationNs := numFrames * NANOSECONDS / rate;
    assert U64(numFrames * NANOSECONDS) == numFrames * NANOSECONDS;
    DivIsLargest(numFrames * NANOSECONDS, rate, 0);
    assert U64(timestampNs + durationNs) == timestampNs + durationNs;
    if timestampNs + durationNs > clock.epochNs {
      DriftIsExact(rate, OffsetNs(clock, timestampNs), numSamples);
      if timestampNs < clock.epochNs {
        SkipIsExact(rate, numFrames, clock.epochNs - timestampNs);
      } else {
        assert 0 * rate / NANOSECONDS == 0;
      }
    }
  }

  /** A buffer that ends after the epoch always contributes at least one sample, and one that ends at or
      before it contributes none. */
  lemma TrimAtEpoch(clock: Clock, numSamples: nat, numFrames: nat, timestampNs: nat)
    requires 0 < numFrames && InRange(clock, numSamples, numFrames, timestampNs)
    ensures var p := Place(clock, numSamples, numFrames, timestampNs);
            && (p.Placed? <==> timestampNs + numFrames * NANOSECONDS / clock.sampleRate > clock.epochNs)
            && (p.Placed? ==> p.skipped < numFrames)
            && (p.Placed? && timestampNs >= clock.epochNs ==> p.skipped == 0)
  {
    PlaceIsExact(clock, numSamples, numFrames, timestampNs);
    var rate := clock.sampleRate;
    if timestampNs + numFrames * NANOSECONDS / rate > clock.epochNs && timestampNs < clock.epochNs {
      SkipIsExact(rate, numFrames, clock.epochNs - timestampNs);
    }
  }

  // ---- Gaps ----------------------------------------------------------------------------------------

  /** Two roundings in a row lose less than one sample period and one nanosecond. */
  lemma FillRounding(rate: int, offsetNs: int, numSamples: nat, driftNs: int)
    requires 0 < rate && 0 <= driftNs
    requires driftNs == offsetNs - numSamples * NANOSECONDS / rate
    ensures var left := offsetNs - (numSamples + driftNs * rate / NANOSECONDS) * NANOSECONDS / rate;
            0 <= left && (left - 1) * rate < NANOSECONDS
  {
    var placed := numSamples * NANOSECONDS;
    var before := placed / rate;
    var filled := driftNs * rate / NANOSECONDS;
    DivBounds(placed, rate);
    DivBounds(driftNs * rate, NANOSECONDS);
    var total := (numSamples + filled) * NANOSECONDS;
    assert total == placed + filled * NANOSECONDS;
    var after := total / rate;
    DivBounds(total, rate);
    assert (before + driftNs + 1) * rate == before * rate + driftNs * rate + rate;
    DivIsSmaller(total, rate, before + driftNs + 1);
    var left := offsetNs - after;
    assert left == before + driftNs - after;
    assert (left - 1) * rate == before * rate + driftNs * rate - after * rate - rate;
  }

  lemma FillNeverOvershoots(clock: Clock, offsetNs: nat, numSamples: nat)
    requires 0 < clock.sampleRate && offsetNs * clock.sampleRate < TWO_64
    requires DriftAt(clock, offsetNs, numSamples) > GAP_THRESHOLD_NS
    ensures var driftNs := DriftAt(clock, offsetNs, numSamples);
            var gap := GapSamples(clock, driftNs);
            var left := DriftAt(clock, offsetNs, numSamples + gap);
            && gap * NANOSECONDS <= driftNs * clock.sampleRate < TWO_64
            && 0 <= left
            && (left - 1) * clock.sampleRate < NANOSECONDS
  {
    var rate := clock.sampleRate;
    var driftNs := DriftAt(clock, offsetNs, numSamples);
    assert numSamples * NANOSECONDS / rate >= 0 by { DivIsLargest(numSamples * NANOSECONDS, rate, 0); }
    MulMonotone(driftNs, offsetNs, rate);
    DivBounds(driftNs * rate, NANOSECONDS);
    FillRounding(rate, offsetNs, numSamples, driftNs);
  }

  /** A gap fill never overshoots: what is left of the drift is not negative and is at most one sample
      period, rounded up to a nanosecond and one more. */
  lemma GapFillNeverOvershoots(clock: Clock, numSamples: nat, numFrames: nat, timestampNs: nat)
    requires InRange(clock, numSamples, numFrames, timestampNs)
    requires Place(clock, numSamples, numFrames, timestampNs).Placed?
    requires Place(clock, numSamples, numFrames, timestampNs).driftNs > GAP_THRESHOLD_NS
    ensures var driftNs := Place(clock, numSamples, numFrames, timestampNs).driftNs;
            var gap := GapSamples(clock, driftNs);
            var left := DriftAt(clock, OffsetNs(clock, timestampNs), numSamples + gap);
            && gap * NANOSECONDS <= driftNs * clock.sampleRate < TWO_64
            && 0 <= left
            && (left - 1) * clock.sampleRate < NANOSECONDS
  {
    PlaceIsExact(clock, numSamples, numFrames, timestampNs);
    FillNeverOvershoots(clock, OffsetNs(clock, timestampNs), numSamples);
  }

  /** Whatever drift a buffer meets, its first kept sample is stored no more than 100 ms early against its
      time stamp, or one sample period where a period is longer than that. */
  lemma StoredAtMostThresholdEarly(clock: Clock, numSamples: nat, numFrames: nat, timestampNs: nat)
    requires InRange(clock, numSamples, numFrames, timestampNs)
    requires Place(clock, numSamples, numFrames, timestampNs).Placed?
    ensures var gap := GapSamples(clock, Place(clock, numSamples, numFrames, timestampNs).driftNs);
            DriftAt(clock, OffsetNs(clock, timestampNs), numSamples + gap)
              <= Max(GAP_THRESHOLD_NS, NANOSECONDS / clock.sampleRate + 1)
  {
    PlaceIsExact(clock, numSamples, numFrames, timestampNs);
    var driftNs := Place(clock, numSamples, numFrames, timestampNs).driftNs;
    if driftNs > GAP_THRESHOLD_NS {
      GapFillNeverOvershoots(clock, numSamples, numFrames, timestampNs);
      var left := DriftAt(clock, OffsetNs(clock, timestampNs), numSamples + GapSamples(clock, driftNs));
      DivIsLargest(NANOSECONDS, clock.sampleRate, left - 1);
    }
  }
}
