/** The promises of the encoder's sound, over every run of buffers and every behaviour of the codec. */
module AudioResults {
  import opened AudioClock
  import opened AudioMix
  import opened AudioTracks

  // ---- What one drain does -------------------------------------------------------------------------

  /** A drain adds whole codec frames, stops at the first that fails, and otherwise goes on until some
      source lacks a frame. */
  lemma {:induction false} DrainFrames(cfg: Config, m: Mix)
    requires ValidConfig(cfg) && ValidMix(cfg, m)
    ensures var (d, encoded) := Drain(cfg, m);
            && m.attempts <= d.attempts
            && (forall k | |m.attempts| <= k < |d.attempts| :: |d.attempts[k].frames| == cfg.frameSize)
            && (encoded ==> !Ready(cfg, d))
            && (!encoded ==> |m.attempts| < |d.attempts| && d.attempts[|d.attempts| - 1].outcome != Encoded)
    decreases if |m.sources| > 0 then |m.sources[0].queue| else 0
  {
    if Ready(cfg, m) {
      var (next, encoded) := EncodeMixed(cfg, m, cfg.frameSize);
      if encoded {
        DrainFrames(cfg, next);
      }
    }
  }

  /** No queue is further behind another than `spread`. */
  ghost predicate Within(m: Mix, spread: nat) {
    forall i, j | 0 <= i < |m.sources| && 0 <= j < |m.sources| ::
      |m.sources[i].queue| <= |m.sources[j].queue| + spread
  }

  lemma {:induction false} DrainKeepsSpread(cfg: Config, m: Mix, spread: nat)
    requires ValidConfig(cfg) && ValidMix(cfg, m) && Within(m, spread)
    ensures Within(Drain(cfg, m).0, spread)
    decreases if |m.sources| > 0 then |m.sources[0].queue| else 0
  {
    if Ready(cfg, m) {
      var (next, encoded) := EncodeMixed(cfg, m, cfg.frameSize);
      assert Within(next, spread);
      if encoded {
        DrainKeepsSpread(cfg, next, spread);
      }
    }
  }

  lemma OneSecond(clock: Clock)
    ensures Tolerance(clock, STALL_TOLERANCE_NS) == clock.sampleRate
    ensures Tolerance(clock, 0) == 0
  {
    DivIsLargest(STALL_TOLERANCE_NS * clock.sampleRate, NANOSECONDS, clock.sampleRate);
    DivBounds(STALL_TOLERANCE_NS * clock.sampleRate, NANOSECONDS);
  }

  /** Levelling leaves no queue behind another by more than the tolerance, and never shortens one or makes
      the longest longer. */
  lemma LevelSpread(clock: Clock, sources: seq<Source>, toleranceNs: nat)
    ensures var r := Level(clock, sources, toleranceNs);
            && (forall i, j | 0 <= i < |r| && 0 <= j < |r| ::
                  |r[i].queue| <= |r[j].queue| + Tolerance(clock, toleranceNs))
            && (forall i | 0 <= i < |r| :: sources[i].queue <= r[i].queue && |r[i].queue| <= Longest(Queues(sources)))
  {
  }

  // ---- The backlog ---------------------------------------------------------------------------------

  /** Some source lacks a codec frame, and none holds a frame and a second or more. */
  ghost predicate Bounded(cfg: Config, m: Mix) {
    && (exists i | 0 <= i < |m.sources| :: |m.sources[i].queue| < cfg.frameSize)
    && forall i | 0 <= i < |m.sources| :: |m.sources[i].queue| < cfg.frameSize + cfg.clock.sampleRate
  }

  /** However badly the sources had come apart and whatever failed before, a buffer that is stored and
      encoded without a failure leaves a bounded backlog. */
  lemma BacklogAfterSubmit(cfg: Config, m: Mix, source: nat, buffer: Buffer)
    requires ValidConfig(cfg) && ValidMix(cfg, m) && ValidBuffer(buffer)
    requires Accepts(cfg.clock, |m.sources|, source, buffer) && Placing(cfg, m, source, buffer).Placed?
    requires Submit(cfg, m, source, buffer).1
    ensures Bounded(cfg, Submit(cfg, m, source, buffer).0)
  {
    var filled := Filled(cfg, m, source, buffer);
    var p := Placing(cfg, m, source, buffer);
    OneSecond(cfg.clock);
    LevelSpread(cfg.clock, m.sources[source := Append(cfg.clock, m.sources[source], buffer, p)], STALL_TOLERANCE_NS);
    assert Within(filled, cfg.clock.sampleRate);
    DrainKeepsSpread(cfg, filled, cfg.clock.sampleRate);
    DrainFrames(cfg, filled);
  }

  lemma SubmitFrames(cfg: Config, m: Mix, source: nat, buffer: Buffer)
    requires ValidConfig(cfg) && ValidMix(cfg, m) && ValidBuffer(buffer)
    ensures var (r, submitted) := Submit(cfg, m, source, buffer);
            && m.attempts <= r.attempts
            && (forall k | |m.attempts| <= k < |r.attempts| :: |r.attempts[k].frames| == cfg.frameSize)
            && (Accepts(cfg.clock, |m.sources|, source, buffer) && !submitted ==> !NoneFailed(r))
            && (NoneFailed(r) ==> NoneFailed(m))
  {
    if Accepts(cfg.clock, |m.sources|, source, buffer) && Placing(cfg, m, source, buffer).Placed? {
      DrainFrames(cfg, Filled(cfg, m, source, buffer));
    }
    var r := Submit(cfg, m, source, buffer).0;
    if NoneFailed(r) {
      forall k | 0 <= k < |m.attempts| ensures m.attempts[k].outcome == Encoded {
        assert m.attempts[k] == r.attempts[k];
      }
    }
  }

  /** With no failed encode the backlog is bounded after every call, however the sources interleave or
      stall. */
  lemma {:induction false} BacklogIsBounded(cfg: Config, calls: seq<Call>)
    requires ValidConfig(cfg) && ValidCalls(calls) && NoneFailed(Run(cfg, calls))
    ensures Bounded(cfg, Run(cfg, calls))
  {
    if calls == [] {
      assert |Initial(cfg).sources[0].queue| < cfg.frameSize;
    } else {
      var before := calls[..|calls| - 1];
      var m := Run(cfg, before);
      var last := calls[|calls| - 1];
      SubmitFrames(cfg, m, last.source, last.buffer);
      BacklogIsBounded(cfg, before);
      if Accepts(cfg.clock, |m.sources|, last.source, last.buffer)
         && Placing(cfg, m, last.source, last.buffer).Placed?
      {
        BacklogAfterSubmit(cfg, m, last.source, last.buffer);
      }
    }
  }

  // ---- Nothing slips, nothing is lost --------------------------------------------------------------

  /** Samples the codec refused. */
  function Lost(attempts: seq<Attempt>): nat {
    if attempts == [] then 0
    else
      var last := attempts[|attempts| - 1];
      Lost(attempts[..|attempts| - 1]) + if last.outcome == SendFailed then |last.frames| else 0
  }

  lemma {:induction false} TotalSplits(attempts: seq<Attempt>)
    ensures Total(attempts) == Taken(attempts) + Lost(attempts)
    ensures (forall k | 0 <= k < |attempts| :: attempts[k].outcome != SendFailed) ==> Lost(attempts) == 0
  {
    if attempts != [] {
      TotalSplits(attempts[..|attempts| - 1]);
    }
  }

  /** Conservation, whatever fails: every sample a source was given is still queued, was taken by the codec
      or went with a refused frame. What left the queues is the same for all sources, so they never slip
      against one another. */
  lemma SourcesNeverSlip(cfg: Config, calls: seq<Call>)
    requires ValidConfig(cfg) && ValidCalls(calls)
    ensures var m := Run(cfg, calls);
            forall i | 0 <= i < |m.sources| ::
              m.sources[i].numSamples == |m.sources[i].queue| + m.numAudioSamples + Lost(m.attempts)
  {
    RunRefines(cfg, calls);
    TotalSplits(Run(cfg, calls).attempts);
  }

  /** Every frame tried on the codec is its own window of the mix: the windows follow one another, a
      refused frame loses exactly its own, and while none is refused a frame's time stamp is where its
      window starts. `RunRefines` gives the first requirement for every run. */
  lemma FramesAreWindows(cfg: Config, m: Mix, tracks: Tracks, k: nat)
    requires ValidConfig(cfg) && Refines(cfg, m, tracks) && k < |m.attempts|
    ensures var start := Total(m.attempts[..k]);
            var end := start + |m.attempts[k].frames|;
            && end <= Total(m.attempts)
            && m.attempts[k].frames
                 == MixTracks(cfg.gains, cfg.clock.channels, tracks, Total(m.attempts))[start..end]
            && m.attempts[k].pts == start - Lost(m.attempts[..k])
            && (NoneRefused(m) ==> m.attempts[k].pts == start)
  {
    SamplesAt(m.attempts, k);
    TotalSplits(m.attempts[..k]);
  }

  lemma {:induction false} SamplesAt(attempts: seq<Attempt>, k: nat)
    requires k < |attempts|
    ensures |Samples(attempts)| == Total(attempts)
    ensures Total(attempts[..k]) + |attempts[k].frames| <= Total(attempts)
    ensures Samples(attempts)[Total(attempts[..k])..Total(attempts[..k]) + |attempts[k].frames|]
         == attempts[k].frames
  {
    var before := attempts[..|attempts| - 1];
    SamplesLength(before);
    if k < |before| {
      SamplesAt(before, k);
      assert before[..k] == attempts[..k];
    }
  }

  lemma {:induction false} SamplesLength(attempts: seq<Attempt>)
    ensures |Samples(attempts)| == Total(attempts)
  {
    if attempts != [] {
      SamplesLength(attempts[..|attempts| - 1]);
    }
  }

  // ---- The end -------------------------------------------------------------------------------------

  /** The output a recording should have: every track padded to the longest, and mixed. */
  function WholeMix(clock: Clock, gains: seq<real>, tracks: Tracks): seq<Frame>
    requires 1 <= |tracks| <= |gains| && ValidTracks(clock.channels, tracks)
  {
    PaddedTracks(clock, tracks);
    MixTracks(gains, clock.channels, LevelTracks(clock, tracks, 0), Longest(tracks))
  }

  lemma PaddedTracks(clock: Clock, tracks: Tracks)
    requires ValidTracks(clock.channels, tracks)
    ensures var padded := LevelTracks(clock, tracks, 0);
            ValidTracks(clock.channels, padded) && forall i | 0 <= i < |padded| :: |padded[i]| == Longest(tracks)
  {
    OneSecond(clock);
    forall i | 0 <= i < |tracks| ensures IsFrames(clock.channels, LevelTracks(clock, tracks, 0)[i]) {
      assert IsFrames(clock.channels, tracks[i]);
    }
  }

  lemma LevelRefines(cfg: Config, m: Mix, tracks: Tracks)
    requires ValidConfig(cfg) && ValidMix(cfg, m) && Refines(cfg, m, tracks)
    ensures Refines(cfg, Levelled(cfg, m), LevelTracks(cfg.clock, tracks, 0))
  {
    LevelFollows(cfg, m, tracks, Total(m.attempts), 0);
    MixPrefix(cfg.gains, cfg.clock.channels, tracks, LevelTracks(cfg.clock, tracks, 0), Total(m.attempts));
  }

  /** With no failed encode the drain leaves less than a frame in every queue. */
  lemma DrainedTail(cfg: Config, m: Mix)
    requires ValidConfig(cfg) && ValidMix(cfg, m)
    ensures var (drained, encoded) := Drain(cfg, Levelled(cfg, m));
            && SameLength(drained)
            && m.attempts <= drained.attempts
            && (forall k | |m.attempts| <= k < |drained.attempts| ::
                  |drained.attempts[k].frames| == cfg.frameSize)
            && (NoneFailed(drained) ==> encoded && |drained.sources[0].queue| < cfg.frameSize)
  {
    DrainFrames(cfg, Levelled(cfg, m));
    DrainKeepsLevel(cfg, Levelled(cfg, m));
  }

  /** Finishing reads on along the padded tracks. */
  lemma FinishRefines(cfg: Config, m: Mix, tracks: Tracks)
    requires ValidConfig(cfg) && ValidMix(cfg, m) && Refines(cfg, m, tracks)
    ensures Refines(cfg, Finish(cfg, m).0, LevelTracks(cfg.clock, tracks, 0))
  {
    var levelled := Levelled(cfg, m);
    var padded := LevelTracks(cfg.clock, tracks, 0);
    LevelRefines(cfg, m, tracks);
    DrainRefines(cfg, levelled, padded);
    DrainKeepsLevel(cfg, levelled);
    var drained := Drain(cfg, levelled).0;
    TailRefines(cfg, drained, padded);
  }

  lemma TailRefines(cfg: Config, drained: Mix, padded: Tracks)
    requires ValidConfig(cfg) && ValidMix(cfg, drained) && Refines(cfg, drained, padded) && SameLength(drained)
    ensures 0 < |drained.sources[0].queue| <= cfg.frameSize ==>
              Refines(cfg, EncodeMixed(cfg, drained, |drained.sources[0].queue|).0, padded)
  {
    if 0 < |drained.sources[0].queue| <= cfg.frameSize {
      EncodeRefines(cfg, drained, padded, |drained.sources[0].queue|);
    }
  }

  /** With no failed encode, finishing empties every queue in full frames and one short one. */
  lemma FinishFrames(cfg: Config, m: Mix)
    requires ValidConfig(cfg) && ValidMix(cfg, m)
    ensures var (r, ending) := Finish(cfg, m);
            && m.attempts <= r.attempts
            && (NoneFailed(r) ==>
                  && ending == Flushed
                  && (forall i | 0 <= i < |r.sources| :: r.sources[i].queue == [])
                  && (forall k | |m.attempts| <= k < |r.attempts| - 1 :: |r.attempts[k].frames| == cfg.frameSize)
                  && (|m.attempts| < |r.attempts| ==>
                        0 < |r.attempts[|r.attempts| - 1].frames| <= cfg.frameSize))
  {
    DrainedTail(cfg, m);
    var drained := Drain(cfg, Levelled(cfg, m)).0;
    var r := Finish(cfg, m).0;
    if NoneFailed(r) {
      forall k | 0 <= k < |drained.attempts| ensures drained.attempts[k].outcome == Encoded {
        assert drained.attempts[k] == r.attempts[k];
      }
    }
  }

  lemma {:induction false} RunFrames(cfg: Config, calls: seq<Call>)
    requires ValidConfig(cfg) && ValidCalls(calls)
    ensures forall k | 0 <= k < |Run(cfg, calls).attempts| ::
              |Run(cfg, calls).attempts[k].frames| == cfg.frameSize
  {
    if calls != [] {
      var before, last := calls[..|calls| - 1], calls[|calls| - 1];
      var m := Run(cfg, before);
      RunFrames(cfg, before);
      SubmitFrames(cfg, m, last.source, last.buffer);
      var r := Submit(cfg, m, last.source, last.buffer).0;
      assert r == Run(cfg, calls);
      forall k | 0 <= k < |r.attempts| ensures |r.attempts[k].frames| == cfg.frameSize {
        if k < |m.attempts| {
          assert r.attempts[k] == m.attempts[k];
        }
      }
    }
  }

  /** With no failed encode the file holds the whole mix of the padded tracks and nothing else. */
  lemma WholeMixIsWritten(cfg: Config, m: Mix, tracks: Tracks)
    requires ValidConfig(cfg) && ValidMix(cfg, m) && Refines(cfg, m, tracks)
    requires NoneFailed(Finish(cfg, m).0)
    ensures ValidTracks(cfg.clock.channels, tracks) && 1 <= |tracks| <= |cfg.gains|
    ensures Samples(Finish(cfg, m).0.attempts) == WholeMix(cfg.clock, cfg.gains, tracks)
    ensures Finish(cfg, m).0.numAudioSamples == Longest(tracks)
  {
    var r := Finish(cfg, m).0;
    var padded := LevelTracks(cfg.clock, tracks, 0);
    FinishRefines(cfg, m, tracks);
    FinishFrames(cfg, m);
    PaddedTracks(cfg.clock, tracks);
    TotalSplits(r.attempts);
    assert r.sources[0].queue == [];
    assert Total(r.attempts) == |padded[0]|;
  }

  lemma FinishedSound(cfg: Config, calls: seq<Call>)
    requires ValidConfig(cfg) && ValidCalls(calls)
    requires NoneFailed(Finish(cfg, Run(cfg, calls)).0)
    ensures var tracks := Timeline(cfg.clock, |cfg.gains|, calls);
            var r := Finish(cfg, Run(cfg, calls)).0;
            && ValidTracks(cfg.clock.channels, tracks)
            && Samples(r.attempts) == WholeMix(cfg.clock, cfg.gains, tracks)
            && r.numAudioSamples == Longest(tracks)
  {
    RunRefines(cfg, calls);
    WholeMixIsWritten(cfg, Run(cfg, calls), Timeline(cfg.clock, |cfg.gains|, calls));
  }

  ghost predicate FullFrames(cfg: Config, attempts: seq<Attempt>, count: int) {
    forall k | 0 <= k < |attempts| && k < count :: |attempts[k].frames| == cfg.frameSize
  }

  /** Empty queues, full frames, and a last frame no longer than one. */
  ghost predicate WellFinished(cfg: Config, r: Mix, ending: Ending) {
    && ending == Flushed
    && (forall i | 0 <= i < |r.sources| :: r.sources[i].queue == [])
    && FullFrames(cfg, r.attempts, |r.attempts| - 1)
    && (r.attempts != [] ==> 0 < |r.attempts[|r.attempts| - 1].frames| <= cfg.frameSize)
  }

  lemma FinishedFramesFrom(cfg: Config, m: Mix)
    requires ValidConfig(cfg) && ValidMix(cfg, m) && FullFrames(cfg, m.attempts, |m.attempts|)
    requires NoneFailed(Finish(cfg, m).0)
    ensures WellFinished(cfg, Finish(cfg, m).0, Finish(cfg, m).1)
  {
    FinishFrames(cfg, m);
    LastFrames(cfg, m.attempts, Finish(cfg, m).0.attempts);
  }

  lemma FinishedFrames(cfg: Config, calls: seq<Call>)
    requires ValidConfig(cfg) && ValidCalls(calls)
    requires NoneFailed(Finish(cfg, Run(cfg, calls)).0)
    ensures var (r, ending) := Finish(cfg, Run(cfg, calls)); WellFinished(cfg, r, ending)
  {
    RunIsFull(cfg, calls);
    FinishedFramesFrom(cfg, Run(cfg, calls));
  }

  lemma RunIsFull(cfg: Config, calls: seq<Call>)
    requires ValidConfig(cfg) && ValidCalls(calls)
    ensures ValidMix(cfg, Run(cfg, calls))
    ensures FullFrames(cfg, Run(cfg, calls).attempts, |Run(cfg, calls).attempts|)
  {
    RunRefines(cfg, calls);
    RunFrames(cfg, calls);
  }

  /** With no failed encode the file holds the whole mix and nothing else: its length is the longest
      track's, every queue ends empty, and every frame but the last is a full codec frame. */
  lemma FinishedRecording(cfg: Config, calls: seq<Call>)
    requires ValidConfig(cfg) && ValidCalls(calls)
    requires NoneFailed(Finish(cfg, Run(cfg, calls)).0)
    ensures var tracks := Timeline(cfg.clock, |cfg.gains|, calls);
            var (r, ending) := Finish(cfg, Run(cfg, calls));
            && ValidTracks(cfg.clock.channels, tracks)
            && Samples(r.attempts) == WholeMix(cfg.clock, cfg.gains, tracks)
            && r.numAudioSamples == Longest(tracks)
            && WellFinished(cfg, r, ending)
  {
    FinishedSound(cfg, calls);
    FinishedFrames(cfg, calls);
  }

  lemma LastFrames(cfg: Config, before: seq<Attempt>, all: seq<Attempt>)
    requires 0 < cfg.frameSize && before <= all
    requires forall k | 0 <= k < |before| :: |before[k].frames| == cfg.frameSize
    requires forall k | |before| <= k < |all| - 1 :: |all[k].frames| == cfg.frameSize
    requires |before| < |all| ==> 0 < |all[|all| - 1].frames| <= cfg.frameSize
    ensures forall k | 0 <= k < |all| - 1 :: |all[k].frames| == cfg.frameSize
    ensures all != [] ==> 0 < |all[|all| - 1].frames| <= cfg.frameSize
  {
    assert forall k | 0 <= k < |before| :: all[k] == before[k];
  }

  /** Chunking is invisible: two codecs with different frame sizes write the same sound. */
  lemma FrameSizeDoesNotMatter(cfg: Config, other: Config, calls: seq<Call>)
    requires ValidConfig(cfg) && ValidConfig(other) && ValidCalls(calls)
    requires cfg.clock == other.clock && cfg.gains == other.gains
    requires NoneFailed(Finish(cfg, Run(cfg, calls)).0) && NoneFailed(Finish(other, Run(other, calls)).0)
    ensures Samples(Finish(cfg, Run(cfg, calls)).0.attempts)
         == Samples(Finish(other, Run(other, calls)).0.attempts)
  {
    FinishedRecording(cfg, calls);
    FinishedRecording(other, calls);
  }

  // ---- Where the flush reads too far ---------------------------------------------------------------

  /** The codec's first failure from its answer `first` on is its answer `at`. */
  ghost predicate FirstFailure(cfg: Config, first: nat, at: nat) {
    first <= at && cfg.outcomes(at) != Encoded && forall i | first <= i < at :: cfg.outcomes(i) == Encoded
  }

  /** Samples read when the frames `first` to `at` have been tried. */
  function Read(cfg: Config, first: nat, at: nat): nat
    requires first <= at
  {
    (at - first + 1) * cfg.frameSize
  }

  lemma EncodeShortens(cfg: Config, m: Mix)
    requires ValidConfig(cfg) && ValidMix(cfg, m) && SameLength(m) && Ready(cfg, m)
    ensures var next := EncodeMixed(cfg, m, cfg.frameSize).0;
            && SameLength(next)
            && |next.attempts| == |m.attempts| + 1
            && |next.sources[0].queue| == |m.sources[0].queue| - cfg.frameSize
  {
  }

  lemma {:induction false} DrainStops(cfg: Config, m: Mix) returns (at: nat)
    requires ValidConfig(cfg) && ValidMix(cfg, m) && SameLength(m) && !Drain(cfg, m).1
    ensures FirstFailure(cfg, |m.attempts|, at)
    ensures |Drain(cfg, m).0.sources[0].queue| == |m.sources[0].queue| - Read(cfg, |m.attempts|, at)
    decreases |m.sources[0].queue|
  {
    EncodeShortens(cfg, m);
    var (next, encoded) := EncodeMixed(cfg, m, cfg.frameSize);
    if encoded {
      at := DrainStops(cfg, next);
    } else {
      at := |m.attempts|;
    }
  }

  lemma {:induction false} DrainMeetsFailure(cfg: Config, m: Mix, at: nat)
    requires ValidConfig(cfg) && ValidMix(cfg, m) && SameLength(m) && FirstFailure(cfg, |m.attempts|, at)
    requires Read(cfg, |m.attempts|, at) <= |m.sources[0].queue|
    ensures !Drain(cfg, m).1
    ensures |Drain(cfg, m).0.sources[0].queue| == |m.sources[0].queue| - Read(cfg, |m.attempts|, at)
    decreases at - |m.attempts|
  {
    MulMonotone(1, at - |m.attempts| + 1, cfg.frameSize);
    assert Ready(cfg, m);
    EncodeShortens(cfg, m);
    if at > |m.attempts| {
      DrainMeetsFailure(cfg, EncodeMixed(cfg, m, cfg.frameSize).0, at);
    }
  }

  lemma LevelledLength(cfg: Config, m: Mix)
    requires ValidConfig(cfg) && ValidMix(cfg, m)
    ensures SameLength(Levelled(cfg, m))
    ensures |Levelled(cfg, m).sources[0].queue| == Longest(Queues(m.sources))
  {
    OneSecond(cfg.clock);
  }

  /** The final short frame is taken to be no longer than a codec frame. That fails exactly when the codec
      fails during the last drain with more than a frame still to come: when its first failure from here
      on falls on a frame that leaves more than one codec frame of what the longest queue held. */
  lemma FinishOverrunsExactlyWhen(cfg: Config, m: Mix)
    requires ValidConfig(cfg) && ValidMix(cfg, m)
    ensures Finish(cfg, m).1.Overran?
       <==> exists at: nat ::
              && FirstFailure(cfg, |m.attempts|, at)
              && Read(cfg, |m.attempts|, at) + cfg.frameSize < Longest(Queues(m.sources))
  {
    var levelled := Levelled(cfg, m);
    LevelledLength(cfg, m);
    DrainedTail(cfg, m);
    DrainFrames(cfg, levelled);
    if Finish(cfg, m).1.Overran? {
      var at := DrainStops(cfg, levelled);
    }
    forall at: nat | FirstFailure(cfg, |m.attempts|, at)
                  && Read(cfg, |m.attempts|, at) + cfg.frameSize < Longest(Queues(m.sources))
      ensures Finish(cfg, m).1.Overran?
    {
      DrainMeetsFailure(cfg, levelled, at);
    }
  }

  /** Such a recording, whatever the codec's frame size: a buffer of more than three frames and a codec that
      refuses everything. */
  lemma FinishCanOverrun(frameSize: nat, samples: seq<real>)
    requires 0 < frameSize && 3 * frameSize < |samples| < 0x8000_0000
    ensures var cfg := Config(Clock(48000, 1, 1), frameSize, [1.0], k => SendFailed);
            var calls := [Call(0, Buffer([Plane(samples)], |samples|, 1))];
            ValidCalls(calls) && Finish(cfg, Run(cfg, calls)).1.Overran?
  {
    var cfg := Config(Clock(48000, 1, 1), frameSize, [1.0], k => SendFailed);
    var buffer := Buffer([Plane(samples)], |samples|, 1);
    var calls := [Call(0, buffer)];
    var start := Initial(cfg);
    assert calls[..0] == [];
    assert Run(cfg, calls) == Submit(cfg, start, 0, buffer).0;
    assert Placing(cfg, start, 0, buffer) == Placed(0, 0);
    var filled := Filled(cfg, start, 0, buffer);
    assert |filled.sources[0].queue| == |samples|;
    assert FirstFailure(cfg, 0, 0) && FirstFailure(cfg, 1, 1);
    DrainMeetsFailure(cfg, filled, 0);
    EncodeShortens(cfg, filled);
    var m := Run(cfg, calls);
    assert m == EncodeMixed(cfg, filled, frameSize).0;
    FinishOverrunsExactlyWhen(cfg, m);
  }

  // ---- The mix itself ------------------------------------------------------------------------------

  /** The gain-weighted sum of one column, unclamped. */
  function WeightedSum(gains: seq<real>, frames: seq<Frame>, channel: nat, count: nat): real
    requires count <= |frames| <= |gains|
    requires forall i | 0 <= i < |frames| :: channel < |frames[i]|
  {
    if count == 0 then 0.0
    else WeightedSum(gains, frames, channel, count - 1) + Gained(frames[count - 1][channel], gains[count - 1])
  }

  /** What is written is never outside the range, and while no partial sum leaves it the clamps do
      nothing: the mix is the weighted sum. */
  lemma {:induction false} MixIsLinearUntilItClips(gains: seq<real>, frames: seq<Frame>, channel: nat, count: nat)
    requires 1 <= count <= |frames| <= |gains|
    requires forall i | 0 <= i < |frames| :: channel < |frames[i]|
    ensures -1.0 <= MixSample(gains, frames, channel, count) <= 1.0
    ensures (forall k | 1 <= k <= count :: -1.0 <= WeightedSum(gains, frames, channel, k) <= 1.0)
            ==> MixSample(gains, frames, channel, count) == WeightedSum(gains, frames, channel, count)
  {
    if count > 1 {
      MixIsLinearUntilItClips(gains, frames, channel, count - 1);
    } else {
      assert WeightedSum(gains, frames, channel, 0) == 0.0;
    }
  }

  // ---- Alignment -----------------------------------------------------------------------------------

  /** A buffer placed on any tracks whose time line is in range -- those of a run in particular -- starts
      there no more than 100 ms before its time stamp says, or one sample period where that is longer, and
      a hole that was filled leaves it no later than its time stamp either. Nothing before it moves. */
  lemma BuffersStayAligned(clock: Clock, tracks: Tracks, call: Call)
    requires ValidClock(clock) && ValidBuffer(call.buffer)
    requires Accepts(clock, |tracks|, call.source, call.buffer)
    requires InRange(clock, |tracks[call.source]|, call.buffer.numFrames, call.buffer.timestampNs)
    ensures var track, b := tracks[call.source], call.buffer;
            var p := Place(clock, |track|, b.numFrames, b.timestampNs);
            if p.BeforeEpoch? then Extend(clock, tracks, call) == tracks
            else
              var start := |track| + GapSamples(clock, p.driftNs);
              var kept := Kept(clock.channels, b, p.skipped);
              && track + Silence(clock.channels, start - |track|) + kept <= Extend(clock, tracks, call)[call.source]
              && (b.planes[0].Plane? ==> 0 < |kept|)
              && DriftAt(clock, OffsetNs(clock, b.timestampNs), start)
                   <= Max(GAP_THRESHOLD_NS, NANOSECONDS / clock.sampleRate + 1)
              && (p.driftNs > GAP_THRESHOLD_NS ==> 0 <= DriftAt(clock, OffsetNs(clock, b.timestampNs), start))
  {
    var track, b := tracks[call.source], call.buffer;
    var p := Place(clock, |track|, b.numFrames, b.timestampNs);
    TrimAtEpoch(clock, |track|, b.numFrames, b.timestampNs);
    if p.Placed? {
      StoredAtMostThresholdEarly(clock, |track|, b.numFrames, b.timestampNs);
      if p.driftNs > GAP_THRESHOLD_NS {
        GapFillNeverOvershoots(clock, |track|, b.numFrames, b.timestampNs);
      }
      ExtendIsLonger(clock, tracks, call);
    }
  }

  lemma ExtendIsLonger(clock: Clock, tracks: Tracks, call: Call)
    requires 0 < clock.sampleRate && ValidBuffer(call.buffer)
    requires Accepts(clock, |tracks|, call.source, call.buffer)
    requires Place(clock, |tracks[call.source]|, call.buffer.numFrames, call.buffer.timestampNs).Placed?
    ensures var p := Place(clock, |tracks[call.source]|, call.buffer.numFrames, call.buffer.timestampNs);
            Longer(clock, tracks[call.source], call.buffer, p) <= Extend(clock, tracks, call)[call.source]
  {
  }
}
