/** The encoder's audio half as it runs: queues, frame buffers and counters changed in place, each method
    proved to carry out its function of `AudioMix`. */
module AudioEncoder {
  import opened AudioClock
  import opened AudioMix

  class Encoder {
    const cfg: Config
    // One per audio source, and two codec frames of `channels` planes.
    const sources: array<Source>
    const audioFrame: array2<real>
    const mixFrame: array2<real>
    var numAudioSamples: nat
    var attempts: seq<Attempt>
    var lastAudioDriftNs: int

    ghost predicate Valid()
      reads this, sources
    {
      && ValidConfig(cfg)
      && audioFrame != mixFrame
      && audioFrame.Length0 == mixFrame.Length0 == cfg.clock.channels
      && audioFrame.Length1 == mixFrame.Length1 == cfg.frameSize
      && sources.Length == |cfg.gains|
      && forall i | 0 <= i < sources.Length :: IsFrames(cfg.clock.channels, sources[i].queue)
    }

    ghost function State(): Mix
      reads this, sources
    {
      Mix(sources[..], numAudioSamples, attempts, lastAudioDriftNs)
    }

    constructor (cfg: Config)
      requires ValidConfig(cfg)
      ensures Valid() && this.cfg == cfg && State() == Initial(cfg)
      ensures fresh(sources) && fresh(audioFrame) && fresh(mixFrame)
    {
      this.cfg := cfg;
      sources := new Source[|cfg.gains|](i => IDLE);
      audioFrame := new real[cfg.clock.channels, cfg.frameSize];
      mixFrame := new real[cfg.clock.channels, cfg.frameSize];
      numAudioSamples, attempts, lastAudioDriftNs := 0, [], 0;
      new;
      assert sources[..] == Initial(cfg).sources;
    }

    /** Only source `index` has changed, and to `s`. */
    twostate predicate OnlyChanged(index: nat, s: Source)
      requires index < sources.Length
      reads sources
    {
      sources[index] == s && forall i | 0 <= i < sources.Length && i != index :: sources[i] == old(sources[i])
    }

    /** Silence goes in a codec frame at a time: that is as much of it as there is to write from. */
    method FillSilence(source: nat, numSamples: nat)
      requires Valid() && source < sources.Length
      modifies sources
      ensures Valid()
      ensures OnlyChanged(source, old(sources[source]).(
                queue := old(sources[source].queue) + Silence(cfg.clock.channels, numSamples)))
    {
      var written := 0;
      assert sources[source].queue + Silence(cfg.clock.channels, 0) == sources[source].queue;
      while written < numSamples
        invariant 0 <= written <= numSamples
        invariant OnlyChanged(source, old(sources[source]).(
                    queue := old(sources[source].queue) + Silence(cfg.clock.channels, written)))
      {
        var chunk := Min(numSamples - written, cfg.frameSize);
        sources[source] := sources[source].(queue := sources[source].queue + Silence(cfg.clock.channels, chunk));
        assert Silence(cfg.clock.channels, written + chunk)
            == Silence(cfg.clock.channels, written) + Silence(cfg.clock.channels, chunk);
        assert sources[source].queue
            == old(sources[source].queue) + Silence(cfg.clock.channels, written + chunk);
        written := written + chunk;
      }
      assert IsFrames(cfg.clock.channels, old(sources[source].queue));
    }

    method LongestQueue() returns (longest: nat)
      ensures longest == Longest(Queues(sources[..]))
    {
      longest := 0;
      for index := 0 to sources.Length
        invariant longest == Longest(Queues(sources[..index]))
      {
        assert Queues(sources[..index + 1])[..index] == Queues(sources[..index]);
        longest := Max(longest, |sources[index].queue|);
      }
      assert sources[..sources.Length] == sources[..];
    }

    /** Levels one source against the longest. */
    method LevelSource(index: nat, longest: nat, tolerance: nat, running: bool)
      requires Valid() && index < sources.Length && |sources[index].queue| <= longest
      modifies sources
      ensures Valid()
      ensures OnlyChanged(index, LevelOne(cfg.clock.channels, old(sources[index]), longest, tolerance, running))
    {
      var behind := longest - |sources[index].queue|;
      if behind > tolerance {
        FillSilence(index, behind);
        var audio := sources[index];
        assert IsFrames(cfg.clock.channels, audio.queue);
        sources[index] := audio.(numSamples := audio.numSamples + behind, numSilent := audio.numSilent + behind,
                                 warnedStall := audio.warnedStall || running);
      }
    }

    method LevelSources(toleranceNs: nat)
      requires Valid()
      modifies sources
      ensures Valid()
      ensures sources[..] == Level(cfg.clock, old(sources[..]), toleranceNs)
    {
      var longest := LongestQueue();
      assert forall i | 0 <= i < sources.Length :: |sources[i].queue| == |Queues(sources[..])[i]| <= longest;
      LevelAgainst(longest, Tolerance(cfg.clock, toleranceNs), toleranceNs > 0);
    }

    method LevelAgainst(longest: nat, tolerance: nat, running: bool)
      requires Valid() && forall i | 0 <= i < sources.Length :: |sources[i].queue| <= longest
      modifies sources
      ensures Valid()
      ensures forall i | 0 <= i < sources.Length ::
                && |old(sources[i].queue)| <= longest
                && sources[i] == LevelOne(cfg.clock.channels, old(sources[i]), longest, tolerance, running)
    {
      for index := 0 to sources.Length
        invariant Valid()
        invariant forall i | 0 <= i < index ::
                    && |old(sources[i].queue)| <= longest
                    && sources[i] == LevelOne(cfg.clock.channels, old(sources[i]), longest, tolerance, running)
        invariant forall i | index <= i < sources.Length :: sources[i] == old(sources[i])
      {
        LevelSource(index, longest, tolerance, running);
      }
    }

    method WriteSilence(source: nat, nanoseconds: nat)
      requires Valid() && source < sources.Length
      modifies sources
      ensures Valid()
      ensures var s := old(sources[source]);
              OnlyChanged(source,
                WithSilence(cfg.clock.channels, s, U64(nanoseconds * cfg.clock.sampleRate) / NANOSECONDS)
                  .(numGaps := s.numGaps + 1))
    {
      var numSamples := U64(nanoseconds * cfg.clock.sampleRate) / NANOSECONDS;
      FillSilence(source, numSamples);
      var audio := sources[source];
      assert IsFrames(cfg.clock.channels, audio.queue);
      sources[source] := audio.(numSamples := audio.numSamples + numSamples,
                                numSilent := audio.numSilent + numSamples, numGaps := audio.numGaps + 1);
    }

    /** The hole first, then what the trim left of the buffer. */
    method StoreBuffer(source: nat, buffer: Buffer, skipped: nat, driftNs: int)
      requires Valid() && ValidBuffer(buffer) && source < sources.Length && skipped <= buffer.numFrames
      modifies sources
      ensures Valid()
      ensures OnlyChanged(source, Append(cfg.clock, old(sources[source]), buffer, Placed(skipped, driftNs)))
    {
      if driftNs > GAP_THRESHOLD_NS {
        WriteSilence(source, driftNs);
      }
      var kept := Kept(cfg.clock.channels, buffer, skipped);
      assert IsFrames(cfg.clock.channels, sources[source].queue);
      if |kept| > 0 {
        var audio := sources[source];
        sources[source] := audio.(queue := audio.queue + kept, numSamples := audio.numSamples + |kept|);
      } else {
        assert sources[source].queue + kept == sources[source].queue;
      }
    }

    /** A placed buffer is stored, the stalled sources are levelled, and what is ready is encoded. */
    method StoreAndEncode(source: nat, buffer: Buffer, skipped: nat, driftNs: int) returns (submitted: bool)
      requires Valid() && ValidBuffer(buffer) && source < sources.Length && skipped <= buffer.numFrames
      requires Placing(cfg, State(), source, buffer) == Placed(skipped, driftNs)
      modifies this, sources, audioFrame, mixFrame
      ensures Valid()
      ensures (State(), submitted) == Drain(cfg, Filled(cfg, old(State()), source, buffer))
    {
      lastAudioDriftNs := driftNs;
      StoreBuffer(source, buffer, skipped, driftNs);
      assert sources[..] == old(sources[..])[source :=
          Append(cfg.clock, old(sources[source]), buffer, Placed(skipped, driftNs))];
      LevelSources(STALL_TOLERANCE_NS);
      assert State() == Filled(cfg, old(State()), source, buffer);
      submitted := EncodeAudioFrames();
    }

    method SubmitAudio(source: nat, buffer: Buffer) returns (submitted: bool)
      requires Valid() && ValidBuffer(buffer)
      modifies this, sources, audioFrame, mixFrame
      ensures Valid()
      ensures (State(), submitted) == Submit(cfg, old(State()), source, buffer)
    {
      submitted := false;
      if source < sources.Length && cfg.clock.epochNs != 0 && buffer.numFrames > 0 {
        if EndNs(cfg.clock, buffer.numFrames, buffer.timestampNs) <= cfg.clock.epochNs {
          submitted := true;
        } else {
          var skipped := HeadTrim(cfg.clock, buffer.numFrames, buffer.timestampNs);
          var driftNs := TrackDriftNs(cfg.clock, sources[source].numSamples, buffer.timestampNs);
          submitted := StoreAndEncode(source, buffer, skipped, driftNs);
        }
      }
    }

    /** Reads the head of a queue into a frame buffer. */
    method ReadQueue(index: nat, frame: array2<real>, numSamples: nat)
      requires Valid() && index < sources.Length && frame in {audioFrame, mixFrame}
      requires numSamples <= |sources[index].queue| && numSamples <= cfg.frameSize
      modifies sources, frame
      ensures Valid()
      ensures OnlyChanged(index, old(sources[index]).(queue := old(sources[index].queue)[numSamples..]))
      ensures forall c, j | 0 <= c < cfg.clock.channels && 0 <= j < numSamples ::
                |old(sources[index].queue)[j]| == cfg.clock.channels && frame[c, j] == old(sources[index].queue)[j][c]
    {
      var queue := sources[index].queue;
      assert IsFrames(cfg.clock.channels, queue);
      forall c, j | 0 <= c < cfg.clock.channels && 0 <= j < numSamples {
        frame[c, j] := queue[j][c];
      }
      sources[index] := sources[index].(queue := queue[numSamples..]);
    }

    /** One sample of one queue. */
    ghost function At(queues: seq<seq<Frame>>, i: nat, j: nat, c: nat): real {
      if i < |queues| && j < |queues[i]| && c < |queues[i][j]| then queues[i][j][c] else 0.0
    }

    /** What the first `count` sources of `queues` mix to at one sample of one channel. */
    ghost function Mixed(queues: seq<seq<Frame>>, c: nat, j: nat, count: nat): real
      requires 1 <= count <= |cfg.gains|
    {
      if count == 1
      then Clamp(Gained(At(queues, 0, j, c), cfg.gains[0]))
      else Clamp(Mixed(queues, c, j, count - 1) + Gained(At(queues, count - 1, j, c), cfg.gains[count - 1]))
    }

    lemma {:induction false} MixedIsMixSample(queues: seq<seq<Frame>>, c: nat, j: nat, count: nat)
      requires 1 <= count <= |queues| <= |cfg.gains|
      requires forall i | 0 <= i < |queues| :: j < |queues[i]| && c < |queues[i][j]|
      ensures Mixed(queues, c, j, count) == MixSample(cfg.gains, Column(queues, j), c, count)
    {
      assert At(queues, count - 1, j, c) == Column(queues, j)[count - 1][c];
      if count > 1 {
        MixedIsMixSample(queues, c, j, count - 1);
      }
    }

    ghost predicate MixedUpTo(queues: seq<seq<Frame>>, numSamples: nat, count: nat)
      requires 1 <= count <= |cfg.gains|
      requires audioFrame.Length0 == cfg.clock.channels && audioFrame.Length1 == cfg.frameSize
      requires numSamples <= cfg.frameSize
      reads audioFrame
    {
      forall c, j | 0 <= c < cfg.clock.channels && 0 <= j < numSamples ::
        audioFrame[c, j] == Mixed(queues, c, j, count)
    }

    /** The first source's gain, on the samples just read. */
    method ApplyGain(ghost queues: seq<seq<Frame>>, numSamples: nat)
      requires Valid() && numSamples <= cfg.frameSize
      requires forall c, j | 0 <= c < cfg.clock.channels && 0 <= j < numSamples ::
                 audioFrame[c, j] == At(queues, 0, j, c)
      modifies audioFrame
      ensures MixedUpTo(queues, numSamples, 1)
    {
      for channel := 0 to cfg.clock.channels
        invariant forall c, j | 0 <= c < channel && 0 <= j < numSamples ::
                    audioFrame[c, j] == Mixed(queues, c, j, 1)
        invariant forall c, j | channel <= c < cfg.clock.channels && 0 <= j < numSamples ::
                    audioFrame[c, j] == At(queues, 0, j, c)
      {
        for sample := 0 to numSamples
          invariant forall c, j | 0 <= c < channel && 0 <= j < numSamples ::
                      audioFrame[c, j] == Mixed(queues, c, j, 1)
          invariant forall c, j | channel < c < cfg.clock.channels && 0 <= j < numSamples ::
                      audioFrame[c, j] == At(queues, 0, j, c)
          invariant forall j | 0 <= j < sample :: audioFrame[channel, j] == Mixed(queues, channel, j, 1)
          invariant forall j | sample <= j < numSamples ::
                 audioFrame[channel, j] == At(queues, 0, j, channel)
        {
          audioFrame[channel, sample] := Clamp(Gained(audioFrame[channel, sample], cfg.gains[0]));
        }
      }
    }

    /** One more source, with its gain, on top of those already mixed. */
    method AddSource(ghost queues: seq<seq<Frame>>, index: nat, numSamples: nat)
      requires Valid() && 1 <= index < |cfg.gains| && numSamples <= cfg.frameSize
      requires MixedUpTo(queues, numSamples, index)
      requires forall c, j | 0 <= c < cfg.clock.channels && 0 <= j < numSamples ::
                 mixFrame[c, j] == At(queues, index, j, c)
      modifies audioFrame
      ensures MixedUpTo(queues, numSamples, index + 1)
    {
      for channel := 0 to cfg.clock.channels
        invariant forall c, j | 0 <= c < channel && 0 <= j < numSamples ::
                    audioFrame[c, j] == Mixed(queues, c, j, index + 1)
        invariant forall c, j | channel <= c < cfg.clock.channels && 0 <= j < numSamples ::
                    audioFrame[c, j] == Mixed(queues, c, j, index)
      {
        for sample := 0 to numSamples
          invariant forall c, j | 0 <= c < channel && 0 <= j < numSamples ::
                      audioFrame[c, j] == Mixed(queues, c, j, index + 1)
          invariant forall c, j | channel < c < cfg.clock.channels && 0 <= j < numSamples ::
                      audioFrame[c, j] == Mixed(queues, c, j, index)
          invariant forall j | 0 <= j < sample :: audioFrame[channel, j] == Mixed(queues, channel, j, index + 1)
          invariant forall j | sample <= j < numSamples ::
                 audioFrame[channel, j] == Mixed(queues, channel, j, index)
        {
          audioFrame[channel, sample] :=
            Clamp(audioFrame[channel, sample] + Gained(mixFrame[channel, sample], cfg.gains[index]));
        }
      }
    }

    /** The frame's samples as the codec sees them. */
    function FrameSamples(numSamples: nat): seq<Frame>
      requires audioFrame.Length0 == cfg.clock.channels && numSamples <= audioFrame.Length1
      reads audioFrame
    {
      seq(numSamples, j requires 0 <= j < numSamples reads audioFrame =>
            seq(cfg.clock.channels, c requires 0 <= c < cfg.clock.channels reads audioFrame => audioFrame[c, j]))
    }

    /** The head of one more queue, with its gain, on top of those already mixed. */
    method MixNext(ghost queues: seq<seq<Frame>>, index: nat, numSamples: nat)
      requires Valid() && 1 <= index < |cfg.gains| == |queues| && numSamples <= cfg.frameSize
      requires queues[index] == sources[index].queue && numSamples <= |queues[index]|
      requires MixedUpTo(queues, numSamples, index)
      modifies sources, audioFrame, mixFrame
      ensures Valid()
      ensures OnlyChanged(index, old(sources[index]).(queue := queues[index][numSamples..]))
      ensures MixedUpTo(queues, numSamples, index + 1)
    {
      ReadQueue(index, mixFrame, numSamples);
      AddSource(queues, index, numSamples);
    }

    /** The head is off the first `count` queues, and the other sources are as they were. */
    twostate predicate TakenUpTo(queues: seq<seq<Frame>>, numSamples: nat, count: nat)
      requires |queues| == sources.Length && forall i | 0 <= i < |queues| :: numSamples <= |queues[i]|
      reads sources
    {
      forall i | 0 <= i < sources.Length ::
        sources[i] == if i < count then old(sources[i]).(queue := queues[i][numSamples..]) else old(sources[i])
    }

    /** Every queue's head, with its gain, mixed into the frame. */
    method MixSources(numSamples: nat)
      requires Valid() && numSamples <= cfg.frameSize
      requires forall i | 0 <= i < sources.Length :: numSamples <= |sources[i].queue|
      modifies sources, audioFrame, mixFrame
      ensures Valid()
      ensures forall i | 0 <= i < sources.Length ::
                sources[i] == old(sources[i]).(queue := old(sources[i].queue)[numSamples..])
      ensures MixedUpTo(Queues(old(sources[..])), numSamples, |cfg.gains|)
    {
      ghost var queues := Queues(sources[..]);
      ReadQueue(0, audioFrame, numSamples);
      ApplyGain(queues, numSamples);
      for index := 1 to sources.Length
        invariant Valid()
        invariant MixedUpTo(queues, numSamples, index)
        invariant TakenUpTo(queues, numSamples, index)
      {
        MixNext(queues, index, numSamples);
      }
    }

    lemma FrameIsTheMix(queues: seq<seq<Frame>>, numSamples: nat)
      requires Valid() && |queues| == |cfg.gains| && numSamples <= cfg.frameSize
      requires forall i | 0 <= i < |queues| :: numSamples <= |queues[i]| && IsFrames(cfg.clock.channels, queues[i])
      requires MixedUpTo(queues, numSamples, |cfg.gains|)
      ensures FrameSamples(numSamples) == MixTracks(cfg.gains, cfg.clock.channels, queues, numSamples)
    {
      forall j | 0 <= j < numSamples
        ensures FrameSamples(numSamples)[j] == MixTracks(cfg.gains, cfg.clock.channels, queues, numSamples)[j]
      {
        forall c | 0 <= c < cfg.clock.channels
          ensures FrameSamples(numSamples)[j][c] == MixTracks(cfg.gains, cfg.clock.channels, queues, numSamples)[j][c]
        {
          assert forall i | 0 <= i < |queues| ::
                   IsFrames(cfg.clock.channels, queues[i]) && |queues[i][j]| == cfg.clock.channels;
          MixedIsMixSample(queues, c, j, |queues|);
        }
      }
    }

    /** `numSamples` must not exceed the codec's frame size: that is what the frames are sized for. */
    method EncodeMixedFrame(numSamples: nat) returns (encoded: bool)
      requires Valid() && Holds(State(), numSamples) && numSamples <= cfg.frameSize
      modifies this, sources, audioFrame, mixFrame
      ensures Valid()
      ensures (State(), encoded) == EncodeMixed(cfg, old(State()), numSamples)
    {
      ghost var queues := Queues(sources[..]);
      assert forall i | 0 <= i < sources.Length ::
          sources[i] == State().sources[i] && queues[i] == sources[i].queue && IsFrames(cfg.clock.channels, queues[i]);
      MixSources(numSamples);
      FrameIsTheMix(queues, numSamples);
      var frames := FrameSamples(numSamples);
      assert sources[..] == DropEach(old(sources[..]), numSamples);
      // The codec's answer to this frame.
      var outcome := cfg.outcomes(|attempts|);
      attempts := attempts + [Attempt(numAudioSamples, frames, outcome)];
      if outcome == SendFailed {
        encoded := false;
      } else {
        numAudioSamples := numAudioSamples + numSamples;
        encoded := outcome == Encoded;
      }
    }

    method EncodeAudioFrames() returns (encoded: bool)
      requires Valid()
      modifies this, sources, audioFrame, mixFrame
      ensures Valid()
      ensures (State(), encoded) == Drain(cfg, old(State()))
    {
      encoded := true;
      var ready := true;
      while ready && encoded
        invariant Valid()
        invariant ready && encoded ==> Drain(cfg, State()) == Drain(cfg, old(State()))
        invariant !ready || !encoded ==> (State(), encoded) == Drain(cfg, old(State()))
        decreases |sources[0].queue|, ready && encoded
      {
        for index := 0 to sources.Length
          invariant ready <==> forall i | 0 <= i < index :: cfg.frameSize <= |sources[i].queue|
        {
          ready := ready && |sources[index].queue| >= cfg.frameSize;
        }
        assert ready <==> Ready(cfg, State());
        if ready {
          encoded := EncodeMixedFrame(cfg.frameSize);
        }
      }
    }

    /** Answers how the flush ended; past an overrun the state is that before it. */
    method FinishAudio() returns (ending: Ending)
      requires Valid()
      modifies this, sources, audioFrame, mixFrame
      ensures Valid()
      ensures (State(), ending) == Finish(cfg, old(State()))
    {
      LevelSources(0);
      assert State() == Levelled(cfg, old(State()));
      DrainKeepsLevel(cfg, State());
      var drained := EncodeAudioFrames();
      var remaining := |sources[0].queue|;
      ending := Flushed;
      if remaining > 0 {
        if remaining <= cfg.frameSize {
          var encoded := EncodeMixedFrame(remaining);
        } else {
          ending := Overran(remaining);
        }
      }
    }
  }
}
