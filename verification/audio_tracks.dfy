/** What the recorded sound is, said without queues, codec frames or failures: each source's whole track,
    and the pointwise mix of the tracks. Every run of the chunked mixer refines it. */
module AudioTracks {
  import opened AudioClock
  import opened AudioMix

  type Tracks = seq<seq<Frame>>

  datatype Call = Call(source: nat, buffer: Buffer)

  ghost predicate ValidCalls(calls: seq<Call>) {
    forall k | 0 <= k < |calls| :: ValidBuffer(calls[k].buffer)
  }

  ghost predicate ValidTracks(channels: nat, tracks: Tracks) {
    forall i | 0 <= i < |tracks| :: IsFrames(channels, tracks[i])
  }

  // ---- The reference -------------------------------------------------------------------------------

  /** A track more than the tolerance behind the longest is padded up to it. */
  function Padded(channels: nat, track: seq<Frame>, longest: nat, tolerance: nat): seq<Frame> {
    if longest - |track| > tolerance then track + Silence(channels, longest - |track|) else track
  }

  function LevelTracksTo(channels: nat, tracks: Tracks, longest: nat, tolerance: nat): (r: Tracks)
    ensures |r| == |tracks|
  {
    seq(|tracks|, i requires 0 <= i < |tracks| => Padded(channels, tracks[i], longest, tolerance))
  }

  function LevelTracks(clock: Clock, tracks: Tracks, toleranceNs: nat): (r: Tracks)
    ensures |r| == |tracks|
  {
    LevelTracksTo(clock.channels, tracks, Longest(tracks), Tolerance(clock, toleranceNs))
  }

  /** The track a placed buffer leaves behind, before any levelling. */
  function Longer(clock: Clock, track: seq<Frame>, buffer: Buffer, p: Placement): seq<Frame>
    requires ValidBuffer(buffer) && p.Placed? && p.skipped <= buffer.numFrames
  {
    track + Silence(clock.channels, GapSamples(clock, p.driftNs)) + Kept(clock.channels, buffer, p.skipped)
  }

  /** A call lengthens its source's track by the hole and the kept part of the buffer, after which no
      track trails by more than the stall tolerance. */
  function Extend(clock: Clock, tracks: Tracks, call: Call): (r: Tracks)
    requires 0 < clock.sampleRate && ValidBuffer(call.buffer)
    ensures |r| == |tracks|
  {
    if !Accepts(clock, |tracks|, call.source, call.buffer) then tracks
    else
      var track := tracks[call.source];
      match Place(clock, |track|, call.buffer.numFrames, call.buffer.timestampNs)
      case BeforeEpoch => tracks
      case Placed(skipped, driftNs) =>
        var longer := Longer(clock, track, call.buffer, Placed(skipped, driftNs));
        LevelTracks(clock, tracks[call.source := longer], STALL_TOLERANCE_NS)
  }

  /** The tracks after a run of calls. Neither the codec's frame size, the gains nor what the codec
      answers has a part in it. */
  function Timeline(clock: Clock, numSources: nat, calls: seq<Call>): (r: Tracks)
    requires 0 < clock.sampleRate && ValidCalls(calls)
    ensures |r| == numSources
  {
    if calls == [] then seq(numSources, i => [])
    else
      Extend(clock, Timeline(clock, numSources, calls[..|calls| - 1]), calls[|calls| - 1])
  }

  // ---- The machine ---------------------------------------------------------------------------------

  function Run(cfg: Config, calls: seq<Call>): (m: Mix)
    requires ValidConfig(cfg) && ValidCalls(calls)
    ensures ValidMix(cfg, m)
  {
    if calls == [] then Initial(cfg)
    else
      var last := calls[|calls| - 1];
      Submit(cfg, Run(cfg, calls[..|calls| - 1]), last.source, last.buffer).0
  }

  /** Samples read off the queues, whatever became of them. */
  function Total(attempts: seq<Attempt>): nat {
    if attempts == [] then 0 else Total(attempts[..|attempts| - 1]) + |attempts[|attempts| - 1].frames|
  }

  /** Samples the codec took. */
  function Taken(attempts: seq<Attempt>): nat {
    if attempts == [] then 0
    else
      var last := attempts[|attempts| - 1];
      Taken(attempts[..|attempts| - 1]) + if last.outcome == SendFailed then 0 else |last.frames|
  }

  function Samples(attempts: seq<Attempt>): seq<Frame> {
    if attempts == [] then [] else Samples(attempts[..|attempts| - 1]) + attempts[|attempts| - 1].frames
  }

  ghost predicate NoneFailed(m: Mix) {
    forall k | 0 <= k < |m.attempts| :: m.attempts[k].outcome == Encoded
  }

  ghost predicate NoneRefused(m: Mix) {
    forall k | 0 <= k < |m.attempts| :: m.attempts[k].outcome != SendFailed
  }

  // ---- Refinement ----------------------------------------------------------------------------------

  /** Every queue is what is left of its track once the same `consumed` samples are read off each. */
  ghost predicate Follows(cfg: Config, m: Mix, tracks: Tracks, consumed: nat) {
    && |m.sources| == |tracks| == |cfg.gains|
    && ValidTracks(cfg.clock.channels, tracks)
    && forall i | 0 <= i < |tracks| ::
         && consumed <= |tracks[i]|
         && m.sources[i].queue == tracks[i][consumed..]
         && m.sources[i].numSamples == |tracks[i]|
  }

  /** Each attempt carries the codec's answer, and as time stamp the samples the codec had taken. */
  ghost predicate Stamped(cfg: Config, m: Mix) {
    && m.numAudioSamples == Taken(m.attempts)
    && forall k | 0 <= k < |m.attempts| ::
         m.attempts[k].outcome == cfg.outcomes(k) && m.attempts[k].pts == Taken(m.attempts[..k])
  }

  ghost predicate Refines(cfg: Config, m: Mix, tracks: Tracks)
    requires ValidConfig(cfg)
  {
    var consumed := Total(m.attempts);
    && Follows(cfg, m, tracks, consumed)
    && Samples(m.attempts) == MixTracks(cfg.gains, cfg.clock.channels, tracks, consumed)
    && Stamped(cfg, m)
  }

  /** Mixing a window off the queues is mixing that window of the tracks. */
  lemma MixWindow(cfg: Config, m: Mix, tracks: Tracks, consumed: nat, count: nat)
    requires ValidConfig(cfg) && ValidMix(cfg, m) && Follows(cfg, m, tracks, consumed) && Holds(m, count)
    ensures forall i | 0 <= i < |tracks| :: consumed + count <= |tracks[i]|
    ensures MixTracks(cfg.gains, cfg.clock.channels, tracks, consumed + count)
         == MixTracks(cfg.gains, cfg.clock.channels, tracks, consumed)
          + MixTracks(cfg.gains, cfg.clock.channels, Queues(m.sources), count)
  {
    var queues := Queues(m.sources);
    forall i | 0 <= i < |tracks| ensures consumed + count <= |tracks[i]| {
      assert |m.sources[i].queue| == |tracks[i]| - consumed;
    }
    forall j | 0 <= j < count ensures Column(queues, j) == Column(tracks, consumed + j) {
      forall i | 0 <= i < |tracks| ensures queues[i][j] == tracks[i][consumed + j] {
        assert queues[i] == tracks[i][consumed..];
      }
    }
  }

  /** A mix depends on no more of the tracks than it covers. */
  lemma MixPrefix(gains: seq<real>, channels: nat, tracks: Tracks, longer: Tracks, count: nat)
    requires 1 <= |tracks| == |longer| <= |gains|
    requires ValidTracks(channels, tracks) && ValidTracks(channels, longer)
    requires forall i | 0 <= i < |tracks| :: count <= |tracks[i]| && tracks[i] <= longer[i]
    ensures MixTracks(gains, channels, tracks, count) == MixTracks(gains, channels, longer, count)
  {
    forall j | 0 <= j < count ensures Column(tracks, j) == Column(longer, j) {
      forall i | 0 <= i < |tracks| ensures tracks[i][j] == longer[i][j] {
      }
    }
  }

  lemma EncodeFollows(cfg: Config, m: Mix, tracks: Tracks, consumed: nat, count: nat)
    requires ValidConfig(cfg) && ValidMix(cfg, m) && Follows(cfg, m, tracks, consumed) && Holds(m, count)
    ensures Follows(cfg, EncodeMixed(cfg, m, count).0, tracks, consumed + count)
  {
    var next := EncodeMixed(cfg, m, count).0;
    forall i | 0 <= i < |tracks|
      ensures consumed + count <= |tracks[i]| && next.sources[i].numSamples == |tracks[i]|
      ensures next.sources[i].queue == tracks[i][consumed + count..]
    {
      assert |m.sources[i].queue| == |tracks[i]| - consumed;
      assert m.sources[i].queue[count..] == tracks[i][consumed + count..];
    }
  }

  lemma EncodeStamps(cfg: Config, m: Mix, count: nat)
    requires ValidConfig(cfg) && ValidMix(cfg, m) && Stamped(cfg, m) && Holds(m, count)
    ensures Stamped(cfg, EncodeMixed(cfg, m, count).0)
  {
    var next := EncodeMixed(cfg, m, count).0;
    assert next.attempts[..|m.attempts|] == m.attempts;
    forall k | 0 <= k < |next.attempts|
      ensures next.attempts[k].outcome == cfg.outcomes(k) && next.attempts[k].pts == Taken(next.attempts[..k])
    {
      assert next.attempts[..k] == m.attempts[..k];
      assert m.attempts[..|m.attempts|] == m.attempts;
    }
  }

  lemma EncodeSamples(cfg: Config, m: Mix, count: nat)
    requires ValidConfig(cfg) && ValidMix(cfg, m) && Holds(m, count)
    ensures var next := EncodeMixed(cfg, m, count).0;
            && Total(next.attempts) == Total(m.attempts) + count
            && Samples(next.attempts) == Samples(m.attempts)
                 + MixTracks(cfg.gains, cfg.clock.channels, Queues(m.sources), count)
  {
    var next := EncodeMixed(cfg, m, count).0;
    assert next.attempts[..|m.attempts|] == m.attempts;
  }

  lemma EncodeRefines(cfg: Config, m: Mix, tracks: Tracks, count: nat)
    requires ValidConfig(cfg) && ValidMix(cfg, m) && Refines(cfg, m, tracks) && Holds(m, count)
    ensures Refines(cfg, EncodeMixed(cfg, m, count).0, tracks)
  {
    var consumed := Total(m.attempts);
    EncodeFollows(cfg, m, tracks, consumed, count);
    EncodeStamps(cfg, m, count);
    EncodeSamples(cfg, m, count);
    MixWindow(cfg, m, tracks, consumed, count);
  }

  lemma {:induction false} DrainRefines(cfg: Config, m: Mix, tracks: Tracks)
    requires ValidConfig(cfg) && ValidMix(cfg, m) && Refines(cfg, m, tracks)
    ensures Refines(cfg, Drain(cfg, m).0, tracks)
    decreases if |m.sources| > 0 then |m.sources[0].queue| else 0
  {
    if Ready(cfg, m) {
      EncodeRefines(cfg, m, tracks, cfg.frameSize);
      var (next, encoded) := EncodeMixed(cfg, m, cfg.frameSize);
      if encoded {
        DrainRefines(cfg, next, tracks);
      }
    }
  }

  /** Reading the same amount off every track shortens the longest by that amount. */
  lemma {:induction false} LongestShifts(queues: Tracks, tracks: Tracks, consumed: nat)
    requires 0 < |queues| == |tracks|
    requires forall i | 0 <= i < |tracks| :: consumed <= |tracks[i]| && queues[i] == tracks[i][consumed..]
    ensures Longest(tracks) == Longest(queues) + consumed
  {
    var i :| 0 <= i < |tracks| && |tracks[i]| == Longest(tracks);
    var j :| 0 <= j < |queues| && |queues[j]| == Longest(queues);
    assert |queues[i]| + consumed == |tracks[i]| && |queues[j]| + consumed == |tracks[j]|;
  }

  /** One queue levelled against the longest is its track levelled against the longest. */
  lemma LevelOneFollows(channels: nat, s: Source, track: seq<Frame>, consumed: nat, longest: nat, tolerance: nat,
                        running: bool)
    requires consumed <= |track| <= longest && IsFrames(channels, track)
    requires s.queue == track[consumed..] && s.numSamples == |track|
    ensures var levelled := LevelOne(channels, s, longest - consumed, tolerance, running);
            var padded := Padded(channels, track, longest, tolerance);
            && levelled.queue == padded[consumed..] && levelled.numSamples == |padded|
            && IsFrames(channels, padded) && track <= padded
  {
    var silence := Silence(channels, longest - |track|);
    assert (track + silence)[consumed..] == track[consumed..] + silence;
  }

  /** One of the levelled sources against its levelled track. */
  lemma LevelFollowsAt(channels: nat, sources: seq<Source>, tracks: Tracks, consumed: nat, longest: nat,
                       tolerance: nat, running: bool, i: nat)
    requires i < |sources| == |tracks| && consumed <= |tracks[i]| && IsFrames(channels, tracks[i])
    requires sources[i].queue == tracks[i][consumed..] && sources[i].numSamples == |tracks[i]|
    requires consumed <= longest
    requires forall j | 0 <= j < |tracks| :: |tracks[j]| <= longest
    requires forall j | 0 <= j < |sources| :: |sources[j].queue| <= longest - consumed
    ensures var levelled := LevelTo(channels, sources, longest - consumed, tolerance, running)[i];
            var padded := LevelTracksTo(channels, tracks, longest, tolerance)[i];
            && tracks[i] <= padded && IsFrames(channels, padded)
            && levelled.queue == padded[consumed..] && levelled.numSamples == |padded|
  {
    LevelOneFollows(channels, sources[i], tracks[i], consumed, longest, tolerance, running);
    assert LevelTo(channels, sources, longest - consumed, tolerance, running)[i]
        == LevelOne(channels, sources[i], longest - consumed, tolerance, running);
    assert LevelTracksTo(channels, tracks, longest, tolerance)[i] == Padded(channels, tracks[i], longest, tolerance);
  }

  lemma FollowsAsLevelled(cfg: Config, m: Mix, levelled: seq<Source>, tracks: Tracks, padded: Tracks, consumed: nat)
    requires Follows(cfg, m, tracks, consumed) && |levelled| == |padded| == |tracks|
    requires forall i | 0 <= i < |tracks| ::
               && tracks[i] <= padded[i] && IsFrames(cfg.clock.channels, padded[i])
               && levelled[i].queue == padded[i][consumed..] && levelled[i].numSamples == |padded[i]|
    ensures Follows(cfg, m.(sources := levelled), padded, consumed)
  {
    forall i | 0 <= i < |tracks| ensures consumed <= |padded[i]| {
      assert tracks[i] <= padded[i];
    }
  }

  /** Levelling the queues is levelling the tracks. */
  lemma LevelFollows(cfg: Config, m: Mix, tracks: Tracks, consumed: nat, toleranceNs: nat)
    requires ValidConfig(cfg) && Follows(cfg, m, tracks, consumed)
    ensures Follows(cfg, m.(sources := Level(cfg.clock, m.sources, toleranceNs)),
                    LevelTracks(cfg.clock, tracks, toleranceNs), consumed)
    ensures forall i | 0 <= i < |tracks| :: tracks[i] <= LevelTracks(cfg.clock, tracks, toleranceNs)[i]
  {
    LongestShifts(Queues(m.sources), tracks, consumed);
    var levelled, padded := Level(cfg.clock, m.sources, toleranceNs), LevelTracks(cfg.clock, tracks, toleranceNs);
    forall i | 0 <= i < |tracks|
      ensures tracks[i] <= padded[i] && IsFrames(cfg.clock.channels, padded[i])
      ensures levelled[i].queue == padded[i][consumed..] && levelled[i].numSamples == |padded[i]|
    {
      LevelFollowsAt(cfg.clock.channels, m.sources, tracks, consumed, Longest(tracks),
                     Tolerance(cfg.clock, toleranceNs), toleranceNs > 0, i);
    }
    FollowsAsLevelled(cfg, m, levelled, tracks, padded, consumed);
  }

  lemma AppendIsLonger(clock: Clock, s: Source, track: seq<Frame>, consumed: nat, buffer: Buffer, p: Placement)
    requires ValidBuffer(buffer) && p.Placed? && p.skipped <= buffer.numFrames
    requires consumed <= |track| && s.queue == track[consumed..] && s.numSamples == |track|
    requires IsFrames(clock.channels, track)
    ensures var r := Append(clock, s, buffer, p);
            var longer := Longer(clock, track, buffer, p);
            && track <= longer && IsFrames(clock.channels, longer)
            && r.queue == longer[consumed..] && r.numSamples == |longer|
  {
    var silence := Silence(clock.channels, GapSamples(clock, p.driftNs));
    var kept := Kept(clock.channels, buffer, p.skipped);
    assert (track + silence + kept)[consumed..] == track[consumed..] + silence + kept;
    if p.driftNs <= GAP_THRESHOLD_NS {
      assert silence == [];
    }
  }

  lemma FilledFollows(cfg: Config, m: Mix, tracks: Tracks, consumed: nat, call: Call)
    requires ValidConfig(cfg) && ValidMix(cfg, m) && Follows(cfg, m, tracks, consumed) && ValidBuffer(call.buffer)
    requires Accepts(cfg.clock, |m.sources|, call.source, call.buffer)
    requires Placing(cfg, m, call.source, call.buffer).Placed?
    ensures Follows(cfg, Filled(cfg, m, call.source, call.buffer), Extend(cfg.clock, tracks, call), consumed)
    ensures forall i | 0 <= i < |tracks| :: tracks[i] <= Extend(cfg.clock, tracks, call)[i]
  {
    var source := call.source;
    var p := Placing(cfg, m, source, call.buffer);
    var longer := Longer(cfg.clock, tracks[source], call.buffer, p);
    AppendIsLonger(cfg.clock, m.sources[source], tracks[source], consumed, call.buffer, p);
    var appended := m.(sources := m.sources[source := Append(cfg.clock, m.sources[source], call.buffer, p)],
                       lastDriftNs := p.driftNs);
    var grown := tracks[source := longer];
    assert Follows(cfg, appended, grown, consumed);
    LevelFollows(cfg, appended, grown, consumed, STALL_TOLERANCE_NS);
    var extended := LevelTracks(cfg.clock, grown, STALL_TOLERANCE_NS);
    assert extended == Extend(cfg.clock, tracks, call);
    forall i | 0 <= i < |tracks| ensures tracks[i] <= extended[i] {
      assert tracks[i] <= grown[i] <= extended[i];
    }
  }

  lemma SubmitRefines(cfg: Config, m: Mix, tracks: Tracks, call: Call)
    requires ValidConfig(cfg) && ValidMix(cfg, m) && Refines(cfg, m, tracks) && ValidBuffer(call.buffer)
    ensures Refines(cfg, Submit(cfg, m, call.source, call.buffer).0, Extend(cfg.clock, tracks, call))
    ensures forall i | 0 <= i < |tracks| :: tracks[i] <= Extend(cfg.clock, tracks, call)[i]
  {
    if Accepts(cfg.clock, |m.sources|, call.source, call.buffer)
       && Placing(cfg, m, call.source, call.buffer).Placed?
    {
      var consumed := Total(m.attempts);
      FilledFollows(cfg, m, tracks, consumed, call);
      var extended := Extend(cfg.clock, tracks, call);
      MixPrefix(cfg.gains, cfg.clock.channels, tracks, extended, consumed);
      DrainRefines(cfg, Filled(cfg, m, call.source, call.buffer), extended);
    }
  }

  /** Any run, whatever the codec answers: the samples tried on the codec are exactly the first samples of
      the pointwise mix of the tracks, no sample skipped or repeated, and every queue is the rest of its
      track. */
  lemma {:induction false} RunRefines(cfg: Config, calls: seq<Call>)
    requires ValidConfig(cfg) && ValidCalls(calls)
    ensures Refines(cfg, Run(cfg, calls), Timeline(cfg.clock, |cfg.gains|, calls))
  {
    if calls != [] {
      var before := calls[..|calls| - 1];
      RunRefines(cfg, before);
      SubmitRefines(cfg, Run(cfg, before), Timeline(cfg.clock, |cfg.gains|, before), calls[|calls| - 1]);
    }
  }
}
