/** What becomes of a buffer, sample by sample: where each lands on its track, what the answer is, and what the
    counts say of it. */
module AudioSamples {
  import opened AudioClock
  import opened AudioMix
  import opened AudioTracks
  import opened AudioResults

  // ---- One buffer on its track ---------------------------------------------------------------------

  /** Samples before the epoch, in unbounded arithmetic. */
  function SamplesBefore(clock: Clock, timestampNs: nat): nat {
    if timestampNs < clock.epochNs then (clock.epochNs - timestampNs) * clock.sampleRate / 1_000_000_000 else 0
  }

  /** How far a track falls short of where the buffer's first kept sample belongs. */
  function ShortBy(clock: Clock, numSamples: nat, timestampNs: nat): int
    requires 0 < clock.sampleRate
  {
    (if timestampNs < clock.epochNs then 0 else timestampNs - clock.epochNs)
    - numSamples * 1_000_000_000 / clock.sampleRate
  }

  /** The samples of silence that go in first. */
  function Hole(clock: Clock, numSamples: nat, timestampNs: nat): nat
    requires 0 < clock.sampleRate
  {
    var shortBy := ShortBy(clock, numSamples, timestampNs);
    if shortBy > 100_000_000 then shortBy * clock.sampleRate / 1_000_000_000 else 0
  }

  ghost predicate IsSilent(frames: seq<Frame>, from: nat, to: nat) {
    forall p, c | from <= p < to <= |frames| && 0 <= c < |frames[p]| :: frames[p][c] == 0.0
  }

  /** From `start` on stand the buffer's samples from `skipped` on, each channel from its own plane, and the
      channels a device does not have from its last. */
  ghost predicate StandsAt(channels: nat, frames: seq<Frame>, start: nat, buffer: Buffer, skipped: nat)
    requires ValidBuffer(buffer) && buffer.planes[0].Plane?
  {
    && skipped <= buffer.numFrames && start + buffer.numFrames - skipped <= |frames|
    && (forall q | start <= q < start + buffer.numFrames - skipped :: |frames[q]| == channels)
    && forall q, c | start <= q < start + buffer.numFrames - skipped && 0 <= c < channels ::
         var plane := buffer.planes[if c < |buffer.planes| then c else |buffer.planes| - 1];
         frames[q][c] == plane.samples[q - start + skipped]
  }

  lemma PlacedExactly(clock: Clock, numSamples: nat, numFrames: nat, timestampNs: nat)
    requires 0 < numFrames && InRange(clock, numSamples, numFrames, timestampNs)
    requires timestampNs + numFrames * NANOSECONDS / clock.sampleRate > clock.epochNs
    ensures Place(clock, numSamples, numFrames, timestampNs)
         == Placed(SamplesBefore(clock, timestampNs), ShortBy(clock, numSamples, timestampNs))
    ensures GapSamples(clock, ShortBy(clock, numSamples, timestampNs)) == Hole(clock, numSamples, timestampNs)
    ensures SamplesBefore(clock, timestampNs) < numFrames
  {
    PlaceIsExact(clock, numSamples, numFrames, timestampNs);
    TrimAtEpoch(clock, numSamples, numFrames, timestampNs);
    assert 0 * clock.sampleRate / NANOSECONDS == 0;
    var shortBy := ShortBy(clock, numSamples, timestampNs);
    if shortBy > GAP_THRESHOLD_NS {
      FillNeverOvershoots(clock, OffsetNs(clock, timestampNs), numSamples);
      MulMonotone(0, shortBy, clock.sampleRate);
    }
  }

  lemma LongerStands(clock: Clock, track: seq<Frame>, buffer: Buffer, p: Placement)
    requires ValidBuffer(buffer) && p.Placed? && p.skipped <= buffer.numFrames
    ensures var r := Longer(clock, track, buffer, p);
            var start := |track| + GapSamples(clock, p.driftNs);
            && track <= r && IsSilent(r, |track|, start)
            && (buffer.planes[0].Plane? ==>
                  StandsAt(clock.channels, r, start, buffer, p.skipped) && |r| == start + buffer.numFrames - p.skipped)
            && (buffer.planes[0].NoPlane? ==> |r| == start)
  {
    var r := Longer(clock, track, buffer, p);
    var hole := GapSamples(clock, p.driftNs);
    var silence := Silence(clock.channels, hole);
    var kept := Kept(clock.channels, buffer, p.skipped);
    forall q, c | |track| <= q < |track| + hole && 0 <= c < |r[q]| ensures r[q][c] == 0.0 {
      assert r[q] == silence[q - |track|];
    }
    if buffer.planes[0].Plane? {
      var start := |track| + hole;
      forall q | start <= q < start + buffer.numFrames - p.skipped
        ensures r[q] == kept[q - start] && |r[q]| == clock.channels
      {
        assert IsFrames(clock.channels, kept);
      }
      forall q, c | start <= q < start + buffer.numFrames - p.skipped && 0 <= c < clock.channels
        ensures var plane := buffer.planes[if c < |buffer.planes| then c else |buffer.planes| - 1];
                r[q][c] == plane.samples[q - start + p.skipped]
      {
        KeptAt(clock.channels, buffer, p.skipped, q - start, c);
        assert r[q] == kept[q - start];
      }
    }
  }

  lemma KeptAt(channels: nat, buffer: Buffer, skipped: nat, j: nat, c: nat)
    requires ValidBuffer(buffer) && buffer.planes[0].Plane? && skipped + j < buffer.numFrames && c < channels
    ensures |Kept(channels, buffer, skipped)[j]| == channels
    ensures var plane := buffer.planes[if c < |buffer.planes| then c else |buffer.planes| - 1];
            plane.Plane? && Kept(channels, buffer, skipped)[j][c] == plane.samples[skipped + j]
  {
    assert Kept(channels, buffer, skipped)[j] == FrameOf(channels, buffer, skipped + j);
  }

  lemma PaddedStands(channels: nat, track: seq<Frame>, longest: nat, tolerance: nat)
    requires IsFrames(channels, track) && |track| <= longest
    ensures var r := Padded(channels, track, longest, tolerance);
            && track <= r && IsSilent(r, |track|, |r|)
            && |r| == if longest - |track| > tolerance then longest else |track|
  {
    var r := Padded(channels, track, longest, tolerance);
    forall q, c | |track| <= q < |r| && 0 <= c < |r[q]| ensures r[q][c] == 0.0 {
      assert r[q] == Silence(channels, longest - |track|)[q - |track|];
    }
  }

  /** Levelling adds silence to the tracks that are more than a second behind the longest, up to it, and leaves
      the others. */
  lemma LevelledExactly(clock: Clock, tracks: Tracks, longest: nat, i: nat)
    requires ValidTracks(clock.channels, tracks) && i < |tracks|
    requires forall k | 0 <= k < |tracks| :: |tracks[k]| <= longest
    requires exists k | 0 <= k < |tracks| :: |tracks[k]| == longest
    ensures var r := LevelTracks(clock, tracks, STALL_TOLERANCE_NS)[i];
            && tracks[i] <= r && IsSilent(r, |tracks[i]|, |r|)
            && |r| == if longest - |tracks[i]| > clock.sampleRate then longest else |tracks[i]|
  {
    OneSecond(clock);
    PaddedStands(clock.channels, tracks[i], Longest(tracks), Tolerance(clock, STALL_TOLERANCE_NS));
  }

  /** What the call leaves on the tracks: on its source's, silence for the hole, then the buffer's samples but for the
      skipped ones, then at most the silence of a stall; on the others at most that. */
  ghost predicate LeavesOnTracks(channels: nat, tracks: Tracks, next: Tracks, call: Call, hole: nat, skipped: nat)
    requires ValidBuffer(call.buffer) && call.source < |tracks| == |next|
  {
    var before, track := tracks[call.source], next[call.source];
    var start := |before| + hole;
    && skipped <= call.buffer.numFrames
    && before <= track && start <= |track| && IsSilent(track, |before|, start)
    && (if call.buffer.planes[0].Plane?
        then && StandsAt(channels, track, start, call.buffer, skipped)
             && IsSilent(track, start + call.buffer.numFrames - skipped, |track|)
        else IsSilent(track, start, |track|))
    && OthersArePadded(tracks, next, call.source)
  }

  ghost predicate OthersArePadded(tracks: Tracks, next: Tracks, source: nat)
    requires |tracks| == |next|
  {
    forall i | 0 <= i < |tracks| && i != source :: tracks[i] <= next[i] && IsSilent(next[i], |tracks[i]|, |next[i]|)
  }

  /** A buffer that is accepted and ends after the epoch: the hole is what its time stamp leaves, and the skipped
      samples are those before the epoch. */
  lemma BufferStands(clock: Clock, tracks: Tracks, call: Call)
    requires ValidClock(clock) && ValidBuffer(call.buffer) && ValidTracks(clock.channels, tracks)
    requires call.source < |tracks| && clock.epochNs != 0 && 0 < call.buffer.numFrames
    requires InRange(clock, |tracks[call.source]|, call.buffer.numFrames, call.buffer.timestampNs)
    requires call.buffer.timestampNs + call.buffer.numFrames * NANOSECONDS / clock.sampleRate > clock.epochNs
    ensures LeavesOnTracks(clock.channels, tracks, Extend(clock, tracks, call), call,
                           Hole(clock, |tracks[call.source]|, call.buffer.timestampNs),
                           SamplesBefore(clock, call.buffer.timestampNs))
    ensures SamplesBefore(clock, call.buffer.timestampNs) < call.buffer.numFrames
  {
    var track, b := tracks[call.source], call.buffer;
    PlacedExactly(clock, |track|, b.numFrames, b.timestampNs);
    PlacedStands(clock, tracks, call, Place(clock, |track|, b.numFrames, b.timestampNs));
  }

  /** The same, for a placement whatever its arithmetic. */
  lemma PlacedStands(clock: Clock, tracks: Tracks, call: Call, p: Placement)
    requires 0 < clock.sampleRate && ValidBuffer(call.buffer) && ValidTracks(clock.channels, tracks)
    requires Accepts(clock, |tracks|, call.source, call.buffer)
    requires p == Place(clock, |tracks[call.source]|, call.buffer.numFrames, call.buffer.timestampNs) && p.Placed?
    ensures LeavesOnTracks(clock.channels, tracks, Extend(clock, tracks, call), call, GapSamples(clock, p.driftNs),
                           p.skipped)
  {
    var longer := Longer(clock, tracks[call.source], call.buffer, p);
    LongerStands(clock, tracks[call.source], call.buffer, p);
    LongerIsFrames(clock, tracks[call.source], call.buffer, p);
    var grown := tracks[call.source := longer];
    GrownIsLevelled(clock, grown);
    assert Extend(clock, tracks, call) == LevelTracks(clock, grown, STALL_TOLERANCE_NS);
    PaddingStands(clock.channels, tracks, longer, Extend(clock, tracks, call), call, GapSamples(clock, p.driftNs),
                  p.skipped);
  }

  /** Padding the tracks once the source's has its buffer. */
  lemma PaddingStands(channels: nat, tracks: Tracks, longer: seq<Frame>, next: Tracks, call: Call, hole: nat,
                      skipped: nat)
    requires ValidBuffer(call.buffer) && call.source < |tracks| == |next| && skipped <= call.buffer.numFrames
    requires tracks[call.source] <= longer && |tracks[call.source]| + hole <= |longer|
    requires IsSilent(longer, |tracks[call.source]|, |tracks[call.source]| + hole)
    requires if call.buffer.planes[0].Plane?
             then StandsAt(channels, longer, |tracks[call.source]| + hole, call.buffer, skipped)
                  && |longer| == |tracks[call.source]| + hole + call.buffer.numFrames - skipped
             else |longer| == |tracks[call.source]| + hole
    requires var grown := tracks[call.source := longer];
             forall i | 0 <= i < |tracks| :: grown[i] <= next[i] && IsSilent(next[i], |grown[i]|, |next[i]|)
    ensures LeavesOnTracks(channels, tracks, next, call, hole, skipped)
  {
    var grown := tracks[call.source := longer];
    assert grown[call.source] == longer && forall i | 0 <= i < |tracks| && i != call.source :: grown[i] == tracks[i];
    var start := |tracks[call.source]| + hole;
    SilenceStays(longer, next[call.source], |tracks[call.source]|, start);
    if call.buffer.planes[0].Plane? {
      BufferStays(channels, longer, next[call.source], start, call.buffer, skipped);
    }
  }

  lemma GrownIsLevelled(clock: Clock, grown: Tracks)
    requires ValidTracks(clock.channels, grown) && grown != []
    ensures var r := LevelTracks(clock, grown, STALL_TOLERANCE_NS);
            forall i | 0 <= i < |grown| :: grown[i] <= r[i] && IsSilent(r[i], |grown[i]|, |r[i]|)
  {
    forall i | 0 <= i < |grown|
      ensures grown[i] <= LevelTracks(clock, grown, STALL_TOLERANCE_NS)[i]
      ensures var r := LevelTracks(clock, grown, STALL_TOLERANCE_NS)[i]; IsSilent(r, |grown[i]|, |r|)
    {
      LevelledExactly(clock, grown, Longest(grown), i);
    }
  }

  lemma SilenceStays(frames: seq<Frame>, longer: seq<Frame>, from: nat, to: nat)
    requires frames <= longer && to <= |frames| && IsSilent(frames, from, to)
    ensures IsSilent(longer, from, to)
  {
    forall q, c | from <= q < to && 0 <= c < |longer[q]| ensures longer[q][c] == 0.0 {
      assert longer[q] == frames[q];
    }
  }

  lemma BufferStays(channels: nat, frames: seq<Frame>, longer: seq<Frame>, start: nat, buffer: Buffer, skipped: nat)
    requires ValidBuffer(buffer) && buffer.planes[0].Plane?
    requires frames <= longer && StandsAt(channels, frames, start, buffer, skipped)
    ensures StandsAt(channels, longer, start, buffer, skipped)
  {
    forall q | start <= q < start + buffer.numFrames - skipped ensures longer[q] == frames[q] {
    }
  }

  lemma LongerIsFrames(clock: Clock, track: seq<Frame>, buffer: Buffer, p: Placement)
    requires ValidBuffer(buffer) && p.Placed? && p.skipped <= buffer.numFrames && IsFrames(clock.channels, track)
    ensures IsFrames(clock.channels, Longer(clock, track, buffer, p))
  {
  }

  // ---- Queued or mixed -----------------------------------------------------------------------------

  /** One step of the mix: what the sources before came to, and one more with its gain, or the end of the range
      where that goes past it. */
  lemma MixedSample(gains: seq<real>, frames: seq<Frame>, channel: nat, count: nat)
    requires 1 <= count <= |frames| <= |gains|
    requires forall i | 0 <= i < |frames| :: channel < |frames[i]|
    ensures var before := if count == 1 then 0.0 else MixSample(gains, frames, channel, count - 1);
            var sum := before + frames[count - 1][channel] * gains[count - 1];
            MixSample(gains, frames, channel, count) == if sum > 1.0 then 1.0 else if sum < -1.0 then -1.0 else sum
  {
  }

  /** A sample of the mix is every track's sample there, mixed. */
  ghost predicate MixedFrom(gains: seq<real>, mixed: real, tracks: Tracks, q: nat, c: nat)
    requires 1 <= |tracks| <= |gains|
    requires forall i | 0 <= i < |tracks| :: q < |tracks[i]| && c < |tracks[i][q]|
  {
    mixed == MixSample(gains, Column(tracks, q), c, |tracks|)
  }

  lemma SampleOfTheMix(gains: seq<real>, channels: nat, tracks: Tracks, count: nat, q: nat, c: nat)
    requires 1 <= |tracks| <= |gains| && q < count && c < channels
    requires forall i | 0 <= i < |tracks| :: count <= |tracks[i]| && IsFrames(channels, tracks[i])
    ensures forall i | 0 <= i < |tracks| :: |tracks[i][q]| == channels
    ensures var frames := MixTracks(gains, channels, tracks, count);
            |frames[q]| == channels && MixedFrom(gains, frames[q][c], tracks, q, c)
  {
    assert forall i | 0 <= i < |tracks| :: IsFrames(channels, tracks[i]) && |tracks[i][q]| == channels;
    assert MixTracks(gains, channels, tracks, count)[q] == MixFrame(gains, channels, Column(tracks, q));
  }

  /** The sample at position `q` of a source's track is still in its queue, or mixed with the others' there and
      tried on the codec. */
  ghost predicate QueuedOrMixed(cfg: Config, m: Mix, tracks: Tracks, i: nat, q: nat, c: nat, sample: real)
    requires 1 <= |tracks| <= |cfg.gains| && i < |tracks| && |m.sources| == |tracks|
  {
    var sent, queue := Total(m.attempts), m.sources[i].queue;
    if sent <= q then q - sent < |queue| && c < |queue[q - sent]| && queue[q - sent][c] == sample
    else
      && q < |Samples(m.attempts)| && c < |Samples(m.attempts)[q]|
      && (forall k | 0 <= k < |tracks| :: q < |tracks[k]| && c < |tracks[k][q]|)
      && tracks[i][q][c] == sample
      && MixedFrom(cfg.gains, Samples(m.attempts)[q][c], tracks, q, c)
  }

  lemma RefinedIsQueuedOrMixed(cfg: Config, m: Mix, tracks: Tracks, i: nat, q: nat, c: nat)
    requires ValidConfig(cfg) && Refines(cfg, m, tracks) && i < |tracks| && q < |tracks[i]| && c < cfg.clock.channels
    ensures |tracks[i][q]| == cfg.clock.channels && QueuedOrMixed(cfg, m, tracks, i, q, c, tracks[i][q][c])
  {
    var sent := Total(m.attempts);
    assert IsFrames(cfg.clock.channels, tracks[i]);
    if q < sent {
      SampleOfTheMix(cfg.gains, cfg.clock.channels, tracks, sent, q, c);
    } else {
      assert m.sources[i].queue[q - sent] == tracks[i][q];
    }
  }

  /** The buffer's sample `at`, in channel `c`, from its own plane or from the device's last. */
  function SampleIn(buffer: Buffer, at: nat, c: nat): real
    requires ValidBuffer(buffer) && buffer.planes[0].Plane? && at < buffer.numFrames
  {
    buffer.planes[if c < |buffer.planes| then c else |buffer.planes| - 1].samples[at]
  }

  lemma SampleAt(channels: nat, frames: seq<Frame>, start: nat, buffer: Buffer, skipped: nat, j: nat, c: nat)
    requires ValidBuffer(buffer) && buffer.planes[0].Plane? && StandsAt(channels, frames, start, buffer, skipped)
    requires skipped + j < buffer.numFrames && c < channels
    ensures start + j < |frames| && c < |frames[start + j]|
    ensures frames[start + j][c] == SampleIn(buffer, skipped + j, c)
  {
    var q := start + j;
    assert |frames[q]| == channels && q - start + skipped == skipped + j;
  }

  /** After this run, that sample of the source's track is queued, or mixed and tried. */
  ghost predicate StoredAfter(cfg: Config, calls: seq<Call>, i: nat, q: nat, c: nat, sample: real)
    requires ValidConfig(cfg) && ValidCalls(calls) && i < |cfg.gains|
  {
    QueuedOrMixed(cfg, Run(cfg, calls), Timeline(cfg.clock, |cfg.gains|, calls), i, q, c, sample)
  }

  /** After any run whose last call brings a buffer that is accepted, placed, and has its samples: those from the
      epoch on, behind the silence for the hole it met, are the ones that are queued, or mixed and tried.
      `PlacedExactly` says in plain arithmetic how many are skipped and how long the silence is. */
  lemma BufferIsStored(cfg: Config, calls: seq<Call>, j: nat, c: nat) returns (q: nat)
    requires ValidConfig(cfg) && ValidCalls(calls) && calls != [] && c < cfg.clock.channels
    requires var b := calls[|calls| - 1].buffer;
             b.planes[0].Plane? && Accepts(cfg.clock, |cfg.gains|, calls[|calls| - 1].source, b)
    requires LastPlace(cfg, calls).Placed? && LastPlace(cfg, calls).skipped + j < calls[|calls| - 1].buffer.numFrames
    ensures var last, p := calls[|calls| - 1], LastPlace(cfg, calls);
            && q == |LastTrack(cfg, calls)| + GapSamples(cfg.clock, p.driftNs) + j
            && StoredAfter(cfg, calls, last.source, q, c, SampleIn(last.buffer, p.skipped + j, c))
  {
    var before, last := calls[..|calls| - 1], calls[|calls| - 1];
    TracksAreValid(cfg, before);
    q := PlacedSample(cfg.clock, Timeline(cfg.clock, |cfg.gains|, before), last, LastPlace(cfg, calls), j, c);
    OnTheTrack(cfg, calls, last.source, q, c, SampleIn(last.buffer, LastPlace(cfg, calls).skipped + j, c));
  }

  /** The track the last call finds, and where its buffer is placed. */
  function LastTrack(cfg: Config, calls: seq<Call>): seq<Frame>
    requires ValidConfig(cfg) && ValidCalls(calls) && calls != [] && calls[|calls| - 1].source < |cfg.gains|
  {
    Timeline(cfg.clock, |cfg.gains|, calls[..|calls| - 1])[calls[|calls| - 1].source]
  }

  function LastPlace(cfg: Config, calls: seq<Call>): (p: Placement)
    requires ValidConfig(cfg) && ValidCalls(calls) && calls != [] && calls[|calls| - 1].source < |cfg.gains|
    ensures p.Placed? ==> p.skipped <= calls[|calls| - 1].buffer.numFrames
  {
    var b := calls[|calls| - 1].buffer;
    Place(cfg.clock, |LastTrack(cfg, calls)|, b.numFrames, b.timestampNs)
  }

  /** Where the sample stands. */
  lemma PlacedSample(clock: Clock, tracks: Tracks, call: Call, p: Placement, j: nat, c: nat) returns (q: nat)
    requires 0 < clock.sampleRate && ValidBuffer(call.buffer) && ValidTracks(clock.channels, tracks)
    requires Accepts(clock, |tracks|, call.source, call.buffer) && call.buffer.planes[0].Plane? && c < clock.channels
    requires p == Place(clock, |tracks[call.source]|, call.buffer.numFrames, call.buffer.timestampNs) && p.Placed?
    requires p.skipped + j < call.buffer.numFrames
    ensures q == |tracks[call.source]| + GapSamples(clock, p.driftNs) + j
    ensures var track := Extend(clock, tracks, call)[call.source];
            q < |track| && c < |track[q]| && track[q][c] == SampleIn(call.buffer, p.skipped + j, c)
  {
    PlacedStands(clock, tracks, call, p);
    var hole := GapSamples(clock, p.driftNs);
    q := SampleLeft(clock.channels, tracks, Extend(clock, tracks, call), call, hole, p.skipped, j, c);
  }

  lemma SampleLeft(channels: nat, tracks: Tracks, next: Tracks, call: Call, hole: nat, skipped: nat, j: nat, c: nat)
    returns (q: nat)
    requires ValidBuffer(call.buffer) && call.source < |tracks| == |next| && call.buffer.planes[0].Plane?
    requires LeavesOnTracks(channels, tracks, next, call, hole, skipped)
    requires c < channels && skipped + j < call.buffer.numFrames
    ensures q == |tracks[call.source]| + hole + j
    ensures var track := next[call.source];
            q < |track| && c < |track[q]| && track[q][c] == SampleIn(call.buffer, skipped + j, c)
  {
    var start := |tracks[call.source]| + hole;
    SampleAt(channels, next[call.source], start, call.buffer, skipped, j, c);
    q := start + j;
  }

  lemma OnTheTrack(cfg: Config, calls: seq<Call>, i: nat, q: nat, c: nat, sample: real)
    requires ValidConfig(cfg) && ValidCalls(calls) && i < |cfg.gains| && c < cfg.clock.channels
    requires var track := Timeline(cfg.clock, |cfg.gains|, calls)[i];
             q < |track| && c < |track[q]| && track[q][c] == sample
    ensures StoredAfter(cfg, calls, i, q, c, sample)
  {
    RunIsQueuedOrMixed(cfg, calls, Timeline(cfg.clock, |cfg.gains|, calls), i, q, c, sample);
  }

  lemma TracksAreValid(cfg: Config, calls: seq<Call>)
    requires ValidConfig(cfg) && ValidCalls(calls)
    ensures ValidTracks(cfg.clock.channels, Timeline(cfg.clock, |cfg.gains|, calls))
  {
    RunRefines(cfg, calls);
  }

  lemma RunIsQueuedOrMixed(cfg: Config, calls: seq<Call>, tracks: Tracks, i: nat, q: nat, c: nat, sample: real)
    requires ValidConfig(cfg) && ValidCalls(calls) && i < |cfg.gains| && c < cfg.clock.channels
    requires tracks == Timeline(cfg.clock, |cfg.gains|, calls)
    requires q < |tracks[i]| && c < |tracks[i][q]| && tracks[i][q][c] == sample
    ensures QueuedOrMixed(cfg, Run(cfg, calls), tracks, i, q, c, sample)
  {
    RunRefines(cfg, calls);
    RefinedIsQueuedOrMixed(cfg, Run(cfg, calls), tracks, i, q, c);
  }

  // ---- The answer ----------------------------------------------------------------------------------

  /** A drain says whether all it tried went well, and tries nothing after a failure. */
  lemma {:induction false} DrainAnswers(cfg: Config, m: Mix)
    requires ValidConfig(cfg) && ValidMix(cfg, m)
    ensures var (r, encoded) := Drain(cfg, m);
            && |m.attempts| <= |r.attempts| && r.lastDriftNs == m.lastDriftNs
            && (encoded <==> forall k | |m.attempts| <= k < |r.attempts| :: cfg.outcomes(k) == Encoded)
            && forall k | |m.attempts| <= k < |r.attempts| - 1 :: cfg.outcomes(k) == Encoded
    decreases if |m.sources| > 0 then |m.sources[0].queue| else 0
  {
    if Ready(cfg, m) {
      var (next, encoded) := EncodeMixed(cfg, m, cfg.frameSize);
      if encoded {
        DrainAnswers(cfg, next);
      } else {
        assert cfg.outcomes(|m.attempts|) != Encoded;
      }
    }
  }

  /** A buffer from no known source, before there is an epoch, or with nothing in it is refused; one that ends
      by the epoch is done with; any other is as good as the frames it makes ready. */
  lemma SubmitAnswers(cfg: Config, m: Mix, source: nat, buffer: Buffer)
    requires ValidConfig(cfg) && ValidMix(cfg, m) && ValidBuffer(buffer)
    requires source < |m.sources| && 0 < buffer.numFrames ==>
               InRange(cfg.clock, m.sources[source].numSamples, buffer.numFrames, buffer.timestampNs)
    ensures var (r, submitted) := Submit(cfg, m, source, buffer);
            if source >= |m.sources| || cfg.clock.epochNs == 0 || buffer.numFrames == 0 then r == m && !submitted
            else if buffer.timestampNs + buffer.numFrames * NANOSECONDS / cfg.clock.sampleRate <= cfg.clock.epochNs
            then r == m && submitted
            else
              && r.lastDriftNs == ShortBy(cfg.clock, m.sources[source].numSamples, buffer.timestampNs)
              && |m.attempts| <= |r.attempts|
              && (submitted <==> forall k | |m.attempts| <= k < |r.attempts| :: cfg.outcomes(k) == Encoded)
              && forall k | |m.attempts| <= k < |r.attempts| - 1 :: cfg.outcomes(k) == Encoded
  {
    if source < |m.sources| && cfg.clock.epochNs != 0 && 0 < buffer.numFrames {
      TrimAtEpoch(cfg.clock, m.sources[source].numSamples, buffer.numFrames, buffer.timestampNs);
      if buffer.timestampNs + buffer.numFrames * NANOSECONDS / cfg.clock.sampleRate > cfg.clock.epochNs {
        PlacedExactly(cfg.clock, m.sources[source].numSamples, buffer.numFrames, buffer.timestampNs);
        DrainAnswers(cfg, Filled(cfg, m, source, buffer));
      }
    }
  }

  // ---- The counts ----------------------------------------------------------------------------------

  /** Draining touches no count. */
  ghost predicate SameCounts(a: Source, b: Source) {
    a.numSamples == b.numSamples && a.numSilent == b.numSilent && a.numGaps == b.numGaps
    && a.warnedStall == b.warnedStall
  }

  lemma {:induction false} DrainKeepsCounts(cfg: Config, m: Mix, i: nat)
    requires ValidConfig(cfg) && ValidMix(cfg, m) && i < |m.sources|
    ensures SameCounts(Drain(cfg, m).0.sources[i], m.sources[i])
    decreases if |m.sources| > 0 then |m.sources[0].queue| else 0
  {
    if Ready(cfg, m) {
      var (next, encoded) := EncodeMixed(cfg, m, cfg.frameSize);
      assert SameCounts(next.sources[i], m.sources[i]);
      if encoded {
        DrainKeepsCounts(cfg, next, i);
      }
    }
  }

  /** What the recorder tells of a source after its run: the samples that came from its buffers, and the holes
      its buffers met. */
  function Delivered(clock: Clock, numSources: nat, calls: seq<Call>, i: nat): nat
    requires 0 < clock.sampleRate && ValidCalls(calls) && i < numSources
  {
    if calls == [] then 0
    else
      var before, last := calls[..|calls| - 1], calls[|calls| - 1];
      var track := Timeline(clock, numSources, before)[i];
      Delivered(clock, numSources, before, i)
      + if last.source != i || clock.epochNs == 0 || last.buffer.planes[0].NoPlane? || last.buffer.numFrames == 0 then 0
        else
          match Place(clock, |track|, last.buffer.numFrames, last.buffer.timestampNs)
          case BeforeEpoch => 0
          case Placed(skipped, _) => last.buffer.numFrames - skipped
  }

  function HolesMet(clock: Clock, numSources: nat, calls: seq<Call>, i: nat): nat
    requires 0 < clock.sampleRate && ValidCalls(calls) && i < numSources
  {
    if calls == [] then 0
    else
      var before, last := calls[..|calls| - 1], calls[|calls| - 1];
      var track := Timeline(clock, numSources, before)[i];
      HolesMet(clock, numSources, before, i)
      + if last.source != i || clock.epochNs == 0 || last.buffer.numFrames == 0 then 0
        else
          match Place(clock, |track|, last.buffer.numFrames, last.buffer.timestampNs)
          case BeforeEpoch => 0
          case Placed(_, driftNs) => if driftNs > 100_000_000 then 1 else 0
  }

  lemma FilledCounts(cfg: Config, m: Mix, source: nat, buffer: Buffer, i: nat)
    requires ValidConfig(cfg) && ValidMix(cfg, m) && ValidBuffer(buffer) && source < |m.sources| && i < |m.sources|
    requires Placing(cfg, m, source, buffer).Placed?
    ensures var p := Placing(cfg, m, source, buffer);
            var s, r := m.sources[i], Filled(cfg, m, source, buffer).sources[i];
            var kept := if i == source && buffer.planes[0].Plane? then buffer.numFrames - p.skipped else 0;
            var hole := if i == source then GapSamples(cfg.clock, p.driftNs) else 0;
            && r.numSamples - r.numSilent == s.numSamples - s.numSilent + kept
            && r.numGaps == s.numGaps + (if i == source && p.driftNs > GAP_THRESHOLD_NS then 1 else 0)
            && r.numSilent >= s.numSilent + hole
            && (r.warnedStall <==> s.warnedStall || r.numSilent > s.numSilent + hole)
  {
  }

  /** Over every run: every sample of a source's track that did not come from one of its buffers is counted as
      silent, and its holes are counted. */
  lemma {:induction false} SilenceIsCounted(cfg: Config, calls: seq<Call>, i: nat)
    requires ValidConfig(cfg) && ValidCalls(calls) && i < |cfg.gains|
    ensures var s := Run(cfg, calls).sources[i];
            && s.numSamples == s.numSilent + Delivered(cfg.clock, |cfg.gains|, calls, i)
            && s.numGaps == HolesMet(cfg.clock, |cfg.gains|, calls, i)
  {
    if calls != [] {
      var before, last := calls[..|calls| - 1], calls[|calls| - 1];
      var m := Run(cfg, before);
      SilenceIsCounted(cfg, before, i);
      RunRefines(cfg, before);
      if Accepts(cfg.clock, |m.sources|, last.source, last.buffer)
         && Placing(cfg, m, last.source, last.buffer).Placed?
      {
        FilledCounts(cfg, m, last.source, last.buffer, i);
        DrainKeepsCounts(cfg, Filled(cfg, m, last.source, last.buffer), i);
      }
    }
  }

  /** Before the first buffer nothing is queued, counted or warned of, and nothing has drifted. */
  lemma StartsClean(cfg: Config, i: nat)
    requires i < |cfg.gains|
    ensures var m := Initial(cfg);
            && m.sources[i].queue == [] && !m.sources[i].warnedStall && m.lastDriftNs == 0 && m.attempts == []
            && m.sources[i].numSamples == m.sources[i].numSilent == m.sources[i].numGaps == m.numAudioSamples == 0
  {
  }

  /** What the flush adds is silence, up to the longest queue, and is no stall. */
  lemma FlushIsNoStall(cfg: Config, m: Mix, i: nat)
    requires ValidConfig(cfg) && ValidMix(cfg, m) && i < |m.sources|
    ensures var s, r := m.sources[i], Finish(cfg, m).0.sources[i];
            && (r.warnedStall <==> s.warnedStall) && r.numGaps == s.numGaps
            && r.numSilent == s.numSilent + Longest(Queues(m.sources)) - |s.queue|
            && r.numSamples == s.numSamples + Longest(Queues(m.sources)) - |s.queue|
    ensures Finish(cfg, m).0.lastDriftNs == m.lastDriftNs
  {
    OneSecond(cfg.clock);
    DrainKeepsCounts(cfg, Levelled(cfg, m), i);
    DrainAnswers(cfg, Levelled(cfg, m));
  }
}
