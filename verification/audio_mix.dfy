/** The audio half of the encoder as functions on values: the sources' queues, the levelling, the mix in
    codec-sized frames and the flush at the end. `AudioEncoder` carries these out in place; `AudioTracks`
    says what they amount to. */
module AudioMix {
  import opened AudioClock

  /** One sample of every channel. */
  type Frame = seq<real>

  datatype Plane = NoPlane | Plane(samples: seq<real>)

  /** What an audio stream hands over: one plane per channel of the device. */
  datatype Buffer = Buffer(planes: seq<Plane>, numFrames: nat, timestampNs: nat)

  /** The stream's own promise: at least one channel, every plane as long as the count says, and a first
      plane that is there with all the others. */
  ghost predicate ValidBuffer(buffer: Buffer) {
    && 0 < |buffer.planes|
    && buffer.numFrames < TWO_32
    && buffer.timestampNs < TWO_64
    && (forall c | 0 <= c < |buffer.planes| && buffer.planes[c].Plane? ::
          buffer.numFrames <= |buffer.planes[c].samples|)
    && (buffer.planes[0].Plane? ==> forall c | 0 <= c < |buffer.planes| :: buffer.planes[c].Plane?)
  }

  /** What the codec did with one frame: refused it, took it but had a packet fail on the way out, or
      both went well. */
  datatype Outcome = SendFailed | DrainFailed | Encoded

  datatype Attempt = Attempt(pts: nat, frames: seq<Frame>, outcome: Outcome)

  datatype Source = Source(queue: seq<Frame>, numSamples: nat, numSilent: nat, numGaps: nat, warnedStall: bool)

  const IDLE: Source := Source([], 0, 0, 0, false)

  /** `outcomes(k)` is the codec's answer to the k-th frame it is given. */
  datatype Config = Config(clock: Clock, frameSize: nat, gains: seq<real>, outcomes: nat -> Outcome)

  ghost predicate ValidConfig(cfg: Config) {
    ValidClock(cfg.clock) && 0 < cfg.frameSize && 0 < |cfg.gains|
  }

  /** The sources of one recording, the frames tried on the codec so far, and the count of samples the
      codec has taken. */
  datatype Mix = Mix(sources: seq<Source>, numAudioSamples: nat, attempts: seq<Attempt>, lastDriftNs: int)

  ghost predicate IsFrames(channels: nat, frames: seq<Frame>) {
    forall j | 0 <= j < |frames| :: |frames[j]| == channels
  }

  ghost predicate ValidMix(cfg: Config, m: Mix) {
    && |m.sources| == |cfg.gains|
    && forall i | 0 <= i < |m.sources| :: IsFrames(cfg.clock.channels, m.sources[i].queue)
  }

  function Initial(cfg: Config): Mix {
    Mix(seq(|cfg.gains|, i => IDLE), 0, [], 0)
  }

  // ---- Filling -------------------------------------------------------------------------------------

  function Silence(channels: nat, count: nat): (s: seq<Frame>)
    ensures |s| == count && IsFrames(channels, s)
  {
    seq(count, j => seq(channels, c => 0.0))
  }

  /** The plane a channel is read from: a device with fewer channels repeats its last. */
  function PlaneOf(buffer: Buffer, channel: nat): Plane
    requires 0 < |buffer.planes|
  {
    buffer.planes[Min(channel, |buffer.planes| - 1)]
  }

  /** One sample of every channel of a buffer. */
  function FrameOf(channels: nat, buffer: Buffer, at: nat): (frame: Frame)
    requires ValidBuffer(buffer) && buffer.planes[0].Plane? && at < buffer.numFrames
    ensures |frame| == channels
  {
    seq(channels, c requires 0 <= c < channels => PlaneOf(buffer, c).samples[at])
  }

  /** The samples a buffer contributes once its head is trimmed. */
  function Kept(channels: nat, buffer: Buffer, skipped: nat): (s: seq<Frame>)
    requires ValidBuffer(buffer) && skipped <= buffer.numFrames
    ensures IsFrames(channels, s)
    ensures |s| == if buffer.planes[0].Plane? then buffer.numFrames - skipped else 0
  {
    if buffer.planes[0].Plane? then
      var s := seq(buffer.numFrames - skipped, j requires 0 <= j < buffer.numFrames - skipped =>
                     FrameOf(channels, buffer, skipped + j));
      assert forall j | 0 <= j < |s| :: s[j] == FrameOf(channels, buffer, skipped + j);
      s
    else []
  }

  function WithSilence(channels: nat, s: Source, count: nat): Source {
    s.(queue := s.queue + Silence(channels, count), numSamples := s.numSamples + count,
       numSilent := s.numSilent + count)
  }

  /** A source takes a placed buffer: first silence for a hole, then what the trim left. */
  function Append(clock: Clock, s: Source, buffer: Buffer, p: Placement): Source
    requires ValidBuffer(buffer) && p.Placed? && p.skipped <= buffer.numFrames
  {
    var gap := GapSamples(clock, p.driftNs);
    var filled :=
      if p.driftNs > GAP_THRESHOLD_NS
      then WithSilence(clock.channels, s, gap).(numGaps := s.numGaps + 1)
      else s;
    var kept := Kept(clock.channels, buffer, p.skipped);
    filled.(queue := filled.queue + kept, numSamples := filled.numSamples + |kept|)
  }

  // ---- Levelling -----------------------------------------------------------------------------------

  function Tolerance(clock: Clock, toleranceNs: nat): nat {
    toleranceNs * clock.sampleRate / NANOSECONDS
  }

  function Queues(sources: seq<Source>): (q: seq<seq<Frame>>)
    ensures |q| == |sources| && forall i | 0 <= i < |sources| :: q[i] == sources[i].queue
  {
    seq(|sources|, i requires 0 <= i < |sources| => sources[i].queue)
  }

  /** The length of the longest queue, or of the longest whole track. */
  function Longest(queues: seq<seq<Frame>>): (n: nat)
    ensures forall i | 0 <= i < |queues| :: |queues[i]| <= n
    ensures queues == [] || exists i | 0 <= i < |queues| :: |queues[i]| == n
    ensures queues == [] ==> n == 0
  {
    if queues == [] then 0 else
      var most := Longest(queues[..|queues| - 1]);
      var last := |queues[|queues| - 1]|;
      if most <= last then last else most
  }

  /** A source more than the tolerance behind the longest is filled up to it, and a stall -- as opposed
      to the levelling at the end, whose tolerance is zero -- is remembered. */
  function LevelOne(channels: nat, s: Source, longest: nat, tolerance: nat, running: bool): Source
    requires |s.queue| <= longest
  {
    var behind := longest - |s.queue|;
    if behind > tolerance
    then WithSilence(channels, s, behind).(warnedStall := s.warnedStall || running)
    else s
  }

  /** Every source levelled against `longest`. */
  function LevelTo(channels: nat, sources: seq<Source>, longest: nat, tolerance: nat, running: bool): (r: seq<Source>)
    requires forall i | 0 <= i < |sources| :: |sources[i].queue| <= longest
    ensures |r| == |sources|
  {
    seq(|sources|, i requires 0 <= i < |sources| => LevelOne(channels, sources[i], longest, tolerance, running))
  }

  function Level(clock: Clock, sources: seq<Source>, toleranceNs: nat): (r: seq<Source>)
    ensures |r| == |sources|
  {
    assert forall i | 0 <= i < |sources| :: |sources[i].queue| == |Queues(sources)[i]|;
    LevelTo(clock.channels, sources, Longest(Queues(sources)), Tolerance(clock, toleranceNs), toleranceNs > 0)
  }

  // ---- Mixing --------------------------------------------------------------------------------------

  function Clamp(x: real): real {
    if x < -1.0 then -1.0 else if x > 1.0 then 1.0 else x
  }

  function Gained(sample: real, gain: real): real { sample * gain }

  /** The first `count` sources at one position, in one channel: each added with its gain, clamped after
      every one. */
  function MixSample(gains: seq<real>, frames: seq<Frame>, channel: nat, count: nat): real
    requires 1 <= count <= |frames| <= |gains|
    requires forall i | 0 <= i < |frames| :: channel < |frames[i]|
    decreases count
  {
    if count == 1
    then Clamp(Gained(frames[0][channel], gains[0]))
    else Clamp(MixSample(gains, frames, channel, count - 1) + Gained(frames[count - 1][channel], gains[count - 1]))
  }

  function MixFrame(gains: seq<real>, channels: nat, frames: seq<Frame>): Frame
    requires 1 <= |frames| <= |gains|
    requires forall i | 0 <= i < |frames| :: |frames[i]| == channels
  {
    seq(channels, c requires 0 <= c < channels => MixSample(gains, frames, c, |frames|))
  }

  /** Every track at position `j`. */
  function Column(tracks: seq<seq<Frame>>, j: nat): (column: seq<Frame>)
    requires forall i | 0 <= i < |tracks| :: j < |tracks[i]|
    ensures |column| == |tracks|
    ensures forall i | 0 <= i < |tracks| :: column[i] == tracks[i][j]
  {
    seq(|tracks|, i requires 0 <= i < |tracks| => tracks[i][j])
  }

  /** The pointwise mix of whole tracks over their first `count` positions. */
  function MixTracks(gains: seq<real>, channels: nat, tracks: seq<seq<Frame>>, count: nat): (s: seq<Frame>)
    requires 1 <= |tracks| <= |gains|
    requires forall i | 0 <= i < |tracks| :: count <= |tracks[i]| && IsFrames(channels, tracks[i])
    ensures |s| == count
  {
    seq(count, j requires 0 <= j < count =>
          assert forall i | 0 <= i < |tracks| :: IsFrames(channels, tracks[i]) && |tracks[i][j]| == channels;
          MixFrame(gains, channels, Column(tracks, j)))
  }

  ghost predicate Holds(m: Mix, count: nat) {
    forall i | 0 <= i < |m.sources| :: count <= |m.sources[i].queue|
  }

  function DropEach(sources: seq<Source>, count: nat): (r: seq<Source>)
    requires forall i | 0 <= i < |sources| :: count <= |sources[i].queue|
    ensures |r| == |sources|
  {
    seq(|sources|, i requires 0 <= i < |sources| => sources[i].(queue := sources[i].queue[count..]))
  }

  /** One frame of `count` samples, read off every queue, mixed and sent. The samples are gone from the
      queues whatever the codec says; only a frame it took advances the count its time stamp comes from. */
  function EncodeMixed(cfg: Config, m: Mix, count: nat): (r: (Mix, bool))
    requires ValidConfig(cfg) && ValidMix(cfg, m) && Holds(m, count)
    ensures ValidMix(cfg, r.0)
  {
    var frames := MixTracks(cfg.gains, cfg.clock.channels, Queues(m.sources), count);
    var outcome := cfg.outcomes(|m.attempts|);
    (Mix(DropEach(m.sources, count),
         if outcome == SendFailed then m.numAudioSamples else m.numAudioSamples + count,
         m.attempts + [Attempt(m.numAudioSamples, frames, outcome)],
         m.lastDriftNs),
     outcome == Encoded)
  }

  predicate Ready(cfg: Config, m: Mix) {
    forall i | 0 <= i < |m.sources| :: cfg.frameSize <= |m.sources[i].queue|
  }

  /** Codec frames for as long as every source holds one and none fails. */
  function Drain(cfg: Config, m: Mix): (r: (Mix, bool))
    requires ValidConfig(cfg) && ValidMix(cfg, m)
    ensures ValidMix(cfg, r.0)
    decreases if |m.sources| > 0 then |m.sources[0].queue| else 0
  {
    if Ready(cfg, m) then
      var (next, encoded) := EncodeMixed(cfg, m, cfg.frameSize);
      if encoded then Drain(cfg, next) else (next, false)
    else (m, true)
  }

  // ---- The two entry points ------------------------------------------------------------------------

  predicate Accepts(clock: Clock, numSources: nat, source: nat, buffer: Buffer) {
    source < numSources && clock.epochNs != 0 && buffer.numFrames > 0
  }

  function Placing(cfg: Config, m: Mix, source: nat, buffer: Buffer): Placement
    requires ValidConfig(cfg) && source < |m.sources|
  {
    Place(cfg.clock, m.sources[source].numSamples, buffer.numFrames, buffer.timestampNs)
  }

  /** The sources once a placed buffer is in and the stalled ones have been levelled. */
  function Filled(cfg: Config, m: Mix, source: nat, buffer: Buffer): (r: Mix)
    requires ValidConfig(cfg) && ValidMix(cfg, m) && ValidBuffer(buffer) && source < |m.sources|
    requires Placing(cfg, m, source, buffer).Placed?
    ensures ValidMix(cfg, r)
  {
    var p := Placing(cfg, m, source, buffer);
    var sources := m.sources[source := Append(cfg.clock, m.sources[source], buffer, p)];
    m.(sources := Level(cfg.clock, sources, STALL_TOLERANCE_NS), lastDriftNs := p.driftNs)
  }

  function Submit(cfg: Config, m: Mix, source: nat, buffer: Buffer): (r: (Mix, bool))
    requires ValidConfig(cfg) && ValidMix(cfg, m) && ValidBuffer(buffer)
    ensures ValidMix(cfg, r.0)
  {
    if !Accepts(cfg.clock, |m.sources|, source, buffer) then (m, false)
    else if Placing(cfg, m, source, buffer).BeforeEpoch? then (m, true)
    else Drain(cfg, Filled(cfg, m, source, buffer))
  }

  /** How a recording's sound ended: in full, or with more left in a queue than one codec frame, which the
      frame buffers are not sized for; nothing further is said of such an end. */
  datatype Ending = Flushed | Overran(remaining: nat)

  function Levelled(cfg: Config, m: Mix): (r: Mix)
    requires ValidConfig(cfg) && ValidMix(cfg, m)
    ensures ValidMix(cfg, r)
  {
    m.(sources := Level(cfg.clock, m.sources, 0))
  }

  function Finish(cfg: Config, m: Mix): (r: (Mix, Ending))
    requires ValidConfig(cfg) && ValidMix(cfg, m)
    ensures ValidMix(cfg, r.0)
  {
    var (drained, _) := Drain(cfg, Levelled(cfg, m));
    DrainKeepsLevel(cfg, Levelled(cfg, m));
    var remaining := |drained.sources[0].queue|;
    if remaining == 0 then (drained, Flushed)
    else if remaining <= cfg.frameSize then (EncodeMixed(cfg, drained, remaining).0, Flushed)
    else (drained, Overran(remaining))
  }

  ghost predicate SameLength(m: Mix) {
    forall i | 0 <= i < |m.sources| :: |m.sources[i].queue| == |m.sources[0].queue|
  }

  /** Reading takes the same from every queue, so level queues stay level. */
  lemma DrainKeepsLevel(cfg: Config, m: Mix)
    requires ValidConfig(cfg) && ValidMix(cfg, m) && SameLength(m)
    ensures SameLength(Drain(cfg, m).0)
    decreases if |m.sources| > 0 then |m.sources[0].queue| else 0
  {
    if Ready(cfg, m) {
      var (next, encoded) := EncodeMixed(cfg, m, cfg.frameSize);
      assert SameLength(next);
      if encoded {
        DrainKeepsLevel(cfg, next);
      }
    }
  }
}
