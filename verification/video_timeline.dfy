/** The encoder's video half: time stamps that advance, and the one-packet delay line that gives every
    packet its duration. */
module VideoTimeline {
  import opened Wrappers

  const NOMINAL_FRAME_US: int := 16667
  const TWO_64: int := 0x1_0000_0000_0000_0000

  datatype Packet = Packet(pts: int, duration: int)

  /** `rescale` takes microseconds to the stream's time base; `writes(k)` says whether the muxer takes the
      k-th packet it is handed. An epoch of zero is none. */
  datatype Config = Config(epochNs: nat, rescale: int -> int, writes: nat -> bool)

  ghost predicate ValidConfig(cfg: Config) {
    && cfg.epochNs < TWO_64
    && forall a, b | a <= b :: cfg.rescale(a) <= cfg.rescale(b)
  }

  /** What the codec answers to one frame: whether it takes it, how many packets it then has ready, and
      whether reading one more is an error rather than "none yet". */
  datatype Answer = Answer(takes: bool, ready: nat, breaks: bool)

  /** The encoder's fields, the frames inside the codec, and what has been offered to the codec and handed
      to the muxer so far. */
  datatype Video = Video(
    nextPts: int,
    numFramesEncoded: nat,
    held: Option<Packet>,
    inCodec: seq<int>,
    offered: seq<int>,
    taken: seq<int>,
    handed: seq<Packet>)

  const START: Video := Video(0, 0, None, [], [], [], [])

  // ---- Operations ----------------------------------------------------------------------------------

  function FromTimestamp(cfg: Config, v: Video, timestampNs: nat): int {
    if timestampNs != 0 && cfg.epochNs != 0 then (timestampNs - cfg.epochNs) % TWO_64 / 1000 else v.nextPts
  }

  /** A time stamp that would not advance is replaced, once a frame has been counted. */
  function ChoosePts(cfg: Config, v: Video, timestampNs: nat): int {
    var pts := FromTimestamp(cfg, v, timestampNs);
    if v.numFramesEncoded > 0 && pts <= v.nextPts - NOMINAL_FRAME_US then v.nextPts else pts
  }

  function WriteOne(cfg: Config, v: Video, packet: Packet): (Video, bool) {
    (v.(handed := v.handed + [packet]), cfg.writes(|v.handed|))
  }

  /** A packet in the line is handed once the next one says how long it lasts. */
  function Hold(cfg: Config, v: Video, packet: Packet): (Video, bool) {
    match v.held
    case None => (v.(held := Some(packet)), true)
    case Some(waiting) =>
      var (next, ok) := WriteOne(cfg, v, waiting.(duration := packet.pts - waiting.pts));
      (next.(held := Some(packet)), ok)
  }

  /** Up to `ready` packets out of the codec, in the order their frames went in. */
  function DrainPackets(cfg: Config, v: Video, ready: nat, breaks: bool): (Video, bool)
    decreases ready
  {
    if ready == 0 || v.inCodec == [] then (v, !breaks)
    else
      var packet := Packet(cfg.rescale(v.inCodec[0]), 0);
      var (next, ok) := Hold(cfg, v.(inCodec := v.inCodec[1..]), packet);
      if ok then DrainPackets(cfg, next, ready - 1, breaks) else (next, false)
  }

  function Send(cfg: Config, v: Video, timestampNs: nat, answer: Answer): (Video, bool) {
    var pts := ChoosePts(cfg, v, timestampNs);
    var offered := v.(nextPts := pts + NOMINAL_FRAME_US, offered := v.offered + [pts]);
    if !answer.takes then (offered, false)
    else
      var inside := offered.(inCodec := v.inCodec + [pts], taken := v.taken + [pts]);
      var (drained, ok) := DrainPackets(cfg, inside, answer.ready, answer.breaks);
      (if ok then drained.(numFramesEncoded := drained.numFramesEncoded + 1) else drained, ok)
  }

  /** How long the last packet lasts: to the stop time where that is later, else a nominal frame. */
  function LastDuration(cfg: Config, held: Packet, endNs: nat): int {
    var endPts := cfg.rescale((endNs - cfg.epochNs) / 1000);
    if endNs != 0 && cfg.epochNs != 0 && endNs > cfg.epochNs && endPts > held.pts
    then endPts - held.pts
    else cfg.rescale(NOMINAL_FRAME_US)
  }

  function WriteHeld(cfg: Config, v: Video, endNs: nat): (Video, bool) {
    match v.held
    case None => (v, true)
    case Some(last) => WriteOne(cfg, v.(held := None), last.(duration := LastDuration(cfg, last, endNs)))
  }

  /** What the codec answers to the flush: no; that it gives up everything it holds; or so many packets, and
      then an error. */
  datatype Flush = Refused | Whole | Broken(ready: nat)

  function Flushed(cfg: Config, v: Video, flush: Flush): (Video, bool) {
    match flush
    case Refused => (v, false)
    case Whole => DrainPackets(cfg, v, |v.inCodec|, false)
    case Broken(ready) => DrainPackets(cfg, v, ready, true)
  }

  /** After the flush the line gives up its last packet; the trailer comes last. */
  function Finish(cfg: Config, v: Video, endNs: nat, flush: Flush, closes: bool): (Video, bool) {
    var (drained, ok) := Flushed(cfg, v, flush);
    if !ok then (drained, false)
    else
      var (r, wrote) := WriteHeld(cfg, drained, endNs);
      (r, wrote && closes)
  }

  // ---- Runs ----------------------------------------------------------------------------------------

  datatype Frame = Frame(timestampNs: nat, answer: Answer)

  function Run(cfg: Config, frames: seq<Frame>): Video {
    if frames == [] then START
    else
      var last := frames[|frames| - 1];
      Send(cfg, Run(cfg, frames[..|frames| - 1]), last.timestampNs, last.answer).0
  }

  function Rescaled(cfg: Config, pts: seq<int>): (r: seq<int>)
    ensures |r| == |pts|
  {
    seq(|pts|, i requires 0 <= i < |pts| => cfg.rescale(pts[i]))
  }

  /** The packets handed and the one in the line. */
  function Line(v: Video): seq<Packet> {
    if v.held.None? then v.handed else v.handed + [v.held.value]
  }

  function Stamps(packets: seq<Packet>): (r: seq<int>)
    ensures |r| == |packets|
  {
    seq(|packets|, i requires 0 <= i < |packets| => packets[i].pts)
  }

  /** Each handed packet ends where its follower starts. */
  ghost predicate Chained(line: seq<Packet>, handed: nat)
    requires handed <= |line|
  {
    forall k | 0 <= k < handed && k + 1 < |line| :: line[k].pts + line[k].duration == line[k + 1].pts
  }

  /** Every frame the codec took is a handed packet, the held one, or still inside, in that order, once
      each; and every packet handed so far ends where the next one starts. */
  ghost predicate Accounted(cfg: Config, v: Video) {
    && Stamps(Line(v)) + Rescaled(cfg, v.inCodec) == Rescaled(cfg, v.taken)
    && Chained(Line(v), |v.handed|)
    && (v.held.None? ==> v.handed == [])
  }

  lemma HoldAccounts(cfg: Config, v: Video)
    requires Accounted(cfg, v) && v.inCodec != []
    ensures var r := Hold(cfg, v.(inCodec := v.inCodec[1..]), Packet(cfg.rescale(v.inCodec[0]), 0)).0;
            Accounted(cfg, r) && r.taken == v.taken && r.held.Some?
  {
    var packet := Packet(cfg.rescale(v.inCodec[0]), 0);
    var r := Hold(cfg, v.(inCodec := v.inCodec[1..]), packet).0;
    assert Rescaled(cfg, v.inCodec) == [packet.pts] + Rescaled(cfg, r.inCodec);
    assert Stamps(Line(r)) == Stamps(Line(v)) + [packet.pts];
    forall k | 0 <= k < |r.handed| && k + 1 < |Line(r)|
      ensures Line(r)[k].pts + Line(r)[k].duration == Line(r)[k + 1].pts
    {
      if k < |v.handed| {
        assert Line(r)[k] == Line(v)[k] && Line(r)[k + 1].pts == Line(v)[k + 1].pts;
      }
    }
  }

  lemma {:induction false} DrainAccounts(cfg: Config, v: Video, ready: nat, breaks: bool)
    requires Accounted(cfg, v)
    ensures var (r, ok) := DrainPackets(cfg, v, ready, breaks);
            && Accounted(cfg, r) && r.taken == v.taken && r.offered == v.offered
            && r.nextPts == v.nextPts && r.numFramesEncoded == v.numFramesEncoded
            && (ok && ready >= |v.inCodec| ==> r.inCodec == [])
            && (ok ==> !breaks)
            && (v.held.Some? ==> r.held.Some?)
            && ((forall k | |v.handed| <= k < |r.handed| :: cfg.writes(k)) && !breaks ==> ok)
    decreases ready
  {
    if ready > 0 && v.inCodec != [] {
      HoldAccounts(cfg, v);
      var packet := Packet(cfg.rescale(v.inCodec[0]), 0);
      var (next, ok) := Hold(cfg, v.(inCodec := v.inCodec[1..]), packet);
      if ok {
        DrainAccounts(cfg, next, ready - 1, breaks);
      }
    }
  }

  lemma SendAccounts(cfg: Config, v: Video, frame: Frame)
    requires Accounted(cfg, v)
    ensures Accounted(cfg, Send(cfg, v, frame.timestampNs, frame.answer).0)
  {
    if frame.answer.takes {
      var pts := ChoosePts(cfg, v, frame.timestampNs);
      var inside := v.(nextPts := pts + NOMINAL_FRAME_US, offered := v.offered + [pts],
                       inCodec := v.inCodec + [pts], taken := v.taken + [pts]);
      assert Rescaled(cfg, inside.inCodec) == Rescaled(cfg, v.inCodec) + [cfg.rescale(pts)];
      assert Rescaled(cfg, inside.taken) == Rescaled(cfg, v.taken) + [cfg.rescale(pts)];
      assert Line(inside) == Line(v);
      DrainAccounts(cfg, inside, frame.answer.ready, frame.answer.breaks);
    }
  }

  /** Over any run, with frames refused, packets late and writes failing wherever they like: each packet is
      handed to the muxer at most once and in order, and ends where the next one starts. */
  lemma {:induction false} RunAccounts(cfg: Config, frames: seq<Frame>)
    ensures Accounted(cfg, Run(cfg, frames))
  {
    if frames != [] {
      RunAccounts(cfg, frames[..|frames| - 1]);
      SendAccounts(cfg, Run(cfg, frames[..|frames| - 1]), frames[|frames| - 1]);
    }
  }

  /** A packet is followed without a gap by the next. */
  ghost predicate Seamless(packets: seq<Packet>) {
    forall k | 0 <= k < |packets| - 1 :: packets[k].pts + packets[k].duration == packets[k + 1].pts
  }

  /** The last packet ends at the stop time when that is later than its start, and otherwise a nominal frame
      after it. */
  predicate EndsWell(cfg: Config, packets: seq<Packet>, endNs: nat) {
    packets != [] ==>
      var last := packets[|packets| - 1];
      var endPts := cfg.rescale((endNs - cfg.epochNs) / 1000);
      if cfg.epochNs != 0 && endNs > cfg.epochNs && endPts > last.pts
      then last.pts + last.duration == endPts
      else last.duration == cfg.rescale(NOMINAL_FRAME_US)
  }

  /** When the recording finishes, every frame the codec took has been handed to the muxer as one packet, in
      order and without a gap. */
  lemma EverythingIsHanded(cfg: Config, frames: seq<Frame>, endNs: nat, flush: Flush, closes: bool)
    requires Finish(cfg, Run(cfg, frames), endNs, flush, closes).1
    ensures var r := Finish(cfg, Run(cfg, frames), endNs, flush, closes).0;
            && Stamps(r.handed) == Rescaled(cfg, Run(cfg, frames).taken)
            && Seamless(r.handed) && EndsWell(cfg, r.handed, endNs)
  {
    var v := Run(cfg, frames);
    RunAccounts(cfg, frames);
    OnlyAWholeFlushDrains(cfg, v, flush);
    DrainAccounts(cfg, v, |v.inCodec|, false);
    var drained := DrainPackets(cfg, v, |v.inCodec|, false).0;
    assert Rescaled(cfg, drained.inCodec) == [];
    HeldIsLast(cfg, drained, endNs);
  }

  lemma OnlyAWholeFlushDrains(cfg: Config, v: Video, flush: Flush)
    ensures Flushed(cfg, v, flush).1 ==> flush == Whole
  {
    if flush.Broken? {
      BrokenDrainFails(cfg, v, flush.ready);
    }
  }

  lemma {:induction false} BrokenDrainFails(cfg: Config, v: Video, ready: nat)
    ensures !DrainPackets(cfg, v, ready, true).1
    decreases ready
  {
    if ready > 0 && v.inCodec != [] {
      var (next, ok) := Hold(cfg, v.(inCodec := v.inCodec[1..]), Packet(cfg.rescale(v.inCodec[0]), 0));
      if ok {
        BrokenDrainFails(cfg, next, ready - 1);
      }
    }
  }

  lemma HeldIsLast(cfg: Config, v: Video, endNs: nat)
    requires Accounted(cfg, v) && v.inCodec == []
    ensures var r := WriteHeld(cfg, v, endNs).0;
            Stamps(r.handed) == Rescaled(cfg, v.taken) && Seamless(r.handed) && EndsWell(cfg, r.handed, endNs)
  {
    var r := WriteHeld(cfg, v, endNs).0;
    assert Rescaled(cfg, v.inCodec) == [];
    assert Stamps(r.handed) == Stamps(Line(v));
    forall k | 0 <= k < |r.handed| - 1
      ensures r.handed[k].pts + r.handed[k].duration == r.handed[k + 1].pts
    {
      assert r.handed[k] == Line(v)[k];
      assert r.handed[k + 1].pts == Line(v)[k + 1].pts;
    }
  }

  // ---- The file ------------------------------------------------------------------------------------

  /** The packets in the file: of those handed to the muxer, the ones it took. */
  function InFile(cfg: Config, handed: seq<Packet>): seq<Packet> {
    if handed == [] then []
    else
      var last := |handed| - 1;
      InFile(cfg, handed[..last]) + if cfg.writes(last) then [handed[last]] else []
  }

  ghost predicate WritesIn(cfg: Config, from: nat, to: nat) {
    forall k | from <= k < to :: cfg.writes(k)
  }

  /** The file is complete exactly when every write succeeded. */
  lemma {:induction false} InFileExactly(cfg: Config, handed: seq<Packet>)
    ensures |InFile(cfg, handed)| <= |handed|
    ensures |InFile(cfg, handed)| == |handed| <==> WritesIn(cfg, 0, |handed|)
    ensures WritesIn(cfg, 0, |handed|) ==> InFile(cfg, handed) == handed
    decreases |handed|
  {
    if handed != [] {
      var last := |handed| - 1;
      InFileExactly(cfg, handed[..last]);
      assert handed == handed[..last] + [handed[last]];
      assert WritesIn(cfg, 0, |handed|) <==> WritesIn(cfg, 0, last) && cfg.writes(last);
    }
  }

  /** The file only grows. */
  lemma {:induction false} InFileGrows(cfg: Config, handed: seq<Packet>, k: nat)
    requires k <= |handed|
    ensures InFile(cfg, handed[..k]) <= InFile(cfg, handed)
    decreases |handed|
  {
    if k == |handed| {
      assert handed[..k] == handed;
    } else {
      var last := |handed| - 1;
      InFileGrows(cfg, handed[..last], k);
      assert handed[..last][..k] == handed[..k];
    }
  }

  /** A packet whose write succeeded is in the file, after those before it that are. */
  lemma InFileAt(cfg: Config, handed: seq<Packet>, k: nat)
    requires k < |handed| && cfg.writes(k)
    ensures |InFile(cfg, handed[..k])| < |InFile(cfg, handed)|
    ensures InFile(cfg, handed)[|InFile(cfg, handed[..k])|] == handed[k]
  {
    InFileGrows(cfg, handed, k + 1);
    assert handed[..k + 1][..k] == handed[..k];
    assert InFile(cfg, handed[..k + 1]) == InFile(cfg, handed[..k]) + [handed[k]];
  }

  lemma {:induction false} DrainWrites(cfg: Config, v: Video, ready: nat, breaks: bool)
    ensures var (r, ok) := DrainPackets(cfg, v, ready, breaks);
            v.handed <= r.handed && (ok ==> WritesIn(cfg, |v.handed|, |r.handed|))
    decreases ready
  {
    if ready > 0 && v.inCodec != [] {
      var (next, ok) := Hold(cfg, v.(inCodec := v.inCodec[1..]), Packet(cfg.rescale(v.inCodec[0]), 0));
      if ok {
        DrainWrites(cfg, next, ready - 1, breaks);
      }
    }
  }

  /** Every frame was reported as submitted. */
  ghost predicate AllSubmitted(cfg: Config, frames: seq<Frame>) {
    forall n | 0 <= n < |frames| :: Send(cfg, Run(cfg, frames[..n]), frames[n].timestampNs, frames[n].answer).1
  }

  lemma {:induction false} SubmittedIsWritten(cfg: Config, frames: seq<Frame>)
    requires AllSubmitted(cfg, frames)
    ensures WritesIn(cfg, 0, |Run(cfg, frames).handed|)
    decreases |frames|
  {
    if frames != [] {
      var before, last := frames[..|frames| - 1], frames[|frames| - 1];
      forall n | 0 <= n < |before|
        ensures Send(cfg, Run(cfg, before[..n]), before[n].timestampNs, before[n].answer).1
      {
        assert before[..n] == frames[..n] && before[n] == frames[n];
      }
      SubmittedIsWritten(cfg, before);
      SendWrites(cfg, Run(cfg, before), last);
    }
  }

  lemma SendWrites(cfg: Config, v: Video, frame: Frame)
    ensures var (r, submitted) := Send(cfg, v, frame.timestampNs, frame.answer);
            v.handed <= r.handed && (submitted ==> WritesIn(cfg, |v.handed|, |r.handed|))
  {
    var pts := ChoosePts(cfg, v, frame.timestampNs);
    var inside := v.(nextPts := pts + NOMINAL_FRAME_US, offered := v.offered + [pts],
                     inCodec := v.inCodec + [pts], taken := v.taken + [pts]);
    DrainWrites(cfg, inside, frame.answer.ready, frame.answer.breaks);
  }

  /** A finish that is reported as done has written everything it handed over itself. */
  lemma FinishWrites(cfg: Config, v: Video, endNs: nat, flush: Flush, closes: bool)
    requires Finish(cfg, v, endNs, flush, closes).1
    ensures var r := Finish(cfg, v, endNs, flush, closes).0;
            v.handed <= r.handed && WritesIn(cfg, |v.handed|, |r.handed|)
  {
    OnlyAWholeFlushDrains(cfg, v, flush);
    DrainWrites(cfg, v, |v.inCodec|, false);
  }

  /** A finished recording: the file holds one packet for every frame the codec took exactly when every write
      to the muxer succeeded. Then they are in order and without a gap, and the last ends at the stop time.
      Otherwise it holds those whose write succeeded, as they are in the whole. */
  lemma FinishedRecording(cfg: Config, frames: seq<Frame>, endNs: nat, flush: Flush, closes: bool)
    requires Finish(cfg, Run(cfg, frames), endNs, flush, closes).1
    ensures var handed := Finish(cfg, Run(cfg, frames), endNs, flush, closes).0.handed;
            var file := InFile(cfg, handed);
            var taken := Run(cfg, frames).taken;
            && (Stamps(file) == Rescaled(cfg, taken) <==> WritesIn(cfg, 0, |handed|))
            && (WritesIn(cfg, 0, |handed|) ==> Seamless(file) && EndsWell(cfg, file, endNs))
            && |handed| == |taken|
            && forall k | 0 <= k < |taken| && cfg.writes(k) ::
                 && |InFile(cfg, handed[..k])| < |file|
                 && file[|InFile(cfg, handed[..k])|] == handed[k] && handed[k].pts == cfg.rescale(taken[k])
  {
    EverythingIsHanded(cfg, frames, endNs, flush, closes);
    var handed := Finish(cfg, Run(cfg, frames), endNs, flush, closes).0.handed;
    InFileExactly(cfg, handed);
    assert |handed| == |Stamps(handed)|;
    forall k | 0 <= k < |handed| && cfg.writes(k)
      ensures |InFile(cfg, handed[..k])| < |InFile(cfg, handed)|
      ensures InFile(cfg, handed)[|InFile(cfg, handed[..k])|] == handed[k]
      ensures handed[k].pts == cfg.rescale(Run(cfg, frames).taken[k])
    {
      InFileAt(cfg, handed, k);
      assert handed[k].pts == Stamps(handed)[k];
    }
  }

  /** Nothing is missing unsaid: where every frame was reported as submitted and the finish as done, every
      frame the codec took is in the file. */
  lemma LossIsReported(cfg: Config, frames: seq<Frame>, endNs: nat, flush: Flush, closes: bool)
    requires AllSubmitted(cfg, frames) && Finish(cfg, Run(cfg, frames), endNs, flush, closes).1
    ensures var r := Finish(cfg, Run(cfg, frames), endNs, flush, closes).0;
            && InFile(cfg, r.handed) == r.handed
            && Stamps(InFile(cfg, r.handed)) == Rescaled(cfg, Run(cfg, frames).taken)
            && Seamless(InFile(cfg, r.handed)) && EndsWell(cfg, InFile(cfg, r.handed), endNs)
  {
    SubmittedIsWritten(cfg, frames);
    FinishWrites(cfg, Run(cfg, frames), endNs, flush, closes);
    var r := Finish(cfg, Run(cfg, frames), endNs, flush, closes).0;
    assert WritesIn(cfg, 0, |r.handed|);
    InFileExactly(cfg, r.handed);
    EverythingIsHanded(cfg, frames, endNs, flush, closes);
  }

  // ---- Time stamps ---------------------------------------------------------------------------------

  ghost predicate Stamped(v: Video) {
    && (v.offered != [] ==> v.nextPts == v.offered[|v.offered| - 1] + NOMINAL_FRAME_US)
    && (v.offered == [] ==> v.numFramesEncoded == 0 && v.nextPts == 0)
  }

  lemma {:induction false} DrainStamps(cfg: Config, v: Video, ready: nat, breaks: bool)
    ensures var r := DrainPackets(cfg, v, ready, breaks).0;
            r.offered == v.offered && r.nextPts == v.nextPts && r.numFramesEncoded == v.numFramesEncoded
    decreases ready
  {
    if ready > 0 && v.inCodec != [] {
      var packet := Packet(cfg.rescale(v.inCodec[0]), 0);
      var (next, ok) := Hold(cfg, v.(inCodec := v.inCodec[1..]), packet);
      if ok {
        DrainStamps(cfg, next, ready - 1, breaks);
      }
    }
  }

  lemma SendStamps(cfg: Config, v: Video, frame: Frame)
    requires Stamped(v)
    ensures var r := Send(cfg, v, frame.timestampNs, frame.answer).0;
            && Stamped(r)
            && r.offered == v.offered + [ChoosePts(cfg, v, frame.timestampNs)]
            && v.numFramesEncoded <= r.numFramesEncoded
  {
    if frame.answer.takes {
      var pts := ChoosePts(cfg, v, frame.timestampNs);
      var inside := v.(nextPts := pts + NOMINAL_FRAME_US, offered := v.offered + [pts],
                       inCodec := v.inCodec + [pts], taken := v.taken + [pts]);
      DrainStamps(cfg, inside, frame.answer.ready, frame.answer.breaks);
    }
  }

  lemma {:induction false} RunStamps(cfg: Config, frames: seq<Frame>)
    ensures Stamped(Run(cfg, frames)) && |Run(cfg, frames).offered| == |frames|
  {
    if frames != [] {
      RunStamps(cfg, frames[..|frames| - 1]);
      SendStamps(cfg, Run(cfg, frames[..|frames| - 1]), frames[|frames| - 1]);
    }
  }

  /** A frame after the first is given a time stamp past the one before it exactly when some frame has been
      counted, or its own time says so. */
  lemma AdvancesExactlyWhen(cfg: Config, frames: seq<Frame>, frame: Frame)
    requires frames != []
    ensures var v := Run(cfg, frames);
            var offered := Run(cfg, frames + [frame]).offered;
            && |offered| == |frames| + 1
            && (offered[|frames|] > offered[|frames| - 1]
                <==> v.numFramesEncoded > 0 || FromTimestamp(cfg, v, frame.timestampNs) > offered[|frames| - 1])
  {
    var v := Run(cfg, frames);
    RunStamps(cfg, frames);
    assert (frames + [frame])[..|frames|] == frames;
    SendStamps(cfg, v, frame);
  }

  ghost predicate Increasing(s: seq<int>, from: nat) {
    forall i, j | from <= i < j < |s| :: s[i] < s[j]
  }

  /** From the first counted frame on, whatever the frames' time stamps say -- repeated, backwards, before
      the epoch -- the time stamps offered to the codec strictly increase. */
  lemma {:induction false} StampsIncreaseOnceCounted(cfg: Config, frames: seq<Frame>, k: nat)
    requires 0 < k < |frames| && Run(cfg, frames[..k]).numFramesEncoded > 0
    ensures |Run(cfg, frames).offered| == |frames|
    ensures Increasing(Run(cfg, frames).offered, k - 1)
    ensures Run(cfg, frames).numFramesEncoded > 0
  {
    var before, last := frames[..|frames| - 1], frames[|frames| - 1];
    assert before + [last] == frames;
    RunStamps(cfg, before);
    SendStamps(cfg, Run(cfg, before), last);
    if k < |before| {
      assert before[..k] == frames[..k];
      StampsIncreaseOnceCounted(cfg, before, k);
    } else {
      assert before == frames[..k];
    }
    AdvancesExactlyWhen(cfg, before, last);
    Extends(Run(cfg, before).offered, Run(cfg, frames).offered, k - 1);
  }

  lemma Extends(before: seq<int>, all: seq<int>, from: nat)
    requires from < |before| == |all| - 1 && before <= all && all[|before| - 1] < all[|before|]
    requires Increasing(before, from)
    ensures Increasing(all, from)
  {
    forall i, j | from <= i < j < |all| ensures all[i] < all[j] {
      if j == |before| && i < j - 1 {
        assert before[i] < before[j - 1];
      }
    }
  }

  /** Before that they need not: a first frame the codec takes but whose packet cannot be read, and a second
      with the same time stamp. */
  lemma StampsCanRepeatBeforeThat()
    ensures var cfg := Config(1, x => x, k => true);
            var frames := [Frame(5001, Answer(true, 0, true)), Frame(5001, Answer(true, 0, false))];
            Run(cfg, frames).offered == [5, 5]
  {
    var cfg := Config(1, x => x, k => true);
    var first, second := Frame(5001, Answer(true, 0, true)), Frame(5001, Answer(true, 0, false));
    assert [first, second][..1] == [first] && [first][..0] == [];
    assert Run(cfg, [first]).offered == [5];
    assert Run(cfg, [first]).numFramesEncoded == 0;
    SendStamps(cfg, Run(cfg, [first]), second);
  }

  /** Time stamps in order make durations that are not negative, of every packet handed to the muxer. */
  lemma DurationsAreNotNegative(cfg: Config, frames: seq<Frame>, endNs: nat, flush: Flush, closes: bool)
    requires ValidConfig(cfg) && Finish(cfg, Run(cfg, frames), endNs, flush, closes).1
    requires forall i, j | 0 <= i < j < |Run(cfg, frames).taken| ::
               Run(cfg, frames).taken[i] <= Run(cfg, frames).taken[j]
    requires 0 <= cfg.rescale(NOMINAL_FRAME_US)
    ensures var handed := Finish(cfg, Run(cfg, frames), endNs, flush, closes).0.handed;
            forall k | 0 <= k < |handed| :: 0 <= handed[k].duration
  {
    EverythingIsHanded(cfg, frames, endNs, flush, closes);
    var r := Finish(cfg, Run(cfg, frames), endNs, flush, closes).0;
    var taken := Run(cfg, frames).taken;
    assert |r.handed| == |Stamps(r.handed)| == |taken|;
    forall k | 0 <= k < |r.handed| ensures 0 <= r.handed[k].duration {
      if k + 1 < |r.handed| {
        assert r.handed[k].pts == Stamps(r.handed)[k] == cfg.rescale(taken[k]);
        assert r.handed[k + 1].pts == Stamps(r.handed)[k + 1] == cfg.rescale(taken[k + 1]);
      }
    }
  }

  /** A frame's own time, in microseconds after the epoch; unsigned, so that one before the epoch is far
      ahead. */
  function OwnTime(epochNs: nat, timestampNs: nat): int {
    if epochNs <= timestampNs then (timestampNs - epochNs) / 1_000
    else (timestampNs + (0x1_0000_0000_0000_0000 - epochNs)) / 1_000
  }

  /** Over every run: a frame that has a time keeps it where it is past the last one, and before any frame is
      counted; else, and without a time, it comes a nominal frame after the last. */
  lemma FramesKeepTheirTime(cfg: Config, frames: seq<Frame>, frame: Frame)
    requires cfg.epochNs < TWO_64 && frame.timestampNs < TWO_64
    ensures var v := Run(cfg, frames);
            var offered := Run(cfg, frames + [frame]).offered;
            var own := OwnTime(cfg.epochNs, frame.timestampNs);
            var hasTime := cfg.epochNs != 0 && frame.timestampNs != 0;
            && |offered| == |frames| + 1
            && (frames == [] ==> offered == [if hasTime then own else 0])
            && (frames != [] ==>
                  var last := offered[|frames| - 1];
                  offered[|frames|]
                    == if hasTime && (own > last || v.numFramesEncoded == 0) then own else last + 16_667)
  {
    var v := Run(cfg, frames);
    RunStamps(cfg, frames);
    assert (frames + [frame])[..|frames|] == frames;
    SendStamps(cfg, v, frame);
    TimeIsOwn(cfg, v, frame.timestampNs);
  }

  lemma TimeIsOwn(cfg: Config, v: Video, timestampNs: nat)
    requires cfg.epochNs < TWO_64 && timestampNs < TWO_64
    ensures FromTimestamp(cfg, v, timestampNs)
         == if timestampNs != 0 && cfg.epochNs != 0 then OwnTime(cfg.epochNs, timestampNs) else v.nextPts
  {
    var x := timestampNs - cfg.epochNs;
    if x < 0 {
      assert x % TWO_64 == x + TWO_64;
    }
  }

  /** The stamps of the frames the codec took. */
  function TakenOf(cfg: Config, frames: seq<Frame>): seq<int> {
    if frames == [] then []
    else
      var before, offered := TakenOf(cfg, frames[..|frames| - 1]), Run(cfg, frames).offered;
      if frames[|frames| - 1].answer.takes && offered != [] then before + [offered[|offered| - 1]] else before
  }

  lemma {:induction false} DrainSays(cfg: Config, v: Video, ready: nat, breaks: bool)
    ensures var (r, ok) := DrainPackets(cfg, v, ready, breaks);
            && |v.handed| <= |r.handed| && r.taken == v.taken
            && (ok <==> !breaks && WritesIn(cfg, |v.handed|, |r.handed|))
            && (ok ==> |r.inCodec| == if ready < |v.inCodec| then |v.inCodec| - ready else 0)
    decreases ready
  {
    if ready > 0 && v.inCodec != [] {
      var (next, ok) := Hold(cfg, v.(inCodec := v.inCodec[1..]), Packet(cfg.rescale(v.inCodec[0]), 0));
      if ok {
        DrainSays(cfg, next, ready - 1, breaks);
      } else {
        assert !cfg.writes(|v.handed|);
      }
    }
  }

  /** A frame is reported as submitted, and counted, exactly when the codec took it, its packets could be read, and
      each of those handed on was written. */
  lemma SendSays(cfg: Config, v: Video, frame: Frame)
    ensures var (r, submitted) := Send(cfg, v, frame.timestampNs, frame.answer);
            && |v.handed| <= |r.handed|
            && (submitted <==> frame.answer.takes && !frame.answer.breaks && WritesIn(cfg, |v.handed|, |r.handed|))
            && r.numFramesEncoded == v.numFramesEncoded + (if submitted then 1 else 0)
            && r.taken == if frame.answer.takes && r.offered != []
                          then v.taken + [r.offered[|r.offered| - 1]]
                          else v.taken
  {
    if frame.answer.takes {
      var pts := ChoosePts(cfg, v, frame.timestampNs);
      var inside := v.(nextPts := pts + NOMINAL_FRAME_US, offered := v.offered + [pts],
                       inCodec := v.inCodec + [pts], taken := v.taken + [pts]);
      DrainSays(cfg, inside, frame.answer.ready, frame.answer.breaks);
      DrainStamps(cfg, inside, frame.answer.ready, frame.answer.breaks);
    }
  }

  /** Over every run: what the codec took is what it was offered and did not refuse, with those stamps. */
  lemma {:induction false} RunTakes(cfg: Config, frames: seq<Frame>)
    ensures Run(cfg, frames).taken == TakenOf(cfg, frames)
  {
    if frames != [] {
      var before := frames[..|frames| - 1];
      RunTakes(cfg, before);
      SendSays(cfg, Run(cfg, before), frames[|frames| - 1]);
    }
  }

  /** A finish succeeds exactly when the codec gives up everything, everything handed on is written, and so is the
      trailer. */
  lemma FinishSays(cfg: Config, v: Video, endNs: nat, flush: Flush, closes: bool)
    ensures var (r, finished) := Finish(cfg, v, endNs, flush, closes);
            && |v.handed| <= |r.handed|
            && (finished <==> flush == Whole && closes && WritesIn(cfg, |v.handed|, |r.handed|))
  {
    OnlyAWholeFlushDrains(cfg, v, flush);
    DrainSays(cfg, v, |v.inCodec|, false);
    if flush.Broken? {
      DrainSays(cfg, v, flush.ready, true);
    }
    if flush == Whole {
      var drained := DrainPackets(cfg, v, |v.inCodec|, false).0;
      assert WritesIn(cfg, |v.handed|, |drained.handed|) || !DrainPackets(cfg, v, |v.inCodec|, false).1;
    }
  }

  // ---- As it runs ----------------------------------------------------------------------------------

  /** The same, with the encoder's fields changed in place. */
  class Encoder {
    const cfg: Config
    var nextPts: int
    var numFramesEncoded: nat
    var hasHeldPacket: bool
    var heldPacket: Packet
    // The codec's and the muxer's side of the exchange.
    var inCodec: seq<int>
    var offered: seq<int>
    var taken: seq<int>
    var handed: seq<Packet>

    ghost function State(): Video
      reads this
    {
      Video(nextPts, numFramesEncoded, if hasHeldPacket then Some(heldPacket) else None, inCodec, offered, taken,
            handed)
    }

    constructor (cfg: Config)
      ensures this.cfg == cfg && State() == START
    {
      this.cfg := cfg;
      nextPts, numFramesEncoded, hasHeldPacket, heldPacket := 0, 0, false, Packet(0, 0);
      inCodec, offered, taken, handed := [], [], [], [];
    }

    method WritePacket(packet: Packet) returns (ok: bool)
      modifies this`handed
      ensures (State(), ok) == WriteOne(cfg, old(State()), packet)
    {
      ok := cfg.writes(|handed|);
      handed := handed + [packet];
    }

    method HoldVideoPacket(packet: Packet) returns (ok: bool)
      modifies this`handed, this`heldPacket, this`hasHeldPacket
      ensures (State(), ok) == Hold(cfg, old(State()), packet)
    {
      ok := true;
      if hasHeldPacket {
        heldPacket := heldPacket.(duration := packet.pts - heldPacket.pts);
        ok := WritePacket(heldPacket);
      }
      heldPacket := packet;
      hasHeldPacket := true;
    }

    method Drain(ready: nat, breaks: bool) returns (drained: bool)
      modifies this
      ensures (State(), drained) == DrainPackets(cfg, old(State()), ready, breaks)
    {
      drained := true;
      var left := ready;
      var reading := true;
      while reading
        invariant reading ==>
          drained && DrainPackets(cfg, State(), left, breaks) == DrainPackets(cfg, old(State()), ready, breaks)
        invariant !reading ==> (State(), drained) == DrainPackets(cfg, old(State()), ready, breaks)
        decreases reading, left
      {
        if left == 0 || inCodec == [] {
          drained := !breaks;
          reading := false;
        } else {
          var packet := Packet(cfg.rescale(inCodec[0]), 0);
          inCodec := inCodec[1..];
          var ok := HoldVideoPacket(packet);
          left := left - 1;
          if !ok {
            drained := false;
            reading := false;
          }
        }
      }
    }

    /** An encoder rejects a time stamp that does not advance. */
    method NextStamp(timestampNs: nat) returns (pts: int)
      ensures pts == ChoosePts(cfg, State(), timestampNs)
    {
      pts := nextPts;
      if timestampNs != 0 && cfg.epochNs != 0 {
        pts := (timestampNs - cfg.epochNs) % TWO_64 / 1000;
      }
      if numFramesEncoded > 0 && pts <= nextPts - NOMINAL_FRAME_US {
        pts := nextPts;
      }
    }

    /** The codec has taken a frame: its packets come out, and it counts once they are read. */
    method Count(answer: Answer) returns (counted: bool)
      modifies this
      ensures var (drained, ok) := DrainPackets(cfg, old(State()), answer.ready, answer.breaks);
              && counted == ok
              && State() == if ok then drained.(numFramesEncoded := drained.numFramesEncoded + 1) else drained
    {
      counted := Drain(answer.ready, answer.breaks);
      if counted {
        numFramesEncoded := numFramesEncoded + 1;
      }
    }

    method SendToEncoder(timestampNs: nat, answer: Answer) returns (submitted: bool)
      modifies this
      ensures (State(), submitted) == Send(cfg, old(State()), timestampNs, answer)
    {
      var pts := NextStamp(timestampNs);
      nextPts := pts + NOMINAL_FRAME_US;
      offered := offered + [pts];
      submitted := false;
      if answer.takes {
        inCodec, taken := inCodec + [pts], taken + [pts];
        submitted := Count(answer);
      }
    }

    method WriteHeldPacket(endNs: nat) returns (ok: bool)
      modifies this
      ensures (State(), ok) == WriteHeld(cfg, old(State()), endNs)
    {
      ok := true;
      if hasHeldPacket {
        var duration := cfg.rescale(NOMINAL_FRAME_US);
        if endNs != 0 && cfg.epochNs != 0 && endNs > cfg.epochNs {
          var endPts := cfg.rescale((endNs - cfg.epochNs) / 1000);
          if endPts > heldPacket.pts {
            duration := endPts - heldPacket.pts;
          }
        }
        heldPacket := heldPacket.(duration := duration);
        hasHeldPacket := false;
        ok := WritePacket(heldPacket);
      }
    }

    method FlushCodec(flush: Flush) returns (ok: bool)
      modifies this
      ensures (State(), ok) == Flushed(cfg, old(State()), flush)
    {
      match flush
      case Refused => ok := false;
      case Whole => ok := Drain(|inCodec|, false);
      case Broken(ready) => ok := Drain(ready, true);
    }

    /** `closes` says whether the trailer is written. */
    method FlushVideo(endNs: nat, flush: Flush, closes: bool) returns (ok: bool)
      modifies this
      ensures (State(), ok) == Finish(cfg, old(State()), endNs, flush, closes)
    {
      ok := FlushCodec(flush);
      if ok {
        ok := WriteHeldPacket(endNs);
        ok := ok && closes;
      }
    }
  }
}
