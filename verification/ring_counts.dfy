/** What the ring's fields say of a recording, told from the steps it has taken: every count, every flag and the
    frames themselves. */
module RingCounts {
  import opened Wrappers
  import opened FrameRing
  import opened RingSession

  /** What a step can be counted as. */
  datatype Kind = Captured | Encoded | Failed | Dropped | Began | GaveUp | ToldToStop

  predicate IsOf(kind: Kind, s: Step) {
    match kind
    case Captured => s.Arrive?
    case Encoded => (s.EncodeInline? && s.submitted) || (s.Submit? && s.encoded)
    case Failed => (s.EncodeInline? && !s.submitted) || (s.Submit? && !s.encoded)
    case Dropped => s.Drop?
    case Began => s.StartEncoder? && s.started
    case GaveUp => s.StartEncoder? && !s.started
    case ToldToStop => s.SetStopping?
  }

  /** The steps of the recording that is on, or was last. */
  function SinceStart(steps: seq<Step>): seq<Step> {
    if steps == [] || steps[|steps| - 1].Start? then [] else SinceStart(steps[..|steps| - 1]) + [steps[|steps| - 1]]
  }

  function Count(steps: seq<Step>, kind: Kind): nat {
    if steps == [] then 0 else Count(steps[..|steps| - 1], kind) + if IsOf(kind, steps[|steps| - 1]) then 1 else 0
  }

  predicate Has(steps: seq<Step>, kind: Kind) {
    exists i | 0 <= i < |steps| :: IsOf(kind, steps[i])
  }

  /** The frame that arrived last. */
  function Arriving(steps: seq<Step>): Option<nat> {
    if steps == [] then None
    else if steps[|steps| - 1].Arrive? then Some(steps[|steps| - 1].frame)
    else Arriving(steps[..|steps| - 1])
  }

  /** The frames taken into the ring, in order. */
  function TakenIn(steps: seq<Step>): seq<nat> {
    if steps == [] then []
    else
      var before := steps[..|steps| - 1];
      if steps[|steps| - 1].Take? && Arriving(before).Some? then TakenIn(before) + [Arriving(before).value]
      else TakenIn(before)
  }

  /** Whether the frames of the recording that is on, or was last, have to be copied. */
  function IsMapped(steps: seq<Step>): bool {
    if steps == [] then true
    else if steps[|steps| - 1].Start? then steps[|steps| - 1].mapped
    else IsMapped(steps[..|steps| - 1])
  }

  lemma {:induction false} RunsSnoc(r: Ring, steps: seq<Step>, s: Step)
    ensures Runs(r, steps + [s]) <==> Runs(r, steps) && Enabled(After(r, steps), s)
    ensures Runs(r, steps + [s]) ==> After(r, steps + [s]) == Apply(After(r, steps), s)
    decreases |steps|
  {
    if steps == [] {
      assert [] + [s] == [s] && [s][1..] == [];
    } else {
      assert (steps + [s])[1..] == steps[1..] + [s];
      if Enabled(r, steps[0]) {
        RunsSnoc(Apply(r, steps[0]), steps[1..], s);
      }
    }
  }

  ghost predicate CountsTell(r: Ring, steps: seq<Step>) {
    var recording := SinceStart(steps);
    && r.numCaptured == Count(recording, Captured) && r.numDropped == Count(recording, Dropped)
    && r.numEncoded == Count(recording, Encoded) && r.numFailures == Count(recording, Failed)
  }

  ghost predicate FlagsTell(r: Ring, steps: seq<Step>) {
    var recording := SinceStart(steps);
    && (r.startFailed <==> Has(recording, GaveUp))
    && (r.encoding <==> Has(recording, Began) && r.phase !in {Joined, Idle})
    && (r.stopping <==> Has(recording, ToldToStop))
    && r.mapped == IsMapped(steps)
  }

  ghost predicate FramesTell(r: Ring, steps: seq<Step>) {
    && r.accepted == TakenIn(SinceStart(steps))
    && (r.producer.Arrived? ==> Arriving(SinceStart(steps)) == Some(r.producer.frame))
  }

  lemma SinceSnoc(steps: seq<Step>, s: Step)
    ensures SinceStart(steps + [s]) == if s.Start? then [] else SinceStart(steps) + [s]
    ensures IsMapped(steps + [s]) == if s.Start? then s.mapped else IsMapped(steps)
  {
    assert (steps + [s])[..|steps|] == steps;
  }

  lemma CountSnoc(steps: seq<Step>, s: Step, kind: Kind)
    ensures Count(steps + [s], kind) == Count(steps, kind) + if IsOf(kind, s) then 1 else 0
    ensures Has(steps + [s], kind) <==> Has(steps, kind) || IsOf(kind, s)
  {
    assert (steps + [s])[..|steps|] == steps;
    if Has(steps, kind) {
      var i :| 0 <= i < |steps| && IsOf(kind, steps[i]);
      assert (steps + [s])[i] == steps[i];
    }
    if IsOf(kind, s) {
      assert (steps + [s])[|steps|] == s;
    }
  }

  lemma CountsStep(r: Ring, steps: seq<Step>, s: Step)
    requires Enabled(r, s) && CountsTell(r, steps)
    ensures CountsTell(Apply(r, s), steps + [s])
  {
    SinceSnoc(steps, s);
    CountsOf(r, s);
    CountSnoc(SinceStart(steps), s, Captured);
    CountSnoc(SinceStart(steps), s, Dropped);
    CountSnoc(SinceStart(steps), s, Encoded);
    CountSnoc(SinceStart(steps), s, Failed);
  }

  function One(b: bool): nat { if b then 1 else 0 }

  /** What one step does to the counts. */
  lemma CountsOf(r: Ring, s: Step)
    requires Enabled(r, s)
    ensures var next := Apply(r, s);
            && next.numCaptured == (if s.Start? then 0 else r.numCaptured + One(IsOf(Captured, s)))
            && next.numDropped == (if s.Start? then 0 else r.numDropped + One(IsOf(Dropped, s)))
            && next.numEncoded == (if s.Start? then 0 else r.numEncoded + One(IsOf(Encoded, s)))
            && next.numFailures == (if s.Start? then 0 else r.numFailures + One(IsOf(Failed, s)))
  {
  }

  lemma FlagsStep(r: Ring, steps: seq<Step>, s: Step)
    requires PhasesMatch(r) && Enabled(r, s) && FlagsTell(r, steps)
    ensures FlagsTell(Apply(r, s), steps + [s])
  {
    SinceSnoc(steps, s);
    var recording := SinceStart(steps);
    CountSnoc(recording, s, GaveUp);
    CountSnoc(recording, s, Began);
    CountSnoc(recording, s, ToldToStop);
    FlagsOf(r, s);
    assert !Has([], GaveUp) && !Has([], Began) && !Has([], ToldToStop);
  }

  /** What one step does to the flags. */
  lemma FlagsOf(r: Ring, s: Step)
    requires PhasesMatch(r) && Enabled(r, s)
    ensures var next := Apply(r, s);
            && (next.startFailed <==> !s.Start? && (r.startFailed || IsOf(GaveUp, s)))
            && (next.stopping <==> !s.Start? && (r.stopping || IsOf(ToldToStop, s)))
            && (next.encoding <==> (r.encoding || IsOf(Began, s)) && !s.Join?)
            && next.mapped == (if s.Start? then s.mapped else r.mapped)
            && (next.phase in {Joined, Idle} <==> s.Join? || s.Clear? || (r.phase in {Joined, Idle} && !s.Start?))
  {
  }

  lemma FramesStep(r: Ring, steps: seq<Step>, s: Step)
    requires PhasesMatch(r) && Enabled(r, s) && FramesTell(r, steps)
    ensures FramesTell(Apply(r, s), steps + [s])
  {
    SinceSnoc(steps, s);
    FramesOf(r, s);
    TakenSnoc(SinceStart(steps), s);
  }

  lemma TakenSnoc(steps: seq<Step>, s: Step)
    ensures TakenIn(steps + [s])
         == if s.Take? && Arriving(steps).Some? then TakenIn(steps) + [Arriving(steps).value] else TakenIn(steps)
    ensures Arriving(steps + [s]) == if s.Arrive? then Some(s.frame) else Arriving(steps)
  {
    assert (steps + [s])[..|steps|] == steps;
  }

  /** What one step does to the frames. */
  lemma FramesOf(r: Ring, s: Step)
    requires PhasesMatch(r) && Enabled(r, s)
    ensures var next := Apply(r, s);
            && next.accepted
                 == (if s.Start? then [] else if s.Take? then r.accepted + [r.producer.frame] else r.accepted)
            && (s.Take? ==> r.producer.Arrived?)
            && (next.producer.Arrived? ==>
                  !s.Start? && if s.Arrive? then next.producer.frame == s.frame else next.producer == r.producer)
  {
  }

  ghost predicate Tells(r: Ring, size: nat, steps: seq<Step>) {
    CountsTell(r, steps) && FlagsTell(r, steps) && FramesTell(r, steps) && r.size == size && Inv(r)
  }

  lemma StepTells(r: Ring, size: nat, steps: seq<Step>, s: Step)
    requires Tells(r, size, steps) && Enabled(r, s)
    ensures Tells(Apply(r, s), size, steps + [s])
  {
    CountsStep(r, steps, s);
    FlagsStep(r, steps, s);
    FramesStep(r, steps, s);
    StepKeeps(r, s);
    SizeStays(r, s);
  }

  lemma SizeStays(r: Ring, s: Step)
    requires Enabled(r, s)
    ensures Apply(r, s).size == r.size
  {
  }

  lemma FreshTells(size: nat)
    ensures Tells(Fresh(size), size, [])
  {
    FreshHolds(size);
    assert SinceStart([]) == [];
  }

  /** Over every run, with any number of recordings in it: the counts count, the flags flag, and the accepted
      frames are those that were taken, as they arrived. */
  lemma {:induction false} FieldsTell(size: nat, steps: seq<Step>)
    requires Runs(Fresh(size), steps)
    ensures Tells(After(Fresh(size), steps), size, steps)
    decreases |steps|
  {
    if steps == [] {
      FreshTells(size);
    } else {
      var before, s := steps[..|steps| - 1], steps[|steps| - 1];
      assert steps == before + [s];
      RunsSnoc(Fresh(size), before, s);
      FieldsTell(size, before);
      StepTells(After(Fresh(size), before), size, before, s);
    }
  }

  /** When the owner joins after a recording whose encoder began: what was captured was encoded, failed or
      dropped, and every frame that was taken has been read, in order. */
  lemma EverythingIsAccountedFor(size: nat, steps: seq<Step>)
    requires Runs(Fresh(size), steps) && Enabled(After(Fresh(size), steps), Join) && Has(SinceStart(steps), Began)
    ensures var recording := SinceStart(steps);
            && Count(recording, Captured)
                 == Count(recording, Encoded) + Count(recording, Failed) + Count(recording, Dropped)
            && After(Fresh(size), steps).submitted == Wholes(TakenIn(recording))
  {
    FieldsTell(size, steps);
    var r := After(Fresh(size), steps);
    NothingIsLeftBehind(r);
  }

  /** The first frame of a recording, at any state of any run: where its encoder starts, it is in the ring, or
      encoded where it stands; where it does not, no frame of the recording is. */
  lemma FirstFrameStartsTheEncoder(size: nat, steps: seq<Step>, frame: nat, starts: bool, encodes: bool)
    requires 0 < size && Runs(Fresh(size), steps) && Enabled(After(Fresh(size), steps), Arrive(frame))
    requires !Has(SinceStart(steps), Began) && !Has(SinceStart(steps), GaveUp)
    ensures var r := After(Fresh(size), steps);
            var next := Handled(Begun(Apply(r, Arrive(frame)), starts), encodes);
            && next.encoding == starts && next.startFailed == !starts
            && next.numDropped == 0 && next.numCaptured == 1
            && next.accepted == (if starts && r.mapped then [frame] else [])
            && next.filled == (if starts && r.mapped then [0] else [])
            && (starts && r.mapped ==> At(next.slots, 0) == Whole(frame) && next.count == 1 && next.encoder == Waiting)
            && next.numEncoded == (if starts && !r.mapped && encodes then 1 else 0)
            && next.numFailures == (if starts && !r.mapped && !encodes then 1 else 0)
  {
    FieldsTell(size, steps);
    var r := After(Fresh(size), steps);
    StepKeeps(r, Arrive(frame));
    FirstFrameIn(r, frame, starts, encodes);
  }

  lemma FirstFrameIn(r: Ring, frame: nat, starts: bool, encodes: bool)
    requires Inv(r) && 0 < r.size && Enabled(r, Arrive(frame)) && !r.encoding && !r.startFailed
    ensures var next := Handled(Begun(Apply(r, Arrive(frame)), starts), encodes);
            && next.encoding == starts && next.startFailed == !starts
            && next.numDropped == 0 && next.numCaptured == 1
            && next.accepted == (if starts && r.mapped then [frame] else [])
            && next.filled == (if starts && r.mapped then [0] else [])
            && (starts && r.mapped ==> At(next.slots, 0) == Whole(frame) && next.count == 1 && next.encoder == Waiting)
            && next.numEncoded == (if starts && !r.mapped && encodes then 1 else 0)
            && next.numFailures == (if starts && !r.mapped && !encodes then 1 else 0)
  {
    var arrived := Apply(r, Arrive(frame));
    assert r.accepted == [] && r.numDropped == r.numEncoded == r.numFailures == 0 && r.filled == [];
    StepKeeps(r, Arrive(frame));
    if starts && r.mapped {
      StartedIsTaken(arrived, frame);
    }
  }

  lemma StartedIsTaken(r: Ring, frame: nat)
    requires Inv(r) && r.producer == Arrived(frame) && !r.encoding && !r.startFailed && r.mapped && 0 < r.size
    ensures var begun := Begun(r, true);
            && begun.free == Range(r.size) && Enabled(begun, Take) && TakenFrom(begun, frame, Accept(begun))
            && begun.numCaptured == r.numCaptured && begun.numDropped == r.numDropped && begun.accepted == r.accepted
            && begun.numEncoded == r.numEncoded && begun.numFailures == r.numFailures
            && begun.encoding && !begun.startFailed && begun.encoder == Waiting
            && begun.filled == [] && begun.count == 0
  {
    var begun := Begun(r, true);
    assert r.free == [] && r.filled == [] && r.count == 0;
    assert begun.free == Range(r.size) && begun.free[0] == 0;
    AcceptTakes(begun, frame);
  }

  /** The frame is in the slot that was free first, behind those that are queued. */
  ghost predicate TakenFrom(r: Ring, frame: nat, next: Ring) {
    && r.free != [] && next.free == r.free[1..] && next.filled == r.filled + [r.free[0]]
    && (r.free[0] < |r.slots| ==> At(next.slots, r.free[0]) == Whole(frame))
    && next.count == r.count + 1 && next.accepted == r.accepted + [frame] && next.producer == Away
    && next.numCaptured == r.numCaptured && next.numDropped == r.numDropped && next.encoder == r.encoder
    && next.numEncoded == r.numEncoded && next.numFailures == r.numFailures
    && next.encoding == r.encoding && next.startFailed == r.startFailed
  }

  lemma AcceptTakes(r: Ring, frame: nat)
    requires Enabled(r, Take) && r.producer == Arrived(frame)
    ensures TakenFrom(r, frame, Accept(r))
  {
  }

  // ---- A stop, from the owner's side ---------------------------------------------------------------

  /** The owner's way through a recording: opened, closed, and -- where there is an encoder thread -- flagged and
      given its token; joined, cleared, and ready for the next. Each step can be taken as soon as the one before
      has been, but for the join, which waits for the thread's exit. */
  lemma OwnerGoesOn(r: Ring, mapped: bool)
    requires Inv(r)
    ensures r.phase == Idle ==> Enabled(r, Start(mapped))
    ensures r.phase == Open ==> (Enabled(r, CloseStream) <==> r.producer == Away)
    ensures r.phase == Closed && r.encoder == Absent ==> Enabled(r, Join)
    ensures r.phase == Closed && r.encoder != Absent ==> Enabled(r, SetStopping)
    ensures r.phase == Flagged ==> Enabled(r, ReleaseToken)
    ensures r.phase == Released ==> (Enabled(r, Join) <==> r.encoder == Exited)
    ensures r.phase == Joined ==> Enabled(r, Clear)
  {
  }

  lemma OwnerStepsOn(r: Ring, s: Step)
    requires Enabled(r, s)
    ensures var next := Apply(r, s);
            match s
            case Start(_) => next.phase == Open
            case CloseStream => next.phase == Closed
            case SetStopping => next.phase == Flagged && next.stopping
            case ReleaseToken => next.phase == Released && next.count == r.count + 1
            case Join => next.phase == Joined && next.encoder == Absent
            case Clear => next.phase == Idle
            case _ => next.phase == r.phase
  {
  }

  /** A slot that is being copied into holds no whole frame. */
  lemma CopyingTears(r: Ring)
    requires Inv(r) && Enabled(r, Take)
    ensures var next := Apply(r, Take);
            && next.producer.Copying? && next.producer.slot < |next.slots|
            && forall frame :: At(next.slots, next.producer.slot) != Whole(frame)
  {
    assert r.free[0] in multiset(r.free);
    assert r.free[0] in multiset(Range(|r.slots|));
  }
}
