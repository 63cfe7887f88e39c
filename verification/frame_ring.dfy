/** The ring between the capture thread and the encoder thread, from one recording to the next: two queues
    of slots, a counting semaphore and a stop flag. Every step is one atomic action of one thread. */
module FrameRing {
  /** What a slot's pixels are: nothing yet, a copy under way, or one whole frame. */
  datatype Content = Blank | Torn | Whole(frame: nat)

  /** The capture thread inside its frame callback. */
  datatype Producer =
    | Away
    | Arrived(frame: nat)
    | Copying(slot: nat, frame: nat)
    | Copied(slot: nat)
    | Queued

  datatype Encoder = Absent | Waiting | Woken | Holding(slot: nat) | Returning(slot: nat) | Exited

  /** The owner's thread: between recordings, with the stream open, and through the steps of a stop. */
  datatype Phase = Idle | Open | Closed | Flagged | Released | Joined

  datatype Ring = Ring(
    size: nat,
    phase: Phase,
    mapped: bool,
    encoding: bool,
    startFailed: bool,
    stopping: bool,
    free: seq<nat>,
    filled: seq<nat>,
    count: nat,
    slots: seq<Content>,
    producer: Producer,
    encoder: Encoder,
    numCaptured: nat,
    numEncoded: nat,
    numFailures: nat,
    numDropped: nat,
    accepted: seq<nat>,
    submitted: seq<Content>)

  datatype Step =
    | Start(mapped: bool)
    // The capture thread.
    | Arrive(frame: nat)
    | StartEncoder(started: bool)
    | Ignore
    | EncodeInline(submitted: bool)
    | Take
    | Drop
    | Copy
    | Enqueue
    | Release
    // The encoder thread.
    | Acquire
    | Dequeue
    | Submit(encoded: bool)
    | Return
    | Exit
    // The owner's thread, stopping.
    | CloseStream
    | SetStopping
    | ReleaseToken
    | Join
    | Clear

  function Fresh(size: nat): Ring {
    Ring(size, Idle, true, false, false, false, [], [], 0, [], Away, Absent, 0, 0, 0, 0, [], [])
  }

  function Range(n: nat): (r: seq<nat>)
    ensures |r| == n
    ensures forall i | 0 <= i < n :: r[i] == i
  {
    seq(n, i => i)
  }

  predicate Enabled(r: Ring, s: Step) {
    match s
    case Start(_) => r.phase == Idle
    case Arrive(_) => r.phase == Open && r.producer == Away
    case StartEncoder(_) => r.producer.Arrived? && !r.encoding && !r.startFailed
    case Ignore => r.producer.Arrived? && !r.encoding && r.startFailed
    case EncodeInline(_) => r.producer.Arrived? && r.encoding && !r.mapped
    case Take => r.producer.Arrived? && r.encoding && r.mapped && r.free != []
    case Drop => r.producer.Arrived? && r.encoding && r.mapped && r.free == []
    case Copy => r.producer.Copying?
    case Enqueue => r.producer.Copied?
    case Release => r.producer == Queued
    case Acquire => r.encoder == Waiting && r.count > 0
    case Dequeue => r.encoder == Woken && r.filled != []
    case Submit(_) => r.encoder.Holding?
    case Return => r.encoder.Returning?
    case Exit => r.encoder == Woken && r.filled == []
    case CloseStream => r.phase == Open && r.producer == Away
    case SetStopping => r.phase == Closed && r.encoder != Absent
    case ReleaseToken => r.phase == Flagged
    case Join => (r.phase == Released && r.encoder == Exited) || (r.phase == Closed && r.encoder == Absent)
    case Clear => r.phase == Joined
  }

  function Put(slots: seq<Content>, slot: nat, content: Content): seq<Content> {
    if slot < |slots| then slots[slot := content] else slots
  }

  function At(slots: seq<Content>, slot: nat): Content {
    if slot < |slots| then slots[slot] else Blank
  }

  function Apply(r: Ring, s: Step): Ring
    requires Enabled(r, s)
  {
    match s
    case Start(mapped) =>
      r.(phase := Open, mapped := mapped, stopping := false, startFailed := false, numCaptured := 0,
         numEncoded := 0, numFailures := 0, numDropped := 0, accepted := [], submitted := [])
    case Arrive(frame) =>
      r.(producer := Arrived(frame), numCaptured := r.numCaptured + 1)
    case StartEncoder(started) =>
      if !started then r.(startFailed := true)
      else if !r.mapped then r.(encoding := true)
      else r.(encoding := true, slots := seq(r.size, i => Blank), free := r.free + Range(r.size), encoder := Waiting)
    case Ignore =>
      r.(producer := Away)
    case EncodeInline(submitted) =>
      if submitted then r.(producer := Away, numEncoded := r.numEncoded + 1)
      else r.(producer := Away, numFailures := r.numFailures + 1)
    case Take =>
      r.(producer := Copying(r.free[0], r.producer.frame), free := r.free[1..],
         slots := Put(r.slots, r.free[0], Torn), accepted := r.accepted + [r.producer.frame])
    case Drop =>
      r.(producer := Away, numDropped := r.numDropped + 1)
    case Copy =>
      r.(producer := Copied(r.producer.slot), slots := Put(r.slots, r.producer.slot, Whole(r.producer.frame)))
    case Enqueue =>
      r.(producer := Queued, filled := r.filled + [r.producer.slot])
    case Release =>
      r.(producer := Away, count := r.count + 1)
    case Acquire =>
      r.(encoder := Woken, count := r.count - 1)
    case Dequeue =>
      r.(encoder := Holding(r.filled[0]), filled := r.filled[1..])
    case Submit(encoded) =>
      var read := r.(encoder := Returning(r.encoder.slot), submitted := r.submitted + [At(r.slots, r.encoder.slot)]);
      if encoded then read.(numEncoded := r.numEncoded + 1) else read.(numFailures := r.numFailures + 1)
    case Return =>
      r.(encoder := Waiting, free := r.free + [r.encoder.slot])
    case Exit =>
      if r.stopping then r.(encoder := Exited) else r.(encoder := Waiting)
    case CloseStream =>
      r.(phase := Closed)
    case SetStopping =>
      r.(phase := Flagged, stopping := true)
    case ReleaseToken =>
      r.(phase := Released, count := r.count + 1)
    case Join =>
      r.(phase := Joined, encoder := Absent, encoding := false)
    case Clear =>
      r.(phase := Idle, free := [], filled := [], slots := [])
  }

  // ---- The invariant -------------------------------------------------------------------------------

  function ProducerHand(r: Ring): seq<nat> {
    match r.producer
    case Copying(slot, _) => [slot]
    case Copied(slot) => [slot]
    case _ => []
  }

  function EncoderHand(r: Ring): seq<nat> {
    match r.encoder
    case Holding(slot) => [slot]
    case Returning(slot) => [slot]
    case _ => []
  }

  function Contents(slots: seq<Content>, queue: seq<nat>): (c: seq<Content>)
    ensures |c| == |queue|
  {
    seq(|queue|, i requires 0 <= i < |queue| => At(slots, queue[i]))
  }

  function Wholes(frames: seq<nat>): (c: seq<Content>)
    ensures |c| == |frames|
  {
    seq(|frames|, i requires 0 <= i < |frames| => Whole(frames[i]))
  }

  /** The frames on their way, oldest first: read by the encoder, in its hand, queued, and being copied. */
  function Pipeline(r: Ring): seq<Content> {
    r.submitted
    + (if r.encoder.Holding? then [At(r.slots, r.encoder.slot)] else [])
    + Contents(r.slots, r.filled)
    + (match r.producer
       case Copying(_, frame) => [Whole(frame)]
       case Copied(slot) => [At(r.slots, slot)]
       case _ => [])
  }

  /** Every slot has exactly one holder: the free queue, the filled queue, or one thread's hand. */
  ghost predicate Partitioned(r: Ring) {
    multiset(r.free) + multiset(r.filled) + multiset(ProducerHand(r)) + multiset(EncoderHand(r))
      == multiset(Range(|r.slots|))
  }

  function StopToken(r: Ring): nat {
    if r.phase == Released && r.encoder != Exited then 1 else 0
  }

  /** A token in the semaphore, or just taken from it, or about to be added, for every queued frame; and one
      more while a stop waits. */
  ghost predicate TokensMatch(r: Ring) {
    r.count + (if r.encoder == Woken then 1 else 0)
      == |r.filled| - (if r.producer == Queued then 1 else 0) + StopToken(r)
  }

  ghost predicate PhasesMatch(r: Ring) {
    && (r.phase != Open ==> r.producer == Away)
    && (r.phase in {Idle, Joined} ==> !r.encoding)
    && (r.encoder == Absent <==> !(r.encoding && r.mapped))
    && (r.encoder != Absent ==> |r.slots| == r.size)
    && (r.encoder == Absent && r.phase != Joined ==> r.slots == [] && r.free == [])
    && (r.encoder == Absent ==> r.filled == [])
    && (r.producer == Queued || ProducerHand(r) != [] ==> r.encoder != Absent)
    && (r.phase in {Flagged, Released} ==> r.encoder != Absent && r.stopping)
    && (r.stopping ==> r.phase !in {Open, Closed})
    && (r.encoder == Exited ==> r.phase == Released && r.filled == [])
    && (r.startFailed ==> !r.encoding)
  }

  /** Captured frames are encoded, failed, dropped, in the pipeline, or at the door. */
  ghost predicate CountsMatch(r: Ring) {
    && (r.mapped ==> r.numEncoded + r.numFailures == |r.submitted|)
    && (!r.mapped ==> r.accepted == [] && r.submitted == [] && r.numDropped == 0)
    && (r.encoding ==>
          r.numCaptured == (if r.producer.Arrived? then 1 else 0) + r.numDropped
                           + (if r.mapped then |r.accepted| else r.numEncoded + r.numFailures))
    && (!r.encoding && r.phase == Open ==>
          && r.accepted == [] && r.submitted == [] && r.numEncoded == r.numFailures == r.numDropped == 0
          && (!r.startFailed ==> r.numCaptured == (if r.producer.Arrived? then 1 else 0)))
  }

  /** Frames go through in the order they were accepted, and none is ever seen half copied. */
  ghost predicate InOrder(r: Ring) {
    Pipeline(r) == Wholes(r.accepted)
  }

  ghost predicate Numbers(r: Ring) {
    PhasesMatch(r) && TokensMatch(r) && CountsMatch(r)
  }

  ghost predicate Inv(r: Ring) {
    Numbers(r) && Partitioned(r) && InOrder(r)
  }

  // ---- Every step keeps it -------------------------------------------------------------------------

  lemma {:induction false} RangeCounts(n: nat, x: nat)
    ensures multiset(Range(n))[x] == if x < n then 1 else 0
  {
    if n > 0 {
      assert Range(n) == Range(n - 1) + [n - 1];
      RangeCounts(n - 1, x);
    }
  }

  lemma CountOf(s: seq<nat>, x: nat)
    ensures x in s <==> multiset(s)[x] > 0
  {
  }

  /** The holders of a slot exclude one another. */
  lemma OneHolder(r: Ring, slot: nat)
    requires Partitioned(r)
    ensures multiset(r.free)[slot] + multiset(r.filled)[slot] + multiset(ProducerHand(r))[slot]
            + multiset(EncoderHand(r))[slot] == if slot < |r.slots| then 1 else 0
    ensures slot in ProducerHand(r) ==> slot < |r.slots| && slot !in r.free + r.filled + EncoderHand(r)
    ensures slot in EncoderHand(r) ==> slot < |r.slots| && slot !in r.free + r.filled + ProducerHand(r)
    ensures slot in r.free ==> slot < |r.slots| && slot !in r.filled + ProducerHand(r) + EncoderHand(r)
    ensures slot in r.filled ==> slot < |r.slots| && slot !in r.free + ProducerHand(r) + EncoderHand(r)
  {
    RangeCounts(|r.slots|, slot);
    CountOf(r.free, slot);
    CountOf(r.filled, slot);
    CountOf(ProducerHand(r), slot);
    CountOf(EncoderHand(r), slot);
  }

  lemma ContentsElsewhere(slots: seq<Content>, queue: seq<nat>, slot: nat, content: Content)
    requires slot !in queue
    ensures Contents(Put(slots, slot, content), queue) == Contents(slots, queue)
  {
  }

  lemma WholesSnoc(frames: seq<nat>, frame: nat)
    ensures Wholes(frames + [frame]) == Wholes(frames) + [Whole(frame)]
  {
  }

  predicate AtTheDoor(s: Step) {
    s.Start? || s.Arrive? || s.Ignore? || s.EncodeInline? || s.Drop?
  }

  predicate InTheCallback(s: Step) {
    s.Copy? || s.Enqueue? || s.Release?
  }

  predicate OfTheEncoder(s: Step) {
    s.Acquire? || s.Dequeue? || s.Submit? || s.Return? || s.Exit?
  }

  predicate OfTheOwner(s: Step) {
    s.CloseStream? || s.SetStopping? || s.ReleaseToken? || s.Join? || s.Clear?
  }

  lemma DoorNumbers(r: Ring, s: Step)
    requires Numbers(r) && Enabled(r, s) && AtTheDoor(s)
    ensures Numbers(Apply(r, s))
  {
  }

  lemma StartEncoderNumbers(r: Ring, started: bool)
    requires Numbers(r) && Enabled(r, StartEncoder(started))
    ensures Numbers(Apply(r, StartEncoder(started)))
  {
  }

  lemma CallbackNumbers(r: Ring, s: Step)
    requires Numbers(r) && Enabled(r, s) && (InTheCallback(s) || s.Take?)
    ensures Numbers(Apply(r, s))
  {
  }

  lemma EncoderNumbers(r: Ring, s: Step)
    requires Numbers(r) && Enabled(r, s) && OfTheEncoder(s)
    ensures Numbers(Apply(r, s))
  {
  }

  lemma OwnerNumbers(r: Ring, s: Step)
    requires Numbers(r) && Enabled(r, s) && OfTheOwner(s)
    ensures Numbers(Apply(r, s))
  {
  }

  lemma FirstOfQueue(queue: seq<nat>)
    requires queue != []
    ensures multiset(queue) == multiset([queue[0]]) + multiset(queue[1..])
  {
    assert queue == [queue[0]] + queue[1..];
  }

  lemma TakenPlaces(r: Ring)
    requires Enabled(r, Take)
    ensures var next := Apply(r, Take);
            && ProducerHand(r) == [] && ProducerHand(next) == [r.free[0]]
            && next.free == r.free[1..] && next.filled == r.filled
            && EncoderHand(next) == EncoderHand(r) && |next.slots| == |r.slots|
  {
  }

  lemma TakePartition(r: Ring)
    requires Partitioned(r) && Enabled(r, Take)
    ensures Partitioned(Apply(r, Take))
  {
    FirstOfQueue(r.free);
    TakenPlaces(r);
  }

  lemma StartEncoderPartition(r: Ring, started: bool)
    requires PhasesMatch(r) && Partitioned(r) && Enabled(r, StartEncoder(started))
    ensures Partitioned(Apply(r, StartEncoder(started)))
  {
    assert r.free + Range(r.size) == Range(r.size);
  }

  lemma DequeuedPlaces(r: Ring)
    requires Enabled(r, Dequeue)
    ensures var next := Apply(r, Dequeue);
            && EncoderHand(r) == [] && EncoderHand(next) == [r.filled[0]]
            && next.filled == r.filled[1..] && next.free == r.free
            && ProducerHand(next) == ProducerHand(r) && next.slots == r.slots
  {
  }

  lemma DequeuePartition(r: Ring)
    requires Partitioned(r) && Enabled(r, Dequeue)
    ensures Partitioned(Apply(r, Dequeue))
  {
    FirstOfQueue(r.filled);
    DequeuedPlaces(r);
  }

  lemma HandsOver(free: seq<nat>, filled: seq<nat>, slot: nat, hand: seq<nat>)
    ensures multiset(free) + multiset(filled + [slot]) + multiset([]) + multiset(hand)
         == multiset(free) + multiset(filled) + multiset([slot]) + multiset(hand)
  {
  }

  lemma EnqueuePartition(r: Ring)
    requires Partitioned(r) && Enabled(r, Enqueue)
    ensures Partitioned(Apply(r, Enqueue))
  {
    HandsOver(r.free, r.filled, r.producer.slot, EncoderHand(r));
    EnqueuedPlaces(r);
  }

  lemma EnqueuedPlaces(r: Ring)
    requires Enabled(r, Enqueue)
    ensures var next := Apply(r, Enqueue);
            && ProducerHand(r) == [r.producer.slot] && ProducerHand(next) == []
            && next.filled == r.filled + [r.producer.slot] && next.free == r.free
            && EncoderHand(next) == EncoderHand(r) && next.slots == r.slots
  {
  }

  lemma ReturnedPlaces(r: Ring)
    requires Enabled(r, Return)
    ensures var next := Apply(r, Return);
            && EncoderHand(r) == [r.encoder.slot] && EncoderHand(next) == []
            && next.free == r.free + [r.encoder.slot] && next.filled == r.filled
            && ProducerHand(next) == ProducerHand(r) && next.slots == r.slots
  {
  }

  lemma ReturnPartition(r: Ring)
    requires Partitioned(r) && Enabled(r, Return)
    ensures Partitioned(Apply(r, Return))
  {
    ReturnedPlaces(r);
  }

  ghost predicate SamePlaces(r: Ring, next: Ring) {
    && next.free == r.free && next.filled == r.filled && |next.slots| == |r.slots|
    && ProducerHand(next) == ProducerHand(r) && EncoderHand(next) == EncoderHand(r)
  }

  predicate LeavesSlotsAlone(s: Step) {
    AtTheDoor(s) || s.Copy? || s.Release? || s.Acquire? || s.Submit? || s.Exit? || (OfTheOwner(s) && !s.Clear?)
  }

  lemma StaysInPlace(r: Ring, s: Step)
    requires Enabled(r, s) && LeavesSlotsAlone(s)
    ensures SamePlaces(r, Apply(r, s))
  {
    if AtTheDoor(s) {
      DoorStaysInPlace(r, s);
    } else if OfTheOwner(s) {
      OwnerStaysInPlace(r, s);
    }
  }

  lemma DoorStaysInPlace(r: Ring, s: Step)
    requires Enabled(r, s) && AtTheDoor(s)
    ensures SamePlaces(r, Apply(r, s))
  {
  }

  lemma OwnerStaysInPlace(r: Ring, s: Step)
    requires Enabled(r, s) && OfTheOwner(s) && !s.Clear?
    ensures SamePlaces(r, Apply(r, s))
  {
  }

  lemma StillPartition(r: Ring, next: Ring)
    requires Partitioned(r) && SamePlaces(r, next)
    ensures Partitioned(next)
  {
  }

  lemma ClearPartition(r: Ring)
    requires PhasesMatch(r) && Enabled(r, Clear)
    ensures Partitioned(Apply(r, Clear))
  {
    assert Range(0) == [];
  }

  lemma TakeOrder(r: Ring)
    requires Partitioned(r) && InOrder(r) && Enabled(r, Take)
    ensures InOrder(Apply(r, Take))
  {
    var slot := r.free[0];
    OneHolder(r, slot);
    ContentsElsewhere(r.slots, r.filled, slot, Torn);
    WholesSnoc(r.accepted, r.producer.frame);
    assert r.encoder.Holding? ==> r.encoder.slot in EncoderHand(r);
  }

  lemma CopyOrder(r: Ring)
    requires Partitioned(r) && InOrder(r) && Enabled(r, Copy)
    ensures InOrder(Apply(r, Copy))
  {
    var slot := r.producer.slot;
    CopyIsSeenByNoOther(r);
    var next := Apply(r, Copy);
    assert Contents(next.slots, next.filled) == Contents(r.slots, r.filled);
    assert At(next.slots, slot) == Whole(r.producer.frame);
  }

  /** The slot being copied into is not queued, and not in the encoder's hand. */
  lemma CopyIsSeenByNoOther(r: Ring)
    requires Partitioned(r) && Enabled(r, Copy)
    ensures r.producer.slot < |r.slots|
    ensures Contents(Apply(r, Copy).slots, r.filled) == Contents(r.slots, r.filled)
    ensures r.encoder.Holding? ==> r.encoder.slot != r.producer.slot
  {
    var slot := r.producer.slot;
    assert slot in ProducerHand(r);
    OneHolder(r, slot);
    ContentsElsewhere(r.slots, r.filled, slot, Whole(r.producer.frame));
    if r.encoder.Holding? {
      assert r.encoder.slot in EncoderHand(r);
    }
  }

  lemma EnqueueOrder(r: Ring)
    requires InOrder(r) && Enabled(r, Enqueue)
    ensures InOrder(Apply(r, Enqueue))
  {
    assert Contents(r.slots, r.filled + [r.producer.slot])
        == Contents(r.slots, r.filled) + [At(r.slots, r.producer.slot)];
  }

  lemma FirstContent(slots: seq<Content>, queue: seq<nat>)
    requires queue != []
    ensures Contents(slots, queue) == [At(slots, queue[0])] + Contents(slots, queue[1..])
  {
  }

  lemma MovesUp(read: seq<Content>, first: Content, queued: seq<Content>, last: seq<Content>)
    ensures read + [] + ([first] + queued) + last == read + [first] + queued + last
  {
  }

  lemma DequeueOrder(r: Ring)
    requires InOrder(r) && Enabled(r, Dequeue)
    ensures InOrder(Apply(r, Dequeue))
  {
    FirstContent(r.slots, r.filled);
    var next := Apply(r, Dequeue);
    var last := match r.producer
                case Copying(_, frame) => [Whole(frame)]
                case Copied(slot) => [At(r.slots, slot)]
                case _ => [];
    MovesUp(r.submitted, At(r.slots, r.filled[0]), Contents(r.slots, next.filled), last);
  }

  lemma ResetOrder(r: Ring, s: Step)
    requires PhasesMatch(r) && CountsMatch(r) && InOrder(r) && Enabled(r, s)
    requires s.Start? || s.StartEncoder? || s.Join? || s.Clear?
    ensures InOrder(Apply(r, s))
  {
  }

  lemma EasyOrder(r: Ring, s: Step)
    requires PhasesMatch(r) && InOrder(r) && Enabled(r, s)
    requires (AtTheDoor(s) && !s.Start?) || s.Release? || (OfTheEncoder(s) && !s.Dequeue?)
             || (OfTheOwner(s) && !s.Join? && !s.Clear?)
    ensures InOrder(Apply(r, s))
  {
  }

  lemma StepNumbers(r: Ring, s: Step)
    requires Numbers(r) && Enabled(r, s)
    ensures Numbers(Apply(r, s))
  {
    if AtTheDoor(s) {
      DoorNumbers(r, s);
    } else if s.StartEncoder? {
      StartEncoderNumbers(r, s.started);
    } else if OfTheEncoder(s) {
      EncoderNumbers(r, s);
    } else if OfTheOwner(s) {
      OwnerNumbers(r, s);
    } else {
      CallbackNumbers(r, s);
    }
  }

  lemma StepPartition(r: Ring, s: Step)
    requires PhasesMatch(r) && Partitioned(r) && Enabled(r, s)
    ensures Partitioned(Apply(r, s))
  {
    match s
    case StartEncoder(started) => StartEncoderPartition(r, started);
    case Take => TakePartition(r);
    case Dequeue => DequeuePartition(r);
    case Enqueue => EnqueuePartition(r);
    case Return => ReturnPartition(r);
    case Clear => ClearPartition(r);
    case _ => StaysInPlace(r, s); StillPartition(r, Apply(r, s));
  }

  lemma QueueOrder(r: Ring, s: Step)
    requires Partitioned(r) && InOrder(r) && Enabled(r, s) && (s.Take? || s.Copy? || s.Enqueue? || s.Dequeue?)
    ensures InOrder(Apply(r, s))
  {
    match s
    case Take => TakeOrder(r);
    case Copy => CopyOrder(r);
    case Enqueue => EnqueueOrder(r);
    case Dequeue => DequeueOrder(r);
  }

  lemma StepOrder(r: Ring, s: Step)
    requires PhasesMatch(r) && CountsMatch(r) && Partitioned(r) && InOrder(r) && Enabled(r, s)
    ensures InOrder(Apply(r, s))
  {
    if s.Take? || s.Copy? || s.Enqueue? || s.Dequeue? {
      QueueOrder(r, s);
    } else if s.Start? || s.StartEncoder? || s.Join? || s.Clear? {
      ResetOrder(r, s);
    } else {
      EasyOrder(r, s);
    }
  }

  lemma StepKeeps(r: Ring, s: Step)
    requires Inv(r) && Enabled(r, s)
    ensures Inv(Apply(r, s))
  {
    StepNumbers(r, s);
    StepPartition(r, s);
    StepOrder(r, s);
  }

  // ---- Runs ----------------------------------------------------------------------------------------

  /** A run lists the steps the threads took, in the order they took effect. */
  ghost predicate Runs(r: Ring, steps: seq<Step>)
    decreases |steps|
  {
    steps == [] || (Enabled(r, steps[0]) && Runs(Apply(r, steps[0]), steps[1..]))
  }

  ghost function After(r: Ring, steps: seq<Step>): Ring
    requires Runs(r, steps)
    decreases |steps|
  {
    if steps == [] then r else After(Apply(r, steps[0]), steps[1..])
  }

  lemma {:induction false} RunKeeps(r: Ring, steps: seq<Step>)
    requires Inv(r) && Runs(r, steps)
    ensures Inv(After(r, steps))
    decreases |steps|
  {
    if steps != [] {
      StepKeeps(r, steps[0]);
      RunKeeps(Apply(r, steps[0]), steps[1..]);
    }
  }

  lemma FreshHolds(size: nat)
    ensures Inv(Fresh(size))
  {
    assert Range(0) == [];
  }

  /** Everywhere in every run, over any number of recordings: each slot has one holder, so the copy in and
      the encode never share one; the encoder has only ever read whole frames, in the order they were
      accepted; and a waiting encoder never misses a queued frame. */
  lemma RingIsSafe(size: nat, steps: seq<Step>)
    requires Runs(Fresh(size), steps)
    ensures var r := After(Fresh(size), steps);
            && Partitioned(r)
            && (forall slot | slot in ProducerHand(r) :: slot !in r.free + r.filled + EncoderHand(r))
            && |r.submitted| <= |r.accepted|
            && (forall k | 0 <= k < |r.submitted| :: r.submitted[k] == Whole(r.accepted[k]))
            && (r.encoder == Waiting && r.producer != Queued && r.filled != [] ==> r.count > 0)
  {
    FreshHolds(size);
    RunKeeps(Fresh(size), steps);
    var r := After(Fresh(size), steps);
    forall slot | slot in ProducerHand(r) ensures slot !in r.free + r.filled + EncoderHand(r) {
      OneHolder(r, slot);
    }
    ReadInOrder(r);
  }

  lemma ReadInOrder(r: Ring)
    requires Inv(r)
    ensures |r.submitted| <= |r.accepted|
    ensures forall k | 0 <= k < |r.submitted| :: r.submitted[k] == Whole(r.accepted[k])
  {
    forall k | 0 <= k < |r.submitted| ensures k < |r.accepted| && r.submitted[k] == Whole(r.accepted[k]) {
      assert r.submitted[k] == Pipeline(r)[k] == Wholes(r.accepted)[k];
    }
    assert |Pipeline(r)| == |r.accepted|;
  }

  /** A frame is dropped only when the ring is full: every slot is queued or in the encoder's hand. */
  lemma DropsOnlyWhenFull(r: Ring)
    requires Inv(r) && Enabled(r, Drop)
    ensures |r.filled| + |EncoderHand(r)| == r.size
  {
    assert |multiset(r.filled)| + |multiset(EncoderHand(r))| == |multiset(Range(|r.slots|))| by {
      assert ProducerHand(r) == [];
      assert multiset(r.filled) + multiset(EncoderHand(r)) == multiset(Range(|r.slots|));
    }
  }

  /** The capture thread's next step, which waits for nobody. */
  function ProducerStep(r: Ring, started: bool, encoded: bool): Step
    requires r.producer != Away
  {
    match r.producer
    case Arrived(_) =>
      if !r.encoding then (if r.startFailed then Ignore else StartEncoder(started))
      else if !r.mapped then EncodeInline(encoded)
      else if r.free != [] then Take
      else Drop
    case Copying(_, _) => Copy
    case Copied(_) => Enqueue
    case _ => Release
  }

  function ProducerRank(r: Ring): nat {
    match r.producer
    case Away => 0
    case Queued => 1
    case Copied(_) => 2
    case Copying(_, _) => 3
    case Arrived(_) => if r.encoding || r.startFailed then 4 else 5
  }

  /** The producer never blocks: inside its callback it always has a step, and is out after at most five. */
  lemma ProducerNeverBlocks(r: Ring, started: bool, encoded: bool)
    requires r.producer != Away
    ensures Enabled(r, ProducerStep(r, started, encoded))
    ensures ProducerRank(Apply(r, ProducerStep(r, started, encoded))) < ProducerRank(r) <= 5
  {
  }

  // ---- Stopping ------------------------------------------------------------------------------------

  /** What is left for the encoder thread to do once the stop token is out. */
  function Rank(r: Ring): nat {
    match r.encoder
    case Absent => 0
    case Exited => 0
    case Woken => 4 * |r.filled| + 1
    case Waiting => 4 * |r.filled| + 2
    case Returning(_) => 4 * |r.filled| + 3
    case Holding(_) => 4 * |r.filled| + 4
  }

  function EncoderStep(r: Ring, ok: bool): Step
    requires r.encoder != Absent && r.encoder != Exited
  {
    match r.encoder
    case Waiting => Acquire
    case Woken => if r.filled != [] then Dequeue else Exit
    case Holding(_) => Submit(ok)
    case _ => Return
  }

  lemma OnlyTheEncoderMoves(r: Ring, s: Step)
    requires PhasesMatch(r) && r.phase == Released && r.encoder != Exited && Enabled(r, s)
    ensures OfTheEncoder(s)
  {
  }

  lemma EncoderStepCounts(r: Ring, s: Step)
    requires Numbers(r) && r.phase == Released && r.encoder != Exited && Enabled(r, s) && OfTheEncoder(s)
    ensures var next := Apply(r, s);
            Rank(next) < Rank(r) && next.phase == Released && next.accepted == r.accepted && next.slots == r.slots
  {
  }

  /** Once the token is out only the encoder moves: it always can, and each step brings it nearer. */
  lemma StopMakesProgress(r: Ring, ok: bool)
    requires Inv(r) && r.phase == Released && r.encoder != Exited
    ensures Enabled(r, EncoderStep(r, ok))
    ensures forall s | Enabled(r, s) ::
              && OfTheEncoder(s)
              && Rank(Apply(r, s)) < Rank(r)
              && Apply(r, s).phase == Released
              && Apply(r, s).accepted == r.accepted
              && Apply(r, s).slots == r.slots
  {
    forall s | Enabled(r, s)
      ensures
        && OfTheEncoder(s) && Rank(Apply(r, s)) < Rank(r) && Apply(r, s).phase == Released
        && Apply(r, s).accepted == r.accepted && Apply(r, s).slots == r.slots
    {
      OnlyTheEncoderMoves(r, s);
      EncoderStepCounts(r, s);
    }
  }

  lemma FilledFits(r: Ring)
    requires Inv(r)
    ensures |r.filled| <= |r.slots|
    ensures r.encoder.Holding? ==> |r.filled| < |r.slots|
  {
    assert |multiset(r.filled)| + |multiset(EncoderHand(r))| <= |multiset(Range(|r.slots|))| by {
      assert multiset(Range(|r.slots|))
          == (multiset(r.filled) + multiset(EncoderHand(r))) + (multiset(r.free) + multiset(ProducerHand(r)));
    }
  }

  lemma FirstThenRest(r: Ring, steps: seq<Step>, k: nat)
    requires steps != [] && Enabled(r, steps[0]) && k <= |steps| - 1 && Runs(Apply(r, steps[0]), steps[1..][..k])
    ensures Runs(r, steps[..k + 1])
    ensures After(r, steps[..k + 1]) == After(Apply(r, steps[0]), steps[1..][..k])
  {
    assert steps[..k + 1][0] == steps[0] && steps[..k + 1][1..] == steps[1..][..k];
  }

  lemma RankFits(r: Ring)
    requires Inv(r)
    ensures r.encoder != Absent ==> Rank(r) <= 4 * r.size + 3
    ensures r.encoder == Absent ==> Rank(r) == 0
  {
    FilledFits(r);
  }

  /** However the steps interleave, the encoder thread is gone within four steps a slot and three more. */
  lemma {:induction false} EncoderExits(r: Ring, steps: seq<Step>) returns (k: nat)
    requires Inv(r) && r.phase == Released && Runs(r, steps)
    requires |steps| >= Rank(r)
    ensures Rank(r) <= 4 * r.size + 3
    ensures k <= |steps| && Runs(r, steps[..k]) && After(r, steps[..k]).encoder == Exited
    decreases |steps|
  {
    RankFits(r);
    if r.encoder == Exited {
      k := 0;
    } else {
      StopMakesProgress(r, true);
      StepKeeps(r, steps[0]);
      var i := EncoderExits(Apply(r, steps[0]), steps[1..]);
      FirstThenRest(r, steps, i);
      k := i + 1;
    }
  }

  /** When the owner joins, every accepted frame has been read, nothing is queued, the semaphore is at zero,
      and -- if the encoder ever started -- every captured frame is accounted for. */
  lemma NothingIsLeftBehind(r: Ring)
    requires Inv(r) && Enabled(r, Join)
    ensures r.submitted == Wholes(r.accepted) && r.filled == [] && r.count == 0
    ensures r.encoding ==> r.numCaptured == r.numEncoded + r.numFailures + r.numDropped
  {
    PipelineIsRead(r);
    assert |r.submitted| == |r.accepted|;
  }

  lemma PipelineIsRead(r: Ring)
    requires PhasesMatch(r) && InOrder(r) && r.filled == [] && !r.encoder.Holding? && r.producer == Away
    ensures r.submitted == Wholes(r.accepted)
  {
    assert Contents(r.slots, r.filled) == [];
    assert Pipeline(r) == r.submitted;
  }

  lemma IdleIsEmpty(r: Ring)
    requires Inv(r) && r.phase == Idle
    ensures r.free == r.filled == [] && r.slots == [] && r.count == 0 && r.encoder == Absent
    ensures !r.encoding && r.producer == Away
  {
  }

  lemma EmptyStartsAfresh(r: Ring, mapped: bool)
    requires r.phase == Idle && r.free == r.filled == [] && r.slots == [] && r.count == 0 && r.encoder == Absent
    requires !r.encoding && r.producer == Away
    ensures Apply(r, Start(mapped)) == Apply(Fresh(r.size), Start(mapped))
  {
  }

  /** Between recordings the ring is as it was before the first: the next one starts in the same state. */
  lemma NextRecordingStartsAfresh(size: nat, steps: seq<Step>, mapped: bool)
    requires Runs(Fresh(size), steps) && After(Fresh(size), steps).phase == Idle
    ensures var r := After(Fresh(size), steps);
            && r.free == r.filled == [] && r.slots == [] && r.count == 0 && r.encoder == Absent
            && Apply(r, Start(mapped)) == Apply(Fresh(size), Start(mapped))
  {
    FreshHolds(size);
    RunKeeps(Fresh(size), steps);
    SizeIsFixed(Fresh(size), steps);
    IdleIsEmpty(After(Fresh(size), steps));
    EmptyStartsAfresh(After(Fresh(size), steps), mapped);
  }

  lemma {:induction false} SizeIsFixed(r: Ring, steps: seq<Step>)
    requires Runs(r, steps)
    ensures After(r, steps).size == r.size
    decreases |steps|
  {
    if steps != [] {
      SizeIsFixed(Apply(r, steps[0]), steps[1..]);
    }
  }
}
