/** The session's frame callback, encoder thread and stop as they run: each call of a queue, the semaphore or
    an atomic is one action on the shared fields, and the functions are sequences of them. */
module RingSession {
  import opened FrameRing

  /** Between recordings: as it was before the first. */
  ghost predicate AtRest(r: Ring) {
    && r.phase == Idle
    && r.free == r.filled == [] && r.slots == [] && r.count == 0 && r.encoder == Absent && !r.encoding
  }

  lemma FlagAndRelease(r: Ring)
    requires Inv(r) && Enabled(r, SetStopping)
    ensures Inv(Apply(Apply(r, SetStopping), ReleaseToken))
  {
    StepKeeps(r, SetStopping);
    StepKeeps(Apply(r, SetStopping), ReleaseToken);
  }

  lemma JoinAndClear(r: Ring)
    requires Inv(r) && Enabled(r, Join)
    ensures Inv(Apply(Apply(r, Join), Clear))
  {
    StepKeeps(r, Join);
    StepKeeps(Apply(r, Join), Clear);
  }

  lemma ClearedIsAtRest(r: Ring)
    requires Inv(r) && Enabled(r, Join)
    ensures var next := Apply(Apply(r, Join), Clear);
            && AtRest(next) && next.submitted == Wholes(next.accepted)
            && (r.encoding ==> next.numCaptured == next.numEncoded + next.numFailures + next.numDropped)
  {
    NothingIsLeftBehind(r);
  }

  // ---- What one frame does -------------------------------------------------------------------------

  function Begun(r: Ring, starts: bool): Ring
    requires r.producer.Arrived?
  {
    if !r.encoding && !r.startFailed then Apply(r, StartEncoder(starts)) else r
  }

  function Accept(r: Ring): Ring
    requires Enabled(r, Take)
  {
    Apply(Apply(Apply(Apply(r, Take), Copy), Enqueue), Release)
  }

  function Handled(r: Ring, encodes: bool): Ring
    requires r.producer.Arrived? && (r.encoding || r.startFailed)
  {
    if !r.encoding then Apply(r, Ignore)
    else if !r.mapped then Apply(r, EncodeInline(encodes))
    else if r.free != [] then Accept(r)
    else Apply(r, Drop)
  }

  lemma AcceptKeeps(r: Ring)
    requires Inv(r) && Enabled(r, Take)
    ensures Inv(Accept(r))
  {
    StepKeeps(r, Take);
    StepKeeps(Apply(r, Take), Copy);
    StepKeeps(Apply(Apply(r, Take), Copy), Enqueue);
    StepKeeps(Apply(Apply(Apply(r, Take), Copy), Enqueue), Release);
  }

  lemma BegunKeeps(r: Ring, frame: nat, starts: bool)
    requires Inv(r) && Enabled(r, Arrive(frame))
    ensures Inv(Begun(Apply(r, Arrive(frame)), starts))
  {
    var arrived := Apply(r, Arrive(frame));
    StepKeeps(r, Arrive(frame));
    if !arrived.encoding && !arrived.startFailed {
      StepKeeps(arrived, StartEncoder(starts));
    }
  }

  /** A frame that nobody interrupts keeps the ring whole. */
  lemma FrameKeeps(r: Ring, frame: nat, starts: bool, encodes: bool)
    requires Inv(r) && Enabled(r, Arrive(frame))
    ensures Inv(Handled(Begun(Apply(r, Arrive(frame)), starts), encodes))
  {
    BegunKeeps(r, frame, starts);
    HandlingKeeps(Begun(Apply(r, Arrive(frame)), starts), encodes);
  }

  /** It is accepted exactly when the encoder runs on copies and a slot is free, dropped exactly when none
      is, and otherwise encoded where it stands, or let go where there is no encoder. */
  lemma FrameIsHandled(r: Ring, frame: nat, starts: bool, encodes: bool)
    requires Enabled(r, Arrive(frame))
    ensures var begun := Begun(Apply(r, Arrive(frame)), starts);
            var next := Handled(begun, encodes);
            && next.producer == Away && next.numCaptured == r.numCaptured + 1
            && next.accepted == (if begun.encoding && r.mapped && begun.free != [] then r.accepted + [frame]
                                 else r.accepted)
            && next.numDropped == r.numDropped + (if begun.encoding && r.mapped && begun.free == [] then 1 else 0)
            && next.numEncoded + next.numFailures
                 == r.numEncoded + r.numFailures + (if begun.encoding && !r.mapped then 1 else 0)
  {
    var begun := Begun(Apply(r, Arrive(frame)), starts);
    if begun.encoding && begun.mapped && begun.free != [] {
      AcceptIs(begun);
    }
  }

  lemma AcceptIs(r: Ring)
    requires Enabled(r, Take) && r.producer.Arrived?
    ensures var next := Accept(r);
            && next.producer == Away && next.accepted == r.accepted + [r.producer.frame]
            && next.numCaptured == r.numCaptured && next.numDropped == r.numDropped
            && next.numEncoded == r.numEncoded && next.numFailures == r.numFailures
  {
  }

  lemma HandlingKeeps(r: Ring, encodes: bool)
    requires Inv(r) && r.producer.Arrived? && (r.encoding || r.startFailed)
    ensures Inv(Handled(r, encodes))
  {
    if !r.encoding {
      StepKeeps(r, Ignore);
    } else if !r.mapped {
      StepKeeps(r, EncodeInline(encodes));
    } else if r.free != [] {
      AcceptKeeps(r);
    } else {
      StepKeeps(r, Drop);
    }
  }

  class Session {
    const size: nat
    var phase: Phase
    var mapped: bool
    var encoding: bool
    var startFailed: bool
    var stopping: bool
    var free: seq<nat>
    var filled: seq<nat>
    var filledCount: nat
    var slots: seq<Content>
    var producer: Producer
    var encoder: Encoder
    var numCaptured: nat
    var numEncoded: nat
    var numFailures: nat
    var numDropped: nat
    var accepted: seq<nat>
    var submitted: seq<Content>

    ghost function Now(): Ring
      reads this
    {
      Ring(size, phase, mapped, encoding, startFailed, stopping, free, filled, filledCount, slots, producer, encoder,
           numCaptured, numEncoded, numFailures, numDropped, accepted, submitted)
    }

    constructor (size: nat)
      ensures Now() == Fresh(size)
    {
      this.size, phase, mapped, encoding, startFailed, stopping := size, Idle, true, false, false, false;
      free, filled, filledCount, slots, producer, encoder := [], [], 0, [], Away, Absent;
      numCaptured, numEncoded, numFailures, numDropped, accepted, submitted := 0, 0, 0, 0, [], [];
    }

    // ---- The frame callback ------------------------------------------------------------------------

    method NoteFrame(frame: nat)
      requires Enabled(Now(), Arrive(frame))
      modifies `producer, `numCaptured
      ensures Now() == Apply(old(Now()), Arrive(frame))
    {
      producer := Arrived(frame);
      numCaptured := numCaptured + 1;
    }

    method TryStart(started: bool)
      requires Enabled(Now(), StartEncoder(started))
      modifies `encoding, `startFailed, `slots, `free, `encoder
      ensures Now() == Apply(old(Now()), StartEncoder(started))
    {
      if started {
        if mapped {
          slots := seq(size, i => Blank);
          free := free + Range(size);
          encoder := Waiting;
        }
        encoding := true;
      } else {
        startFailed := true;
      }
    }

    method TakeSlot()
      requires Enabled(Now(), Take)
      modifies `producer, `free, `slots, `accepted
      ensures Now() == Apply(old(Now()), Take)
    {
      var slot := free[0];
      free := free[1..];
      accepted := accepted + [producer.frame];
      slots := Put(slots, slot, Torn);
      producer := Copying(slot, producer.frame);
    }

    method CopyFrame()
      requires Enabled(Now(), Copy)
      modifies `producer, `slots
      ensures Now() == Apply(old(Now()), Copy)
    {
      slots := Put(slots, producer.slot, Whole(producer.frame));
      producer := Copied(producer.slot);
    }

    method QueueSlot()
      requires Enabled(Now(), Enqueue)
      modifies `producer, `filled
      ensures Now() == Apply(old(Now()), Enqueue)
    {
      filled := filled + [producer.slot];
      producer := Queued;
    }

    method AddToken()
      requires Enabled(Now(), Release)
      modifies `producer, `filledCount
      ensures Now() == Apply(old(Now()), Release)
    {
      filledCount := filledCount + 1;
      producer := Away;
    }

    method SubmitInline(encoded: bool)
      requires Enabled(Now(), EncodeInline(encoded))
      modifies `producer, `numEncoded, `numFailures
      ensures Now() == Apply(old(Now()), EncodeInline(encoded))
    {
      if encoded {
        numEncoded := numEncoded + 1;
      } else {
        numFailures := numFailures + 1;
      }
      producer := Away;
    }

    method DropFrame()
      requires Enabled(Now(), Drop)
      modifies `producer, `numDropped
      ensures Now() == Apply(old(Now()), Drop)
    {
      numDropped := numDropped + 1;
      producer := Away;
    }

    method Leave()
      requires Enabled(Now(), Ignore)
      modifies `producer
      ensures Now() == Apply(old(Now()), Ignore)
    {
      producer := Away;
    }

    // ---- The encoder thread ------------------------------------------------------------------------

    method AcquireToken()
      requires Enabled(Now(), Acquire)
      modifies `encoder, `filledCount
      ensures Now() == Apply(old(Now()), Acquire)
    {
      filledCount := filledCount - 1;
      encoder := Woken;
    }

    method TakeFilled()
      requires Enabled(Now(), Dequeue)
      modifies `encoder, `filled
      ensures Now() == Apply(old(Now()), Dequeue)
    {
      encoder := Holding(filled[0]);
      filled := filled[1..];
    }

    method SubmitSlot(encoded: bool)
      requires Enabled(Now(), Submit(encoded))
      modifies `encoder, `submitted, `numEncoded, `numFailures
      ensures Now() == Apply(old(Now()), Submit(encoded))
    {
      submitted := submitted + [At(slots, encoder.slot)];
      if encoded {
        numEncoded := numEncoded + 1;
      } else {
        numFailures := numFailures + 1;
      }
      encoder := Returning(encoder.slot);
    }

    method FreeSlot()
      requires Enabled(Now(), Return)
      modifies `encoder, `free
      ensures Now() == Apply(old(Now()), Return)
    {
      free := free + [encoder.slot];
      encoder := Waiting;
    }

    method CheckStop()
      requires Enabled(Now(), Exit)
      modifies `encoder
      ensures Now() == Apply(old(Now()), Exit)
    {
      encoder := if stopping then Exited else Waiting;
    }

    /** What is left of the encoder thread's loop once the stop token is out: it runs to its end, having read
        every frame that was accepted. `encodes` says how each submission goes. */
    method RunOut(encodes: nat -> bool)
      requires Inv(Now()) && phase == Released
      modifies `encoder, `filled, `filledCount, `free, `submitted, `numEncoded, `numFailures
      ensures Inv(Now()) && encoder == Exited
      ensures submitted == Wholes(accepted) && filled == [] && filledCount == 0
      ensures numEncoded + numFailures == |accepted|
    {
      while encoder != Exited
        invariant Inv(Now()) && phase == Released
        decreases Rank(Now())
      {
        ghost var step := EncoderStep(Now(), encodes(|submitted|));
        StopMakesProgress(Now(), encodes(|submitted|));
        StepKeeps(Now(), step);
        match encoder {
          case Waiting => AcquireToken();
          case Woken =>
            if filled != [] {
              TakeFilled();
            } else {
              CheckStop();
            }
          case Holding(_) => SubmitSlot(encodes(|submitted|));
          case Returning(_) => FreeSlot();
          case _ =>
        }
      }
      NothingIsLeftBehind(Now());
    }

    // ---- The owner, stopping -----------------------------------------------------------------------

    method CloseProducers()
      requires Enabled(Now(), CloseStream)
      modifies `phase
      ensures Now() == Apply(old(Now()), CloseStream)
    {
      phase := Closed;
    }

    method RaiseFlag()
      requires Enabled(Now(), SetStopping)
      modifies `phase, `stopping
      ensures Now() == Apply(old(Now()), SetStopping)
    {
      stopping := true;
      phase := Flagged;
    }

    method AddStopToken()
      requires Enabled(Now(), ReleaseToken)
      modifies `phase, `filledCount
      ensures Now() == Apply(old(Now()), ReleaseToken)
    {
      filledCount := filledCount + 1;
      phase := Released;
    }

    method JoinEncoder()
      requires Enabled(Now(), Join)
      modifies `phase, `encoder, `encoding
      ensures Now() == Apply(old(Now()), Join)
    {
      encoder := Absent;
      encoding := false;
      phase := Joined;
    }

    method EmptyQueues()
      requires Enabled(Now(), Clear)
      modifies `phase, `free, `filled, `slots
      ensures Now() == Apply(old(Now()), Clear)
    {
      while filled != [] || free != []
        decreases |filled| + |free|
      {
        if filled != [] {
          filled := filled[1..];
        } else {
          free := free[1..];
        }
      }
      slots := [];
      phase := Idle;
    }

    method SignalStop()
      requires Inv(Now()) && Enabled(Now(), SetStopping)
      modifies `phase, `stopping, `filledCount
      ensures Inv(Now()) && phase == Released
    {
      FlagAndRelease(Now());
      RaiseFlag();
      AddStopToken();
    }

    /** Flags the stop, and lets the encoder thread run out. */
    method LetEncoderFinish(encodes: nat -> bool)
      requires Inv(Now()) && Enabled(Now(), SetStopping)
      modifies `phase, `stopping, `encoder, `filled, `filledCount, `free, `submitted, `numEncoded, `numFailures
      ensures Inv(Now()) && Enabled(Now(), Join) && encoding
    {
      SignalStop();
      RunOut(encodes);
    }

    method CloseStreams()
      requires Inv(Now()) && Enabled(Now(), CloseStream)
      modifies `phase
      ensures Inv(Now()) && phase == Closed
    {
      StepKeeps(Now(), CloseStream);
      CloseProducers();
    }

    method WindDown(encodes: nat -> bool)
      requires Inv(Now()) && phase == Closed
      modifies `phase, `stopping, `encoder, `filled, `filledCount, `free, `submitted, `numEncoded, `numFailures
      ensures Inv(Now()) && Enabled(Now(), Join)
    {
      if encoder != Absent {
        LetEncoderFinish(encodes);
      }
    }

    method JoinAndEmpty()
      requires Inv(Now()) && Enabled(Now(), Join)
      modifies `phase, `encoder, `encoding, `filled, `free, `slots
      ensures Inv(Now()) && AtRest(Now())
      ensures submitted == Wholes(accepted)
      ensures old(encoding) ==> numCaptured == numEncoded + numFailures + numDropped
    {
      JoinAndClear(Now());
      ClearedIsAtRest(Now());
      JoinThenEmpty();
    }

    method JoinThenEmpty()
      requires Enabled(Now(), Join)
      modifies `phase, `encoder, `encoding, `filled, `free, `slots
      ensures Enabled(Apply(old(Now()), Join), Clear) && Now() == Apply(Apply(old(Now()), Join), Clear)
    {
      JoinEncoder();
      EmptyQueues();
    }

    /** Leaves the ring as it was before the first recording, with every accepted frame read and -- if the
        encoder ever started -- every captured one accounted for. */
    method Stop(encodes: nat -> bool)
      requires Inv(Now()) && Enabled(Now(), CloseStream)
      modifies `phase, `stopping, `encoder, `encoding, `filled, `filledCount, `free, `slots, `submitted, `numEncoded,
               `numFailures
      ensures Inv(Now()) && AtRest(Now())
      ensures submitted == Wholes(accepted)
      ensures old(encoding) ==> numCaptured == numEncoded + numFailures + numDropped
    {
      CloseStreams();
      WindDown(encodes);
      JoinAndEmpty();
    }

    // ---- One frame ---------------------------------------------------------------------------------

    method QueueFrame()
      requires Enabled(Now(), Take)
      modifies `producer, `free, `filled, `slots, `accepted, `filledCount
      ensures Now() == Accept(old(Now()))
    {
      TakeSlot();
      CopyFrame();
      QueueSlot();
      AddToken();
    }

    method StartOnce(starts: bool)
      requires producer.Arrived?
      modifies `encoding, `startFailed, `slots, `free, `encoder
      ensures Now() == Begun(old(Now()), starts)
    {
      if !encoding && !startFailed {
        TryStart(starts);
      }
    }

    method HandleFrame(encodes: bool)
      requires producer.Arrived? && (encoding || startFailed)
      modifies `producer, `free, `filled, `slots, `accepted, `filledCount, `numEncoded, `numFailures, `numDropped
      ensures Now() == Handled(old(Now()), encodes)
    {
      if !encoding {
        Leave();
      } else if !mapped {
        SubmitInline(encodes);
      } else if free != [] {
        QueueFrame();
      } else {
        DropFrame();
      }
    }

    /** `starts` says whether the encoder starts, where it has not yet, and `encodes` whether a frame that is
        not copied is encoded. */
    method OnFrame(frame: nat, starts: bool, encodes: bool)
      requires Enabled(Now(), Arrive(frame))
      modifies `producer, `encoding, `startFailed, `encoder, `free, `filled, `slots, `accepted, `filledCount,
               `numCaptured, `numEncoded, `numFailures, `numDropped
      ensures Now() == Handled(Begun(Apply(old(Now()), Arrive(frame)), starts), encodes)
    {
      NoteFrame(frame);
      StartOnce(starts);
      HandleFrame(encodes);
    }
  }
}
