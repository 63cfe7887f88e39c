# Klip, modelled and proved

Klip records a screen, a window or a region, with sound, through the desktop portal, PipeWire and VAAPI. This
project models the parts of it that carry hard state and arithmetic of their own, and proves what they promise:

- **The encoder's sound** (`audio_*.dfy`). `AudioClock` places a buffer on the time line with the encoder's own
  64-bit arithmetic; `AudioMix` is the encoder's sound on values; `AudioTracks` defines what a recording should
  hold -- one track per source, mixed sample by sample -- and proves that the chunked mix is that; `AudioResults`
  and `AudioSamples` draw the conclusions over every run, down to the single sample; `AudioEncoder` is the encoder
  as it runs, with its queues and frames changed in place.
- **The encoder's pictures** (`video_timeline.dfy`): time stamps that advance, and the one-packet delay line.
- **The frame ring** (`frame_ring.dfy`, `ring_*.dfy`): capture thread, encoder thread and stop as a step
  system of atomic actions, over any number of recordings, and the session's functions as sequences of those.
- **The start of a recording** (`portal_*.dfy`, `start_*.dfy`, `screenshot.dfy`): the portal exchange
  against an arbitrary environment; the whole of flow, recorder, session and portal with the queues between the
  threads, with what follows for sessions and tokens; the recorder and the flow as objects; and the handover of one
  screenshot file.
- **The settings file** (`json_tree.dfy`, `settings_*.dfy`, `store_*.dfy`, `files.dfy`, `files_writers.dfy`): the
  in-place update of an ordered JSON tree, its reader, the store that caches the file; its sessions over a disk
  that loses what it was not made to keep (`StoreDisk`, `StoreSessions`, `StoreOriginals`); and the replacement of a
  file under crashes and concurrent writers.
- **The file URI codec** (`file_uri.dfy`), after sections 2.1 and 2.3 of RFC 3986 and section 2 of RFC 8089.

Each part comes in two forms. Operations on values say what happens, and the theorems are about them; classes and
methods run as the source does, and their contracts tie the new state to those operations.

What the environment decides -- whether a call succeeds, what the portal, the codec, the muxer, the disk or the
user answers, what a clock says -- is a parameter of an operation or a part of a step, so a theorem over all runs
covers every behaviour of it.

Some promises do not hold of the code as it stands. The model follows the code; the condition under which each
holds is proved, with a run in which it does not:

- The flush of the sound expects a last frame no longer than a codec frame. That fails exactly when the codec
  fails during the last drain with more than a frame still to come (`FinishOverrunsExactlyWhen`).
- Video time stamps advance only once a frame has been counted (`AdvancesExactlyWhen`,
  `StampsCanRepeatBeforeThat`).
- A success of the portal that is not closed before the next Start leaves a subscription behind, and the end of
  the old session is then taken for the end of the new one (`SlotLostExactlyWhen`,
  `UnclosedSuccessEndsTheNextSession`).
- An answer that names the session with an empty string forgets the name of one that is still followed. From then
  on, until that one ends or another is named, it is live and cannot be closed (`StrandedExactlyWhen`,
  `StrandedOverRuns`, `EmptyNameStrandsTheSession`).
- The comment on `ToLocalPath` promises no NUL; an escaped one is refused, but one that stands in the URI as it is
  gets through (`RawNulIsRead`, `RewrittenUriReadsTheSame`). Its one caller (`src/capture/private/screenshot.cpp:143`)
  passes on a C string from D-Bus, which cannot hold one; so nothing Klip does today reaches that case.
- After a file that is no settings file was moved aside, and before anything is stored, the next start imports the
  old settings file instead of using the defaults this one used (`NextStartMayImport`); and a file written past
  one MiB is not read back (`CacheAgreesWithDisk`).
- A save reported as stored can still be undone by a power cut, since the directory is not flushed: what comes back
  is the settings file of any moment since the disk last settled (`CutBringsBack`). So a save that is cut off leaves
  the old file or the new one for sure only where none has been replaced or moved since then
  (`OldOrNewExactlyWhen`, `AnOlderSaveComesBack`).
- The comment on `KeepBackup` calls the copy the only place the replaced values survive the repairing save. It is not
  flushed, and the file that replaces the original is: between the first save that is stored and the disk's settling,
  a power cut can cost both (`OriginalSurvivesExactlyWhen`, `RepairCanLoseTheOriginal`). A file that is moved is not
  lost (`WhatIsMovedAsideIsKept`).
- The flag of a changed restore token is taken by a save whether or not it is stored. After one that is not, the old
  token stays in the file and nothing says so (`TokenIsInTheFile`, `FailedSaveForgetsTheChange`).

## Model

| member | source | states |
|---|---|---|
| AudioClock.PlaceIsExact | src/encode/private/encoder.cpp:916-943 | while the time line is in range no product wraps, no cast changes a value and the clamp does nothing: the placement is the exact one |
| AudioClock.TrimAtEpoch | src/encode/private/encoder.cpp:920-937 | a buffer is placed exactly when it ends after the epoch; it then keeps at least one sample, and all of them when it starts after the epoch |
| AudioClock.FillRounding | src/encode/private/encoder.cpp:939-949 | the two divisions in a row lose less than one sample period and one nanosecond |
| AudioClock.GapFillNeverOvershoots | src/encode/private/encoder.cpp:883-894 | after a gap is filled the drift left is not negative and is under one sample period and a nanosecond, and the product for the gap does not wrap |
| AudioClock.StoredAtMostThresholdEarly | src/encode/private/encoder.cpp:939-956 | every stored buffer starts at most 100 ms early against its time stamp, or one sample period where that is longer |
| AudioMix.DrainKeepsLevel | src/encode/private/encoder.cpp:1050-1071 | reading takes the same from every queue, so level queues stay level through a whole drain |
| AudioResults.DrainFrames | src/encode/private/encoder.cpp:1050-1071 | a drain adds whole codec frames, goes on until some source lacks one, and stops early only at a failure |
| AudioTracks.MixWindow | src/encode/private/encoder.cpp:985-1029 | mixing the heads of the queues is mixing the next window of the whole tracks |
| AudioTracks.EncodeRefines | src/encode/private/encoder.cpp:985-1047 | one mixed frame keeps the correspondence with the whole tracks, whatever the codec answers |
| AudioTracks.LevelFollows | src/encode/private/encoder.cpp:845-880 | levelling the queues is levelling the tracks they are the rest of |
| AudioTracks.SubmitRefines | src/encode/private/encoder.cpp:897-981 | one buffer extends the tracks as the reference says, and never changes what was in them |
| AudioTracks.RunRefines | src/encode/private/encoder.cpp:897-1071 | over every run: the samples tried on the codec are the first samples of the pointwise clamped mix of the whole tracks, each queue is the rest of its track, each time stamp is the number of samples the codec had taken |
| AudioResults.BacklogAfterSubmit | src/encode/private/encoder.cpp:974-976 | a buffer stored and encoded without a failure leaves a bounded backlog, however far the sources had come apart |
| AudioResults.BacklogIsBounded | src/encode/private/encoder.cpp:845-976 | with no failed encode, after every call some source holds less than a codec frame and every source less than a codec frame and one second |
| AudioResults.SourcesNeverSlip | src/encode/private/encoder.cpp:985-1047 | whatever fails, each source's samples are queued, taken by the codec, or went with a refused frame, and what left the queues is the same for all |
| AudioResults.FramesAreWindows | src/encode/private/encoder.cpp:1031-1047 | each frame is its own window of the mix, the windows follow one another, and while none is refused a frame's time stamp is where its window starts |
| AudioResults.FinishRefines | src/encode/private/encoder.cpp:1074-1094 | finishing reads on along the tracks padded to the longest |
| AudioResults.WholeMixIsWritten | src/encode/private/encoder.cpp:1074-1106 | with no failed encode the output is the whole mix of the padded tracks, as long as the longest track |
| AudioResults.FinishedRecording | src/encode/private/encoder.cpp:1074-1106 | a finished recording holds the whole mix and nothing else, every queue is empty, every frame but the last is full and the last is not longer |
| AudioResults.FrameSizeDoesNotMatter | src/encode/private/encoder.cpp:1050-1071 | two codecs with different frame sizes are given the same sound |
| AudioResults.FinishOverrunsExactlyWhen | src/encode/private/encoder.cpp:1082-1094 | the last frame is too long exactly when the codec's first failure in the last drain leaves more than one frame of what the longest queue held |
| AudioResults.FinishCanOverrun | src/encode/private/encoder.cpp:1086-1094 | a recording in which it is, whatever the frame size of the codec |
| AudioResults.MixIsLinearUntilItClips | src/encode/private/encoder.cpp:999-1029 | a mixed sample is in range, and is the gain-weighted sum while no partial sum leaves the range |
| AudioResults.BuffersStayAligned | src/encode/private/encoder.cpp:897-976 | a buffer lands on its track within the alignment bounds, nothing before it moves, and one before the epoch changes nothing |
| AudioSamples.PlacedExactly | src/encode/private/encoder.cpp:916-949 | while the time line is in range, how many samples are skipped before the epoch and how much silence fills the hole, in plain arithmetic |
| AudioSamples.BufferStands | src/encode/private/encoder.cpp:897-972 | an accepted buffer that ends after the epoch: its source's track gets silence for the hole its time stamp leaves, then each channel's samples from the epoch on -- a channel the device lacks from its last one -- then at most the silence of a stall; the other tracks get at most that |
| AudioSamples.BufferIsStored | src/encode/private/encoder.cpp:897-1047 | after any run, each of those samples is in its source's queue at its place, or mixed with the others' there and tried on the codec |
| AudioSamples.MixedSample | src/encode/private/encoder.cpp:999-1029 | one more source in the mix adds its sample times its gain, and the sum ends at the range |
| AudioSamples.LevelledExactly | src/encode/private/encoder.cpp:845-880 | a track more than a second behind the longest is filled up to it with silence, and no other is touched |
| AudioSamples.SubmitAnswers | src/encode/private/encoder.cpp:897-981 | no known source, no epoch or no samples is refused; a buffer that ends by the epoch is done with; any other is submitted exactly where every frame it made ready was encoded, and nothing is tried after a failure |
| AudioSamples.SilenceIsCounted | src/encode/private/encoder.cpp:853-972 | over every run each sample of a track that came from no buffer is counted as silent, and each hole as a gap |
| AudioSamples.FilledCounts | src/encode/private/encoder.cpp:853-876 | a stall is warned of exactly when silence is filled in for one |
| AudioSamples.FlushIsNoStall | src/encode/private/encoder.cpp:1074-1094 | the flush fills every source up to the longest, counted as silent, and warns of nothing |
| AudioEncoder.Encoder.FillSilence | src/encode/private/encoder.cpp:815-841 | the chunked loop adds exactly the silence asked for, to that queue alone |
| AudioEncoder.Encoder.LevelSources | src/encode/private/encoder.cpp:845-880 | the loops over the queues level all sources as the specification does |
| AudioEncoder.Encoder.WriteSilence | src/encode/private/encoder.cpp:883-894 | a gap becomes silence in the one source, counted as silent and as a gap |
| AudioEncoder.Encoder.SubmitAudio | src/encode/private/encoder.cpp:897-981 | the whole new state of the encoder, and the answer, are those of the specification |
| AudioEncoder.Encoder.MixSources | src/encode/private/encoder.cpp:993-1029 | every queue gives up its head, and the frame buffer holds the clamped mix of the heads |
| AudioEncoder.Encoder.EncodeMixedFrame | src/encode/private/encoder.cpp:985-1047 | one frame read, mixed and sent as the specification says, counted only where the codec took it |
| AudioEncoder.Encoder.EncodeAudioFrames | src/encode/private/encoder.cpp:1050-1071 | the drain loop ends, in the state of the specification |
| AudioEncoder.Encoder.FinishAudio | src/encode/private/encoder.cpp:1074-1106 | the flush, with its short last frame, as the specification says |
| VideoTimeline.RunAccounts | src/encode/private/encoder.cpp:1180-1261 | over every run each frame the codec took is inside it, in the delay line, or handed to the muxer, once and in order, and each packet handed over ends where the next starts |
| VideoTimeline.EverythingIsHanded | src/encode/private/encoder.cpp:1472-1523 | once a finish succeeds every frame the codec took has been handed to the muxer as one packet, without gaps, the last ending at the stop time where that is later, else a nominal frame on |
| VideoTimeline.FinishedRecording | src/encode/private/encoder.cpp:1150-1223 | the file, which is what the muxer took, holds a packet for every frame the codec took exactly when every write succeeded, and is then without gaps; otherwise it is shorter, and each packet whose write succeeded is in it, after those before it that are |
| VideoTimeline.LossIsReported | src/encode/private/encoder.cpp:1109-1175 | where every frame was reported as submitted and the finish as done, no packet is missing from the file |
| VideoTimeline.InFileExactly | src/encode/private/encoder.cpp:1150-1175 | the file is as long as what was handed to the muxer exactly when every write succeeded, and is then the same |
| VideoTimeline.AdvancesExactlyWhen | src/encode/private/encoder.cpp:1230-1243 | a time stamp advances exactly when a frame has been counted or the frame's own time says so |
| VideoTimeline.StampsIncreaseOnceCounted | src/encode/private/encoder.cpp:1237-1244 | from the first counted frame on, time stamps strictly increase whatever the frames carry |
| VideoTimeline.StampsCanRepeatBeforeThat | src/encode/private/encoder.cpp:1237-1258 | a run in which two frames get the same time stamp before one is counted |
| VideoTimeline.FramesKeepTheirTime | src/encode/private/encoder.cpp:1230-1244 | over every run a frame with a time of its own is offered with it where it is past the last or no frame has been counted; any other frame comes 16667 microseconds after the last |
| VideoTimeline.RunTakes | src/encode/private/encoder.cpp:1246-1250 | over every run what the codec took is what it was offered and did not refuse, with those stamps |
| VideoTimeline.SendSays | src/encode/private/encoder.cpp:1226-1261 | a frame is reported as submitted, and counted, exactly when the codec took it, its packets could be read, and each that was handed on was written |
| VideoTimeline.FinishSays | src/encode/private/encoder.cpp:1472-1530 | a finish succeeds exactly when the codec gives up everything, everything handed on is written, and so is the trailer |
| VideoTimeline.DurationsAreNotNegative | src/encode/private/encoder.cpp:1180-1223 | time stamps in order give durations that are not negative |
| VideoTimeline.Encoder.SendToEncoder | src/encode/private/encoder.cpp:1226-1261 | the whole new state and the answer for one frame |
| VideoTimeline.Encoder.Drain | src/encode/private/encoder.cpp:1109-1147 | the packet loop ends, with every ready packet held or written in order |
| VideoTimeline.Encoder.HoldVideoPacket | src/encode/private/encoder.cpp:1180-1194 | the waiting packet is written with its duration and the new one takes its place |
| VideoTimeline.Encoder.WriteHeldPacket | src/encode/private/encoder.cpp:1197-1223 | the last packet is written once, with the duration the stop time gives it |
| VideoTimeline.Encoder.FlushVideo | src/encode/private/encoder.cpp:1472-1530 | the whole new state and the answer of a finish: a flush the codec refuses or breaks off, a last packet that cannot be written, and a trailer that cannot |
| FrameRing.StepKeeps | src/recorder/private/session.cpp:218-329 | every atomic step of every thread keeps the invariant of the ring |
| FrameRing.OneHolder | src/recorder/private/session.cpp:249-282 | a slot is in exactly one of free queue, filled queue, producer's hand and encoder's hand |
| FrameRing.RingIsSafe | src/recorder/private/session.cpp:218-326 | everywhere in every run copy-in and encode never share a slot, frames are read whole and in the order accepted, and a waiting encoder never misses a queued frame |
| FrameRing.DropsOnlyWhenFull | src/recorder/private/session.cpp:249-282 | a frame is dropped only when every slot is queued or being encoded |
| FrameRing.ProducerNeverBlocks | src/recorder/private/session.cpp:218-284 | the capture thread always has a next step, and is out of its callback after at most five |
| FrameRing.StopMakesProgress | src/recorder/private/session.cpp:287-326 | once the stop token is out only the encoder thread moves, it always can, and each step lowers a rank |
| FrameRing.EncoderExits | src/recorder/private/session.cpp:287-329 | however the steps interleave the encoder thread exits within four steps a slot and three more |
| FrameRing.NothingIsLeftBehind | src/recorder/private/session.cpp:408-450 | at the join every accepted frame has been read, nothing is queued, the semaphore is zero, and captured frames are encoded, failed or dropped |
| FrameRing.NextRecordingStartsAfresh | src/recorder/private/session.cpp:443-447 | between recordings the ring is as before the first, so the next starts in the same state |
| RingCounts.FieldsTell | src/recorder/private/session.cpp:218-450 | over every run with any number of recordings: each count is the number of its steps in the recording, each flag says whether its step has been taken, and the accepted frames are those that were taken, in order |
| RingCounts.FirstFrameStartsTheEncoder | src/recorder/private/session.cpp:220-284 | at any state of any run, the first frame of a recording: where the encoder starts it is whole in the ring, or encoded where it stands; where it does not start nothing is accepted, encoded or dropped |
| RingCounts.EverythingIsAccountedFor | src/recorder/private/session.cpp:408-450 | at the join of a recording whose encoder began, told from its steps: captured frames were encoded, failed or dropped, and every frame taken in has been read, in order |
| RingCounts.OwnerGoesOn | src/recorder/private/session.cpp:408-450 | each step of a stop can be taken as soon as the one before has been, but for the join, which waits for the encoder thread's exit |
| RingSession.FrameKeeps | src/recorder/private/session.cpp:218-284 | the frame callback, uninterrupted, keeps the invariant of the ring |
| RingSession.FrameIsHandled | src/recorder/private/session.cpp:218-284 | a frame is accepted, dropped, encoded where it stands or let go, and exactly when each happens |
| RingSession.Session.OnFrame | src/recorder/private/session.cpp:218-284 | the callback takes the steps of the ring, in the order of its branches |
| RingSession.Session.RunOut | src/recorder/private/session.cpp:287-329 | the encoder thread's loop ends after the stop token, having read every accepted frame |
| RingSession.Session.EmptyQueues | src/recorder/private/session.cpp:443-447 | the last loop leaves both queues and the slots empty |
| RingSession.Session.Stop | src/recorder/private/session.cpp:408-450 | a stop leaves the ring at rest, every accepted frame read and every captured one accounted for |
| PortalSession.RunKeeps | src/capture/private/portal_session.cpp:190-561 | between bus tasks of every run from the start: busy, pending callback, step and Response subscription coincide, a session is live exactly when its end is subscribed to and has that name unless it lost it to an empty one, and every accepted Start is answered in order but the one in flight |
| PortalSession.StrandedExactlyWhen | src/capture/private/portal_session.cpp:376-431 | live session, name and subscription coincide except where a session has lost its name, and one loses it exactly when an answer names the session with an empty string while an earlier one is followed |
| PortalSession.StrandedOverRuns | src/capture/private/portal_session.cpp:376-431 | over every run a session is without its name exactly when some such answer came and since then it has not ended and no other has been named |
| PortalSession.EmptyNameStrandsTheSession | src/capture/private/portal_session.cpp:385-404 | a run in which that happens, after which a Close closes nothing |
| PortalSession.StartMoves | src/capture/private/portal_session.cpp:234-277 | a Start is taken up, refused leaving everything alone, or taken up and failed at once with no session left |
| PortalSession.ResponseMoves | src/capture/private/portal_session.cpp:330-543 | a response -- with the session named, unnamed or named by an empty string -- takes the exchange exactly one step on, or answers its caller: with a live session for a success, and for anything else with none but one that lost its name |
| PortalSession.BusyEvent | src/capture/private/portal_session.cpp:234-448 | nothing but a response ends an exchange, and an event answers at most the one caller |
| PortalSession.AnsweredWithinThreeResponses | src/capture/private/portal_session.cpp:330-561 | an accepted Start is answered exactly once, within three responses, unless shutdown intervenes |
| PortalSession.ClosedFiresAtMostOnce | src/capture/private/portal_session.cpp:190-231 | from the start of Klip, where its caller posts a Close between each success and the next Start that is taken up, the Closed callback fires at most once for a session and never after Klip's own Close, and no session loses its subscription or its name |
| PortalSession.SlotLostExactlyWhen | src/capture/private/portal_session.cpp:376-431 | a subscription is lost exactly when a session is taken up while an earlier one is still followed, named or not |
| PortalSession.UnclosedSuccessEndsTheNextSession | src/capture/private/portal_session.cpp:215-231 | without that discipline, a run in which the end of one session ends another that is still open |
| PortalAnswers.ResponseDecides | src/capture/private/portal_session.cpp:330-543 | what a response comes to in every case: the next step; a success with its token exactly when a stream with a size is granted and its descriptor kept; a refusal by the user; or a failure, with the token once the portal has granted |
| PortalAnswers.ResponseLeavesSession | src/capture/private/portal_session.cpp:330-561 | and what it leaves of the session: the one it named, followed and live, or none, closed where it had a name |
| PortalAnswers.StartDecides | src/capture/private/portal_session.cpp:234-277 | a Start is refused at once while busy or not ready, changing nothing; otherwise it is taken up with what was asked for, or fails at once |
| PortalAnswers.SessionEnds | src/capture/private/portal_session.cpp:184-231 | a Close ends the session that has a name; the end of one that is followed reaches its owner while there is one |
| PortalAnswers.EverySessionEnds | src/capture/private/portal_session.cpp:184-231 | with the discipline, over every run each session the portal has opened is the open one, has been closed by Klip or has ended by itself, and only one of these |
| PortalSession.Exchange.HandleResponse | src/capture/private/portal_session.cpp:330-373 | the response handler changes the fields as the specification does |
| PortalSession.Exchange.HandleSessionCreated | src/capture/private/portal_session.cpp:376-431 | so does the handler of the first answer, whether it names the session, leaves it out or names it by an empty string, with the subscription stored over the old one |
| PortalSession.Exchange.HandleSourcesSelected | src/capture/private/portal_session.cpp:434-448 | and of the second, which fails where there is no session to name |
| PortalSession.Exchange.HandleStarted | src/capture/private/portal_session.cpp:451-543 | and of the third, through to the PipeWire remote |
| PortalSession.Exchange.End | src/capture/private/portal_session.cpp:546-561 | finishing answers the caller once and closes the session unless it succeeded |
| PortalSession.Exchange.StartRequest | src/capture/private/portal_session.cpp:234-277 | a Start refused while busy or not ready, else begun |
| PortalSession.Exchange.HandleClosed | src/capture/private/portal_session.cpp:215-231 | a Closed signal ends the live session and tells its owner |
| PortalSession.Exchange.Shutdown | src/capture/private/portal_session.cpp:168-181 | shutdown closes the session and lets the caller in flight go |
| StartProtocol.TurnKeeps | src/app/private/start_flow.cpp:78-230 | every turn of either thread keeps the invariant across flow, recorder, queues and portal |
| StartProtocol.OneStartOutstanding | src/recorder/private/recorder.cpp:403-543 | in every run from the start of Klip and before shutdown a flow step means a starting recorder, a portal start is outstanding exactly while the recorder starts with the flow through, never two; neither assertion fails and the portal never refuses |
| StartProtocol.EachStartIsAnsweredOnce | src/recorder/private/session.cpp:340-363 | over every run the portal answers the starts in the order they were sent, each once, but for the one in work or not given to it, and an answer on its way, looked up by the start it is for, finds the last one sent |
| StartProtocol.TokensOverRuns | src/recorder/private/recorder.cpp:477-511 | over every run from the start of Klip the token a kept start carries, and the one the portal is told of, is the last one granted and not cleared since, else the loaded one; each grant is the grant of the start it answers; a token that differs from the one in the settings file is flagged, or was taken by a save that was not stored |
| StartTokens.MissedExactlyWhen | src/app/private/application.cpp:630-636 | over every run a token counts as missed exactly when the last save that found it changed was not stored |
| StartTokens.TokenIsInTheFile | src/app/private/application.cpp:630-636 | over every run the settings file has the recorder's token, unless its change is yet to be taken or the last save that took it was not stored |
| StartTokens.FailedSaveForgetsTheChange | src/app/private/application.cpp:630-636 | a run in which a cleared token is still in the file after a later save, and nothing is flagged |
| StartSessions.SessionsAreClosedInTime | src/recorder/private/session.cpp:368-414 | over every run of flow, recorder, session and portal in which what is granted can be opened: a Close goes to the portal between each success and the next Start it takes up, so the Closed callback fires at most once for a session, never after Klip's own Close, and no session loses its subscription or its name |
| StartProtocol.FlowStepsDescend | src/app/private/start_flow.cpp:105-230 | a step has a deadline exactly when it settles or awaits, the selector is open exactly while picking, and only a toggle ever goes up the ranking of steps |
| StartProtocol.SignalKeeps | src/recorder/private/session.cpp:345-349 | a response, or the end of a session, at any moment keeps the invariant: at most one answer is queued, and the start it names is the last one sent |
| StartAnswers.AnswerDecides | src/recorder/private/recorder.cpp:500-537 | after any run with an answer there: the recorder records exactly where the portal granted the Start, what it granted opens, and nothing was withdrawn meanwhile; otherwise it is idle |
| StartAnswers.WithdrawalEndsARecording | src/recorder/private/recorder.cpp:215-224 | a withdrawal ends a recording and nothing else, and is then forgotten |
| StartAnswers.ToggleDecides | src/app/private/start_flow.cpp:78-101 | after any run: a toggle stops a recording; starts one from idle where it can record and the folder is ready -- a region or a window that hides after 250 ms, anything else at once -- and is otherwise dropped |
| StartAnswers.BackdropDecides | src/app/private/start_flow.cpp:105-202 | after any run: each step up to the selector stays until its time, asks for the screenshot with thirty seconds for its answer, and opens the selector with it or without |
| StartAnswers.PickDecides | src/app/private/start_flow.cpp:130-221 | after any run: an accepted pick leads, 250 ms later and 250 more for a window that hides, to a Start of the chosen source with its token; a dismissed one to nothing |
| StartAnswers.SavingDecides | src/app/private/application.cpp:630-636 | a save takes every flag, and the file gets the flagged tokens exactly where it is stored |
| StartAnswers.AssertionsCatch | src/app/private/start_flow.cpp:206-221 | the assertions on the way to a Start fail exactly where the recorder is not starting |
| StartObjects.Recorder.PrepareRecording | src/recorder/private/recorder.cpp:403-435 | prepared only from idle, able to record, and with its folder ready |
| StartObjects.Recorder.Capture | src/recorder/private/recorder.cpp:451-497 | the request posted, its token taken or cleared, and everything else as the specification says |
| StartObjects.Recorder.HandleStarted | src/recorder/private/recorder.cpp:500-537 | the new token kept whether or not the recording started, and the new state |
| StartObjects.Recorder.UpdateSession | src/recorder/private/session.cpp:355-363 | the loop takes every queued answer, in order |
| StartObjects.Recorder.Update | src/recorder/private/recorder.cpp:215-224 | answers first, then a withdrawal, which stops only a recording |
| StartObjects.Recorder.Stop | src/recorder/private/recorder.cpp:546-568 | a stop posts the close and leaves the recorder idle |
| StartObjects.StartFlow.HandleToggle | src/app/private/start_flow.cpp:78-101 | a toggle stops, starts or is dropped |
| StartObjects.StartFlow.Update | src/app/private/start_flow.cpp:105-173 | one turn of the flow, in every step |
| StartObjects.StartFlow.Open | src/app/private/start_flow.cpp:190-202 | the selector opens, or the start is cancelled |
| StartObjects.StartFlow.BeginCapture | src/app/private/start_flow.cpp:206-221 | the window settles first where it has to hide, else the capture is requested at once |
| Screenshot.EveryFileIsDeletedOnce | src/capture/private/screenshot.cpp:44-157 | under every interleaving of answer, timeout and shutdown no file is taken or deleted twice, and once the flow is out of it every file was taken once and deleted once |
| Screenshot.ThePathHasOneOwner | src/capture/private/screenshot.cpp:101-157 | while the bus thread writes the path the other touches it at no step, and with the subscription gone no answer can follow |
| Screenshot.GivingUpEnds | src/capture/private/screenshot.cpp:101-112 | whatever came before, a cancellation or an answer taken is over within six actions of the two threads in any order, and until then one of them can always go on |
| Screenshot.EveryNamedFileIsDeleted | src/capture/private/screenshot.cpp:130-157 | over every run: once the flow is out of it, each file an answer has named has been taken once and deleted once |
| Screenshot.AnswerIsTheBackdrop | src/capture/private/screenshot.cpp:44-153 | after any run, a request that is sent and answered gives the file the answer names as the backdrop, or none where it names none |
| Screenshot.LateAnswerIsDeleted | src/capture/private/screenshot.cpp:101-112 | a request that is given up after its answer deletes the file that came, unread |
| Screenshot.Shared.TakeAnswer | src/capture/private/screenshot.cpp:115-126 | the answer is handed over once, with its path, and is gone |
| Screenshot.Shared.WriteAnswer | src/capture/private/screenshot.cpp:130-153 | the response ends the subscription and leaves the path, before the flag is set |
| Screenshot.Shared.FinishCancel | src/capture/private/screenshot.cpp:101-112 | an answer that came before the cancellation is deleted unread, and nothing is left |
| JsonTree.SetCommutes | src/config/private/settings_json.cpp:328-338 | a path that is already there may be set before or after one apart from it: values and order agree |
| JsonTree.AssignForgets | src/config/private/settings_json.cpp:343-382 | assignments forget what was assigned along the same paths before |
| JsonTree.SetKeepsOrder | src/config/private/settings_json.cpp:328-338 | an object keeps its members in their order and gets new ones after them |
| SettingsJson.PathsApart | src/config/private/settings_json.cpp:347-378 | no two of the seventeen written paths lead through one another |
| SettingsJson.WritingForgets | src/config/private/settings_json.cpp:343-382 | writing over what was written is writing over the kept tree: history leaves no trace, and writing twice changes nothing |
| SettingsJson.WritingKeepsTheRest | src/config/private/settings_json.cpp:313-382 | every unknown key keeps its value, and every object written into keeps its members in their order |
| SettingsFormat.NewDocument | src/config/private/settings_json.cpp:343-382 | a new settings file is one document, spelled out: five sections in order, with their keys and values |
| SettingsFormat.TakenExactlyWhen | src/config/private/settings_json.cpp:98-231 | which values are taken, with their ranges and names spelled out; any other is counted as invalid |
| SettingsFormat.NamesAreSpelled | src/encode/public/encode/format.hpp:38-70 | how each container, codec, quality and source is spelled |
| SettingsJson.WriteSettingsJson | src/config/private/settings_json.cpp:343-382 | filling section after section gives the tree of the seventeen assignments |
| SettingsJson.WriteAudio | src/config/private/settings_json.cpp:362-373 | the loop over the sources fills in both, then the quality |
| SettingsReading.ReadingUndoesWriting | src/config/private/settings_json.cpp:343-408 | over every kept tree and any defaults, valid settings read back as they were, with version 1 and nothing invalid |
| SettingsReading.FirstRejected | src/config/private/settings_json.cpp:88-96 | the first invalid path is the first known path, in reading order, that holds something invalid |
| SettingsReading.WhatIsReadIsValid | src/config/private/settings_json.cpp:233-309 | whatever the file holds, what is read is valid where the defaults are |
| SettingsReading.SavingRepairs | src/config/private/settings_json.cpp:343-408 | saving what was read keeps every valid value and leaves nothing invalid |
| SettingsReader.ReadSettingsJson | src/config/private/settings_json.cpp:386-408 | each setting is the valid value at its path or its default, and the invalid known paths are counted, in reading order |
| SettingsReader.ReadingDecides | src/config/private/settings_json.cpp:386-408 | a text is no JSON, no object, or settings with their version, and the count and the first of the paths that hold something invalid |
| SettingsReader.RejectedBySections | src/config/private/settings_json.cpp:233-309 | reading section by section refuses exactly the known paths that hold something invalid |
| SettingsReader.SettingsBySections | src/config/private/settings_json.cpp:233-309 | reading section by section gives each setting by its path |
| SettingsReader.Document.ReadDocument | src/config/private/settings_json.cpp:233-309 | the document after the walk, in full |
| SettingsReader.Document.ReadName | src/config/private/settings_json.cpp:189-211 | a name is taken where it reads back as itself, and refused otherwise |
| SettingsStore.Store.LoadSettings | src/config/private/settings_store.cpp:47-104 | the new cache, disk and settings, for every state of the file and every failing operation |
| SettingsStore.Store.SaveSettings | src/config/private/settings_store.cpp:109-119 | only what the changes name is taken, and only where saving is allowed |
| SettingsStore.Store.WriteSettings | src/config/private/settings_store.cpp:169-208 | skipped where the text is the same, and the cache moves only with the file |
| SettingsStore.Store.ImportLegacy | src/config/private/settings_store.cpp:129-165 | the old file's settings, written to the new one |
| SettingsStore.Store.Backup | src/config/private/settings_store.cpp:212-231 | a copy is kept, or saving is given up |
| SettingsStore.Store.SetAside | src/config/private/settings_store.cpp:235-254 | the file is moved, or saving is given up |
| StoreResults.LoadEstablishes | src/config/private/settings_store.cpp:47-104 | after any load a store that may save knows the file it would write over |
| StoreResults.SaveKeeps | src/config/private/settings_store.cpp:109-119 | and so it does after any save, whichever write fails |
| StoreResults.CacheAgreesWithDisk | src/config/private/settings_store.cpp:47-208 | after a load and any saves with arbitrary failures a fresh load gives the fold of the stored saves, exactly unless it would import or the file has outgrown what is read |
| StoreResults.LastNamedWins | src/config/private/settings_store.cpp:107-119 | the stored settings hold each token the last stored save named, and the choices of the last stored save that named them |
| StoreResults.NamedIsStored | src/config/private/settings_store.cpp:109-119 | where the store may save and the file can be written, a save that names a token or the choices leaves them in the file, and what it does not name as it was; a fresh load gives both back |
| StoreResults.NothingIsStored | src/config/private/settings_store.cpp:109-119 | where nothing is named, the store may not save or the file cannot be written, nothing changes |
| StoreResults.LoadDecides | src/config/private/settings_store.cpp:47-104 | what a load makes of the directory: where the settings come from, whether the store may save, and what has happened to the files |
| StoreResults.NewerExactlyWhen | src/config/private/settings_store.cpp:66-72 | a file is of a newer format exactly where its version says so |
| StoreResults.NextStartMayImport | src/config/private/settings_store.cpp:80-93 | a directory in which the next start imports what this one did not |
| StoreResults.FailedSaveChangesNothing | src/config/private/settings_store.cpp:169-208 | a write that fails changes neither the file nor the cache |
| StoreSessions.NoSettingsAreLost | src/config/private/settings_store.cpp:58-254 | over any sessions, with kills and power cuts in between: the store's own part of any next act, finished or cut off, leaves a file that is unreadable or newer as it was, replaces one that is invalid or no settings only when its text stands in the .bad file, and otherwise assigns settings in the object that was there; what a power cut does to the two files is stated below |
| StoreSessions.NeverWrittenOver | src/config/private/settings_store.cpp:58-98 | over any sessions, kills and power cuts a file of a newer format or an unreadable one stays as it is to the end; so does one that a load has found too large, unless the power goes while an earlier file may still come back |
| StoreSessions.CrashedSaveLoads | src/config/private/settings_store.cpp:169-208 | after a save is cut off the next load gives what it would have given at some moment since the disk last settled, or the settings that were being saved, unless their text has outgrown what is read |
| StoreSessions.CutBringsBack | src/json/private/files.cpp:152-217 | over every run a power cut brings back the settings file of a moment since the disk last settled, whole, and may bring back that of each such moment |
| StoreSessions.OldOrNewExactlyWhen | src/json/private/files.cpp:150-217 | over every run: a save that is cut off is sure to leave the old settings file or the new one exactly where none has been replaced or moved since the disk last settled |
| StoreSessions.ThisSaveIsOldOrNew | src/json/private/files.cpp:150-217 | and one given save is, exactly where every file that may come back is the old one or the one it writes |
| StoreSessions.AnOlderSaveComesBack | src/config/private/settings_store.cpp:109-119 | a run in which the power goes during a save and the settings from before the last stored save are loaded |
| StoreDisk.SurvivesExactlyWhen | src/config/private/settings_store.cpp:212-254 | what the user's file held survives any power cut exactly where every directory that may come back has it as the settings file or has a flushed copy of it |
| StoreOriginals.OriginalSurvivesExactlyWhen | src/config/private/settings_store.cpp:212-231 | after any run a file with something invalid in it is loaded, and the session goes on: what it held is sure to survive a power cut exactly unless the copy was made, a save has been stored and the disk has not settled since the load |
| StoreOriginals.RepairCanLoseTheOriginal | src/config/private/settings_store.cpp:210-231 | a run in which it does not |
| StoreOriginals.WhatIsMovedAsideIsKept | src/config/private/settings_store.cpp:233-254 | over any sessions, kills and power cuts a file that is no settings is the settings file or the .bad file from when it stands there |
| StoreOnFiles.ReplacingRemembers | src/json/private/files.cpp:152-217 | replacing a file through a temporary one is the replacement of the store's disk: once it is stored a crash brings back exactly what that disk remembers, and on the way nothing else |
| StoreResults.UnknownValuesSurvive | src/config/private/settings_store.cpp:169-208 | what this Klip does not know outlives every save |
| Files.FileSystem.WriteAll | src/json/private/files.cpp:27-51 | through partial and interrupted writes, interrupted no more often in a row than a given number, all of the text is appended, or where it fails a start of it |
| Files.FileSystem.WriteFileAtomically | src/json/private/files.cpp:54-217 | links are followed and survive; at every state on the way a crash leaves what it could before or the new text, whole -- over a settled disk the old or the new one; success is the new text with the old permissions, and a crash then leaves what it could before or the new text, and may leave any of them; failure leaves the target as it was |
| Files.FileSystem.ReadFile | src/json/private/files.cpp:75-148 | a text that is read is the file, no longer than allowed, whole unless the file was cut short on the way; one is read where nothing fails |
| Files.ContainedIsRecoverable | src/json/private/files.cpp:152-217 | a crash at such a state leaves what a crash could leave before, or the new text, whole |
| Files.CrashLeavesOldOrNew | src/json/private/files.cpp:152-217 | over a settled target that is exactly the old or the new text |
| Files.StoredCanStillBeUndone | src/json/private/files.cpp:182-190 | what a crash could leave before the call it can still leave after it is reported as stored |
| Files.StoredAddsOne | src/json/private/files.cpp:182-190 | and adds the new text to it, and nothing else |
| FilesWriters.StepKeeps | src/json/private/files.cpp:152-217 | each call of any of several writers keeps their files and names apart and the target whole |
| FilesWriters.NobodyTearsTheTarget | src/json/private/files.cpp:150-217 | however any number of writers interleave and wherever a crash cuts them off, the target reads as before or as the whole text of one that has replaced it |
| FilesWriters.WritersGoOn | src/json/private/files.cpp:152-217 | a writer waits for no other: each of its calls is open to it as soon as the one before has been made |
| FilesWriters.CallsTell | src/json/private/files.cpp:152-217 | each call takes its file a step further, up to the target that reads as its text, or gives it up and removes it |
| FileUri.ToFileUri | src/bus/private/file_uri.cpp:45-64 | the loop writes the scheme and the escaped path |
| FileUri.DecodeRest | src/bus/private/file_uri.cpp:78-99 | the loop decodes an absolute path and stops at the first escape that is malformed or stands for NUL |
| FileUri.ToLocalPath | src/bus/private/file_uri.cpp:68-100 | the local path of a URI, or nothing |
| FileUri.DecodeEncode | src/bus/private/file_uri.cpp:45-100 | decoding undoes encoding for every path free of NUL and refuses every other |
| FileUri.PathRoundTrip | src/bus/private/file_uri.cpp:45-100 | a path comes back from its URI exactly when it is absolute and free of NUL, or empty |
| FileUri.DecodesExactlyWhen | src/bus/private/file_uri.cpp:81-97 | decoding succeeds exactly when every percent sign starts two digits that are not both zero |
| FileUri.NamesALocalFileExactlyWhen | src/bus/private/file_uri.cpp:68-100 | a URI names a local file exactly when its scheme is file, its host none or localhost, its path absolute and its escapes sound |
| FileUri.EncodingIsNormal | src/bus/private/file_uri.cpp:15-64 | a URI written is unreserved characters, separators and upper-case escapes |
| FileUri.SpelledExactly | src/bus/private/file_uri.cpp:15-64 | a character of a path stands in the URI as it is exactly when it is a letter, a digit, one of - . _ ~ or a separator; any other is its escape in upper case |
| FileUri.DigitsAreRead | src/bus/private/file_uri.cpp:24-42 | digits are read in either case, and nothing else is one |
| FileUri.EscapeIsRead | src/bus/private/file_uri.cpp:78-99 | a sound escape is read as the character of its number, and what is no percent sign as it is |
| FileUri.HostMayBeNamed | src/bus/private/file_uri.cpp:68-76 | a path is read from its URI with localhost named or not |
| FileUri.UrisTellPathsApart | src/bus/private/file_uri.cpp:45-64 | two paths never share a URI |
| FileUri.RewrittenUriReadsTheSame | src/bus/private/file_uri.cpp:45-100 | a URI that names a file reads the same after it is written again exactly when it holds no NUL as it is |
| FileUri.RawNulIsRead | src/bus/private/file_uri.cpp:92-96 | such a NUL gets through, an escaped one does not |

## Left out

- FFmpeg, VAAPI, PipeWire, sd-bus and SDL: each call is a result that may go either way, with the contract the code relies on. FIFO reads and writes are taken to succeed, as the code takes them.
- Samples are real numbers: the rounding of the floating-point mix is not modelled, and FIFO sizes are unbounded where the code has `int`.
- Level ballistics, capability probing, codec tables, formatting, labels, icons, drawing, windows, logging and profiling.
- Memory ordering of the C++ atomics: every step is sequentially consistent, and the queues between threads are linearizable.
- Changes of frame memory or geometry in the middle of a recording: the memory kind is fixed when the ring is opened.
- RingSession.Session.OnFrame: the callback and the encoder's loop are sequences of atomic steps here; that other threads step in between is modelled in FrameRing, over the same steps.
- Files.FileSystem.WriteAll: a call is interrupted at most a given number of times in a row; the code would try for ever.
- Files.FileSystem.ReadFile: the file may be cut short while it is read, but not rewritten.
- SettingsJson.WriteSettingsJson: settings are texts; that invalid UTF-8 is replaced on the way out is not modelled. A JSON number written as minus zero is read as no integer.
- The JSON text parser and printer: printing a tree and parsing it again is taken to give the tree back.
- SettingsStore.Store.ImportLegacy: the conversion of the old settings file is not modelled; it gives some tree, which is then read as any other.
- StartProtocol.OneStartOutstanding: runs end before shutdown, so Terminate of the flow, the recorder and the session is not one of its turns; the screenshot handover and the portal exchange do include it.
- A late withdrawal can stop the next recording, since answers are taken before the flag is cleared; no claim is made about that.
- AudioEncoder.Encoder.FinishAudio: ends with the last frame sent; that the codec is then flushed of what it holds, and the muxer of its interleaving queue, is not modelled.
- VideoTimeline.Encoder.FlushVideo: the flush of the sound, between the last packet and the trailer, is in AudioEncoder; its outcome does not change the answer.
- Anyone else's edits of the configuration directory: a run of the store starts from any directory on a settled disk, and what a file system may do beyond bringing back an earlier directory and tearing unflushed files is not modelled.
- VideoTimeline.DurationsAreNotNegative: needs the time stamps the codec took to be in order, which holds from the first counted frame on.
- Monitoring, meters, ticks, device lists and the tray, which only read the state modelled here.
