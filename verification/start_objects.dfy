/** The recorder and the start flow as they run on the UI thread: objects whose methods change their fields
    in place, each proved to take the step the protocol takes. */
module StartObjects {
  import opened Wrappers
  import opened StartProtocol
  import P = PortalSession

  /** The recorder with the session it owns: what it posts to the bus thread and hears from it. */
  class Recorder {
    var state: RecorderState
    var canRecord: bool
    var source: Choice
    var rememberWindow: bool
    var tokens: Tokens
    var changes: Changes
    var sessionToken: string
    var tasks: seq<Task>
    var answers: seq<Queued>
    var withdrawn: bool
    // What the callbacks have kept of their Starts, and what is only looked back on.
    var sent: seq<P.Request>
    var saved: Tokens
    var missed: Changes
    var log: seq<TokenEvent>
    var assertionFailed: bool

    /** The whole system, around this recorder. */
    ghost function View(flow: Flow, portal: P.Portal): System
      reads this
    {
      System(flow, Self(), tasks, portal, answers, withdrawn, sent, saved, missed, log, assertionFailed)
    }

    constructor (canRecord: bool, hasPortal: bool, source: Choice, rememberWindow: bool, loaded: Tokens)
      ensures View(Flow(NoStep, None, false), P.Initial(hasPortal))
           == Initial(canRecord, hasPortal, source, rememberWindow, loaded)
    {
      state, this.canRecord, this.source, this.rememberWindow := Idle, canRecord && hasPortal, source, rememberWindow;
      tokens, changes, sessionToken := loaded, Changes(false, false), "";
      tasks, answers, withdrawn, sent := [], [], false, [];
      saved, missed, log, assertionFailed := loaded, Changes(false, false), [], false;
    }

    ghost function Self(): StartProtocol.Recorder
      reads this
    {
      StartProtocol.Recorder(state, canRecord, source, rememberWindow, tokens, changes, sessionToken)
    }

    method PrepareRecording(folderReady: bool) returns (prepared: bool)
      modifies `state
      ensures (Self(), prepared) == Prepare(old(Self()), folderReady)
    {
      prepared := state == Idle && canRecord && folderReady;
      if prepared {
        state := Starting;
      }
    }

    method StoreToken(source: P.Source, token: string)
      modifies `tokens, `changes
      ensures Self() == WithToken(old(Self()), source, token)
    {
      if source == P.Window {
        tokens := tokens.(window := token);
        changes := changes.(window := true);
      } else {
        tokens := tokens.(screen := token);
        changes := changes.(screen := true);
      }
    }

    method PostStart(request: P.Request, keeps: bool)
      modifies `sessionToken, `tasks, `sent, `log
      ensures forall flow, portal :: View(flow, portal) == Post(old(View(flow, portal)), request, keeps)
    {
      sessionToken := "";
      tasks := tasks + [StartTask(request)];
      sent := sent + [request];
      log := log + [Sent(request.source, keeps, request.token)];
    }

    method Capture()
      modifies this
      ensures forall flow, portal :: View(flow, portal) == RequestCapture(old(View(flow, portal)))
    {
      if state != Starting {
        assertionFailed := true;
      }
      var wanted := if source == OneWindow then P.Window else P.Screen;
      var keeps := P.KeepsGrant(wanted, rememberWindow);
      if !keeps {
        StoreToken(wanted, "");
      }
      PostStart(P.Request(|sent|, wanted, rememberWindow, TokenOf(tokens, wanted)), keeps);
    }

    method Stop()
      modifies `state, `tasks
      ensures forall flow, portal :: View(flow, portal) == StopRecording(old(View(flow, portal)))
    {
      tasks := tasks + [CloseTask];
      state := Idle;
    }

    method HandleStarted(started: bool, request: P.Request)
      modifies `state, `tokens, `changes
      ensures Self() == OnStarted(old(Self()), started, request)
    {
      var keeps := P.KeepsGrant(request.source, request.rememberWindow);
      if keeps && sessionToken != "" && sessionToken != request.token {
        StoreToken(request.source, sessionToken);
      }
      if started {
        state := Recording;
      } else {
        state := Idle;
      }
    }

    method ContinueStart(answer: Queued, opens: bool)
      modifies `state, `tokens, `changes, `sessionToken, `log
      ensures forall flow, portal :: View(flow, portal) == Continue(old(View(flow, portal)), answer, opens)
    {
      sessionToken := answer.grant.token;
      var started := answer.grant.result == P.Success && opens;
      var request := Asked(sent, answer.id);
      HandleStarted(started, request);
      var keeps := P.KeepsGrant(request.source, request.rememberWindow);
      log := log + [Granted(request.source, keeps, answer.grant.token)];
    }

    /** Carries on every Start the portal has answered. */
    method UpdateSession(opens: bool)
      modifies `state, `tokens, `changes, `sessionToken, `log, `answers
      ensures forall flow, portal :: View(flow, portal) == TakeAnswers(old(View(flow, portal)), opens)
    {
      while answers != []
        invariant forall flow, portal ::
          TakeAnswers(View(flow, portal), opens) == TakeAnswers(old(View(flow, portal)), opens)
        decreases |answers|
      {
        var answer := answers[0];
        answers := answers[1..];
        ContinueStart(answer, opens);
      }
    }

    method Update(opens: bool)
      modifies this
      ensures forall flow, portal :: View(flow, portal) == UpdateRecorder(old(View(flow, portal)), opens)
    {
      UpdateSession(opens);
      var ended := withdrawn;
      withdrawn := false;
      if ended && state == Recording {
        Stop();
      }
    }
  }

  /** The start flow, which drives the recorder through the steps of a start. */
  class StartFlow {
    const recorder: Recorder
    var step: FlowStep
    var deadline: Option<int>
    var selectorOpen: bool

    ghost function View(portal: P.Portal): System
      reads this, recorder
    {
      recorder.View(Flow(step, deadline, selectorOpen), portal)
    }

    constructor (recorder: Recorder)
      ensures this.recorder == recorder
      ensures Flow(step, deadline, selectorOpen) == Flow(NoStep, None, false)
    {
      this.recorder := recorder;
      step, deadline, selectorOpen := NoStep, None, false;
    }

    method SettleFor(next: FlowStep, now: int)
      modifies `step, `deadline
      ensures Flow(step, deadline, selectorOpen) == Settle(old(Flow(step, deadline, selectorOpen)), next, now)
    {
      step := next;
      deadline := Some(now + HIDE_SETTLE);
    }

    method BeginCapture(hides: bool, now: int)
      modifies this, recorder
      ensures forall portal :: View(portal) == Begin(old(View(portal)), hides, now)
    {
      step := NoStep;
      deadline := None;
      if recorder.state != Starting {
        recorder.assertionFailed := true;
      }
      if hides {
        SettleFor(SettlingBeforeCapture, now);
      } else {
        recorder.Capture();
      }
    }

    method CancelStart()
      modifies this, recorder
      ensures forall portal :: View(portal) == Cancel(old(View(portal)))
    {
      step := NoStep;
      deadline := None;
      recorder.state := Idle;
    }

    method Open(opens: bool)
      modifies this, recorder
      ensures forall portal :: View(portal) == OpenSelector(old(View(portal)), opens)
    {
      deadline := None;
      if opens {
        selectorOpen := true;
        step := Picking;
      } else {
        CancelStart();
      }
    }

    method HandleToggle(folderReady: bool, hides: bool, now: int)
      modifies this, recorder
      ensures forall portal :: View(portal) == Toggle(old(View(portal)), folderReady, hides, now)
    {
      if recorder.state == Recording {
        recorder.Stop();
      } else if step == NoStep {
        var prepared := recorder.PrepareRecording(folderReady);
        if prepared {
          if recorder.source == Region {
            SettleFor(SettlingBeforeBackdrop, now);
          } else {
            BeginCapture(hides, now);
          }
        }
      }
    }

    method AskForBackdrop(e: Surroundings)
      modifies this, recorder
      ensures forall portal :: View(portal) == RequestBackdrop(old(View(portal)), e)
    {
      deadline := None;
      if e.requests {
        step := AwaitingBackdrop;
        deadline := Some(e.now + SCREENSHOT_PATIENCE);
      } else {
        Open(e.selectorOpens);
      }
    }

    method HearSelector(e: Surroundings)
      modifies this, recorder
      ensures forall portal :: View(portal) == TakePick(old(View(portal)), e)
    {
      if e.pick == Accepted {
        selectorOpen := false;
        SettleFor(SettlingAfterPicker, e.now);
      } else if e.pick == Dismissed {
        selectorOpen := false;
        CancelStart();
      }
    }

    method Update(e: Surroundings)
      modifies this, recorder
      ensures forall portal :: View(portal) == UpdateFlow(old(View(portal)), e)
    {
      var isDue := deadline.Some? && deadline.value <= e.now;
      match step
      case NoStep =>
      case SettlingBeforeBackdrop =>
        if isDue {
          AskForBackdrop(e);
        }
      case AwaitingBackdrop =>
        if e.answered || isDue {
          Open(e.selectorOpens);
        }
      case Picking =>
        HearSelector(e);
      case SettlingAfterPicker =>
        if isDue {
          BeginCapture(e.hides, e.now);
        }
      case SettlingBeforeCapture =>
        if isDue {
          step := NoStep;
          deadline := None;
          recorder.Capture();
        }
    }
  }
}
