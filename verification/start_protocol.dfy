/** A start across its four layers: the window's flow and the recorder on the UI thread, the portal exchange
    on the bus thread, and the two queues between them. Every step is one thread's atomic turn; the portal,
    the user and the stream may do anything at any moment before shutdown. */
module StartProtocol {
  import opened Wrappers
  import P = PortalSession

  /** Times are in milliseconds. */
  const HIDE_SETTLE: int := 250
  const SCREENSHOT_PATIENCE: int := 30_000

  datatype FlowStep =
    | NoStep
    | SettlingBeforeBackdrop
    | AwaitingBackdrop
    | Picking
    | SettlingAfterPicker
    | SettlingBeforeCapture

  datatype Flow = Flow(step: FlowStep, deadline: Option<int>, selectorOpen: bool)

  datatype RecorderState = Idle | Starting | Recording

  datatype Choice = WholeScreen | OneWindow | Region

  datatype Tokens = Tokens(screen: string, window: string)

  datatype Changes = Changes(screen: bool, window: bool)

  /** The recorder, with the token its session holds from the last answer. */
  datatype Recorder = Recorder(
    state: RecorderState,
    canRecord: bool,
    source: Choice,
    rememberWindow: bool,
    tokens: Tokens,
    changes: Changes,
    sessionToken: string)

  datatype Task = StartTask(request: P.Request) | CloseTask

  /** An answer on its way back: the callback it calls, by its number, and what the portal granted. */
  datatype Queued = Queued(id: nat, grant: P.Grant)

  /** What bears on the restore tokens: a Start sent with one, and a grant that came back with one. */
  datatype TokenEvent =
    | Sent(source: P.Source, keeps: bool, token: string)
    | Granted(source: P.Source, keeps: bool, token: string)

  datatype System = System(
    flow: Flow,
    rec: Recorder,
    tasks: seq<Task>,
    portal: P.Portal,
    answers: seq<Queued>,
    withdrawn: bool,
    // Every Start sent, each with what its callback has kept of it; the tokens in the settings file, and those
    // whose last change went to a save that was not stored; and the history.
    sent: seq<P.Request>,
    saved: Tokens,
    missed: Changes,
    log: seq<TokenEvent>,
    assertionFailed: bool)

  function Initial(canRecord: bool, hasPortal: bool, source: Choice, rememberWindow: bool, loaded: Tokens): System {
    System(Flow(NoStep, None, false),
           Recorder(Idle, canRecord && hasPortal, source, rememberWindow, loaded, Changes(false, false), ""),
           [], P.Initial(hasPortal), [], false, [], loaded, Changes(false, false), [], false)
  }

  // ---- The recorder --------------------------------------------------------------------------------

  function TokenOf(tokens: Tokens, source: P.Source): string {
    if source == P.Window then tokens.window else tokens.screen
  }

  function WithToken(rec: Recorder, source: P.Source, token: string): Recorder {
    if source == P.Window
    then rec.(tokens := rec.tokens.(window := token), changes := rec.changes.(window := true))
    else rec.(tokens := rec.tokens.(screen := token), changes := rec.changes.(screen := true))
  }

  /** The source asked of the portal: a region is cut out of a whole screen. */
  function SourceOf(rec: Recorder): P.Source {
    if rec.source == OneWindow then P.Window else P.Screen
  }

  function Prepare(rec: Recorder, folderReady: bool): (Recorder, bool) {
    if rec.state == Idle && rec.canRecord && folderReady then (rec.(state := Starting), true) else (rec, false)
  }

  function Assert(s: System, holds: bool): System {
    if holds then s else s.(assertionFailed := true)
  }

  /** The Start leaves for the bus thread. */
  function Post(s: System, request: P.Request, keeps: bool): System {
    s.(rec := s.rec.(sessionToken := ""), tasks := s.tasks + [StartTask(request)], sent := s.sent + [request],
       log := s.log + [Sent(request.source, keeps, request.token)])
  }

  /** Asks with the token kept for its source, or without one where the grant is not kept. */
  function RequestCapture(s: System): System {
    var source := SourceOf(s.rec);
    var keeps := P.KeepsGrant(source, s.rec.rememberWindow);
    var rec := if keeps then s.rec else WithToken(s.rec, source, "");
    var request := P.Request(|s.sent|, source, s.rec.rememberWindow, TokenOf(rec.tokens, source));
    Post(Assert(s, s.rec.state == Starting).(rec := rec), request, keeps)
  }

  function StopRecording(s: System): System {
    s.(rec := s.rec.(state := Idle), tasks := s.tasks + [CloseTask])
  }

  /** Whether or not the recording starts, the portal has spent the token it was sent. */
  function OnStarted(rec: Recorder, started: bool, request: P.Request): Recorder {
    var keeps := P.KeepsGrant(request.source, request.rememberWindow);
    var kept :=
      if keeps && rec.sessionToken != "" && rec.sessionToken != request.token
      then WithToken(rec, request.source, rec.sessionToken)
      else rec;
    kept.(state := if started then Recording else Idle)
  }

  /** What the callback an answer calls has kept of its Start. */
  function Asked(sent: seq<P.Request>, id: nat): P.Request {
    if id < |sent| then sent[id] else P.Request(id, P.Screen, false, "")
  }

  /** `opens` says whether the audio and the stream open, once the portal has granted them. */
  function Continue(s: System, answer: Queued, opens: bool): System {
    var request := Asked(s.sent, answer.id);
    var rec := s.rec.(sessionToken := answer.grant.token);
    var started := answer.grant.result == P.Success && opens;
    s.(rec := OnStarted(rec, started, request),
       log := s.log + [Granted(request.source, P.KeepsGrant(request.source, request.rememberWindow),
                               answer.grant.token)])
  }

  function TakeAnswers(s: System, opens: bool): System
    decreases |s.answers|
  {
    if s.answers == [] then s
    else TakeAnswers(Continue(s.(answers := s.answers[1..]), s.answers[0], opens), opens)
  }

  function UpdateRecorder(s: System, opens: bool): System {
    var taken := TakeAnswers(s, opens);
    var heard := taken.(withdrawn := false);
    if taken.withdrawn && taken.rec.state == Recording then StopRecording(heard) else heard
  }

  // ---- The flow ------------------------------------------------------------------------------------

  function Settle(flow: Flow, next: FlowStep, now: int): Flow {
    flow.(step := next, deadline := Some(now + HIDE_SETTLE))
  }

  /** `hides` says whether the window is shown and a tray is there to bring it back. */
  function Begin(s: System, hides: bool, now: int): System {
    var begun := Assert(s, s.rec.state == Starting).(flow := s.flow.(step := NoStep, deadline := None));
    if hides then begun.(flow := Settle(begun.flow, SettlingBeforeCapture, now)) else RequestCapture(begun)
  }

  function Cancel(s: System): System {
    s.(flow := s.flow.(step := NoStep, deadline := None), rec := s.rec.(state := Idle))
  }

  function OpenSelector(s: System, opens: bool): System {
    if opens then s.(flow := Flow(Picking, None, true)) else Cancel(s.(flow := s.flow.(deadline := None)))
  }

  datatype Pick = Undecided | Accepted | Dismissed

  /** What the flow meets on one turn: whether the screenshot request goes out, whether its answer is there,
      whether the selector opens and what it says, and whether the window hides. */
  datatype Surroundings = Surroundings(
    now: int,
    requests: bool,
    answered: bool,
    selectorOpens: bool,
    pick: Pick,
    hides: bool)

  function Toggle(s: System, folderReady: bool, hides: bool, now: int): System {
    if s.rec.state == Recording then StopRecording(s)
    else if s.flow.step != NoStep then s
    else
      var (rec, prepared) := Prepare(s.rec, folderReady);
      if !prepared then s
      else if rec.source == Region
      then s.(rec := rec, flow := Settle(s.flow, SettlingBeforeBackdrop, now))
      else Begin(s.(rec := rec), hides, now)
  }

  predicate IsDue(flow: Flow, now: int) {
    flow.deadline.Some? && flow.deadline.value <= now
  }

  function RequestBackdrop(s: System, e: Surroundings): System {
    if e.requests
    then s.(flow := s.flow.(step := AwaitingBackdrop, deadline := Some(e.now + SCREENSHOT_PATIENCE)))
    else OpenSelector(s, e.selectorOpens)
  }

  function TakePick(s: System, e: Surroundings): System {
    var closed := s.(flow := s.flow.(selectorOpen := false));
    match e.pick
    case Undecided => s
    case Accepted => closed.(flow := Settle(closed.flow, SettlingAfterPicker, e.now))
    case Dismissed => Cancel(closed)
  }

  function UpdateFlow(s: System, e: Surroundings): System {
    match s.flow.step
    case NoStep => s
    case SettlingBeforeBackdrop =>
      if !IsDue(s.flow, e.now) then s
      else RequestBackdrop(s, e)
    case AwaitingBackdrop =>
      if e.answered || IsDue(s.flow, e.now) then OpenSelector(s, e.selectorOpens) else s
    case Picking =>
      TakePick(s, e)
    case SettlingAfterPicker =>
      if IsDue(s.flow, e.now) then Begin(s, e.hides, e.now) else s
    case SettlingBeforeCapture =>
      if IsDue(s.flow, e.now)
      then RequestCapture(s.(flow := s.flow.(step := NoStep, deadline := None)))
      else s
  }

  // ---- Saving --------------------------------------------------------------------------------------

  /** The changes are taken whether or not what they name is then stored; only what they name is. */
  function SaveChanges(s: System, stores: bool): System {
    var changes := s.rec.changes;
    s.(rec := s.rec.(changes := Changes(false, false)),
       saved := Tokens(if changes.screen && stores then s.rec.tokens.screen else s.saved.screen,
                       if changes.window && stores then s.rec.tokens.window else s.saved.window),
       missed := Changes(if changes.screen then !stores else s.missed.screen,
                         if changes.window then !stores else s.missed.window))
  }

  // ---- The bus thread ------------------------------------------------------------------------------

  /** The answers a turn of the portal gives are queued, each with the callback it is for. */
  function Deliver(s: System, portal: P.Portal): System {
    var given := portal.log.answers[Min(|s.portal.log.answers|, |portal.log.answers|)..];
    s.(portal := portal,
       answers := s.answers + seq(|given|, i requires 0 <= i < |given| => Queued(given[i].id, given[i].grant)))
  }

  function Min(a: nat, b: nat): nat { if a < b then a else b }

  function RunTask(s: System, sends: bool): System
    requires s.tasks != []
  {
    var rest := s.(tasks := s.tasks[1..]);
    match s.tasks[0]
    case StartTask(request) => Deliver(rest, P.Apply(s.portal, P.StartTask(request, sends)))
    case CloseTask => Deliver(rest, P.Apply(s.portal, P.CloseTask))
  }

  // ---- Turns ---------------------------------------------------------------------------------------

  datatype Turn =
    // The UI thread.
    | DoToggle(folderReady: bool, hides: bool, now: int)
    | DoUpdateFlow(surroundings: Surroundings)
    | DoUpdateRecorder(opens: bool)
    | SetSource(source: Choice)
    | SetRememberWindow(remember: bool)
    | TakeChanges(stores: bool)
    // The bus thread.
    | DoTask(sends: bool)
    | Signal(event: P.Event)
    // The bus or the capture thread: the recording has ended by itself.
    | Withdraw

  predicate Enabled(s: System, t: Turn) {
    match t
    case DoTask(_) => s.tasks != []
    case Signal(e) => (e.Response? || e.Closed?) && P.Enabled(s.portal, e)
    case _ => true
  }

  function Apply(s: System, t: Turn): System
    requires Enabled(s, t)
  {
    match t
    case DoToggle(folderReady, hides, now) => Toggle(s, folderReady, hides, now)
    case DoUpdateFlow(e) => UpdateFlow(s, e)
    case DoUpdateRecorder(opens) => UpdateRecorder(s, opens)
    case SetSource(source) => s.(rec := s.rec.(source := source))
    case SetRememberWindow(remember) => s.(rec := s.rec.(rememberWindow := remember))
    case TakeChanges(stores) => SaveChanges(s, stores)
    case DoTask(sends) => RunTask(s, sends)
    case Signal(e) => Deliver(s, P.Apply(s.portal, e))
    case Withdraw => s.(withdrawn := true)
  }

  // ---- The invariant -------------------------------------------------------------------------------

  function NumStartTasks(tasks: seq<Task>): nat {
    if tasks == [] then 0 else (if tasks[0].StartTask? then 1 else 0) + NumStartTasks(tasks[1..])
  }

  /** Starts that have left the recorder and not come back: posted, in progress, or answered and queued. */
  function Outstanding(s: System): nat {
    NumStartTasks(s.tasks) + (if s.portal.busy then 1 else 0) + |s.answers|
  }

  predicate HasDeadline(step: FlowStep) {
    step in {SettlingBeforeBackdrop, AwaitingBackdrop, SettlingAfterPicker, SettlingBeforeCapture}
  }

  /** The UI thread by itself. */
  ghost predicate UiInv(s: System) {
    && (s.flow.step != NoStep ==> s.rec.state == Starting)
    && (s.flow.deadline.Some? <==> HasDeadline(s.flow.step))
    && (s.flow.selectorOpen <==> s.flow.step == Picking)
    && (s.rec.state != Idle ==> s.rec.canRecord)
    && !s.assertionFailed
  }

  ghost predicate NoneRefused(answers: seq<P.Answer>) {
    forall i | 0 <= i < |answers| :: !answers[i].refused
  }

  function Last(s: System): P.Request
    requires s.sent != []
  {
    s.sent[|s.sent| - 1]
  }

  /** One Start is outstanding exactly while the recorder is starting and the flow is through, and then it
      is the last one sent, wherever it is: an answer that is queued is for that one's callback. */
  ghost predicate StartInv(s: System) {
    && Outstanding(s) == (if s.rec.state == Starting && s.flow.step == NoStep then 1 else 0)
    && (Outstanding(s) == 1 ==> s.sent != [])
    && (forall i | 0 <= i < |s.tasks| && s.tasks[i].StartTask? :: s.sent != [] && s.tasks[i].request == Last(s))
    && (forall i | 0 <= i < |s.answers| :: s.sent != [] && s.answers[i].id == Last(s).id)
    && (s.portal.busy ==> s.sent != [] && WorksOn(s.portal, Last(s)))
  }

  predicate WorksOn(portal: P.Portal, request: P.Request) {
    && portal.callback == Some(request.id)
    && portal.wanted == P.Wanted(request.source, request.rememberWindow, request.token)
  }

  function Ids(n: nat): seq<nat> {
    seq(n, i => i)
  }

  /** The Starts are numbered as they are sent, and the portal has taken up all that have reached it. */
  ghost predicate IdsInv(s: System) {
    && (forall i | 0 <= i < |s.sent| :: s.sent[i].id == i)
    && NumStartTasks(s.tasks) <= |s.sent|
    && s.portal.log.accepted == Ids(|s.sent| - NumStartTasks(s.tasks))
  }

  ghost predicate PortalInv(s: System) {
    && P.Inv(s.portal)
    && (s.rec.canRecord ==> s.portal.initialized)
    && NoneRefused(s.portal.log.answers) && s.portal.log.abandoned == []
    && IdsInv(s)
  }

  /** The token a kept Start of a source should carry: the last non-empty one granted to a kept Start of
      that source since a Start that is not kept last cleared it, and before either the loaded one. */
  function Expected(log: seq<TokenEvent>, source: P.Source, loaded: string): string {
    if log == [] then loaded
    else
      var before := Expected(log[..|log| - 1], source, loaded);
      match log[|log| - 1]
      case Sent(s, keeps, _) => if s == source && !keeps then "" else before
      case Granted(s, keeps, token) => if s == source && keeps && token != "" then token else before
  }

  /** The tokens are the expected ones, so is the one a Start in flight was sent with, and a token that is
      not in the settings file is flagged, or was taken by a save that was not stored. */
  ghost predicate TokenInv(s: System, loaded: Tokens) {
    && s.rec.tokens.screen == Expected(s.log, P.Screen, loaded.screen)
    && s.rec.tokens.window == Expected(s.log, P.Window, loaded.window)
    && (Outstanding(s) == 1 && s.sent != [] ==> Last(s).token == TokenOf(s.rec.tokens, Last(s).source))
    && (s.rec.tokens.screen != s.saved.screen ==> s.rec.changes.screen || s.missed.screen)
    && (s.rec.tokens.window != s.saved.window ==> s.rec.changes.window || s.missed.window)
    && (forall k | 0 <= k < |s.log| && s.log[k].Sent? ::
          s.log[k].token == if s.log[k].keeps
                            then Expected(s.log[..k], s.log[k].source, TokenOf(loaded, s.log[k].source))
                            else "")
  }

  ghost predicate Inv(s: System, loaded: Tokens) {
    UiInv(s) && StartInv(s) && PortalInv(s) && TokenInv(s, loaded)
  }

  // ---- Counting ------------------------------------------------------------------------------------

  lemma {:induction false} CountAppend(tasks: seq<Task>, t: Task)
    ensures NumStartTasks(tasks + [t]) == NumStartTasks(tasks) + if t.StartTask? then 1 else 0
  {
    if tasks != [] {
      assert (tasks + [t])[1..] == tasks[1..] + [t];
      CountAppend(tasks[1..], t);
    }
  }

  lemma {:induction false} CountZero(tasks: seq<Task>)
    requires NumStartTasks(tasks) == 0
    ensures forall i | 0 <= i < |tasks| :: !tasks[i].StartTask?
  {
    if tasks != [] {
      CountZero(tasks[1..]);
      forall i | 0 <= i < |tasks| ensures !tasks[i].StartTask? {
        assert i > 0 ==> tasks[i] == tasks[1..][i - 1];
      }
    }
  }

  lemma {:induction false} ExpectedSnoc(log: seq<TokenEvent>, e: TokenEvent, source: P.Source, loaded: string)
    ensures var before := Expected(log, source, loaded);
            Expected(log + [e], source, loaded)
              == (match e
                  case Sent(s, keeps, _) => if s == source && !keeps then "" else before
                  case Granted(s, keeps, token) => if s == source && keeps && token != "" then token else before)
  {
    assert (log + [e])[..|log|] == log;
  }

  // ---- The UI thread's turns -----------------------------------------------------------------------

  /** A recorder about to send its Start: everything holds and nothing is outstanding. */
  ghost predicate AboutToSend(s: System, loaded: Tokens) {
    && s.rec.state == Starting && s.flow == Flow(NoStep, None, false) && s.rec.canRecord && !s.assertionFailed
    && Outstanding(s) == 0 && PortalInv(s) && TokenInv(s, loaded)
  }

  lemma RequestStarts(s: System, loaded: Tokens)
    requires AboutToSend(s, loaded)
    ensures UiInv(RequestCapture(s)) && StartInv(RequestCapture(s)) && PortalInv(RequestCapture(s))
  {
    var r := RequestCapture(s);
    CountZero(s.tasks);
    CountAppend(s.tasks, r.tasks[|s.tasks|]);
    assert Outstanding(r) == 1;
  }

  lemma RequestTokens(s: System, loaded: Tokens)
    requires AboutToSend(s, loaded)
    ensures TokenInv(RequestCapture(s), loaded)
  {
    var r := RequestCapture(s);
    var e := r.log[|s.log|];
    assert r.log == s.log + [e];
    ExpectedSnoc(s.log, e, P.Screen, loaded.screen);
    ExpectedSnoc(s.log, e, P.Window, loaded.window);
    forall k | 0 <= k < |r.log| && r.log[k].Sent?
      ensures r.log[k].token == if r.log[k].keeps
                                then Expected(r.log[..k], r.log[k].source, TokenOf(loaded, r.log[k].source))
                                else ""
    {
      assert r.log[..k] == s.log[..k];
      if k == |s.log| {
        assert s.log[..k] == s.log;
      }
    }
  }

  lemma RequestKeeps(s: System, loaded: Tokens)
    requires AboutToSend(s, loaded)
    ensures Inv(RequestCapture(s), loaded)
  {
    RequestStarts(s, loaded);
    RequestTokens(s, loaded);
  }

  lemma StopKeeps(s: System, loaded: Tokens)
    requires Inv(s, loaded) && s.rec.state == Recording
    ensures Inv(StopRecording(s), loaded)
  {
    CountAppend(s.tasks, CloseTask);
    var r := StopRecording(s);
    assert Outstanding(r) == Outstanding(s);
  }

  /** The flow, with the recorder starting and nothing sent yet. */
  ghost predicate Preparing(s: System, loaded: Tokens) {
    && s.rec.state == Starting && s.rec.canRecord && !s.assertionFailed
    && Outstanding(s) == 0 && PortalInv(s) && TokenInv(s, loaded)
  }

  /** A flow step may be moved to from any preparation, with the deadline and the selector that go with it. */
  lemma StepFits(s: System, flow: Flow, loaded: Tokens)
    requires Preparing(s, loaded) && flow.step != NoStep
    requires (flow.deadline.Some? <==> HasDeadline(flow.step)) && (flow.selectorOpen <==> flow.step == Picking)
    ensures Inv(s.(flow := flow), loaded)
  {
    CountZero(s.tasks);
  }

  lemma CancelKeeps(s: System, loaded: Tokens)
    requires Preparing(s, loaded) && !s.flow.selectorOpen
    ensures Inv(Cancel(s), loaded)
  {
    CountZero(s.tasks);
  }

  lemma BeginKeeps(s: System, hides: bool, now: int, loaded: Tokens)
    requires Preparing(s, loaded) && !s.flow.selectorOpen
    ensures Inv(Begin(s, hides, now), loaded)
  {
    var begun := s.(flow := s.flow.(step := NoStep, deadline := None));
    if hides {
      StepFits(s, Settle(begun.flow, SettlingBeforeCapture, now), loaded);
    } else {
      assert AboutToSend(begun, loaded);
      RequestKeeps(begun, loaded);
    }
  }

  lemma ToggleKeeps(s: System, folderReady: bool, hides: bool, now: int, loaded: Tokens)
    requires Inv(s, loaded)
    ensures Inv(Toggle(s, folderReady, hides, now), loaded)
  {
    if s.rec.state == Recording {
      StopKeeps(s, loaded);
    } else if s.flow.step == NoStep && Prepare(s.rec, folderReady).1 {
      var prepared := s.(rec := s.rec.(state := Starting));
      assert Outstanding(prepared) == 0;
      assert Preparing(prepared, loaded);
      if s.rec.source == Region {
        StepFits(prepared, Settle(s.flow, SettlingBeforeBackdrop, now), loaded);
      } else {
        BeginKeeps(prepared, hides, now, loaded);
      }
    }
  }

  lemma OpenSelectorKeeps(s: System, opens: bool, loaded: Tokens)
    requires Preparing(s, loaded) && !s.flow.selectorOpen
    ensures Inv(OpenSelector(s, opens), loaded)
  {
    if opens {
      StepFits(s, Flow(Picking, None, true), loaded);
    } else {
      CancelKeeps(s.(flow := s.flow.(deadline := None)), loaded);
    }
  }

  lemma BackdropKeeps(s: System, e: Surroundings, loaded: Tokens)
    requires Preparing(s, loaded) && !s.flow.selectorOpen
    ensures Inv(RequestBackdrop(s, e), loaded)
  {
    if e.requests {
      StepFits(s, s.flow.(step := AwaitingBackdrop, deadline := Some(e.now + SCREENSHOT_PATIENCE)), loaded);
    } else {
      OpenSelectorKeeps(s, e.selectorOpens, loaded);
    }
  }

  lemma PickKeeps(s: System, e: Surroundings, loaded: Tokens)
    requires Inv(s, loaded) && s.flow.step == Picking
    ensures Inv(TakePick(s, e), loaded)
  {
    var closed := s.(flow := s.flow.(selectorOpen := false));
    assert Preparing(closed, loaded);
    match e.pick
    case Undecided =>
    case Accepted => StepFits(closed, Settle(closed.flow, SettlingAfterPicker, e.now), loaded);
    case Dismissed => CancelKeeps(closed, loaded);
  }

  /** A flow step that waits is a preparation. */
  lemma WaitingPrepares(s: System, loaded: Tokens)
    requires Inv(s, loaded) && s.flow.step != NoStep
    ensures Preparing(s, loaded)
  {
  }

  lemma CaptureKeeps(s: System, loaded: Tokens)
    requires Inv(s, loaded) && s.flow.step == SettlingBeforeCapture
    ensures Inv(RequestCapture(s.(flow := s.flow.(step := NoStep, deadline := None))), loaded)
  {
    WaitingPrepares(s, loaded);
    RequestKeeps(s.(flow := s.flow.(step := NoStep, deadline := None)), loaded);
  }

  lemma UpdateFlowKeeps(s: System, e: Surroundings, loaded: Tokens)
    requires Inv(s, loaded)
    ensures Inv(UpdateFlow(s, e), loaded)
  {
    match s.flow.step
    case NoStep =>
    case SettlingBeforeBackdrop =>
      WaitingPrepares(s, loaded);
      BackdropKeeps(s, e, loaded);
    case AwaitingBackdrop =>
      WaitingPrepares(s, loaded);
      OpenSelectorKeeps(s, e.selectorOpens, loaded);
    case Picking => PickKeeps(s, e, loaded);
    case SettlingAfterPicker =>
      WaitingPrepares(s, loaded);
      BeginKeeps(s, e.hides, e.now, loaded);
    case SettlingBeforeCapture => CaptureKeeps(s, loaded);
  }

  lemma ContinueTokens(s: System, answer: Queued, opens: bool, loaded: Tokens)
    requires TokenInv(s, loaded) && Outstanding(s) == 1 && IdsInv(s) && s.sent != [] && answer.id == Last(s).id
    ensures var r := Continue(s.(answers := []), answer, opens);
            Outstanding(r) == 0 ==> TokenInv(r, loaded)
  {
    var r := Continue(s.(answers := []), answer, opens);
    var e := r.log[|s.log|];
    assert r.log == s.log + [e];
    ExpectedSnoc(s.log, e, P.Screen, loaded.screen);
    ExpectedSnoc(s.log, e, P.Window, loaded.window);
    forall k | 0 <= k < |r.log| && r.log[k].Sent?
      ensures r.log[k].token == if r.log[k].keeps
                                then Expected(r.log[..k], r.log[k].source, TokenOf(loaded, r.log[k].source))
                                else ""
    {
      assert k < |s.log| && r.log[..k] == s.log[..k];
    }
  }

  /** An answer that is queued is the only thing about, and answers the last Start. */
  lemma AnswerIsAlone(s: System, loaded: Tokens)
    requires Inv(s, loaded) && s.answers != []
    ensures |s.answers| == 1 && s.rec.state == Starting && s.flow.step == NoStep && NumStartTasks(s.tasks) == 0
    ensures !s.portal.busy && Outstanding(s) == 1 && s.sent != [] && s.answers[0].id == Last(s).id
  {
  }

  lemma OneAnswerTaken(s: System, opens: bool)
    requires |s.answers| == 1
    ensures TakeAnswers(s, opens) == Continue(s.(answers := []), s.answers[0], opens)
  {
    assert s.answers[1..] == [];
  }

  /** What taking an answer leaves alone. */
  lemma ContinueFrame(s: System, answer: Queued, opens: bool)
    ensures var r := Continue(s, answer, opens);
            && r.flow == s.flow && r.tasks == s.tasks && r.portal == s.portal && r.answers == s.answers
            && r.sent == s.sent && r.assertionFailed == s.assertionFailed && r.rec.canRecord == s.rec.canRecord
            && r.rec.state in {Idle, Recording}
  {
  }

  lemma ContinueKeeps(s: System, answer: Queued, opens: bool, loaded: Tokens)
    requires Inv(s, loaded) && s.answers == [answer]
    ensures Inv(Continue(s.(answers := []), answer, opens), loaded)
  {
    AnswerIsAlone(s, loaded);
    CountZero(s.tasks);
    ContinueFrame(s.(answers := []), answer, opens);
    ContinueTokens(s, answer, opens, loaded);
    var r := Continue(s.(answers := []), answer, opens);
    assert Outstanding(r) == 0;
    assert StartInv(r) && PortalInv(r);
  }

  lemma TakeAnswersKeeps(s: System, opens: bool, loaded: Tokens)
    requires Inv(s, loaded)
    ensures Inv(TakeAnswers(s, opens), loaded)
  {
    if s.answers != [] {
      AnswerIsAlone(s, loaded);
      OneAnswerTaken(s, opens);
      ContinueKeeps(s, s.answers[0], opens, loaded);
    }
  }

  lemma HearingKeeps(s: System, loaded: Tokens)
    requires Inv(s, loaded)
    ensures Inv(s.(withdrawn := false), loaded)
  {
    assert Outstanding(s.(withdrawn := false)) == Outstanding(s);
  }

  lemma UpdateRecorderKeeps(s: System, opens: bool, loaded: Tokens)
    requires Inv(s, loaded)
    ensures Inv(UpdateRecorder(s, opens), loaded)
  {
    TakeAnswersKeeps(s, opens, loaded);
    var taken := TakeAnswers(s, opens);
    HearingKeeps(taken, loaded);
    if taken.rec.state == Recording {
      StopKeeps(taken.(withdrawn := false), loaded);
    }
  }

  lemma SavingKeeps(s: System, stores: bool, loaded: Tokens)
    requires Inv(s, loaded)
    ensures Inv(SaveChanges(s, stores), loaded)
  {
    var r := SaveChanges(s, stores);
    assert Outstanding(r) == Outstanding(s) && r.rec == s.rec.(changes := r.rec.changes);
    assert TokenInv(r, loaded);
  }

  lemma ChoiceKeeps(s: System, t: Turn, loaded: Tokens)
    requires Inv(s, loaded) && (t.SetSource? || t.SetRememberWindow? || t.Withdraw?)
    ensures Inv(Apply(s, t), loaded)
  {
    assert Outstanding(Apply(s, t)) == Outstanding(s);
  }

  // ---- The bus thread's turns ----------------------------------------------------------------------

  /** What a turn of the portal leaves alone: the request it works on, and being ready. */
  predicate SameRequest(p: P.Portal, r: P.Portal) {
    r.wanted == p.wanted && r.initialized == p.initialized
  }

  /** Closing, or hearing of a session's end, gives nobody an answer. */
  lemma CloseGivesNoAnswer(p: P.Portal, e: P.Event)
    requires e.CloseTask? || e.Closed?
    ensures var r := P.Apply(p, e);
            && r.busy == p.busy && r.callback == p.callback && SameRequest(p, r) && r.log.answers == p.log.answers
            && r.log.accepted == p.log.accepted && r.log.abandoned == p.log.abandoned
  {
  }

  lemma FinishFrame(p: P.Portal, grant: P.Grant)
    ensures SameRequest(p, P.Finish(p, grant))
  {
  }

  lemma SelectFrame(p: P.Portal, sends: bool)
    ensures SameRequest(p, P.Select(p, sends))
  {
    var following := P.Following(p);
    assert SameRequest(p, following);
    FinishFrame(P.Ask(following, P.SelectSources, false).0, P.FAILED);
  }

  lemma CreatedFrame(p: P.Portal, reply: P.Reply)
    ensures SameRequest(p, P.OnSessionCreated(p, reply))
  {
    var named := P.Named(p, reply);
    assert SameRequest(p, named);
    if named.handle.None? || !reply.subscribes {
      FinishFrame(named, P.FAILED);
      assert P.OnSessionCreated(p, reply) == P.Finish(named, P.FAILED);
    } else {
      SelectFrame(named, reply.sends);
      assert P.OnSessionCreated(p, reply) == P.Select(named, reply.sends);
    }
  }

  lemma StartedFrame(p: P.Portal, reply: P.Reply)
    ensures SameRequest(p, P.OnStarted(p, reply))
  {
    FinishFrame(p, P.Grant(P.Failed, reply.token));
    FinishFrame(p, P.Grant(P.Success, reply.token));
  }

  lemma SelectedFrame(p: P.Portal, reply: P.Reply)
    ensures SameRequest(p, P.OnSourcesSelected(p, reply))
  {
    FinishFrame(P.Ask(p, P.StartCast, false).0, P.FAILED);
  }

  lemma GoOnFrame(p: P.Portal, answered: P.Step, reply: P.Reply)
    ensures SameRequest(p, P.GoOn(p, answered, reply))
  {
    CreatedFrame(p, reply);
    SelectedFrame(p, reply);
    StartedFrame(p, reply);
  }

  lemma ResponseFrame(p: P.Portal, reply: P.Reply)
    ensures SameRequest(p, P.OnResponse(p, reply))
  {
    var heard := p.(hasResponseSlot := false, step := P.NoStep);
    FinishFrame(heard, P.FAILED);
    FinishFrame(heard, P.Grant(P.Cancelled, ""));
    GoOnFrame(heard, p.step, reply);
  }

  /** The portal still works on the last Start sent, or has given it an answer. */
  ghost predicate WorksOnOrAnswers(s: System, portal: P.Portal)
    requires s.sent != []
  {
    if portal.busy then portal.log.answers == s.portal.log.answers && WorksOn(portal, Last(s))
    else exists grant :: portal.log.answers == s.portal.log.answers + [P.Answer(Last(s).id, grant, false)]
  }

  lemma DeliverKeepsStart(s: System, portal: P.Portal)
    requires s.rec.state == Starting && s.flow.step == NoStep && s.sent != []
    requires NumStartTasks(s.tasks) == 0 && s.answers == [] && WorksOnOrAnswers(s, portal)
    ensures StartInv(Deliver(s, portal)) && Outstanding(Deliver(s, portal)) == 1
  {
    CountZero(s.tasks);
    var r := Deliver(s, portal);
    if portal.busy {
      assert r.answers == [];
    } else {
      assert |r.answers| == 1 && r.answers[0].id == Last(s).id;
    }
  }

  lemma DeliverKeepsTokens(s: System, portal: P.Portal, loaded: Tokens)
    requires TokenInv(s, loaded) && s.sent != []
    requires Last(s).token == TokenOf(s.rec.tokens, Last(s).source)
    ensures TokenInv(Deliver(s, portal), loaded)
  {
  }

  /** A turn of the portal that takes the Start in flight from one state of the exchange to another. */
  lemma DeliverKeeps(s: System, portal: P.Portal, loaded: Tokens)
    requires UiInv(s) && TokenInv(s, loaded) && NoneRefused(s.portal.log.answers)
    requires s.rec.state == Starting && s.flow.step == NoStep && s.sent != []
    requires NumStartTasks(s.tasks) == 0 && s.answers == []
    requires Last(s).token == TokenOf(s.rec.tokens, Last(s).source)
    requires P.Inv(portal) && (s.rec.canRecord ==> portal.initialized) && portal.log.abandoned == []
    requires IdsInv(s.(portal := portal))
    requires WorksOnOrAnswers(s, portal)
    ensures Inv(Deliver(s, portal), loaded)
  {
    DeliverKeepsStart(s, portal);
    DeliverKeepsTokens(s, portal, loaded);
    assert NoneRefused(portal.log.answers);
  }

  /** A Start that waits at the head of the tasks is the last one sent, and the only one about. */
  lemma StartAtTheHead(s: System, loaded: Tokens)
    requires Inv(s, loaded) && s.tasks != [] && s.tasks[0].StartTask?
    ensures s.sent != [] && s.tasks[0].request == Last(s) && !s.portal.busy && s.portal.initialized && s.answers == []
    ensures NumStartTasks(s.tasks[1..]) == 0 && s.rec.state == Starting && s.flow.step == NoStep
    ensures Last(s).token == TokenOf(s.rec.tokens, Last(s).source)
    ensures s.portal.log.accepted == Ids(|s.sent| - 1) && Last(s).id == |s.sent| - 1
  {
    assert s.tasks[0].request == Last(s);
  }

  lemma AcceptedNext(s: System, portal: P.Portal, rest: seq<Task>)
    requires s.sent != [] && NumStartTasks(rest) == 0 && forall i | 0 <= i < |s.sent| :: s.sent[i].id == i
    requires portal.log.accepted == Ids(|s.sent| - 1) + [|s.sent| - 1]
    ensures IdsInv(s.(tasks := rest, portal := portal))
  {
    assert Ids(|s.sent| - 1) + [|s.sent| - 1] == Ids(|s.sent|);
  }

  /** What the portal makes of a Start that finds it idle: it is at work on it, or has answered it. */
  lemma StartTakenUp(p: P.Portal, request: P.Request, sends: bool)
    requires P.Inv(p) && p.initialized && !p.busy
    ensures var r := P.Start(p, request, sends);
            && P.Inv(r) && r.initialized && r.log.abandoned == p.log.abandoned
            && r.log.accepted == p.log.accepted + [request.id]
            && if r.busy then r.log.answers == p.log.answers && WorksOn(r, request)
               else r.log.answers == p.log.answers + [P.Answer(request.id, P.FAILED, false)]
  {
    P.StartKeeps(p, request, sends);
    P.StartMoves(p, request, sends);
    StartFrame(p, request, sends);
  }

  /** The Start's own task finds the portal idle and ready, and is taken up. */
  lemma StartTaskKeeps(s: System, sends: bool, loaded: Tokens)
    requires Inv(s, loaded) && s.tasks != [] && s.tasks[0].StartTask?
    ensures Inv(RunTask(s, sends), loaded)
  {
    StartAtTheHead(s, loaded);
    StartTakenUp(s.portal, Last(s), sends);
    var portal := P.Start(s.portal, Last(s), sends);
    AcceptedNext(s, portal, s.tasks[1..]);
    StartDelivered(s, s.tasks[1..], portal, loaded);
  }

  lemma StartDelivered(s: System, rest: seq<Task>, portal: P.Portal, loaded: Tokens)
    requires UiInv(s) && TokenInv(s, loaded) && NoneRefused(s.portal.log.answers)
    requires s.rec.state == Starting && s.flow.step == NoStep && s.sent != []
    requires NumStartTasks(rest) == 0 && s.answers == []
    requires Last(s).token == TokenOf(s.rec.tokens, Last(s).source)
    requires P.Inv(portal) && portal.initialized && portal.log.abandoned == []
    requires IdsInv(s.(tasks := rest, portal := portal))
    requires WorksOnOrAnswers(s, portal)
    ensures Inv(Deliver(s.(tasks := rest), portal), loaded)
  {
    assert WorksOnOrAnswers(s.(tasks := rest), portal);
    DeliverKeeps(s.(tasks := rest), portal, loaded);
  }

  /** The portal takes up the request itself. */
  lemma StartFrame(p: P.Portal, request: P.Request, sends: bool)
    requires p.initialized && !p.busy
    ensures var r := P.Start(p, request, sends);
            && r.wanted == P.Wanted(request.source, request.rememberWindow, request.token)
            && r.initialized == p.initialized && r.log.abandoned == p.log.abandoned
  {
    P.FinishFields(P.Ask(P.Begun(p, request), P.CreateSession, false).0, P.FAILED);
    P.FinishLog(P.Ask(P.Begun(p, request), P.CreateSession, false).0, P.FAILED);
  }

  /** A turn of the portal that answers nobody only changes the portal. */
  lemma DeliversNothing(s: System, portal: P.Portal)
    requires portal.log.answers == s.portal.log.answers
    ensures Deliver(s, portal) == s.(portal := portal)
  {
    assert Deliver(s, portal).answers == s.answers;
  }

  /** A turn of the portal, or the end of a task, that leaves the Starts where they were. */
  lemma NothingDelivered(s: System, tasks: seq<Task>, portal: P.Portal, loaded: Tokens)
    requires Inv(s, loaded) && P.Inv(portal)
    requires portal.busy == s.portal.busy && portal.callback == s.portal.callback && SameRequest(s.portal, portal)
    requires portal.log.answers == s.portal.log.answers
    requires portal.log.accepted == s.portal.log.accepted && portal.log.abandoned == s.portal.log.abandoned
    requires NumStartTasks(tasks) == NumStartTasks(s.tasks)
    requires forall i | 0 <= i < |tasks| :: tasks[i] in s.tasks
    ensures Inv(s.(tasks := tasks, portal := portal), loaded)
  {
    SameStarts(s, tasks, portal);
    SameIds(s, tasks, portal);
    SameTokens(s, s.(tasks := tasks, portal := portal), loaded);
  }

  lemma SameStarts(s: System, tasks: seq<Task>, portal: P.Portal)
    requires StartInv(s)
    requires portal.busy == s.portal.busy && portal.callback == s.portal.callback && portal.wanted == s.portal.wanted
    requires NumStartTasks(tasks) == NumStartTasks(s.tasks)
    requires forall i | 0 <= i < |tasks| :: tasks[i] in s.tasks
    ensures StartInv(s.(tasks := tasks, portal := portal))
    ensures Outstanding(s.(tasks := tasks, portal := portal)) == Outstanding(s)
  {
    var r := s.(tasks := tasks, portal := portal);
    forall i | 0 <= i < |tasks| && tasks[i].StartTask? ensures r.sent != [] && tasks[i].request == Last(r) {
      var j :| 0 <= j < |s.tasks| && s.tasks[j] == tasks[i];
    }
  }

  lemma SameIds(s: System, tasks: seq<Task>, portal: P.Portal)
    requires PortalInv(s) && P.Inv(portal) && portal.initialized == s.portal.initialized
    requires portal.log.answers == s.portal.log.answers
    requires portal.log.accepted == s.portal.log.accepted && portal.log.abandoned == s.portal.log.abandoned
    requires NumStartTasks(tasks) == NumStartTasks(s.tasks)
    ensures PortalInv(s.(tasks := tasks, portal := portal))
  {
  }

  lemma SameTokens(s: System, r: System, loaded: Tokens)
    requires TokenInv(s, loaded) && Outstanding(r) == Outstanding(s)
    requires r.rec == s.rec && r.log == s.log && r.sent == s.sent && r.saved == s.saved && r.missed == s.missed
    ensures TokenInv(r, loaded)
  {
  }

  lemma CloseTaskKeeps(s: System, sends: bool, loaded: Tokens)
    requires Inv(s, loaded) && s.tasks != [] && s.tasks[0].CloseTask?
    ensures Inv(RunTask(s, sends), loaded)
  {
    P.EventKeeps(s.portal, P.CloseTask);
    CloseGivesNoAnswer(s.portal, P.CloseTask);
    NothingDelivered(s, s.tasks[1..], P.Apply(s.portal, P.CloseTask), loaded);
    DeliversNothing(s.(tasks := s.tasks[1..]), P.Apply(s.portal, P.CloseTask));
  }

  /** What a response makes of the request the portal works on: it still does, or has answered it. */
  lemma ResponseTakenUp(p: P.Portal, request: P.Request, reply: P.Reply)
    requires P.Inv(p) && p.hasResponseSlot && WorksOn(p, request)
    ensures var r := P.OnResponse(p, reply);
            && P.Inv(r) && r.initialized == p.initialized && r.log.abandoned == p.log.abandoned
            && r.log.accepted == p.log.accepted
            && if r.busy then r.log.answers == p.log.answers && WorksOn(r, request)
               else exists grant :: r.log.answers == p.log.answers + [P.Answer(request.id, grant, false)]
  {
    P.ResponseKeeps(p, reply);
    P.ResponseMoves(p, reply);
    ResponseFrame(p, reply);
    var r := P.OnResponse(p, reply);
    if !P.Advanced(p, r) {
      var grant :| P.Ended(p, r, grant);
      assert r.log.answers == p.log.answers + [P.Answer(request.id, grant, false)];
    }
  }

  /** While the portal is busy it works on the last Start, which is nowhere else. */
  lemma BusyOnTheLast(s: System, loaded: Tokens)
    requires Inv(s, loaded) && s.portal.busy
    ensures s.sent != [] && WorksOn(s.portal, Last(s)) && s.answers == [] && NumStartTasks(s.tasks) == 0
    ensures s.rec.state == Starting && s.flow.step == NoStep && s.portal.initialized
    ensures Last(s).token == TokenOf(s.rec.tokens, Last(s).source)
  {
  }

  lemma ResponseKeeps(s: System, reply: P.Reply, loaded: Tokens)
    requires Inv(s, loaded) && s.portal.hasResponseSlot
    ensures Inv(Deliver(s, P.OnResponse(s.portal, reply)), loaded)
  {
    BusyOnTheLast(s, loaded);
    ResponseTakenUp(s.portal, Last(s), reply);
    StartDelivered(s, s.tasks, P.OnResponse(s.portal, reply), loaded);
  }

  /** A response, or the end of a session, at any moment. */
  lemma SignalKeeps(s: System, e: P.Event, loaded: Tokens)
    requires Inv(s, loaded) && (e.Response? || e.Closed?) && P.Enabled(s.portal, e)
    ensures Inv(Deliver(s, P.Apply(s.portal, e)), loaded)
  {
    if e.Response? {
      ResponseKeeps(s, e.reply, loaded);
    } else {
      P.EventKeeps(s.portal, e);
      CloseGivesNoAnswer(s.portal, e);
      NothingDelivered(s, s.tasks, P.Apply(s.portal, e), loaded);
      DeliversNothing(s, P.Apply(s.portal, e));
    }
  }

  lemma TurnKeeps(s: System, t: Turn, loaded: Tokens)
    requires Inv(s, loaded) && Enabled(s, t)
    ensures Inv(Apply(s, t), loaded)
  {
    match t
    case DoToggle(folderReady, hides, now) => ToggleKeeps(s, folderReady, hides, now, loaded);
    case DoUpdateFlow(e) => UpdateFlowKeeps(s, e, loaded);
    case DoUpdateRecorder(opens) => UpdateRecorderKeeps(s, opens, loaded);
    case DoTask(sends) =>
      if s.tasks[0].StartTask? {
        StartTaskKeeps(s, sends, loaded);
      } else {
        CloseTaskKeeps(s, sends, loaded);
      }
    case Signal(e) => SignalKeeps(s, e, loaded);
    case TakeChanges(stores) => SavingKeeps(s, stores, loaded);
    case _ => ChoiceKeeps(s, t, loaded);
  }

  // ---- Every run -----------------------------------------------------------------------------------

  ghost predicate Runs(s: System, turns: seq<Turn>)
    decreases |turns|
  {
    turns == [] || (Enabled(s, turns[0]) && Runs(Apply(s, turns[0]), turns[1..]))
  }

  ghost function After(s: System, turns: seq<Turn>): System
    requires Runs(s, turns)
    decreases |turns|
  {
    if turns == [] then s else After(Apply(s, turns[0]), turns[1..])
  }

  lemma {:induction false} RunsSnoc(s: System, turns: seq<Turn>, t: Turn)
    ensures Runs(s, turns + [t]) <==> Runs(s, turns) && Enabled(After(s, turns), t)
    ensures Runs(s, turns + [t]) ==> After(s, turns + [t]) == Apply(After(s, turns), t)
    decreases |turns|
  {
    if turns == [] {
      assert [] + [t] == [t] && [t][1..] == [];
    } else {
      assert (turns + [t])[1..] == turns[1..] + [t];
      if Enabled(s, turns[0]) {
        RunsSnoc(Apply(s, turns[0]), turns[1..], t);
      }
    }
  }

  lemma InitialHolds(canRecord: bool, hasPortal: bool, source: Choice, rememberWindow: bool, loaded: Tokens)
    ensures Inv(Initial(canRecord, hasPortal, source, rememberWindow, loaded), loaded)
  {
  }

  lemma {:induction false} TurnsKeep(s: System, turns: seq<Turn>, loaded: Tokens)
    requires Inv(s, loaded) && Runs(s, turns)
    ensures Inv(After(s, turns), loaded)
    decreases |turns|
  {
    if turns != [] {
      TurnKeeps(s, turns[0], loaded);
      TurnsKeep(Apply(s, turns[0]), turns[1..], loaded);
    }
  }

  /** How Klip starts: what it can record, whether there is a portal, and the settings it has loaded. */
  datatype Beginning = Beginning(canRecord: bool, hasPortal: bool, source: Choice, rememberWindow: bool, loaded: Tokens)

  function First(b: Beginning): System {
    Initial(b.canRecord, b.hasPortal, b.source, b.rememberWindow, b.loaded)
  }

  lemma RunKeeps(b: Beginning, turns: seq<Turn>)
    requires Runs(First(b), turns)
    ensures Inv(After(First(b), turns), b.loaded)
  {
    InitialHolds(b.canRecord, b.hasPortal, b.source, b.rememberWindow, b.loaded);
    TurnsKeep(First(b), turns, b.loaded);
  }

  /** Over every run before shutdown: a flow under way means a starting recorder; one Start is outstanding
      exactly while the recorder starts with the flow through, and there is never another; so neither of the
      recorder's assertions fails, and the portal never refuses a Start as already running or not ready. */
  lemma OneStartOutstanding(b: Beginning, turns: seq<Turn>)
    requires Runs(First(b), turns)
    ensures var s := After(First(b), turns);
            && (s.flow.step != NoStep ==> s.rec.state == Starting)
            && (Outstanding(s) == 1 <==> s.rec.state == Starting && s.flow.step == NoStep)
            && Outstanding(s) <= 1
            && !s.assertionFailed
            && NoneRefused(s.portal.log.answers)
  {
    RunKeeps(b, turns);
  }

  lemma TakesAnswer(s: System, opens: bool, loaded: Tokens)
    requires Inv(s, loaded)
    ensures s.answers != [] ==>
              s.sent != [] && s.answers[0].id == Last(s).id && Asked(s.sent, s.answers[0].id) == Last(s)
  {
  }

  /** Over every run the answers come back to the Starts they are for: the portal has answered the Starts in
      the order they were sent, each once, but for the one it is at work on or has not been given; and an
      answer on its way calls the callback of the last Start sent. */
  lemma EachStartIsAnsweredOnce(b: Beginning, turns: seq<Turn>)
    requires Runs(First(b), turns)
    ensures var s := After(First(b), turns);
            && (forall i | 0 <= i < |s.sent| :: s.sent[i].id == i)
            && NumStartTasks(s.tasks) <= |s.sent|
            && P.Answered(s.portal.log.answers) + P.Pending(s.portal) == Ids(|s.sent| - NumStartTasks(s.tasks))
            && |s.answers| <= 1
            && (s.answers != [] ==> s.sent != [] && Asked(s.sent, s.answers[0].id) == Last(s))
  {
    RunKeeps(b, turns);
    var s := After(First(b), turns);
    TakesAnswer(s, true, b.loaded);
    AnsweredInOrder(s);
  }

  lemma AnsweredInOrder(s: System)
    requires P.LedgerInv(s.portal) && s.portal.log.abandoned == [] && IdsInv(s)
    ensures P.Answered(s.portal.log.answers) + P.Pending(s.portal) == Ids(|s.sent| - NumStartTasks(s.tasks))
  {
    assert P.Answered(s.portal.log.answers) + [] == P.Answered(s.portal.log.answers);
  }

  /** The token every kept Start carried, in every run, is the expected one, and so is the one the portal is
      told of; a token that differs from the one in the settings file is flagged, or was taken by a save that was
      not stored. */
  lemma TokensOverRuns(b: Beginning, turns: seq<Turn>, k: nat)
    requires Runs(First(b), turns)
    ensures var s := After(First(b), turns);
            && (k < |s.log| && s.log[k].Sent? && s.log[k].keeps ==>
                  s.log[k].token == Expected(s.log[..k], s.log[k].source, TokenOf(b.loaded, s.log[k].source)))
            && (k < |s.log| && s.log[k].Sent? && !s.log[k].keeps ==> s.log[k].token == "")
            && (s.portal.step in {P.SelectSources, P.StartCast} ==>
                  s.portal.log.selections != []
                  && s.portal.log.selections[|s.portal.log.selections| - 1].token
                       == Expected(s.log, s.portal.wanted.source, TokenOf(b.loaded, s.portal.wanted.source)))
            && (s.rec.tokens.screen != s.saved.screen ==> s.rec.changes.screen || s.missed.screen)
            && (s.rec.tokens.window != s.saved.window ==> s.rec.changes.window || s.missed.window)
  {
    RunKeeps(b, turns);
  }

  function StepRank(step: FlowStep): nat {
    match step
    case NoStep => 0
    case SettlingBeforeCapture => 1
    case SettlingAfterPicker => 2
    case Picking => 3
    case AwaitingBackdrop => 4
    case SettlingBeforeBackdrop => 5
  }

  /** A flow step has a deadline exactly when it is one that settles or awaits, the selector is open exactly
      while picking, and once a start is under way every change of step goes down the ranking: only a toggle
      from nothing goes up. */
  lemma FlowStepsDescend(b: Beginning, turns: seq<Turn>, t: Turn)
    requires Runs(First(b), turns) && Enabled(After(First(b), turns), t)
    ensures var before := After(First(b), turns).flow;
            var flow := Apply(After(First(b), turns), t).flow;
            && (flow.deadline.Some? <==> HasDeadline(flow.step))
            && (flow.selectorOpen <==> flow.step == Picking)
            && (flow.step == before.step
                || StepRank(flow.step) < StepRank(before.step)
                || (t.DoToggle? && before.step == NoStep))
  {
    RunKeeps(b, turns);
    TurnDescends(After(First(b), turns), t, b.loaded);
  }

  lemma TurnDescends(s: System, t: Turn, loaded: Tokens)
    requires Inv(s, loaded) && Enabled(s, t)
    ensures var flow := Apply(s, t).flow;
            && (flow.deadline.Some? <==> HasDeadline(flow.step))
            && (flow.selectorOpen <==> flow.step == Picking)
            && (flow.step == s.flow.step
                || StepRank(flow.step) < StepRank(s.flow.step)
                || (t.DoToggle? && s.flow.step == NoStep))
  {
    TurnKeeps(s, t, loaded);
    match t
    case DoUpdateRecorder(opens) => TakeAnswersLeavesFlow(s, opens);
    case DoUpdateFlow(e) => UpdateDescends(s, e);
    case _ =>
  }

  lemma UpdateDescends(s: System, e: Surroundings)
    ensures var step := UpdateFlow(s, e).flow.step;
            step == s.flow.step || StepRank(step) < StepRank(s.flow.step)
  {
  }

  lemma {:induction false} TakeAnswersLeavesFlow(s: System, opens: bool)
    ensures TakeAnswers(s, opens).flow == s.flow
    decreases |s.answers|
  {
    if s.answers != [] {
      TakeAnswersLeavesFlow(Continue(s.(answers := s.answers[1..]), s.answers[0], opens), opens);
    }
  }
}
