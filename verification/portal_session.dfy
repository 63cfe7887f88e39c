/** The exchange with the desktop portal that turns one Start into a stream or a refusal, on the bus thread,
    against an environment that may answer anything at any moment. */
module PortalSession {
  import opened Wrappers

  /** An open session on the portal's side, by its object path. */
  type Session = nat

  datatype Source = Screen | Window

  datatype Result = Success | Cancelled | Failed

  datatype Grant = Grant(result: Result, token: string)

  datatype Step = NoStep | CreateSession | SelectSources | StartCast

  /** What a caller asks for; `id` stands for its callback. */
  datatype Request = Request(id: nat, source: Source, rememberWindow: bool, token: string)

  /** The options that go out with SelectSources. */
  datatype Selection = Selection(window: bool, persists: bool, token: string)

  /** What a response says of the session: nothing, a handle with no characters in it, or a handle. */
  datatype SessionName = Absent | Empty | Given(session: Session)

  /** A Response signal, and how the calls that follow from it go: whether it can be read, what it
      says of the session, whether the Closed subscription and the next request succeed, what Start granted, and whether
      the PipeWire descriptor arrives and can be duplicated. */
  datatype Reply = Reply(
    readable: bool,
    code: nat,
    session: SessionName,
    subscribes: bool,
    sends: bool,
    streamsReadable: bool,
    token: string,
    streams: seq<(int, int)>,
    opensRemote: bool,
    duplicates: bool)

  /** One answered call; a refusal is given at once and touches nothing. */
  datatype Answer = Answer(id: nat, grant: Grant, refused: bool)

  /** The parts of a request the exchange comes back to. */
  datatype Wanted = Wanted(source: Source, rememberWindow: bool, token: string)

  /** What the callers, the portal and the bus have seen of the session so far. */
  datatype Log = Log(
    accepted: seq<nat>,
    answers: seq<Answer>,
    abandoned: seq<nat>,
    selections: seq<Selection>,
    created: seq<Session>,
    withdrawn: seq<Session>,
    closed: seq<Session>)

  /** The session's fields, and the subscriptions it has lost track of. */
  datatype Portal = Portal(
    initialized: bool,
    hasOnClosed: bool,
    busy: bool,
    callback: Option<nat>,
    step: Step,
    hasResponseSlot: bool,
    handle: Option<Session>,
    live: bool,
    closedSlot: Option<Session>,
    lostSlots: seq<Session>,
    wanted: Wanted,
    log: Log)

  function Initial(initialized: bool): Portal {
    Portal(initialized, true, false, None, NoStep, false, None, false, None, [], Wanted(Screen, false, ""),
           Log([], [], [], [], [], [], []))
  }

  const FAILED: Grant := Grant(Failed, "")

  function KeepsGrant(source: Source, rememberWindow: bool): bool {
    source == Screen || rememberWindow
  }

  // ---- Handlers ------------------------------------------------------------------------------------

  /** Unsubscribed before the call: the Closed that may follow is Klip's own doing. */
  function CloseSession(p: Portal): Portal {
    if p.handle.None? then p
    else p.(live := false, closedSlot := None, handle := None, log := p.log.(closed := p.log.closed + [p.handle.value]))
  }

  /** Any answer but a success leaves no session open. */
  function Finish(p: Portal, grant: Grant): Portal {
    var left := if grant.result == Success then p else CloseSession(p);
    var idle := left.(busy := false, callback := None);
    match p.callback
    case None => idle
    case Some(id) => idle.(log := idle.log.(answers := p.log.answers + [Answer(id, grant, false)]))
  }

  /** Subscribes, then calls; where either fails nothing stays subscribed. */
  function Ask(p: Portal, step: Step, sends: bool): (r: (Portal, bool))
    ensures r.1 == sends
  {
    if sends then (p.(hasResponseSlot := true, step := step), true)
    else (p.(hasResponseSlot := false, step := NoStep), false)
  }

  function Begun(p: Portal, request: Request): Portal {
    p.(wanted := Wanted(request.source, request.rememberWindow, request.token),
       callback := Some(request.id), busy := true, log := p.log.(accepted := p.log.accepted + [request.id]))
  }

  function Begin(p: Portal, request: Request, sends: bool): Portal {
    var (asked, sent) := Ask(Begun(p, request), CreateSession, sends);
    if sent then asked else Finish(asked, FAILED)
  }

  function Start(p: Portal, request: Request, sends: bool): Portal {
    if !p.initialized || p.busy then p.(log := p.log.(answers := p.log.answers + [Answer(request.id, FAILED, true)]))
    else Begin(p, request, sends)
  }

  /** The portal's answer names the session, or empties its name. */
  function Named(p: Portal, reply: Reply): Portal {
    match reply.session
    case Absent => p
    case Empty => p.(handle := None)
    case Given(session) => p.(handle := Some(session), log := p.log.(created := p.log.created + [session]))
  }

  /** The new subscription is stored over the old one, which is not ended by that. */
  function Following(p: Portal): Portal {
    p.(live := true, closedSlot := p.handle,
       lostSlots := if p.closedSlot.None? then p.lostSlots else p.lostSlots + [p.closedSlot.value])
  }

  function Selecting(p: Portal): Portal {
    p.(log := p.log.(selections := p.log.selections
         + [Selection(p.wanted.source == Window, KeepsGrant(p.wanted.source, p.wanted.rememberWindow),
                      p.wanted.token)]))
  }

  function Select(p: Portal, sends: bool): Portal {
    var (asked, sent) := Ask(Following(p), SelectSources, sends);
    if sent then Selecting(asked) else Finish(asked, FAILED)
  }

  function OnSessionCreated(p: Portal, reply: Reply): Portal {
    var named := Named(p, reply);
    if named.handle.None? || !reply.subscribes then Finish(named, FAILED) else Select(named, reply.sends)
  }

  /** The request names the session, and an empty name cannot be appended. */
  function OnSourcesSelected(p: Portal, reply: Reply): Portal {
    var (asked, sent) := Ask(p, StartCast, reply.sends && p.handle.Some?);
    if sent then asked else Finish(asked, FAILED)
  }

  function OpenRemote(p: Portal, reply: Reply): Portal {
    if reply.opensRemote && p.handle.Some? && reply.duplicates
    then Finish(p, Grant(Success, reply.token))
    else Finish(p, Grant(Failed, reply.token))
  }

  function OnStarted(p: Portal, reply: Reply): Portal {
    if !reply.streamsReadable || reply.streams == [] then Finish(p, Grant(Failed, reply.token))
    else if reply.streams[0].0 <= 0 || reply.streams[0].1 <= 0 then Finish(p, Grant(Failed, reply.token))
    else OpenRemote(p, reply)
  }

  /** A step that went well leads to the next. */
  function GoOn(p: Portal, answered: Step, reply: Reply): Portal {
    if answered == CreateSession then OnSessionCreated(p, reply)
    else if answered == SelectSources then OnSourcesSelected(p, reply)
    else OnStarted(p, reply)
  }

  function OnResponse(p: Portal, reply: Reply): Portal {
    var heard := p.(hasResponseSlot := false, step := NoStep);
    if !reply.readable then Finish(heard, FAILED)
    else if p.step == StartCast && reply.code == 1 then Finish(heard, Grant(Cancelled, ""))
    else if reply.code != 0 then Finish(heard, FAILED)
    else GoOn(heard, p.step, reply)
  }

  /** A session's Closed reaches whoever still subscribes to it -- and ends whichever session is live. */
  function OnClosed(p: Portal, s: Session): Portal {
    if (p.closedSlot == Some(s) || s in p.lostSlots) && p.live then
      var gone := p.(live := false, closedSlot := None, handle := None);
      if p.hasOnClosed then gone.(log := p.log.(withdrawn := p.log.withdrawn + [s])) else gone
    else p
  }

  function Terminate(p: Portal): Portal {
    var left := CloseSession(p);
    left.(hasResponseSlot := false, callback := None, hasOnClosed := false, step := NoStep, initialized := false,
          busy := false,
          log := left.log.(abandoned :=
            if p.callback.None? then p.log.abandoned else p.log.abandoned + [p.callback.value]))
  }

  // ---- Runs ----------------------------------------------------------------------------------------

  datatype Event =
    | StartTask(request: Request, sends: bool)
    | CloseTask
    | Response(reply: Reply)
    | Closed(session: Session)
    | Stop

  predicate Enabled(p: Portal, e: Event) {
    e.Response? ==> p.hasResponseSlot
  }

  function Apply(p: Portal, e: Event): Portal {
    match e
    case StartTask(request, sends) => Start(p, request, sends)
    case CloseTask => CloseSession(p)
    case Response(reply) => OnResponse(p, reply)
    case Closed(s) => OnClosed(p, s)
    case Stop => Terminate(p)
  }

  predicate Runs(p: Portal, events: seq<Event>)
    decreases |events|
  {
    events == [] || (Enabled(p, events[0]) && Runs(Apply(p, events[0]), events[1..]))
  }

  function After(p: Portal, events: seq<Event>): Portal
    decreases |events|
  {
    if events == [] then p else After(Apply(p, events[0]), events[1..])
  }

  // ---- What holds between bus tasks ----------------------------------------------------------------

  /** The callers whose accepted Start has been answered. */
  function Answered(answers: seq<Answer>): seq<nat> {
    if answers == [] then []
    else
      var last := answers[|answers| - 1];
      if last.refused then Answered(answers[..|answers| - 1]) else Answered(answers[..|answers| - 1]) + [last.id]
  }

  function Pending(p: Portal): seq<nat> {
    if p.callback.None? then [] else [p.callback.value]
  }

  /** Being busy, owing an answer, having a step in flight and listening for its Response are one thing. */
  ghost predicate BusyInv(p: Portal) {
    && p.busy == p.callback.Some? == (p.step != NoStep) == p.hasResponseSlot
    && (!p.initialized ==> !p.busy)
  }

  /** A live session, a session's name and a subscription to its end are one thing. */
  predicate Coincide(p: Portal) {
    p.live == p.handle.Some? && p.closedSlot == p.handle
  }

  /** A session is followed that has no name any more, so that it cannot be closed. */
  predicate Stranded(p: Portal) {
    p.live && p.handle.None?
  }

  /** Everything but a stranded session coincides, and a session is stranded only until the next is named. */
  ghost predicate SessionInv(p: Portal) {
    && (Coincide(p) || (Stranded(p) && p.closedSlot.Some?))
    && (Stranded(p) ==> p.step in {NoStep, CreateSession})
  }

  /** Every accepted Start has been answered, in order, but the one in flight -- or the one a shutdown let go. */
  ghost predicate LedgerInv(p: Portal) {
    && p.log.accepted == Answered(p.log.answers) + p.log.abandoned + Pending(p)
    && (p.initialized ==> p.log.abandoned == [])
  }

  /** The portal has been told what was asked. */
  ghost predicate SelectionInv(p: Portal) {
    p.step in {SelectSources, StartCast} ==>
      p.log.selections != [] && p.log.selections[|p.log.selections| - 1]
        == Selection(p.wanted.source == Window, KeepsGrant(p.wanted.source, p.wanted.rememberWindow), p.wanted.token)
  }

  ghost predicate Inv(p: Portal) {
    BusyInv(p) && SessionInv(p) && LedgerInv(p) && SelectionInv(p)
  }

  lemma AnsweredSnoc(answers: seq<Answer>, a: Answer)
    ensures Answered(answers + [a]) == if a.refused then Answered(answers) else Answered(answers) + [a.id]
  {
    assert (answers + [a])[..|answers|] == answers;
  }

  /** What `Finish` is called on: the caller is still owed its answer, and no step is in flight. */
  ghost predicate Finishing(p: Portal) {
    && p.busy && p.callback.Some? && p.step == NoStep && !p.hasResponseSlot && p.initialized
    && p.log.accepted == Answered(p.log.answers) + p.log.abandoned + Pending(p)
    && p.log.abandoned == []
  }

  /** What finishing does to the exchange, and to the session. */
  lemma FinishFields(p: Portal, grant: Grant)
    requires p.callback.Some?
    ensures var r := Finish(p, grant);
            && !r.busy && r.callback == None && r.step == p.step && r.hasResponseSlot == p.hasResponseSlot
            && r.initialized == p.initialized && r.wanted == p.wanted
  {
  }

  lemma CloseFields(p: Portal)
    ensures var r := CloseSession(p);
            && r.lostSlots == p.lostSlots && r.hasOnClosed == p.hasOnClosed
            && if p.handle.None?
               then r.handle == p.handle && r.live == p.live && r.closedSlot == p.closedSlot
               else r.handle == None && !r.live && r.closedSlot == None
  {
  }

  lemma AnswerFields(p: Portal, left: Portal, grant: Grant)
    requires left == if grant.result == Success then p else CloseSession(p)
    ensures var r := Finish(p, grant);
            && r.lostSlots == left.lostSlots && r.hasOnClosed == left.hasOnClosed
            && r.handle == left.handle && r.live == left.live && r.closedSlot == left.closedSlot
  {
  }

  lemma FinishSession(p: Portal, grant: Grant)
    ensures var r := Finish(p, grant);
            && r.lostSlots == p.lostSlots && r.hasOnClosed == p.hasOnClosed
            && if grant.result == Success || p.handle.None?
               then r.handle == p.handle && r.live == p.live && r.closedSlot == p.closedSlot
               else r.handle == None && !r.live && r.closedSlot == None
  {
    CloseFields(p);
    AnswerFields(p, if grant.result == Success then p else CloseSession(p), grant);
  }

  lemma FinishLog(p: Portal, grant: Grant)
    requires p.callback.Some?
    ensures var r := Finish(p, grant);
            && r.log.answers == p.log.answers + [Answer(p.callback.value, grant, false)]
            && r.log.accepted == p.log.accepted && r.log.abandoned == p.log.abandoned
  {
  }

  lemma FinishKeeps(p: Portal, grant: Grant)
    requires Finishing(p)
    requires grant.result == Success ==> Coincide(p)
    requires grant.result != Success && p.handle.None? ==> p.live == p.closedSlot.Some?
    ensures Inv(Finish(p, grant))
  {
    FinishFields(p, grant);
    FinishSession(p, grant);
    FinishLog(p, grant);
    AnsweredSnoc(p.log.answers, Answer(p.callback.value, grant, false));
  }

  lemma RefusedKeeps(p: Portal, id: nat)
    requires Inv(p)
    ensures Inv(p.(log := p.log.(answers := p.log.answers + [Answer(id, FAILED, true)])))
  {
    AnsweredSnoc(p.log.answers, Answer(id, FAILED, true));
  }

  lemma BegunFinishes(p: Portal, request: Request)
    requires Inv(p) && p.initialized && !p.busy
    ensures Finishing(Begun(p, request).(hasResponseSlot := false, step := NoStep))
  {
  }

  lemma BegunKeeps(p: Portal, request: Request)
    requires Inv(p) && p.initialized && !p.busy
    ensures Inv(Begun(p, request).(hasResponseSlot := true, step := CreateSession))
  {
  }

  lemma StartKeeps(p: Portal, request: Request, sends: bool)
    requires Inv(p)
    ensures Inv(Start(p, request, sends))
  {
    if !p.initialized || p.busy {
      RefusedKeeps(p, request.id);
    } else if sends {
      BegunKeeps(p, request);
    } else {
      BegunFinishes(p, request);
      FinishKeeps(Begun(p, request).(hasResponseSlot := false, step := NoStep), FAILED);
    }
  }

  /** An exchange at the point where a response has been heard: nothing is in flight, and the caller waits. */
  ghost predicate Heard(p: Portal) {
    Finishing(p) && (Coincide(p) || (Stranded(p) && p.closedSlot.Some?))
  }

  lemma HeardHolds(p: Portal)
    requires Inv(p) && p.hasResponseSlot
    ensures Heard(p.(hasResponseSlot := false, step := NoStep))
    ensures p.step != CreateSession ==> Coincide(p.(hasResponseSlot := false, step := NoStep))
  {
  }

  lemma SelectKeeps(p: Portal, sends: bool)
    requires Finishing(p) && p.handle.Some?
    ensures Inv(Select(p, sends))
  {
    var following := Following(p);
    assert Finishing(following) && Coincide(following);
    if sends {
      SelectingKeeps(following);
    } else {
      FinishKeeps(following.(hasResponseSlot := false, step := NoStep), FAILED);
    }
  }

  lemma SelectingKeeps(p: Portal)
    requires Finishing(p) && Coincide(p)
    ensures Inv(Selecting(p.(hasResponseSlot := true, step := SelectSources)))
  {
  }

  lemma SessionCreatedKeeps(p: Portal, reply: Reply)
    requires Heard(p)
    ensures Inv(OnSessionCreated(p, reply))
  {
    var named := Named(p, reply);
    assert Finishing(named);
    if named.handle.None? || !reply.subscribes {
      FinishKeeps(named, FAILED);
    } else {
      SelectKeeps(named, reply.sends);
    }
  }

  lemma StartingKeeps(p: Portal)
    requires Finishing(p) && Coincide(p) && SelectionInv(p.(step := SelectSources))
    ensures Inv(p.(hasResponseSlot := true, step := StartCast))
  {
  }

  lemma SourcesSelectedKeeps(p: Portal, reply: Reply)
    requires Finishing(p) && Coincide(p) && SelectionInv(p.(step := SelectSources))
    ensures Inv(OnSourcesSelected(p, reply))
  {
    if reply.sends && p.handle.Some? {
      StartingKeeps(p);
    } else {
      FinishKeeps(p.(hasResponseSlot := false, step := NoStep), FAILED);
    }
  }

  lemma StartedKeeps(p: Portal, reply: Reply)
    requires Finishing(p) && Coincide(p)
    ensures Inv(OnStarted(p, reply))
  {
    FinishKeeps(p, Grant(Failed, reply.token));
    FinishKeeps(p, Grant(Success, reply.token));
  }

  lemma ResponseKeeps(p: Portal, reply: Reply)
    requires Inv(p) && p.hasResponseSlot
    ensures Inv(OnResponse(p, reply))
  {
    var heard := p.(hasResponseSlot := false, step := NoStep);
    HeardHolds(p);
    if !reply.readable || reply.code != 0 {
      FinishKeeps(heard, FAILED);
      FinishKeeps(heard, Grant(Cancelled, ""));
    } else if p.step == CreateSession {
      SessionCreatedKeeps(heard, reply);
    } else if p.step == SelectSources {
      SourcesSelectedKeeps(heard, reply);
    } else {
      StartedKeeps(heard, reply);
    }
  }

  lemma OtherKeeps(p: Portal, e: Event)
    requires Inv(p) && (e.CloseTask? || e.Closed? || e.Stop?)
    ensures Inv(Apply(p, e))
  {
  }

  lemma EventKeeps(p: Portal, e: Event)
    requires Inv(p) && Enabled(p, e)
    ensures Inv(Apply(p, e))
  {
    match e
    case StartTask(request, sends) => StartKeeps(p, request, sends);
    case Response(reply) => ResponseKeeps(p, reply);
    case _ => OtherKeeps(p, e);
  }

  lemma {:induction false} EventsKeep(p: Portal, events: seq<Event>)
    requires Inv(p) && Runs(p, events)
    ensures Inv(After(p, events))
    decreases |events|
  {
    if events != [] {
      EventKeeps(p, events[0]);
      EventsKeep(Apply(p, events[0]), events[1..]);
    }
  }

  /** Between any two bus tasks of any run, against any environment. */
  lemma RunKeeps(initialized: bool, events: seq<Event>)
    requires Runs(Initial(initialized), events)
    ensures Inv(After(Initial(initialized), events))
  {
    EventsKeep(Initial(initialized), events);
  }

  // ---- Answers -------------------------------------------------------------------------------------

  /** How many responses an exchange still waits for. */
  function Rank(p: Portal): nat {
    match p.step
    case NoStep => 0
    case CreateSession => 3
    case SelectSources => 2
    case StartCast => 1
  }

  /** The exchange goes on with its next step. */
  ghost predicate Advanced(p: Portal, r: Portal) {
    && r.busy && r.callback == p.callback && Rank(r) == Rank(p) - 1
    && r.log.answers == p.log.answers && r.log.accepted == p.log.accepted && r.log.abandoned == p.log.abandoned
  }

  /** The exchange is over: its caller has its answer, a success leaves a live session, and anything else
      leaves no session named -- and none live, but one that was followed before this exchange began. */
  ghost predicate Ended(p: Portal, r: Portal, grant: Grant) {
    && !r.busy && r.callback == None && p.callback.Some?
    && r.log.answers == p.log.answers + [Answer(p.callback.value, grant, false)]
    && r.log.accepted == p.log.accepted && r.log.abandoned == p.log.abandoned
    && (grant.result == Success ==> r.handle.Some? && r.live)
    && (grant.result != Success ==> r.handle == None && (r.live ==> p.live && p.step == CreateSession))
  }

  ghost predicate Moved(p: Portal, r: Portal) {
    Advanced(p, r) || exists grant :: Ended(p, r, grant)
  }

  lemma FinishEnds(p: Portal, heard: Portal, grant: Grant)
    requires heard.callback == p.callback && p.callback.Some? && heard.log.answers == p.log.answers
    requires heard.log.accepted == p.log.accepted && heard.log.abandoned == p.log.abandoned
    requires grant.result == Success ==> heard.handle.Some? && heard.live
    requires heard.handle.None? && heard.live ==> p.live && p.step == CreateSession
    ensures Ended(p, Finish(heard, grant), grant)
  {
    FinishFields(heard, grant);
    FinishSession(heard, grant);
    FinishLog(heard, grant);
  }

  lemma CreatedMoves(p: Portal, heard: Portal, reply: Reply)
    requires Inv(p) && p.step == CreateSession && heard == p.(hasResponseSlot := false, step := NoStep)
    ensures Moved(p, OnSessionCreated(heard, reply))
  {
    var named := Named(heard, reply);
    if named.handle.None? || !reply.subscribes {
      FinishEnds(p, named, FAILED);
    } else if !reply.sends {
      FinishEnds(p, Ask(Following(named), SelectSources, false).0, FAILED);
    } else {
      assert Advanced(p, OnSessionCreated(heard, reply));
    }
  }

  lemma SelectedMoves(p: Portal, heard: Portal, reply: Reply)
    requires Inv(p) && p.step == SelectSources && heard == p.(hasResponseSlot := false, step := NoStep)
    ensures Moved(p, OnSourcesSelected(heard, reply))
  {
    if reply.sends && p.handle.Some? {
      assert Advanced(p, OnSourcesSelected(heard, reply));
    } else {
      FinishEnds(p, Ask(heard, StartCast, false).0, FAILED);
    }
  }

  lemma StartedMoves(p: Portal, heard: Portal, reply: Reply)
    requires Inv(p) && p.step == StartCast && heard == p.(hasResponseSlot := false, step := NoStep)
    ensures Moved(p, OnStarted(heard, reply))
  {
    FinishEnds(p, heard, Grant(Failed, reply.token));
    if p.handle.Some? {
      FinishEnds(p, heard, Grant(Success, reply.token));
    }
  }

  /** A response takes its exchange one step on, or ends it. */
  lemma ResponseMoves(p: Portal, reply: Reply)
    requires Inv(p) && p.hasResponseSlot
    ensures Moved(p, OnResponse(p, reply))
  {
    var heard := p.(hasResponseSlot := false, step := NoStep);
    if !reply.readable || reply.code != 0 {
      FinishEnds(p, heard, FAILED);
      FinishEnds(p, heard, Grant(Cancelled, ""));
    } else {
      match p.step
      case CreateSession => CreatedMoves(p, heard, reply);
      case SelectSources => SelectedMoves(p, heard, reply);
      case StartCast => StartedMoves(p, heard, reply);
    }
  }

  /** A Start is taken up, refused -- leaving everything as it was -- or taken up and failed at once. */
  lemma StartMoves(p: Portal, request: Request, sends: bool)
    requires Inv(p)
    ensures var r := Start(p, request, sends);
            if !p.initialized || p.busy
            then r == p.(log := p.log.(answers := p.log.answers + [Answer(request.id, FAILED, true)]))
            else
              && r.log.accepted == p.log.accepted + [request.id]
              && (sends ==> r.busy && r.callback == Some(request.id) && r.log.answers == p.log.answers
                            && r.handle == p.handle)
              && (!sends ==> !r.busy && r.log.answers == p.log.answers + [Answer(request.id, FAILED, false)]
                             && r.handle == None)
  {
  }

  /** Nothing but a response ends an exchange, short of shutdown. */
  lemma OthersWait(p: Portal, e: Event)
    requires Inv(p) && p.busy && !e.Response? && !e.Stop?
    ensures var r := Apply(p, e);
            && r.busy && r.callback == p.callback && r.step == p.step
            && Answered(r.log.answers) == Answered(p.log.answers)
  {
    if e.StartTask? {
      AnsweredSnoc(p.log.answers, Answer(e.request.id, FAILED, true));
    }
  }

  /** An event that meets an exchange under way leaves it waiting for no more than before, or answers it. */
  lemma BusyEvent(p: Portal, e: Event)
    requires Inv(p) && Enabled(p, e) && p.busy && !e.Stop?
    ensures var next := Apply(p, e);
            && Inv(next)
            && (next.busy ==>
                  && next.callback == p.callback
                  && Answered(next.log.answers) == Answered(p.log.answers)
                  && Rank(next) <= Rank(p) - if e.Response? then 1 else 0)
            && (!next.busy ==> Answered(next.log.answers) == Answered(p.log.answers) + [p.callback.value])
  {
    EventKeeps(p, e);
    if e.Response? {
      ResponseMoves(p, e.reply);
      var next := Apply(p, e);
      if !Advanced(p, next) {
        var grant :| Ended(p, next, grant);
        AnsweredSnoc(p.log.answers, Answer(p.callback.value, grant, false));
      }
    } else {
      OthersWait(p, e);
    }
  }

  function NumResponses(events: seq<Event>): nat {
    if events == [] then 0 else (if events[0].Response? then 1 else 0) + NumResponses(events[1..])
  }

  /** The run has answered the exchange `p` had under way. */
  ghost predicate Answers(p: Portal, events: seq<Event>)
    requires p.callback.Some?
  {
    && Runs(p, events) && !After(p, events).busy
    && Answered(After(p, events).log.answers) == Answered(p.log.answers) + [p.callback.value]
  }

  lemma RunsCons(p: Portal, e: Event, rest: seq<Event>)
    ensures Runs(p, [e] + rest) <==> Enabled(p, e) && Runs(Apply(p, e), rest)
    ensures After(p, [e] + rest) == After(Apply(p, e), rest)
  {
    assert ([e] + rest)[1..] == rest;
  }

  lemma AnswersCons(p: Portal, e: Event, rest: seq<Event>)
    requires Inv(p) && Enabled(p, e) && p.busy && !e.Stop?
    requires var next := Apply(p, e);
             if next.busy then next.callback.Some? && Answers(next, rest) else rest == []
    ensures Answers(p, [e] + rest)
  {
    BusyEvent(p, e);
    RunsCons(p, e, rest);
  }

  /** An accepted Start is answered exactly once, and within three responses, unless shutdown intervenes. */
  lemma {:induction false} AnsweredWithinThreeResponses(p: Portal, events: seq<Event>) returns (k: nat)
    requires Inv(p) && Runs(p, events) && p.busy
    requires (forall e | e in events :: !e.Stop?) && NumResponses(events) >= Rank(p)
    ensures Rank(p) <= 3
    ensures 0 < k <= |events| && Answers(p, events[..k])
    decreases |events|
  {
    var e, rest := events[0], events[1..];
    assert e in events && forall x | x in rest :: x in events;
    BusyEvent(p, e);
    if Apply(p, e).busy {
      var i := AnsweredWithinThreeResponses(Apply(p, e), rest);
      k := i + 1;
      AnswersCons(p, e, rest[..i]);
      assert events[..k] == [e] + rest[..i];
    } else {
      k := 1;
      AnswersCons(p, e, []);
      assert events[..k] == [e] + [];
    }
  }

  // ---- Stranded sessions ---------------------------------------------------------------------------

  /** A CreateSession answer whose handle is empty, while an earlier session is still followed. */
  predicate EmptiesTheName(p: Portal, e: Event) {
    e.Response? && p.step == CreateSession && e.reply.readable && e.reply.code == 0 && e.reply.session.Empty? && p.live
  }

  /** The followed session ends by itself, or the portal names another. */
  predicate Recovers(p: Portal, e: Event) {
    || (e.Closed? && (p.closedSlot == Some(e.session) || e.session in p.lostSlots))
    || (e.Response? && p.step == CreateSession && e.reply.readable && e.reply.code == 0 && e.reply.session.Given?)
  }

  lemma CreatedStrands(p: Portal, reply: Reply)
    requires Heard(p)
    ensures Stranded(OnSessionCreated(p, reply))
       <==> p.live && !reply.session.Given? && (reply.session.Empty? || Stranded(p))
  {
    var named := Named(p, reply);
    if named.handle.None? || !reply.subscribes {
      FinishSession(named, FAILED);
    } else {
      FinishSession(Ask(Following(named), SelectSources, false).0, FAILED);
    }
  }

  lemma LaterResponseStrandsNone(p: Portal, reply: Reply)
    requires Inv(p) && p.hasResponseSlot && p.step != CreateSession
    ensures !Stranded(OnResponse(p, reply))
  {
    var heard := p.(hasResponseSlot := false, step := NoStep);
    FinishSession(heard, FAILED);
    FinishSession(heard, Grant(Cancelled, ""));
    FinishSession(heard, Grant(Failed, reply.token));
    FinishSession(heard, Grant(Success, reply.token));
    FinishSession(Ask(heard, StartCast, false).0, FAILED);
  }

  lemma StartStrandsNone(p: Portal, request: Request, sends: bool)
    requires Inv(p)
    ensures Stranded(Start(p, request, sends)) <==> Stranded(p)
  {
    FinishSession(Ask(Begun(p, request), CreateSession, false).0, FAILED);
  }

  lemma ResponseStrands(p: Portal, reply: Reply)
    requires Inv(p) && p.hasResponseSlot
    ensures var e := Response(reply);
            Stranded(OnResponse(p, reply)) <==> EmptiesTheName(p, e) || (Stranded(p) && !Recovers(p, e))
  {
    var heard := p.(hasResponseSlot := false, step := NoStep);
    HeardHolds(p);
    if p.step != CreateSession {
      LaterResponseStrandsNone(p, reply);
    } else if reply.readable && reply.code == 0 {
      CreatedStrands(heard, reply);
    } else {
      FinishSession(heard, FAILED);
    }
  }

  /** Session, name and subscription coincide unless a session is stranded, and one is stranded by exactly
      one thing: an empty name while an earlier session is followed. */
  lemma StrandedExactlyWhen(p: Portal, e: Event)
    requires Inv(p) && Enabled(p, e)
    ensures Coincide(Apply(p, e)) <==> !Stranded(Apply(p, e))
    ensures Stranded(Apply(p, e)) <==> EmptiesTheName(p, e) || (Stranded(p) && !Recovers(p, e))
  {
    EventKeeps(p, e);
    match e
    case StartTask(request, sends) => StartStrandsNone(p, request, sends);
    case Response(reply) => ResponseStrands(p, reply);
    case _ =>
  }

  /** The event `k` of the run emptied the name, and nothing since has made up for it. */
  ghost predicate StrandedSince(p: Portal, events: seq<Event>, k: nat) {
    && k < |events| && EmptiesTheName(After(p, events[..k]), events[k])
    && forall j | k < j < |events| :: !Recovers(After(p, events[..j]), events[j])
  }

  lemma {:induction false} RunsSnoc(p: Portal, events: seq<Event>, e: Event)
    ensures Runs(p, events + [e]) <==> Runs(p, events) && Enabled(After(p, events), e)
    ensures After(p, events + [e]) == Apply(After(p, events), e)
    decreases |events|
  {
    if events == [] {
      assert [] + [e] == [e] && [e][1..] == [];
    } else {
      assert (events + [e])[1..] == events[1..] + [e];
      RunsSnoc(Apply(p, events[0]), events[1..], e);
    }
  }

  lemma StrandedSinceSnoc(p: Portal, events: seq<Event>, e: Event, k: nat)
    requires k < |events|
    ensures StrandedSince(p, events + [e], k) <==> StrandedSince(p, events, k) && !Recovers(After(p, events), e)
  {
    var more := events + [e];
    assert more[..|events|] == events && more[|events|] == e;
    assert forall j | 0 <= j < |events| :: more[..j] == events[..j] && more[j] == events[j];
    if StrandedSince(p, events, k) && !Recovers(After(p, events), e) {
      forall j | k < j < |more| ensures !Recovers(After(p, more[..j]), more[j]) {
      }
    }
  }

  /** Over every run: a session is stranded exactly when some answer emptied the name of one that was
      followed, and since then it has not ended and no other has been named. */
  lemma {:induction false} StrandedOverRuns(initialized: bool, events: seq<Event>)
    requires Runs(Initial(initialized), events)
    ensures var p := After(Initial(initialized), events);
            && (Coincide(p) <==> !Stranded(p))
            && (Stranded(p) <==> exists k :: StrandedSince(Initial(initialized), events, k))
    decreases |events|
  {
    var p := Initial(initialized);
    if events != [] {
      var before, e := events[..|events| - 1], events[|events| - 1];
      assert events == before + [e];
      RunsSnoc(p, before, e);
      RunKeeps(initialized, before);
      StrandedOverRuns(initialized, before);
      StrandedExactlyWhen(After(p, before), e);
      forall k: nat | k < |before|
        ensures StrandedSince(p, events, k) <==> StrandedSince(p, before, k) && !Recovers(After(p, before), e)
      {
        StrandedSinceSnoc(p, before, e, k);
      }
      LastStrands(p, before, e);
    }
  }

  lemma LastStrands(p: Portal, before: seq<Event>, e: Event)
    ensures StrandedSince(p, before + [e], |before|) <==> EmptiesTheName(After(p, before), e)
  {
    assert (before + [e])[..|before|] == before;
  }

  // ---- Closed sessions -----------------------------------------------------------------------------

  /** The portal names a new session every time. */
  predicate FreshSession(p: Portal, e: Event) {
    e.Response? && e.reply.session.Given? ==> e.reply.session.session !in p.log.created
  }

  /** No Start is taken up while the session of an earlier success is still open. */
  predicate Disciplined(p: Portal, e: Event) {
    e.StartTask? && p.initialized && !p.busy ==> p.handle == None
  }

  ghost predicate GoodRun(p: Portal, events: seq<Event>)
    decreases |events|
  {
    events == [] ||
      (Enabled(p, events[0]) && FreshSession(p, events[0]) && Disciplined(p, events[0])
       && GoodRun(Apply(p, events[0]), events[1..]))
  }

  ghost predicate Distinct(s: seq<Session>) {
    forall i, j | 0 <= i < j < |s| :: s[i] != s[j]
  }

  /** Sessions that have ended, one way or the other, and the one that has not: each created once. */
  ghost predicate Sessions(p: Portal) {
    && p.lostSlots == []
    && Distinct(p.log.withdrawn) && Distinct(p.log.closed)
    && (forall s | s in p.log.withdrawn :: s in p.log.created && s !in p.log.closed && p.handle != Some(s))
    && (forall s | s in p.log.closed :: s in p.log.created && p.handle != Some(s))
    && (p.handle.Some? ==> p.handle.value in p.log.created)
    && (p.step == CreateSession ==> p.handle == None)
    && !Stranded(p)
  }

  /** Closing, or finishing, ends the open session as one of Klip's own. */
  lemma CloseKeepsSessions(p: Portal)
    requires Sessions(p)
    ensures Sessions(CloseSession(p).(step := NoStep))
  {
  }

  lemma FinishKeepsSessions(p: Portal, grant: Grant)
    requires Sessions(p) && p.step == NoStep
    ensures Sessions(Finish(p, grant))
  {
    CloseKeepsSessions(p);
  }

  lemma SelectKeepsSessions(p: Portal, sends: bool)
    requires Sessions(p) && p.step == NoStep && p.closedSlot == None && p.handle.Some?
    ensures Sessions(Select(p, sends))
  {
    if !sends {
      FinishKeepsSessions(Ask(Following(p), SelectSources, false).0, FAILED);
    }
  }

  lemma NamedKeepsSessions(p: Portal, reply: Reply)
    requires Sessions(p) && p.step == NoStep && p.handle == None
    requires reply.session.Given? ==> reply.session.session !in p.log.created
    ensures Sessions(Named(p, reply))
  {
  }

  lemma CreatedKeepsSessions(p: Portal, reply: Reply)
    requires Sessions(p) && p.step == NoStep && p.handle == None && p.closedSlot == None
    requires reply.session.Given? ==> reply.session.session !in p.log.created
    ensures Sessions(OnSessionCreated(p, reply))
  {
    var named := Named(p, reply);
    NamedKeepsSessions(p, reply);
    if named.handle.None? || !reply.subscribes {
      FinishKeepsSessions(named, FAILED);
    } else {
      SelectKeepsSessions(named, reply.sends);
    }
  }

  lemma SelectedKeepsSessions(p: Portal, reply: Reply)
    requires Sessions(p) && p.step == NoStep
    ensures Sessions(OnSourcesSelected(p, reply))
  {
    FinishKeepsSessions(Ask(p, StartCast, false).0, FAILED);
  }

  lemma StartedKeepsSessions(p: Portal, reply: Reply)
    requires Sessions(p) && p.step == NoStep
    ensures Sessions(OnStarted(p, reply))
  {
    FinishKeepsSessions(p, Grant(Failed, reply.token));
    FinishKeepsSessions(p, Grant(Success, reply.token));
  }

  lemma ResponseKeepsSessions(p: Portal, reply: Reply)
    requires Inv(p) && Sessions(p) && p.hasResponseSlot && FreshSession(p, Response(reply))
    ensures Sessions(OnResponse(p, reply))
  {
    var heard := p.(hasResponseSlot := false, step := NoStep);
    FinishKeepsSessions(heard, FAILED);
    FinishKeepsSessions(heard, Grant(Cancelled, ""));
    if reply.readable && reply.code == 0 {
      match p.step
      case CreateSession => CreatedKeepsSessions(heard, reply);
      case SelectSources => SelectedKeepsSessions(heard, reply);
      case _ => StartedKeepsSessions(heard, reply);
    }
  }

  lemma StartKeepsSessions(p: Portal, request: Request, sends: bool)
    requires Inv(p) && Sessions(p) && Disciplined(p, StartTask(request, sends))
    ensures Sessions(Start(p, request, sends))
  {
    if p.initialized && !p.busy && !sends {
      FinishKeepsSessions(Ask(Begun(p, request), CreateSession, false).0, FAILED);
    }
  }

  lemma ClosedKeepsSessions(p: Portal, s: Session)
    requires Inv(p) && Sessions(p)
    ensures Sessions(OnClosed(p, s))
  {
  }

  lemma TerminateKeepsSessions(p: Portal)
    requires Sessions(p)
    ensures Sessions(Terminate(p))
  {
    CloseKeepsSessions(p);
  }

  lemma EventKeepsSessions(p: Portal, e: Event)
    requires Inv(p) && Sessions(p) && Enabled(p, e) && FreshSession(p, e) && Disciplined(p, e)
    ensures Sessions(Apply(p, e))
  {
    match e
    case StartTask(request, sends) => StartKeepsSessions(p, request, sends);
    case Response(reply) => ResponseKeepsSessions(p, reply);
    case Stop => TerminateKeepsSessions(p);
    case Closed(s) => ClosedKeepsSessions(p, s);
    case CloseTask => CloseKeepsSessions(p);
  }

  lemma {:induction false} GoodRunsKeepSessions(p: Portal, events: seq<Event>)
    requires Inv(p) && Sessions(p) && GoodRun(p, events)
    ensures Runs(p, events) && Sessions(After(p, events))
    decreases |events|
  {
    if events != [] {
      EventKeeps(p, events[0]);
      EventKeepsSessions(p, events[0]);
      GoodRunsKeepSessions(Apply(p, events[0]), events[1..]);
    }
  }

  /** What a caller sees: whether a Start has been taken up, and whether one has been answered with success. */
  predicate TakesUp(p: Portal, e: Event) {
    |Apply(p, e).log.accepted| > |p.log.accepted|
  }

  predicate Succeeds(p: Portal, e: Event) {
    var answers := Apply(p, e).log.answers;
    |answers| > |p.log.answers| && answers[|answers| - 1].grant.result == Success
  }

  /** Whether a success has been answered that no Close has followed yet. */
  predicate OwesClose(p: Portal, e: Event, owes: bool) {
    Succeeds(p, e) || (owes && !e.CloseTask?)
  }

  /** Every success is closed before the next Start that is taken up. */
  ghost predicate ClosesEverySuccess(p: Portal, events: seq<Event>, owes: bool)
    decreases |events|
  {
    events == [] ||
      (&& Enabled(p, events[0]) && FreshSession(p, events[0])
       && (TakesUp(p, events[0]) ==> !owes)
       && ClosesEverySuccess(Apply(p, events[0]), events[1..], OwesClose(p, events[0], owes)))
  }

  /** A session that is open with no exchange under way is owed its Close. */
  lemma OpenIsOwed(p: Portal, e: Event, owes: bool)
    requires Inv(p) && Enabled(p, e) && (p.handle.Some? && !p.busy ==> owes)
    ensures var next := Apply(p, e);
            next.handle.Some? && !next.busy ==> OwesClose(p, e, owes)
  {
    match e
    case StartTask(request, sends) => StartMoves(p, request, sends);
    case Response(reply) =>
      ResponseMoves(p, reply);
      var next := Apply(p, e);
      if !Advanced(p, next) {
        var grant :| Ended(p, next, grant);
        assert next.log.answers[|next.log.answers| - 1].grant == grant;
      }
    case _ =>
  }

  lemma {:induction false} ClosingIsGood(p: Portal, events: seq<Event>, owes: bool)
    requires Inv(p) && ClosesEverySuccess(p, events, owes) && (p.handle.Some? && !p.busy ==> owes)
    ensures GoodRun(p, events)
    decreases |events|
  {
    if events != [] {
      EventKeeps(p, events[0]);
      OpenIsOwed(p, events[0], owes);
      if events[0].StartTask? {
        StartMoves(p, events[0].request, events[0].sends);
      }
      ClosingIsGood(Apply(p, events[0]), events[1..], OwesClose(p, events[0], owes));
    }
  }

  /** With a Close after every success before the next Start that is taken up, the Closed callback fires at
      most once for a session and never for one Klip has closed itself, no subscription is lost, and no
      session is stranded. */
  lemma ClosedFiresAtMostOnce(initialized: bool, events: seq<Event>)
    requires ClosesEverySuccess(Initial(initialized), events, false)
    ensures Runs(Initial(initialized), events)
    ensures var r := After(Initial(initialized), events);
            && Distinct(r.log.withdrawn)
            && (forall s | s in r.log.withdrawn :: s !in r.log.closed)
            && r.lostSlots == [] && Coincide(r)
  {
    var p := Initial(initialized);
    ClosingIsGood(p, events, false);
    GoodRunsKeepSessions(p, events);
    RunKeeps(initialized, events);
  }

  // ---- Lost subscriptions --------------------------------------------------------------------------

  lemma SelectSlots(p: Portal, sends: bool)
    ensures Select(p, sends).lostSlots
         == if p.closedSlot.Some? then p.lostSlots + [p.closedSlot.value] else p.lostSlots
  {
    FinishSession(Ask(Following(p), SelectSources, false).0, FAILED);
  }

  lemma CreatedSlots(p: Portal, reply: Reply)
    ensures OnSessionCreated(p, reply).lostSlots
         == if Named(p, reply).handle.Some? && reply.subscribes && p.closedSlot.Some?
            then p.lostSlots + [p.closedSlot.value]
            else p.lostSlots
  {
    var named := Named(p, reply);
    assert named.closedSlot == p.closedSlot && named.lostSlots == p.lostSlots;
    if named.handle.None? || !reply.subscribes {
      FinishSession(named, FAILED);
      assert OnSessionCreated(p, reply) == Finish(named, FAILED);
    } else {
      SelectSlots(named, reply.sends);
      assert OnSessionCreated(p, reply) == Select(named, reply.sends);
    }
  }

  lemma OtherResponsesKeepSlots(p: Portal, reply: Reply)
    requires p.step != CreateSession || !reply.readable || reply.code != 0
    ensures OnResponse(p, reply).lostSlots == p.lostSlots
  {
    var heard := p.(hasResponseSlot := false, step := NoStep);
    FinishSession(heard, FAILED);
    FinishSession(heard, Grant(Cancelled, ""));
    FinishSession(heard, Grant(Failed, reply.token));
    FinishSession(heard, Grant(Success, reply.token));
    FinishSession(Ask(heard, StartCast, false).0, FAILED);
  }

  lemma StartKeepsSlots(p: Portal, request: Request, sends: bool)
    ensures Start(p, request, sends).lostSlots == p.lostSlots
  {
    FinishSession(Ask(Begun(p, request), CreateSession, false).0, FAILED);
  }

  /** A subscription is lost exactly when a session is taken up while an earlier one is still followed,
      named or stranded. */
  lemma SlotLostExactlyWhen(p: Portal, e: Event)
    requires Inv(p) && Enabled(p, e)
    ensures Apply(p, e).lostSlots != p.lostSlots
       <==> && e.Response? && p.step == CreateSession && e.reply.readable && e.reply.code == 0 && e.reply.subscribes
            && (e.reply.session.Given? || (e.reply.session.Absent? && p.handle.Some?)) && p.closedSlot.Some?
  {
    match e
    case StartTask(request, sends) => StartKeepsSlots(p, request, sends);
    case Response(reply) =>
      if p.step == CreateSession && reply.readable && reply.code == 0 {
        CreatedSlots(p.(hasResponseSlot := false, step := NoStep), reply);
        assert p.closedSlot.Some? ==> |p.lostSlots + [p.closedSlot.value]| == |p.lostSlots| + 1;
      } else {
        OtherResponsesKeepSlots(p, reply);
      }
    case _ =>
  }

  const ALL_WELL: Reply := Reply(true, 0, Absent, true, true, true, "", [(1, 1)], true, true)

  /** A Start whose exchange goes well throughout, in session `s`. */
  function WholeExchange(request: Request, s: Session): seq<Event> {
    [StartTask(request, true), Response(ALL_WELL.(session := Given(s))), Response(ALL_WELL), Response(ALL_WELL)]
  }

  /** The discipline is needed. Where a success is not closed -- the recording behind it did not start --
      and a second Start succeeds, the end of the first session is taken for the end of the second: the
      callback fires, and the second session's name is forgotten though nobody closed it. */
  lemma UnclosedSuccessEndsTheNextSession(first: Request, second: Request)
    ensures var events := WholeExchange(first, 1) + (WholeExchange(second, 2) + [Closed(1)]);
            && Runs(Initial(true), events)
            && var r := After(Initial(true), events);
               && r.log.withdrawn == [1] && r.handle == None && r.log.closed == []
               && Answered(r.log.answers) == [first.id, second.id]
  {
    ExchangeRuns(Initial(true), first, 1, WholeExchange(second, 2) + [Closed(1)]);
    OneSuccess(first);
    SecondExchange(Exchanged(Initial(true), first, 1), second);
    TwoAnswered(first.id, Grant(Success, ""), second.id, Grant(Success, ""));
  }

  /** The state a first success leaves. */
  lemma OneSuccess(first: Request)
    ensures var p := Exchanged(Initial(true), first, 1);
            && Inv(p) && p.initialized && !p.busy && p.hasOnClosed && p.handle == Some(1)
            && p.lostSlots == [] && p.log.withdrawn == [] && p.log.closed == []
            && p.log.answers == [Answer(first.id, Grant(Success, ""), false)] && p.closedSlot == Some(1)
  {
    SuccessfulExchange(Initial(true), first, 1);
  }

  lemma TwoAnswered(a: nat, first: Grant, b: nat, second: Grant)
    ensures Answered([Answer(a, first, false)] + [Answer(b, second, false)]) == [a, b]
  {
    AnsweredSnoc([Answer(a, first, false)], Answer(b, second, false));
    AnsweredSnoc([], Answer(a, first, false));
    assert [] + [Answer(a, first, false)] == [Answer(a, first, false)];
  }

  lemma SecondExchange(p: Portal, second: Request)
    requires Inv(p) && p.initialized && !p.busy && p.hasOnClosed && p.handle == Some(1)
    requires p.lostSlots == [] && p.log.withdrawn == [] && p.log.closed == []
    ensures var events := WholeExchange(second, 2) + [Closed(1)];
            && Runs(p, events)
            && var r := After(p, events);
               && r.log.withdrawn == [1] && r.handle == None && r.log.closed == []
               && r.log.answers == p.log.answers + [Answer(second.id, Grant(Success, ""), false)]
  {
    SuccessfulExchange(p, second, 2);
    ExchangeRuns(p, second, 2, [Closed(1)]);
    OldSessionEnds(Exchanged(p, second, 2), 1);
  }

  /** The end of a session that is only followed by a lost subscription still ends the live one. */
  lemma OldSessionEnds(p: Portal, s: Session)
    requires p.live && p.hasOnClosed && s in p.lostSlots
    ensures Runs(p, [Closed(s)])
    ensures var r := After(p, [Closed(s)]);
            && r.log.withdrawn == p.log.withdrawn + [s] && r.handle == None
            && r.log.closed == p.log.closed && r.log.answers == p.log.answers
  {
    assert [Closed(s)] == [Closed(s)] + [];
    RunsCons(p, Closed(s), []);
  }

  function Exchanged(p: Portal, request: Request, s: Session): Portal {
    OnResponse(OnResponse(OnResponse(Start(p, request, true), ALL_WELL.(session := Given(s))), ALL_WELL), ALL_WELL)
  }

  lemma TwoResponsesRun(p: Portal, rest: seq<Event>)
    requires p.hasResponseSlot && OnResponse(p, ALL_WELL).hasResponseSlot
    ensures var events := [Response(ALL_WELL)] + ([Response(ALL_WELL)] + rest);
            var r := OnResponse(OnResponse(p, ALL_WELL), ALL_WELL);
            (Runs(p, events) <==> Runs(r, rest)) && After(p, events) == After(r, rest)
  {
    RunsCons(OnResponse(p, ALL_WELL), Response(ALL_WELL), rest);
    RunsCons(p, Response(ALL_WELL), [Response(ALL_WELL)] + rest);
  }

  /** A run that starts with one whole exchange. */
  lemma ExchangeRuns(p: Portal, request: Request, s: Session, rest: seq<Event>)
    requires Inv(p) && p.initialized && !p.busy
    ensures var events := WholeExchange(request, s) + rest;
            && (Runs(p, events) <==> Runs(Exchanged(p, request, s), rest))
            && After(p, events) == After(Exchanged(p, request, s), rest)
  {
    SuccessfulExchange(p, request, s);
    var created := Response(ALL_WELL.(session := Given(s)));
    var p1 := Start(p, request, true);
    var last := [Response(ALL_WELL)] + ([Response(ALL_WELL)] + rest);
    TwoResponsesRun(Apply(p1, created), rest);
    RunsCons(p1, created, last);
    RunsCons(p, StartTask(request, true), [created] + last);
    assert WholeExchange(request, s) + rest == [StartTask(request, true)] + ([created] + last);
  }

  /** Everything an exchange under way leaves as it was. */
  predicate SameBackground(p: Portal, r: Portal) {
    && r.initialized == p.initialized && r.hasOnClosed == p.hasOnClosed
    && r.log.withdrawn == p.log.withdrawn && r.log.closed == p.log.closed
  }

  lemma CreationSucceeds(p: Portal, s: Session)
    requires Inv(p) && p.step == CreateSession
    ensures var r := OnResponse(p, ALL_WELL.(session := Given(s)));
            && Inv(r) && SameBackground(p, r) && r.step == SelectSources && r.handle == Some(s)
            && r.callback == p.callback && r.log.answers == p.log.answers
            && r.lostSlots == if p.closedSlot.None? then p.lostSlots else p.lostSlots + [p.closedSlot.value]
  {
    ResponseKeeps(p, ALL_WELL.(session := Given(s)));
  }

  lemma SelectionSucceeds(p: Portal)
    requires Inv(p) && p.step == SelectSources && p.handle.Some?
    ensures var r := OnResponse(p, ALL_WELL);
            && Inv(r) && SameBackground(p, r) && r.step == StartCast && r.handle == p.handle
            && r.callback == p.callback && r.log.answers == p.log.answers && r.lostSlots == p.lostSlots
  {
    ResponseKeeps(p, ALL_WELL);
  }

  lemma CastSucceeds(p: Portal)
    requires Inv(p) && p.step == StartCast && p.handle.Some?
    ensures var r := OnResponse(p, ALL_WELL);
            && Inv(r) && SameBackground(p, r) && !r.busy && r.handle == p.handle && r.live && r.lostSlots == p.lostSlots
            && r.log.answers == p.log.answers + [Answer(p.callback.value, Grant(Success, ""), false)]
  {
    ResponseKeeps(p, ALL_WELL);
  }

  /** An exchange in which everything goes well, while no other is under way. */
  lemma SuccessfulExchange(p: Portal, request: Request, s: Session)
    requires Inv(p) && p.initialized && !p.busy
    ensures var p1 := Start(p, request, true);
            var p2 := OnResponse(p1, ALL_WELL.(session := Given(s)));
            var p3 := OnResponse(p2, ALL_WELL);
            var p4 := Exchanged(p, request, s);
            && p1.hasResponseSlot && p2.hasResponseSlot && p3.hasResponseSlot
            && Inv(p4) && SameBackground(p, p4) && !p4.busy && p4.handle == Some(s) && p4.live
            && p4.log.answers == p.log.answers + [Answer(request.id, Grant(Success, ""), false)]
            && p4.lostSlots == if p.closedSlot.None? then p.lostSlots else p.lostSlots + [p.closedSlot.value]
  {
    var p1 := Start(p, request, true);
    StartKeeps(p, request, true);
    assert p1.closedSlot == p.closedSlot && p1.lostSlots == p.lostSlots && SameBackground(p, p1);
    CreationSucceeds(p1, s);
    var p2 := OnResponse(p1, ALL_WELL.(session := Given(s)));
    SelectionSucceeds(p2);
    CastSucceeds(OnResponse(p2, ALL_WELL));
  }

  const UNNAMED: Reply := ALL_WELL.(session := Empty)

  /** A second way it goes wrong: the first success is still open, and the second Start's session comes back
      with an empty handle. The second Start fails, and from then on the first session is followed but has
      no name, so that a Close closes nothing. */
  lemma EmptyNameStrandsTheSession(first: Request, second: Request)
    ensures var events := WholeExchange(first, 1) + [StartTask(second, true), Response(UNNAMED), CloseTask];
            && Runs(Initial(true), events)
            && var r := After(Initial(true), events);
               && r.live && r.handle == None && r.closedSlot == Some(1) && r.log.closed == []
               && !r.busy && Answered(r.log.answers) == [first.id, second.id]
  {
    ExchangeRuns(Initial(true), first, 1, [StartTask(second, true), Response(UNNAMED), CloseTask]);
    OneSuccess(first);
    UnnamedStrands(Exchanged(Initial(true), first, 1), second);
    TwoAnswered(first.id, Grant(Success, ""), second.id, FAILED);
  }

  lemma UnnamedStrands(p: Portal, second: Request)
    requires Inv(p) && p.initialized && !p.busy && p.handle.Some?
    ensures var events := [StartTask(second, true), Response(UNNAMED), CloseTask];
            && Runs(p, events)
            && var r := After(p, events);
               && r.live && r.handle == None && r.closedSlot == p.closedSlot && r.log.closed == p.log.closed
               && !r.busy && r.log.answers == p.log.answers + [Answer(second.id, FAILED, false)]
  {
    var p1 := Start(p, second, true);
    var p2 := OnResponse(p1, UNNAMED);
    assert p2.live && p2.handle == None && CloseSession(p2) == p2;
    RunsCons(p2, CloseTask, []);
    RunsCons(p1, Response(UNNAMED), [CloseTask]);
    RunsCons(p, StartTask(second, true), [Response(UNNAMED), CloseTask]);
    assert [CloseTask] + [] == [CloseTask] && [Response(UNNAMED)] + [CloseTask] == [Response(UNNAMED), CloseTask];
    assert [StartTask(second, true)] + [Response(UNNAMED), CloseTask]
        == [StartTask(second, true), Response(UNNAMED), CloseTask];
  }

  // ---- As it runs ----------------------------------------------------------------------------------

  /** The session object of the bus thread, its fields changed in place by each handler. */
  class Exchange {
    var initialized: bool
    var hasOnClosed: bool
    var busy: bool
    var callback: Option<nat>
    var step: Step
    var hasResponseSlot: bool
    var sessionHandle: Option<Session>
    var sessionLive: bool
    var closedSlot: Option<Session>
    var source: Source
    var rememberWindow: bool
    var restoreToken: string
    // Subscriptions nothing points at any more, and what has been seen of the session.
    var lostSlots: seq<Session>
    var log: Log

    ghost function State(): Portal
      reads this
    {
      Portal(initialized, hasOnClosed, busy, callback, step, hasResponseSlot, sessionHandle, sessionLive, closedSlot,
             lostSlots, Wanted(source, rememberWindow, restoreToken), log)
    }

    constructor (initialized: bool)
      ensures State() == Initial(initialized)
    {
      this.initialized, hasOnClosed, busy, callback, step := initialized, true, false, None, NoStep;
      hasResponseSlot, sessionHandle, sessionLive, closedSlot := false, None, false, None;
      source, rememberWindow, restoreToken := Screen, false, "";
      lostSlots, log := [], Log([], [], [], [], [], [], []);
    }

    method Close()
      modifies this
      ensures State() == CloseSession(old(State()))
    {
      if sessionHandle.Some? {
        sessionLive := false;
        closedSlot := None;
        log := log.(closed := log.closed + [sessionHandle.value]);
        sessionHandle := None;
      }
    }

    method End(grant: Grant)
      modifies this
      ensures State() == Finish(old(State()), grant)
    {
      if grant.result != Success {
        Close();
      }
      busy := false;
      var waiting := callback;
      callback := None;
      if waiting.Some? {
        log := log.(answers := log.answers + [Answer(waiting.value, grant, false)]);
      }
    }

    /** `sends` says whether the subscription and the call both go through. */
    method SendRequest(next: Step, sends: bool) returns (sent: bool)
      modifies this
      ensures (State(), sent) == Ask(old(State()), next, sends)
    {
      hasResponseSlot := false;
      step := next;
      if sends {
        hasResponseSlot := true;
      } else {
        step := NoStep;
      }
      sent := sends;
    }

    method BeginRequest(request: Request, sends: bool)
      modifies this
      ensures State() == Begin(old(State()), request, sends)
    {
      source, rememberWindow, restoreToken := request.source, request.rememberWindow, request.token;
      callback := Some(request.id);
      busy := true;
      log := log.(accepted := log.accepted + [request.id]);
      assert State() == Begun(old(State()), request);
      var sent := SendRequest(CreateSession, sends);
      if !sent {
        End(FAILED);
      }
    }

    method StartRequest(request: Request, sends: bool)
      modifies this
      ensures State() == Start(old(State()), request, sends)
    {
      if !initialized || busy {
        log := log.(answers := log.answers + [Answer(request.id, FAILED, true)]);
      } else {
        BeginRequest(request, sends);
      }
    }

    /** The subscription is stored over the old one, which is not ended by that. */
    method FollowSession(sends: bool)
      requires sessionHandle.Some?
      modifies this
      ensures State() == Select(old(State()), sends)
    {
      if closedSlot.Some? {
        lostSlots := lostSlots + [closedSlot.value];
      }
      closedSlot := sessionHandle;
      sessionLive := true;
      assert State() == Following(old(State()));
      var sent := SendRequest(SelectSources, sends);
      if sent {
        log := log.(selections := log.selections
          + [Selection(source == Window, KeepsGrant(source, rememberWindow), restoreToken)]);
      } else {
        End(FAILED);
      }
    }

    method HandleSessionCreated(reply: Reply)
      modifies this
      ensures State() == OnSessionCreated(old(State()), reply)
    {
      match reply.session {
        case Absent =>
        case Empty =>
          sessionHandle := None;
        case Given(session) =>
          sessionHandle := Some(session);
          log := log.(created := log.created + [session]);
      }
      assert State() == Named(old(State()), reply);
      if sessionHandle.None? || !reply.subscribes {
        End(FAILED);
      } else {
        FollowSession(reply.sends);
      }
    }

    method HandleSourcesSelected(reply: Reply)
      modifies this
      ensures State() == OnSourcesSelected(old(State()), reply)
    {
      var sent := SendRequest(StartCast, reply.sends && sessionHandle.Some?);
      if !sent {
        End(FAILED);
      }
    }

    method HandleStarted(reply: Reply)
      modifies this
      ensures State() == OnStarted(old(State()), reply)
    {
      var grant := Grant(Failed, reply.token);
      if reply.streamsReadable && reply.streams != [] && reply.streams[0].0 > 0 && reply.streams[0].1 > 0
         && reply.opensRemote && sessionHandle.Some? && reply.duplicates
      {
        grant := grant.(result := Success);
      }
      End(grant);
    }

    method Continue(answered: Step, reply: Reply)
      modifies this
      ensures State() == GoOn(old(State()), answered, reply)
    {
      if answered == CreateSession {
        HandleSessionCreated(reply);
      } else if answered == SelectSources {
        HandleSourcesSelected(reply);
      } else {
        HandleStarted(reply);
      }
    }

    method HandleResponse(reply: Reply)
      requires hasResponseSlot
      modifies this
      ensures State() == OnResponse(old(State()), reply)
    {
      var answered := step;
      hasResponseSlot := false;
      step := NoStep;
      assert State() == old(State()).(hasResponseSlot := false, step := NoStep);
      if !reply.readable {
        End(FAILED);
      } else if answered == StartCast && reply.code == 1 {
        End(Grant(Cancelled, ""));
      } else if reply.code != 0 {
        End(FAILED);
      } else {
        Continue(answered, reply);
      }
    }

    method HandleClosed(s: Session)
      modifies this
      ensures State() == OnClosed(old(State()), s)
    {
      if (closedSlot == Some(s) || s in lostSlots) && sessionLive {
        sessionLive := false;
        closedSlot := None;
        sessionHandle := None;
        if hasOnClosed {
          log := log.(withdrawn := log.withdrawn + [s]);
        }
      }
    }

    method Shutdown()
      modifies this
      ensures State() == Terminate(old(State()))
    {
      Close();
      hasResponseSlot := false;
      if callback.Some? {
        log := log.(abandoned := log.abandoned + [callback.value]);
      }
      callback := None;
      hasOnClosed := false;
      step := NoStep;
      initialized := false;
      busy := false;
    }
  }
}
