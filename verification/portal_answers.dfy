/** What the exchange with the portal answers, and with what token; what it sends; and what becomes of every
    session the portal has opened. */
module PortalAnswers {
  import opened Wrappers
  import opened PortalSession

  // ---- One response --------------------------------------------------------------------------------

  /** A response to the last step that grants a stream of some size, whose descriptor arrives and can be kept, for
      a session that still has its name. */
  predicate Grants(p: Portal, reply: Reply) {
    && p.step == StartCast && reply.readable && reply.code == 0
    && reply.streamsReadable && |reply.streams| > 0 && reply.streams[0].0 > 0 && reply.streams[0].1 > 0
    && reply.opensRemote && reply.duplicates && p.handle.Some?
  }

  /** The user has said no. */
  predicate Declines(p: Portal, reply: Reply) {
    p.step == StartCast && reply.readable && reply.code == 1
  }

  /** A response that leads to the next step. */
  predicate LeadsOn(p: Portal, reply: Reply) {
    && reply.readable && reply.code == 0 && reply.sends
    && match p.step
       case CreateSession => reply.subscribes && (reply.session.Given? || (reply.session.Absent? && p.handle.Some?))
       case SelectSources => p.handle.Some?
       case _ => false
  }

  /** The exchange ends here with this grant. */
  ghost predicate EndsWith(p: Portal, r: Portal, result: Result, token: string) {
    && p.callback.Some? && !r.busy && r.callback.None? && r.step == NoStep && !r.hasResponseSlot
    && r.log.answers == p.log.answers + [Answer(p.callback.value, Grant(result, token), false)]
  }

  /** The exchange goes on with this step, and answers nobody yet. */
  ghost predicate GoesOn(p: Portal, r: Portal, step: Step) {
    && r.busy && r.callback == p.callback && r.hasResponseSlot && r.step == step && r.log.answers == p.log.answers
  }

  /** What a response comes to, in every case. A token comes with a success, and with a failure once the portal
      has granted. */
  lemma ResponseDecides(p: Portal, reply: Reply)
    requires Inv(p) && p.hasResponseSlot
    ensures var r := OnResponse(p, reply);
            if LeadsOn(p, reply) then GoesOn(p, r, if p.step == CreateSession then SelectSources else StartCast)
            else if Grants(p, reply) then EndsWith(p, r, Success, reply.token)
            else if Declines(p, reply) then EndsWith(p, r, Cancelled, "")
            else
              var granted := p.step == StartCast && reply.readable && reply.code == 0;
              EndsWith(p, r, Failed, if granted then reply.token else "")
  {
    var heard := p.(hasResponseSlot := false, step := NoStep);
    FinishAnswers(heard, FAILED);
    FinishAnswers(heard, Grant(Cancelled, ""));
    if reply.readable && reply.code == 0 {
      match p.step
      case CreateSession => CreatedDecides(p, heard, reply);
      case SelectSources => SelectedDecides(p, heard, reply);
      case StartCast => StartedDecides(p, heard, reply);
    }
  }

  lemma FinishAnswers(p: Portal, grant: Grant)
    ensures var r := Finish(p, grant);
            && !r.busy && r.callback.None? && r.step == p.step && r.hasResponseSlot == p.hasResponseSlot
            && (p.callback.Some? ==> r.log.answers == p.log.answers + [Answer(p.callback.value, grant, false)])
  {
  }

  lemma CreatedDecides(p: Portal, heard: Portal, reply: Reply)
    requires p.callback.Some? && p.busy && heard == p.(hasResponseSlot := false, step := NoStep)
    ensures var r := OnSessionCreated(heard, reply);
            if reply.sends && reply.subscribes && (reply.session.Given? || (reply.session.Absent? && p.handle.Some?))
            then GoesOn(p, r, SelectSources)
            else EndsWith(p, r, Failed, "")
  {
    var named := Named(heard, reply);
    assert named.callback == p.callback && named.busy && named.step == NoStep && named.log.answers == p.log.answers;
    if named.handle.None? || !reply.subscribes {
      FinishAnswers(named, FAILED);
      assert OnSessionCreated(heard, reply) == Finish(named, FAILED);
    } else {
      SelectDecides(named, reply.sends);
      assert OnSessionCreated(heard, reply) == Select(named, reply.sends);
    }
  }

  lemma SelectDecides(p: Portal, sends: bool)
    requires p.callback.Some? && p.busy && p.step == NoStep && !p.hasResponseSlot
    ensures var r := Select(p, sends);
            if sends
            then GoesOn(p, r, SelectSources)
            else EndsWith(p, r, Failed, "")
  {
    FinishAnswers(Ask(Following(p), SelectSources, false).0, FAILED);
  }

  lemma SelectedDecides(p: Portal, heard: Portal, reply: Reply)
    requires p.callback.Some? && p.busy && heard == p.(hasResponseSlot := false, step := NoStep)
    ensures var r := OnSourcesSelected(heard, reply);
            if reply.sends && p.handle.Some?
            then GoesOn(p, r, StartCast)
            else EndsWith(p, r, Failed, "")
  {
    FinishAnswers(Ask(heard, StartCast, false).0, FAILED);
  }

  lemma StartedDecides(p: Portal, heard: Portal, reply: Reply)
    requires p.callback.Some? && p.step == StartCast && reply.readable && reply.code == 0
    requires heard == p.(hasResponseSlot := false, step := NoStep)
    ensures var r := OnStarted(heard, reply);
            if Grants(p, reply) then EndsWith(p, r, Success, reply.token) else EndsWith(p, r, Failed, reply.token)
  {
    FinishAnswers(heard, Grant(Failed, reply.token));
    FinishAnswers(heard, Grant(Success, reply.token));
  }

  // ---- The session it is about ---------------------------------------------------------------------

  /** The session is as it was. */
  predicate Stays(p: Portal, r: Portal) {
    && r.handle == p.handle && r.live == p.live && r.closedSlot == p.closedSlot
    && r.log.closed == p.log.closed && r.log.withdrawn == p.log.withdrawn
  }

  /** No session has a name any more: the one that had, if any, has been closed. */
  predicate Leaves(p: Portal, r: Portal, named: Option<Session>) {
    && r.handle == None && r.log.withdrawn == p.log.withdrawn
    && r.log.closed == (if named.Some? then p.log.closed + [named.value] else p.log.closed)
    && (if named.Some? then !r.live && r.closedSlot == None else r.live == p.live && r.closedSlot == p.closedSlot)
  }

  /** This session has a name, is followed, and is live. */
  predicate Follows(p: Portal, r: Portal, named: Option<Session>) {
    && named.Some? && r.handle == named && r.closedSlot == named && r.live
    && r.log.closed == p.log.closed && r.log.withdrawn == p.log.withdrawn
  }

  /** The session's name once the first response has been read. */
  function NamedBy(p: Portal, reply: Reply): Option<Session> {
    if p.step != CreateSession || !reply.readable || reply.code != 0 then p.handle
    else
      match reply.session
      case Absent => p.handle
      case Empty => None
      case Given(s) => Some(s)
  }

  /** After a response: a first step that leads on follows the session it has named; another that does, or a grant,
      keeps it; and anything else leaves none, closing the one that has a name. */
  lemma ResponseLeavesSession(p: Portal, reply: Reply)
    requires Inv(p) && p.hasResponseSlot
    ensures var r := OnResponse(p, reply);
            var named := NamedBy(p, reply);
            && (LeadsOn(p, reply) && p.step == CreateSession ==> Follows(p, r, named))
            && ((LeadsOn(p, reply) && p.step == SelectSources) || Grants(p, reply) ==> Stays(p, r))
            && (!LeadsOn(p, reply) && !Grants(p, reply) ==> Leaves(p, r, named))
            && r.log.created == (if p.step == CreateSession && reply.readable && reply.code == 0 && reply.session.Given?
                                 then p.log.created + [reply.session.session] else p.log.created)
  {
    var heard := p.(hasResponseSlot := false, step := NoStep);
    if !reply.readable || reply.code != 0 {
      FinishLeaves(heard, FAILED);
      FinishLeaves(heard, Grant(Cancelled, ""));
    } else {
      match p.step
      case CreateSession => CreatedLeaves(heard, reply);
      case SelectSources => SelectedLeaves(heard, reply);
      case StartCast => StartedLeaves(heard, reply);
    }
  }

  lemma CreatedLeaves(p: Portal, reply: Reply)
    ensures var r := OnSessionCreated(p, reply);
            var named := match reply.session case Absent => p.handle case Empty => None case Given(s) => Some(s);
            && (if reply.sends && reply.subscribes && named.Some? then Follows(p, r, named) else Leaves(p, r, named))
            && r.log.created
                 == (if reply.session.Given? then p.log.created + [reply.session.session] else p.log.created)
  {
    var named := Named(p, reply);
    var r := OnSessionCreated(p, reply);
    if named.handle.None? || !reply.subscribes {
      FinishLeaves(named, FAILED);
      assert r == Finish(named, FAILED);
    } else {
      SelectLeaves(named, reply.sends);
      assert r == Select(named, reply.sends);
    }
    NamingChangesTheName(p, reply, r);
  }

  /** Before or after it is named, what is left of the session is the same. */
  lemma NamingChangesTheName(p: Portal, reply: Reply, r: Portal)
    ensures var named := Named(p, reply);
            && named.handle == (match reply.session case Absent => p.handle case Empty => None case Given(s) => Some(s))
            && named.log.created
                 == (if reply.session.Given? then p.log.created + [reply.session.session] else p.log.created)
            && (Follows(named, r, named.handle) ==> Follows(p, r, named.handle))
            && (Leaves(named, r, named.handle) ==> Leaves(p, r, named.handle))
  {
  }

  lemma SelectLeaves(p: Portal, sends: bool)
    requires p.handle.Some?
    ensures var r := Select(p, sends);
            && (if sends then Follows(p, r, p.handle) else Leaves(p, r, p.handle))
            && r.log.created == p.log.created
  {
    FinishLeaves(Ask(Following(p), SelectSources, false).0, FAILED);
  }

  lemma SelectedLeaves(p: Portal, reply: Reply)
    ensures var r := OnSourcesSelected(p, reply);
            && (if reply.sends && p.handle.Some? then Stays(p, r) else Leaves(p, r, p.handle))
            && r.log.created == p.log.created
  {
    FinishLeaves(Ask(p, StartCast, false).0, FAILED);
  }

  lemma StartedLeaves(p: Portal, reply: Reply)
    ensures var r := OnStarted(p, reply);
            var grants := && reply.streamsReadable && |reply.streams| > 0
                          && reply.streams[0].0 > 0 && reply.streams[0].1 > 0
                          && reply.opensRemote && reply.duplicates && p.handle.Some?;
            && (if grants then Stays(p, r) else Leaves(p, r, p.handle))
            && r.log.created == p.log.created
  {
    FinishLeaves(p, Grant(Failed, reply.token));
    FinishLeaves(p, Grant(Success, reply.token));
  }

  lemma FinishLeaves(p: Portal, grant: Grant)
    ensures var r := Finish(p, grant);
            && (if grant.result == Success then Stays(p, r) else Leaves(p, r, p.handle))
            && r.log.created == p.log.created
  {
    CloseLeaves(p);
    var left := if grant.result == Success then p else CloseSession(p);
    AnsweringStays(left, p, grant);
  }

  lemma CloseLeaves(p: Portal)
    ensures Leaves(p, CloseSession(p), p.handle) && CloseSession(p).log.created == p.log.created
  {
  }

  /** Answering touches no session. */
  lemma AnsweringStays(left: Portal, p: Portal, grant: Grant)
    requires left == if grant.result == Success then p else CloseSession(p)
    ensures var r := Finish(p, grant);
            && r.handle == left.handle && r.live == left.live && r.closedSlot == left.closedSlot
            && r.log.closed == left.log.closed && r.log.withdrawn == left.log.withdrawn
            && r.log.created == left.log.created
  {
  }

  /** Closing ends the session that has a name, as Klip's own doing; the end of one that is followed reaches its
      owner, while there is one. */
  lemma SessionEnds(p: Portal, s: Session)
    ensures var r := CloseSession(p);
            if p.handle.None? then r == p
            else r == p.(live := false, closedSlot := None, handle := None,
                         log := p.log.(closed := p.log.closed + [p.handle.value]))
    ensures var r := OnClosed(p, s);
            if !p.live || (p.closedSlot != Some(s) && s !in p.lostSlots) then r == p
            else && !r.live && r.closedSlot == None && r.handle == None && r.busy == p.busy && r.step == p.step
                 && r.log == p.log.(withdrawn := if p.hasOnClosed then p.log.withdrawn + [s] else p.log.withdrawn)
  {
  }

  /** A Start that is refused is told so at once and changes nothing else; one that is taken up asks for a session,
      or fails at once where it cannot. */
  lemma StartDecides(p: Portal, request: Request, sends: bool)
    requires Inv(p)
    ensures var r := Start(p, request, sends);
            if !p.initialized || p.busy
            then r == p.(log := p.log.(answers := p.log.answers + [Answer(request.id, Grant(Failed, ""), true)]))
            else
              && r.wanted == Wanted(request.source, request.rememberWindow, request.token)
              && r.log.accepted == p.log.accepted + [request.id] && r.log.created == p.log.created
              && (sends ==> r.busy && r.step == CreateSession && r.hasResponseSlot && r.callback == Some(request.id)
                            && r.log.answers == p.log.answers && r.handle == p.handle)
              && (!sends ==> !r.busy && r.handle == None
                             && r.log.answers == p.log.answers + [Answer(request.id, Grant(Failed, ""), false)])
  {
    FinishAnswers(Ask(Begun(p, request), CreateSession, false).0, FAILED);
  }

  /** Shutdown closes the session that has a name, and leaves nobody to answer or to tell. */
  lemma ShutdownDecides(p: Portal)
    ensures var r := Terminate(p);
            && !r.busy && r.callback == None && r.step == NoStep && !r.hasResponseSlot
            && !r.initialized && !r.hasOnClosed && r.handle == None
            && r.log.closed == (if p.handle.Some? then p.log.closed + [p.handle.value] else p.log.closed)
            && r.log.abandoned == (if p.callback.Some? then p.log.abandoned + [p.callback.value] else p.log.abandoned)
            && r.log.answers == p.log.answers && r.log.accepted == p.log.accepted
  {
  }

  /** At first nothing is under way, and the end of a session has somebody to tell. */
  lemma StartsIdle(initialized: bool)
    ensures var p := Initial(initialized);
            && p.initialized == initialized && p.hasOnClosed && !p.busy && p.callback == None && p.step == NoStep
            && !p.hasResponseSlot && p.handle == None && !p.live && p.closedSlot == None && p.lostSlots == []
            && p.log == Log([], [], [], [], [], [], [])
  {
  }

  // ---- What becomes of every session ---------------------------------------------------------------

  /** Every session the portal has opened is the one with a name, has been closed, or has ended by itself. */
  ghost predicate NoneForgotten(p: Portal) {
    && (forall s | s in p.log.created :: p.handle == Some(s) || s in p.log.closed || s in p.log.withdrawn)
    && (p.hasOnClosed || p.handle == None) && (p.hasOnClosed || !p.initialized)
  }

  lemma FinishForgetsNone(p: Portal, grant: Grant)
    requires NoneForgotten(p)
    ensures NoneForgotten(Finish(p, grant))
  {
  }

  lemma ResponseForgetsNone(p: Portal, reply: Reply)
    requires Inv(p) && Sessions(p) && p.hasResponseSlot && NoneForgotten(p)
    ensures NoneForgotten(OnResponse(p, reply))
  {
    ResponseLeavesSession(p, reply);
    ResponseKeeps(p, reply);
    ResponseFlags(p, reply);
    var r := OnResponse(p, reply);
    forall s | s in r.log.created ensures r.handle == Some(s) || s in r.log.closed || s in r.log.withdrawn {
    }
  }

  predicate SameOwner(p: Portal, r: Portal) {
    r.hasOnClosed == p.hasOnClosed && r.initialized == p.initialized
  }

  lemma FinishOwner(p: Portal, grant: Grant)
    ensures SameOwner(p, Finish(p, grant))
  {
  }

  lemma CreatedOwner(p: Portal, reply: Reply)
    ensures SameOwner(p, OnSessionCreated(p, reply))
  {
    var named := Named(p, reply);
    assert SameOwner(p, named);
    if named.handle.None? || !reply.subscribes {
      FinishOwner(named, FAILED);
      assert OnSessionCreated(p, reply) == Finish(named, FAILED);
    } else {
      SelectOwner(named, reply.sends);
      assert OnSessionCreated(p, reply) == Select(named, reply.sends);
    }
  }

  lemma SelectOwner(p: Portal, sends: bool)
    ensures SameOwner(p, Select(p, sends))
  {
    var following := Following(p);
    assert SameOwner(p, following);
    FinishOwner(Ask(following, SelectSources, false).0, FAILED);
  }

  lemma StartedOwner(p: Portal, reply: Reply)
    ensures SameOwner(p, OnStarted(p, reply))
  {
    FinishOwner(p, Grant(Failed, reply.token));
    FinishOwner(p, Grant(Success, reply.token));
  }

  lemma ResponseFlags(p: Portal, reply: Reply)
    ensures SameOwner(p, OnResponse(p, reply))
  {
    var heard := p.(hasResponseSlot := false, step := NoStep);
    FinishOwner(heard, FAILED);
    FinishOwner(heard, Grant(Cancelled, ""));
    if reply.readable && reply.code == 0 {
      CreatedOwner(heard, reply);
      FinishOwner(Ask(heard, StartCast, false).0, FAILED);
      StartedOwner(heard, reply);
      assert OnResponse(p, reply) == GoOn(heard, p.step, reply);
    }
  }

  lemma EventForgetsNone(p: Portal, e: Event)
    requires Inv(p) && Sessions(p) && Enabled(p, e) && NoneForgotten(p)
    ensures NoneForgotten(Apply(p, e))
  {
    match e
    case StartTask(request, sends) =>
      if p.initialized && !p.busy && !sends {
        FinishForgetsNone(Ask(Begun(p, request), CreateSession, false).0, FAILED);
      }
    case Response(reply) => ResponseForgetsNone(p, reply);
    case Closed(s) => SessionEnds(p, s);
    case _ =>
  }

  lemma {:induction false} RunForgetsNone(p: Portal, events: seq<Event>)
    requires Inv(p) && Sessions(p) && NoneForgotten(p) && GoodRun(p, events)
    ensures NoneForgotten(After(p, events))
    decreases |events|
  {
    if events != [] {
      EventKeeps(p, events[0]);
      EventKeepsSessions(p, events[0]);
      EventForgetsNone(p, events[0]);
      RunForgetsNone(Apply(p, events[0]), events[1..]);
    }
  }

  /** With a Close after every success before the next Start that is taken up: every session the portal has opened
      is the open one, or has ended exactly one way. */
  lemma EverySessionEnds(initialized: bool, events: seq<Event>)
    requires ClosesEverySuccess(Initial(initialized), events, false)
    ensures var log := After(Initial(initialized), events).log;
            var handle := After(Initial(initialized), events).handle;
            forall s | s in log.created ::
              && (handle == Some(s) || s in log.closed || s in log.withdrawn)
              && !(handle == Some(s) && s in log.closed + log.withdrawn) && !(s in log.closed && s in log.withdrawn)
  {
    ClosingIsGood(Initial(initialized), events, false);
    RunForgetsNone(Initial(initialized), events);
    GoodRunsKeepSessions(Initial(initialized), events);
  }
}
