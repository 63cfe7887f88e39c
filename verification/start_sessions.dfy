/** The recorder as the portal's caller: it closes every session it was granted before it starts again, as long
    as what it was granted can be opened. */
module StartSessions {
  import opened Wrappers
  import opened StartProtocol
  import P = PortalSession

  /** What a turn is to the portal. */
  function EventOf(s: System, t: Turn): Option<P.Event>
    requires Enabled(s, t)
  {
    match t
    case DoTask(sends) =>
      (match s.tasks[0]
       case StartTask(request) => Some(P.StartTask(request, sends))
       case CloseTask => Some(P.CloseTask))
    case Signal(e) => Some(e)
    case _ => None
  }

  ghost function Events(s: System, turns: seq<Turn>): seq<P.Event>
    requires Runs(s, turns)
    decreases |turns|
  {
    if turns == [] then []
    else
      var rest := Events(Apply(s, turns[0]), turns[1..]);
      if EventOf(s, turns[0]).Some? then [EventOf(s, turns[0]).value] + rest else rest
  }

  /** The audio and the stream of a granted Start open, and the portal names a new session every time. */
  predicate GoesWell(s: System, t: Turn)
    requires Enabled(s, t)
  {
    && (t.DoUpdateRecorder? && s.answers != [] && s.answers[0].grant.result == P.Success ==> t.opens)
    && (EventOf(s, t).Some? ==> P.FreshSession(s.portal, EventOf(s, t).value))
  }

  ghost predicate GoWell(s: System, turns: seq<Turn>)
    requires Runs(s, turns)
    decreases |turns|
  {
    turns == [] || (GoesWell(s, turns[0]) && GoWell(Apply(s, turns[0]), turns[1..]))
  }

  /** A session that is open will be closed before another Start: its Close is the next task, or a recording
      is on, or the recorder has yet to hear of it. */
  predicate WillClose(s: System) {
    || (s.tasks != [] && s.tasks[0].CloseTask?)
    || s.rec.state == Recording
    || (s.answers != [] && s.answers[0].grant.result == P.Success)
  }

  lemma StoppingCloses(s: System, loaded: Tokens)
    requires Inv(s, loaded) && s.rec.state == Recording
    ensures WillClose(StopRecording(s))
  {
    CountZero(s.tasks);
  }

  lemma UpdatingWillClose(s: System, opens: bool, loaded: Tokens)
    requires Inv(s, loaded) && WillClose(s)
    requires s.answers != [] && s.answers[0].grant.result == P.Success ==> opens
    ensures WillClose(UpdateRecorder(s, opens)) && UpdateRecorder(s, opens).portal == s.portal
  {
    var taken := TakeAnswers(s, opens);
    TakeAnswersKeeps(s, opens, loaded);
    if s.answers != [] {
      AnswerIsAlone(s, loaded);
      OneAnswerTaken(s, opens);
      ContinueFrame(s.(answers := []), s.answers[0], opens);
    }
    HearingKeeps(taken, loaded);
    if taken.withdrawn && taken.rec.state == Recording {
      StoppingCloses(taken.(withdrawn := false), loaded);
    }
  }

  lemma {:induction false} TakingLeavesPortal(s: System, opens: bool)
    ensures TakeAnswers(s, opens).portal == s.portal
    decreases |s.answers|
  {
    if s.answers != [] {
      TakingLeavesPortal(Continue(s.(answers := s.answers[1..]), s.answers[0], opens), opens);
    }
  }

  lemma ToggleWillClose(s: System, folderReady: bool, hides: bool, now: int, loaded: Tokens)
    requires Inv(s, loaded)
    ensures var r := Toggle(s, folderReady, hides, now);
            r.portal == s.portal && (WillClose(s) ==> WillClose(r))
  {
    if s.rec.state == Recording {
      StoppingCloses(s, loaded);
    }
  }

  lemma FlowWillClose(s: System, e: Surroundings, loaded: Tokens)
    requires Inv(s, loaded)
    ensures var r := UpdateFlow(s, e);
            r.portal == s.portal && (WillClose(s) ==> WillClose(r))
  {
    var r := UpdateFlow(s, e);
    assert s.flow.step == NoStep ==> r == s;
    assert s.tasks <= r.tasks && r.answers == s.answers && r.portal == s.portal;
  }

  /** The UI thread's turns, and those of the settings. */
  lemma QuietTurn(s: System, t: Turn, loaded: Tokens)
    requires Inv(s, loaded) && Enabled(s, t) && GoesWell(s, t) && EventOf(s, t).None?
    ensures Apply(s, t).portal == s.portal && (WillClose(s) ==> WillClose(Apply(s, t)))
  {
    match t
    case DoToggle(folderReady, hides, now) => ToggleWillClose(s, folderReady, hides, now, loaded);
    case DoUpdateFlow(e) => FlowWillClose(s, e, loaded);
    case DoUpdateRecorder(opens) =>
      TakingLeavesPortal(s, opens);
      if WillClose(s) {
        UpdatingWillClose(s, opens, loaded);
      }
    case _ =>
  }

  lemma StartingTurn(s: System, sends: bool, loaded: Tokens)
    requires Inv(s, loaded) && s.tasks != [] && s.tasks[0].StartTask?
    ensures var e := P.StartTask(s.tasks[0].request, sends);
            && RunTask(s, sends).portal == P.Apply(s.portal, e) && !WillClose(s) && !P.Succeeds(s.portal, e)
  {
    StartAtTheHead(s, loaded);
    P.StartMoves(s.portal, s.tasks[0].request, sends);
    StartTakenUp(s.portal, s.tasks[0].request, sends);
  }

  lemma ClosingTurn(s: System)
    ensures !P.Succeeds(s.portal, P.CloseTask) && !P.TakesUp(s.portal, P.CloseTask)
  {
  }

  /** What an answer brings: a success is on its way to the recorder. */
  lemma SignalTurn(s: System, e: P.Event, loaded: Tokens)
    requires Inv(s, loaded) && (e.Response? || e.Closed?) && P.Enabled(s.portal, e)
    ensures var r := Deliver(s, P.Apply(s.portal, e));
            && !P.TakesUp(s.portal, e)
            && (P.Succeeds(s.portal, e) || WillClose(s) ==> WillClose(r))
  {
    var portal := P.Apply(s.portal, e);
    if e.Closed? {
      CloseGivesNoAnswer(s.portal, e);
      DeliversNothing(s, portal);
    } else {
      BusyOnTheLast(s, loaded);
      ResponseTakenUp(s.portal, Last(s), e.reply);
      AnswerIsDelivered(s, portal);
    }
  }

  lemma AnswerIsDelivered(s: System, portal: P.Portal)
    requires s.sent != [] && WorksOnOrAnswers(s, portal) && s.answers == []
    ensures var given := portal.log.answers;
            |given| > |s.portal.log.answers| ==>
              && Deliver(s, portal).answers != []
              && Deliver(s, portal).answers[0].grant == given[|given| - 1].grant
  {
  }

  lemma {:induction false} ClosesInTime(s: System, turns: seq<Turn>, owes: bool, loaded: Tokens)
    requires Inv(s, loaded) && Runs(s, turns) && GoWell(s, turns) && (owes ==> WillClose(s))
    ensures P.ClosesEverySuccess(s.portal, Events(s, turns), owes)
    ensures P.After(s.portal, Events(s, turns)) == After(s, turns).portal
    decreases |turns|
  {
    if turns != [] {
      var t, next, rest := turns[0], Apply(s, turns[0]), turns[1..];
      TurnKeeps(s, t, loaded);
      if EventOf(s, t).None? {
        QuietTurn(s, t, loaded);
        ClosesInTime(next, rest, owes, loaded);
      } else {
        var e := EventOf(s, t).value;
        EventTurn(s, t, owes, loaded);
        ClosesInTime(next, rest, P.OwesClose(s.portal, e, owes), loaded);
        assert ([e] + Events(next, rest))[1..] == Events(next, rest);
      }
    }
  }

  lemma EventTurn(s: System, t: Turn, owes: bool, loaded: Tokens)
    requires Inv(s, loaded) && Enabled(s, t) && EventOf(s, t).Some? && (owes ==> WillClose(s))
    ensures var e := EventOf(s, t).value;
            && P.Enabled(s.portal, e) && Apply(s, t).portal == P.Apply(s.portal, e)
            && (P.TakesUp(s.portal, e) ==> !owes)
            && (P.OwesClose(s.portal, e, owes) ==> WillClose(Apply(s, t)))
  {
    match t
    case DoTask(sends) =>
      if s.tasks[0].StartTask? {
        StartingTurn(s, sends, loaded);
      } else {
        ClosingTurn(s);
      }
    case Signal(e) => SignalTurn(s, e, loaded);
    case _ =>
  }

  /** Over every run in which what is granted can be opened: the recorder posts its Close between a success and
      the next Start, so that the Closed callback fires at most once for a session and never for one Klip has
      closed, no subscription is lost, and no session is stranded. */
  lemma SessionsAreClosedInTime(b: Beginning, turns: seq<Turn>)
    requires Runs(First(b), turns) && GoWell(First(b), turns)
    ensures P.ClosesEverySuccess(P.Initial(b.hasPortal), Events(First(b), turns), false)
    ensures var r := After(First(b), turns).portal;
            && P.Distinct(r.log.withdrawn)
            && (forall session | session in r.log.withdrawn :: session !in r.log.closed)
            && r.lostSlots == [] && P.Coincide(r)
  {
    InitialHolds(b.canRecord, b.hasPortal, b.source, b.rememberWindow, b.loaded);
    ClosesInTime(First(b), turns, false, b.loaded);
    P.ClosedFiresAtMostOnce(b.hasPortal, Events(First(b), turns));
  }
}
