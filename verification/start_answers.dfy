/** What the recorder and its flow do with what they meet, one turn at a time: an answer, a toggle, a withdrawal,
    a deadline -- after any run. */
module StartAnswers {
  import opened Wrappers
  import opened StartProtocol
  import P = PortalSession

  // ---- The recorder --------------------------------------------------------------------------------

  /** After any run, with an answer there: the recorder records exactly where the portal granted the Start, what it
      granted opens, and nothing has been withdrawn meanwhile; otherwise it is idle, and a recording that was
      withdrawn at once is closed. */
  lemma AnswerDecides(b: Beginning, turns: seq<Turn>, opens: bool)
    requires Runs(First(b), turns) && After(First(b), turns).answers != []
    ensures var s := After(First(b), turns);
            var r := UpdateRecorder(s, opens);
            var granted := s.answers[0].grant.result == P.Success && opens;
            && r.rec.state == (if granted && !s.withdrawn then Recording else Idle)
            && r.tasks == (if granted && s.withdrawn then s.tasks + [CloseTask] else s.tasks)
            && r.answers == [] && !r.withdrawn && r.flow == s.flow && r.portal == s.portal
  {
    RunKeeps(b, turns);
    var s := After(First(b), turns);
    AnswerIsAlone(s, b.loaded);
    OneAnswerTaken(s, opens);
    ContinueFrame(s.(answers := []), s.answers[0], opens);
  }

  /** Where no answer is there, a withdrawal ends a recording and nothing else, and is forgotten. */
  lemma WithdrawalEndsARecording(s: System, opens: bool)
    requires s.answers == []
    ensures var r := UpdateRecorder(s, opens);
            if s.withdrawn && s.rec.state == Recording
            then r == s.(withdrawn := false, rec := s.rec.(state := Idle), tasks := s.tasks + [CloseTask])
            else r == s.(withdrawn := false)
  {
  }

  /** What a Start is sent with: the chosen source, a region as the whole screen; whether its window is to be
      remembered; and the token kept for it, or none where the grant is not to be kept. */
  ghost predicate Sends(s: System, r: System) {
    var source := if s.rec.source == OneWindow then P.Window else P.Screen;
    var keeps := source == P.Screen || s.rec.rememberWindow;
    var token := if !keeps then "" else if source == P.Window then s.rec.tokens.window else s.rec.tokens.screen;
    var request := P.Request(|s.sent|, source, s.rec.rememberWindow, token);
    && r.tasks == s.tasks + [StartTask(request)] && r.sent == s.sent + [request]
    && r.rec.state == Starting && r.rec.sessionToken == "" && r.answers == s.answers && r.portal == s.portal
    && r.rec.source == s.rec.source && r.rec.rememberWindow == s.rec.rememberWindow
    && r.rec.canRecord == s.rec.canRecord
    && r.rec.tokens == (if keeps then s.rec.tokens
                        else if source == P.Window then Tokens(s.rec.tokens.screen, "")
                        else Tokens("", s.rec.tokens.window))
    && r.flow == Flow(NoStep, None, s.flow.selectorOpen)
  }

  /** Nothing has changed but the flow, which is at this step, to leave it at this time. */
  ghost predicate Waits(s: System, r: System, step: FlowStep, deadline: Option<int>) {
    r == s.(flow := Flow(step, deadline, step == Picking), rec := s.rec.(state := Starting))
  }

  /** A toggle stops a recording; starts one where nothing is under way, it can record, and its folder is ready:
      a region after 250 ms for its backdrop, a window that hides after 250 ms, anything else at once; and is
      otherwise dropped. */
  lemma ToggleDecides(b: Beginning, turns: seq<Turn>, folderReady: bool, hides: bool, now: int)
    requires Runs(First(b), turns)
    ensures var s := After(First(b), turns);
            var r := Toggle(s, folderReady, hides, now);
            match s.rec.state
            case Recording => r == s.(rec := s.rec.(state := Idle), tasks := s.tasks + [CloseTask])
            case Starting => r == s
            case Idle =>
              if !s.rec.canRecord || !folderReady then r == s
              else if s.rec.source == Region then Waits(s, r, SettlingBeforeBackdrop, Some(now + 250))
              else if hides then Waits(s, r, SettlingBeforeCapture, Some(now + 250))
              else Sends(s, r)
  {
    RunKeeps(b, turns);
  }

  // ---- The flow ------------------------------------------------------------------------------------

  /** The start is off. */
  ghost predicate GivesUp(s: System, r: System) {
    r == s.(flow := Flow(NoStep, None, false), rec := s.rec.(state := Idle))
  }

  /** The selector is open, or could not be. */
  ghost predicate Opens(s: System, r: System, opens: bool) {
    if opens then r == s.(flow := Flow(Picking, None, true)) else GivesUp(s, r)
  }

  /** Until its time a step stays. Then: the screenshot is asked for, with thirty seconds for its answer; or there
      is none, and the selector opens without. With the answer or without, after those it opens. */
  lemma BackdropDecides(b: Beginning, turns: seq<Turn>, e: Surroundings)
    requires Runs(First(b), turns)
    ensures var s := After(First(b), turns);
            var r := UpdateFlow(s, e);
            && (s.flow.step == NoStep ==> r == s)
            && (s.flow.step == SettlingBeforeBackdrop ==>
                  && s.flow.deadline.Some?
                  && if e.now < s.flow.deadline.value then r == s
                     else if e.requests then r == s.(flow := Flow(AwaitingBackdrop, Some(e.now + 30_000), false))
                     else Opens(s, r, e.selectorOpens))
            && (s.flow.step == AwaitingBackdrop ==>
                  && s.flow.deadline.Some?
                  && if !e.answered && e.now < s.flow.deadline.value then r == s
                     else Opens(s, r, e.selectorOpens))
  {
    RunKeeps(b, turns);
  }

  /** A pick is waited for. Accepted, the picker gets 250 ms to go, and a window that hides 250 more; then the
      Start is sent. Dismissed, the start is off. */
  lemma PickDecides(b: Beginning, turns: seq<Turn>, e: Surroundings)
    requires Runs(First(b), turns)
    ensures var s := After(First(b), turns);
            var r := UpdateFlow(s, e);
            && (s.flow.step == Picking ==>
                  match e.pick
                  case Undecided => r == s
                  case Accepted => r == s.(flow := Flow(SettlingAfterPicker, Some(e.now + 250), false))
                  case Dismissed => GivesUp(s, r))
            && (s.flow.step in {SettlingAfterPicker, SettlingBeforeCapture} ==>
                  && s.flow.deadline.Some?
                  && if e.now < s.flow.deadline.value then r == s
                     else if s.flow.step == SettlingAfterPicker && e.hides
                     then r == s.(flow := Flow(SettlingBeforeCapture, Some(e.now + 250), false))
                     else Sends(s, r))
  {
    RunKeeps(b, turns);
  }

  // ---- The settings and what is told -----------------------------------------------------------------

  /** At first the recorder is idle, the flow is at no step, nothing is under way, and the tokens are the loaded
      ones; it can record where it is able to and there is a portal. */
  lemma BeginsIdle(b: Beginning)
    ensures var s := First(b);
            && s.rec.state == Idle && s.flow == Flow(NoStep, None, false) && s.tasks == [] && s.answers == []
            && s.sent == [] && !s.withdrawn && !s.assertionFailed && s.log == []
            && (s.rec.canRecord <==> b.canRecord && b.hasPortal) && s.portal == P.Initial(b.hasPortal)
            && s.rec.source == b.source && s.rec.rememberWindow == b.rememberWindow
            && s.rec.tokens == b.loaded && s.saved == b.loaded
            && s.rec.changes == Changes(false, false) && s.missed == Changes(false, false)
  {
  }

  /** A choice is kept for the next start; a withdrawal waits for the recorder; and any response the portal may
      give, or the end of a session, may come at any moment. */
  lemma ChoicesAreKept(s: System, source: Choice, remember: bool, e: P.Event)
    ensures Apply(s, SetSource(source)) == s.(rec := s.rec.(source := source))
    ensures Apply(s, SetRememberWindow(remember)) == s.(rec := s.rec.(rememberWindow := remember))
    ensures Apply(s, Withdraw) == s.(withdrawn := true)
    ensures Enabled(s, Signal(e)) <==> (e.Response? && s.portal.hasResponseSlot) || e.Closed?
  {
  }

  /** A save takes every flag. Where it is stored the file has the flagged tokens; where it is not, the file is as
      it was, and those tokens are missed. */
  lemma SavingDecides(s: System, stores: bool)
    ensures var r := SaveChanges(s, stores);
            && r.rec == s.rec.(changes := Changes(false, false)) && r.portal == s.portal && r.log == s.log
            && (!stores ==> r.saved == s.saved)
            && (stores && s.rec.changes.screen ==> r.saved.screen == s.rec.tokens.screen && !r.missed.screen)
            && (stores && s.rec.changes.window ==> r.saved.window == s.rec.tokens.window && !r.missed.window)
            && (!s.rec.changes.screen ==> r.saved.screen == s.saved.screen && r.missed.screen == s.missed.screen)
            && (!s.rec.changes.window ==> r.saved.window == s.saved.window && r.missed.window == s.missed.window)
            && (!stores && s.rec.changes.screen ==> r.missed.screen)
            && (!stores && s.rec.changes.window ==> r.missed.window)
  {
  }

  /** The two assertions on the way to a Start fail exactly where the recorder is not starting -- which
      `OneStartOutstanding` rules out. */
  lemma AssertionsCatch(s: System, hides: bool, now: int)
    ensures Begin(s, hides, now).assertionFailed <==> s.assertionFailed || s.rec.state != Starting
    ensures RequestCapture(s).assertionFailed <==> s.assertionFailed || s.rec.state != Starting
  {
  }

  // ---- The tasks -----------------------------------------------------------------------------------

  /** The bus thread takes the tasks in the order they were posted, and queues what the portal answers. */
  lemma TasksInOrder(s: System, sends: bool)
    requires s.tasks != []
    ensures var r := RunTask(s, sends);
            && r.tasks == s.tasks[1..] && r.rec == s.rec && r.flow == s.flow && s.answers <= r.answers
            && r.portal == P.Apply(s.portal, match s.tasks[0]
                                             case StartTask(request) => P.StartTask(request, sends)
                                             case CloseTask => P.CloseTask)
  {
  }
}
