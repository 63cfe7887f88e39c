/** The handover of one screenshot file from the bus thread to the user's: every step of either thread is one
    action, and they interleave in any way. */
module Screenshot {
  import opened Wrappers

  /** The files the portal hands over, numbered as they come. */
  type File = nat

  /** What the user's thread is about: out of it all, blocked in `Run`, waiting, or with an answer in hand. */
  datatype Ui =
    | Out
    | Requesting
    | Requested(sent: bool)
    | Awaiting
    | Moving
    | Loading(backdrop: Option<File>)
    | Cancelling
    | Cancelled
    | MovingToDelete
    | Deleting(unwanted: Option<File>)

  datatype Bus = BusIdle | Answering

  datatype Handover = Handover(
    path: Option<File>,
    isAnswered: bool,
    hasSlot: bool,
    ui: Ui,
    bus: Bus,
    numFiles: nat,
    deleted: seq<File>,
    taken: seq<File>)

  const START: Handover := Handover(None, false, false, Out, BusIdle, 0, [], [])

  datatype Action =
    // The user's thread.
    | Request
    | Return
    | Poll
    | Move
    | Load
    | Cancel
    | Check
    | MoveToDelete
    | Delete
    // The bus thread.
    | RunRequest(sends: bool)
    | Respond(names: bool)
    | StoreFlag
    | RunCancel

  predicate Enabled(h: Handover, a: Action) {
    match a
    case Request => h.ui == Out
    case Return => h.ui.Requested?
    case Poll => h.ui == Awaiting
    case Move => h.ui == Moving
    case Load => h.ui.Loading?
    // The request has timed out, or the flow is shut down at any step.
    case Cancel => h.ui == Awaiting || h.ui == Out
    case Check => h.ui == Cancelled
    case MoveToDelete => h.ui == MovingToDelete
    case Delete => h.ui.Deleting?
    case RunRequest(_) => h.ui == Requesting && h.bus == BusIdle
    case Respond(_) => h.hasSlot && h.bus == BusIdle
    case StoreFlag => h.bus == Answering
    case RunCancel => h.ui == Cancelling && h.bus == BusIdle
  }

  function Discard(h: Handover, file: Option<File>): Handover {
    h.(ui := Out, deleted := if file.Some? then h.deleted + [file.value] else h.deleted)
  }

  function TakePath(h: Handover, ui: Ui): Handover {
    h.(path := None, ui := ui, taken := if h.path.Some? then h.taken + [h.path.value] else h.taken)
  }

  function Apply(h: Handover, a: Action): Handover
    requires Enabled(h, a)
  {
    match a
    case Request => h.(path := None, isAnswered := false, ui := Requesting)
    case Return => h.(ui := if h.ui.sent then Awaiting else Out)
    case Poll => if h.isAnswered then h.(isAnswered := false, ui := Moving) else h
    case Move => TakePath(h, Loading(h.path))
    // Read as a backdrop or not, the file is deleted.
    case Load => Discard(h, h.ui.backdrop)
    case Cancel => h.(ui := Cancelling)
    case Check => if h.isAnswered then h.(isAnswered := false, ui := MovingToDelete) else h.(ui := Out)
    case MoveToDelete => TakePath(h, Deleting(h.path))
    case Delete => Discard(h, h.ui.unwanted)
    case RunRequest(sends) => h.(hasSlot := sends, ui := Requested(sends))
    // A response that names a local file puts one up; any other leaves the path empty.
    case Respond(names) =>
      h.(hasSlot := false, bus := Answering,
         path := if names then Some(h.numFiles) else h.path,
         numFiles := if names then h.numFiles + 1 else h.numFiles)
    case StoreFlag => h.(isAnswered := true, bus := BusIdle)
    case RunCancel => h.(hasSlot := false, ui := Cancelled)
  }

  // ---- The invariant -------------------------------------------------------------------------------

  function UpTo(n: nat): seq<File> {
    seq(n, i => i)
  }

  /** The file the user's thread has in hand. */
  function Held(ui: Ui): Option<File> {
    match ui
    case Loading(file) => file
    case Deleting(file) => file
    case _ => None
  }

  function Count(file: Option<File>): nat {
    if file.Some? then 1 else 0
  }

  /** The user's thread has an answer, or may get one. */
  predicate Concerned(ui: Ui) {
    ui == Requested(true) || ui == Awaiting || ui == Cancelling
  }

  ghost predicate Inv(h: Handover) {
    // An answer is on its way in one place at most, and only to a thread that is waiting for it.
    && (h.hasSlot ==> h.bus == BusIdle && !h.isAnswered && Concerned(h.ui))
    && (h.bus == Answering ==> !h.isAnswered && Concerned(h.ui))
    && (h.isAnswered ==> Concerned(h.ui) || h.ui == Cancelled)
    && (h.path.Some? ==> h.bus == Answering || h.isAnswered || h.ui == Moving || h.ui == MovingToDelete)
    // Every file is deleted, in hand, or up for taking, in the order they came.
    && h.deleted == UpTo(|h.deleted|)
    && h.taken == UpTo(|h.taken|)
    && |h.taken| == |h.deleted| + Count(Held(h.ui))
    && h.numFiles == |h.taken| + Count(h.path)
    && (h.path.Some? ==> h.path.value == |h.taken|)
    && (Held(h.ui).Some? ==> Held(h.ui).value == |h.deleted|)
    && (h.path.Some? ==> Held(h.ui).None?)
  }

  lemma UpToSnoc(n: nat)
    ensures UpTo(n) + [n] == UpTo(n + 1)
  {
  }

  lemma ActionKeeps(h: Handover, a: Action)
    requires Inv(h) && Enabled(h, a)
    ensures Inv(Apply(h, a))
  {
    UpToSnoc(|h.deleted|);
    UpToSnoc(|h.taken|);
  }

  // ---- Every interleaving --------------------------------------------------------------------------

  ghost predicate Runs(h: Handover, actions: seq<Action>)
    decreases |actions|
  {
    actions == [] || (Enabled(h, actions[0]) && Runs(Apply(h, actions[0]), actions[1..]))
  }

  ghost function After(h: Handover, actions: seq<Action>): Handover
    requires Runs(h, actions)
    decreases |actions|
  {
    if actions == [] then h else After(Apply(h, actions[0]), actions[1..])
  }

  lemma {:induction false} RunKeeps(h: Handover, actions: seq<Action>)
    requires Inv(h) && Runs(h, actions)
    ensures Inv(After(h, actions))
    decreases |actions|
  {
    if actions != [] {
      ActionKeeps(h, actions[0]);
      RunKeeps(Apply(h, actions[0]), actions[1..]);
    }
  }

  function NumOf(files: seq<File>, file: File): nat {
    if files == [] then 0 else (if files[0] == file then 1 else 0) + NumOf(files[1..], file)
  }

  lemma {:induction false} OnceInRange(files: seq<File>, from: nat, file: File)
    requires forall i | 0 <= i < |files| :: files[i] == from + i
    ensures NumOf(files, file) == if from <= file < from + |files| then 1 else 0
  {
    if files != [] {
      OnceInRange(files[1..], from + 1, file);
    }
  }

  /** Whatever the interleaving of answer, timeout and shutdown: no file is taken twice or deleted twice, none
      is deleted that was not taken, and once the flow is out of it every file handed over has been taken once
      and deleted once. */
  lemma EveryFileIsDeletedOnce(actions: seq<Action>, file: File)
    requires Runs(START, actions)
    ensures var h := After(START, actions);
            && NumOf(h.deleted, file) <= NumOf(h.taken, file) <= (if file < h.numFiles then 1 else 0)
            && (h.ui == Out && file < h.numFiles ==> NumOf(h.taken, file) == 1 && NumOf(h.deleted, file) == 1)
  {
    RunKeeps(START, actions);
    var h := After(START, actions);
    OnceInRange(h.deleted, 0, file);
    OnceInRange(h.taken, 0, file);
  }

  /** The path has one owner at a time: while the bus thread is writing it, the user's thread is at no step
      that touches it; and with the subscription gone no answer can follow. */
  lemma ThePathHasOneOwner(actions: seq<Action>)
    requires Runs(START, actions)
    ensures var h := After(START, actions);
            && (h.bus == Answering ==> !Enabled(h, Request) && !Enabled(h, Move) && !Enabled(h, MoveToDelete))
            && (h.ui == Out || h.ui == Cancelled ==> !Enabled(h, Respond(true)) && h.bus == BusIdle)
            && (h.ui == Out ==> h.path == None && !h.isAnswered)
  {
    RunKeeps(START, actions);
  }

  /** The least number of actions, of either thread, to being out of it once the wait is given up. */
  function StepsToOut(h: Handover): nat {
    (match h.ui
     case Out => 0
     case Cancelling => 4
     case Cancelled => 3
     case MovingToDelete => 2
     case Deleting(_) => 1
     case Moving => 2
     case Loading(_) => 1
     case _ => 0)
    + if h.hasSlot then 2 else if h.bus == Answering then 1 else 0
  }

  /** From a cancellation, or with an answer taken. */
  predicate GivingUp(ui: Ui) {
    ui in {Cancelling, Cancelled, MovingToDelete, Moving} || ui.Deleting? || ui.Loading?
  }

  lemma ActionDescends(h: Handover, a: Action)
    requires Inv(h) && Enabled(h, a) && GivingUp(h.ui)
    ensures StepsToOut(Apply(h, a)) < StepsToOut(h)
    ensures Apply(h, a).ui == Out || GivingUp(Apply(h, a).ui)
  {
  }

  lemma SomethingIsNext(h: Handover)
    requires Inv(h) && GivingUp(h.ui)
    ensures exists a :: Enabled(h, a)
  {
    match h.ui
    case Moving => assert Enabled(h, Move);
    case Loading(_) => assert Enabled(h, Load);
    case Cancelling =>
      if h.bus == Answering {
        assert Enabled(h, StoreFlag);
      } else {
        assert Enabled(h, RunCancel);
      }
    case Cancelled => assert Enabled(h, Check);
    case MovingToDelete => assert Enabled(h, MoveToDelete);
    case Deleting(_) => assert Enabled(h, Delete);
  }

  /** The flow is out of it at some point of `actions`. */
  ghost predicate ComesOut(h: Handover, actions: seq<Action>)
    requires Runs(h, actions)
    decreases |actions|
  {
    h.ui == Out || (actions != [] && ComesOut(Apply(h, actions[0]), actions[1..]))
  }

  lemma {:induction false} EndsFrom(h: Handover, actions: seq<Action>)
    requires Inv(h) && GivingUp(h.ui) && Runs(h, actions)
    ensures ComesOut(h, actions)
         || (&& (exists a :: Enabled(After(h, actions), a))
             && |actions| < |actions| + StepsToOut(After(h, actions)) <= StepsToOut(h))
    decreases |actions|
  {
    if actions == [] {
      SomethingIsNext(h);
      assert After(h, actions) == h;
    } else {
      ActionKeeps(h, actions[0]);
      ActionDescends(h, actions[0]);
      var next, rest := Apply(h, actions[0]), actions[1..];
      if next.ui == Out {
        assert ComesOut(next, rest);
      } else {
        EndsFrom(next, rest);
        assert After(h, actions) == After(next, rest);
      }
    }
  }

  /** Whatever came before, a flow that is cancelled, or has taken an answer, is out of it within six actions
      of the two threads, in any order; and until then neither is stuck waiting for the other. */
  lemma GivingUpEnds(before: seq<Action>, actions: seq<Action>)
    requires Runs(START, before) && GivingUp(After(START, before).ui)
    requires Runs(After(START, before), actions)
    ensures ComesOut(After(START, before), actions)
         || (|actions| < 6 && exists a :: Enabled(After(After(START, before), actions), a))
  {
    RunKeeps(START, before);
    EndsFrom(After(START, before), actions);
  }

  // ---- One request ---------------------------------------------------------------------------------

  function NumNamed(actions: seq<Action>): nat {
    if actions == [] then 0 else (if actions[0] == Respond(true) then 1 else 0) + NumNamed(actions[1..])
  }

  lemma {:induction false} FilesAreNamed(h: Handover, actions: seq<Action>)
    requires Runs(h, actions)
    ensures After(h, actions).numFiles == h.numFiles + NumNamed(actions)
    decreases |actions|
  {
    if actions != [] {
      FilesAreNamed(Apply(h, actions[0]), actions[1..]);
    }
  }

  /** Over every run: the files are those that answers have named, one each; and once the flow is out of it each
      has been taken once and deleted once. */
  lemma EveryNamedFileIsDeleted(actions: seq<Action>, file: File)
    requires Runs(START, actions) && file < NumNamed(actions) && After(START, actions).ui == Out
    ensures NumOf(After(START, actions).taken, file) == 1 && NumOf(After(START, actions).deleted, file) == 1
  {
    FilesAreNamed(START, actions);
    EveryFileIsDeletedOnce(actions, file);
  }

  /** A request that cannot be sent leaves the flow out of it. */
  lemma UnsentIsOut(before: seq<Action>)
    requires Runs(START, before) && After(START, before).ui == Out
    ensures var h := After(START, before);
            && Runs(h, [Request, RunRequest(false), Return]) && After(h, [Request, RunRequest(false), Return]).ui == Out
  {
    RunKeeps(START, before);
    RunOfThree(After(START, before), Request, RunRequest(false), Return);
  }

  /** A request that is sent and answered, once the flow is out of the last: the backdrop is the file the answer
      names, or none where it names none. */
  lemma AnswerIsTheBackdrop(before: seq<Action>, names: bool)
    requires Runs(START, before) && After(START, before).ui == Out
    ensures var h := After(START, before);
            var actions := [Request, RunRequest(true), Return] + [Respond(names), StoreFlag, Poll, Move];
            && Runs(h, actions)
            && After(h, actions).ui == Loading(if names then Some(h.numFiles) else None)
            && After(h, actions).path == None && !After(h, actions).isAnswered
  {
    RunKeeps(START, before);
    var h := After(START, before);
    RequestWaits(h);
    WaitIsAnswered(After(h, [Request, RunRequest(true), Return]), names);
    RunsJoin(h, [Request, RunRequest(true), Return], [Respond(names), StoreFlag, Poll, Move]);
  }

  lemma RequestWaits(h: Handover)
    requires Inv(h) && h.ui == Out
    ensures Runs(h, [Request, RunRequest(true), Return])
    ensures var r := After(h, [Request, RunRequest(true), Return]);
            && r.ui == Awaiting && r.hasSlot && r.bus == BusIdle && r.path == None && !r.isAnswered
            && r.numFiles == h.numFiles
  {
    RunOfThree(h, Request, RunRequest(true), Return);
  }

  lemma WaitIsAnswered(h: Handover, names: bool)
    requires h.ui == Awaiting && h.hasSlot && h.bus == BusIdle && h.path == None && !h.isAnswered
    ensures Runs(h, [Respond(names), StoreFlag, Poll, Move])
    ensures var r := After(h, [Respond(names), StoreFlag, Poll, Move]);
            r.ui == Loading(if names then Some(h.numFiles) else None) && r.path == None && !r.isAnswered
  {
    RunOfFour(h, Respond(names), StoreFlag, Poll, Move);
  }

  /** Before the first request the flow is out of it, with nothing on its way; and it may be shut down at any time it
      is out of it or waiting. */
  lemma ShutdownIsPossible(before: seq<Action>)
    requires Runs(START, before) && After(START, before).ui in {Out, Awaiting}
    ensures START.ui == Out && START.bus == BusIdle && START.path == None && !START.isAnswered && !START.hasSlot
    ensures Enabled(After(START, before), Cancel) && Apply(After(START, before), Cancel).ui == Cancelling
  {
  }

  /** Until it is answered, a poll changes nothing; and a request that times out after its answer deletes the file
      that came, unread. */
  lemma LateAnswerIsDeleted(before: seq<Action>)
    requires Runs(START, before) && After(START, before).ui == Awaiting
    ensures var h := After(START, before);
            && (!h.isAnswered ==> Apply(h, Poll) == h)
            && (h.isAnswered ==>
                  && Runs(h, [Cancel, RunCancel, Check]) && After(h, [Cancel, RunCancel, Check]).ui == MovingToDelete
                  && After(h, [Cancel, RunCancel, Check]).path == h.path)
            && (!h.isAnswered && h.bus == BusIdle ==>
                  Runs(h, [Cancel, RunCancel, Check]) && After(h, [Cancel, RunCancel, Check]).ui == Out)
  {
    RunKeeps(START, before);
    var h := After(START, before);
    if h.bus == BusIdle {
      RunOfThree(h, Cancel, RunCancel, Check);
    }
  }

  lemma RunOfThree(h: Handover, a: Action, b: Action, c: Action)
    requires Enabled(h, a) && Enabled(Apply(h, a), b) && Enabled(Apply(Apply(h, a), b), c)
    ensures Runs(h, [a, b, c]) && After(h, [a, b, c]) == Apply(Apply(Apply(h, a), b), c)
  {
    var h1, h2, h3 := Apply(h, a), Apply(Apply(h, a), b), Apply(Apply(Apply(h, a), b), c);
    assert [a, b, c][1..] == [b, c] && [b, c][1..] == [c] && [c][1..] == [];
    assert Runs(h3, []) && After(h3, []) == h3;
    assert Runs(h2, [c]) && After(h2, [c]) == h3;
    assert Runs(h1, [b, c]) && After(h1, [b, c]) == h3;
  }

  lemma RunOfFour(h: Handover, a: Action, b: Action, c: Action, d: Action)
    requires Enabled(h, a) && Enabled(Apply(h, a), b) && Enabled(Apply(Apply(h, a), b), c)
    requires Enabled(Apply(Apply(Apply(h, a), b), c), d)
    ensures Runs(h, [a, b, c, d]) && After(h, [a, b, c, d]) == Apply(Apply(Apply(Apply(h, a), b), c), d)
  {
    assert [a, b, c, d][1..] == [b, c, d];
    RunOfThree(Apply(h, a), b, c, d);
  }

  lemma {:induction false} RunsJoin(h: Handover, first: seq<Action>, second: seq<Action>)
    requires Runs(h, first) && Runs(After(h, first), second)
    ensures Runs(h, first + second) && After(h, first + second) == After(After(h, first), second)
    decreases |first|
  {
    if first == [] {
      assert first + second == second;
    } else {
      assert (first + second)[1..] == first[1..] + second;
      RunsJoin(Apply(h, first[0]), first[1..], second);
    }
  }

  // ---- As it runs ----------------------------------------------------------------------------------

  /** The object the two threads share, one method to each atomic step of its functions. */
  class Shared {
    var path: Option<File>
    var isAnswered: bool
    var hasSlot: bool
    // Where each thread is, and what has become of the files.
    ghost var ui: Ui
    ghost var bus: Bus
    ghost var numFiles: nat
    ghost var deleted: seq<File>
    ghost var taken: seq<File>

    ghost function Now(): Handover
      reads this
    {
      Handover(path, isAnswered, hasSlot, ui, bus, numFiles, deleted, taken)
    }

    constructor ()
      ensures Now() == START
    {
      path, isAnswered, hasSlot := None, false, false;
      ui, bus, numFiles, deleted, taken := Out, BusIdle, 0, [], [];
    }

    method BeginRequest()
      requires Enabled(Now(), Request)
      modifies this
      ensures Now() == Apply(old(Now()), Request)
    {
      path := None;
      isAnswered := false;
      ui := Requesting;
    }

    method Subscribe(sends: bool)
      requires Enabled(Now(), RunRequest(sends))
      modifies this
      ensures Now() == Apply(old(Now()), RunRequest(sends))
    {
      hasSlot := sends;
      ui := Requested(sends);
    }

    /** `file` is what the response names, where it names a local file. */
    method WriteAnswer(file: Option<File>)
      requires Enabled(Now(), Respond(file.Some?)) && (file.Some? ==> file.value == numFiles)
      modifies this
      ensures Now() == Apply(old(Now()), Respond(file.Some?))
    {
      hasSlot := false;
      if file.Some? {
        path := file;
        numFiles := numFiles + 1;
      }
      bus := Answering;
    }

    method PublishAnswer()
      requires Enabled(Now(), StoreFlag)
      modifies this
      ensures Now() == Apply(old(Now()), StoreFlag)
    {
      isAnswered := true;
      bus := BusIdle;
    }

    /** The answer, once: nothing where there is none, and an empty path where none was named. */
    method TakeAnswer() returns (answer: Option<Option<File>>)
      requires Inv(Now()) && Enabled(Now(), Poll)
      modifies this
      ensures var polled := Apply(old(Now()), Poll);
              if old(isAnswered)
              then Now() == Apply(polled, Move) && answer == Some(old(path))
              else Now() == polled && answer == None
    {
      answer := None;
      if isAnswered {
        isAnswered := false;
        answer := Some(path);
        ui := Loading(path);
        taken := if path.Some? then taken + [path.value] else taken;
        path := None;
      }
    }

    /** Once the bus thread has let the subscription go, whatever answer came before is deleted unread. */
    method FinishCancel() returns (unwanted: Option<File>)
      requires Inv(Now()) && Enabled(Now(), Check)
      modifies this
      ensures Inv(Now()) && ui == Out && path == None && !isAnswered
      ensures unwanted == old(path)
      ensures deleted == if old(path).Some? then old(deleted) + [old(path).value] else old(deleted)
    {
      ghost var h := Now();
      ActionKeeps(h, Check);
      unwanted := None;
      if isAnswered {
        ghost var moving := Apply(h, Check);
        ActionKeeps(moving, MoveToDelete);
        ActionKeeps(Apply(moving, MoveToDelete), Delete);
        isAnswered := false;
        unwanted := path;
        path := None;
        if unwanted.Some? {
          taken := taken + [unwanted.value];
          deleted := deleted + [unwanted.value];
        }
      }
      ui := Out;
    }
  }
}
