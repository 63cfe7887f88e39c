/** Whole-file reads, and replacing a file through a temporary one, over a disk that may lose what it has not
    been made to keep. */
module Files {
  import opened Wrappers

  const NEW_FILE_MODE: nat := 420
  const PERMISSION_BITS: nat := 4096
  /** What mkostemp gives a file before its permissions are set. */
  const TEMPORARY_MODE: nat := 384

  // ---- The disk ------------------------------------------------------------------------------------

  /** A file is synced once everything in it is sure to outlive a crash. */
  datatype File = File(content: string, mode: nat, synced: bool)

  type Names = map<string, nat>

  /** Files by inode, the directory as it reads now, and every directory a crash may bring back: a change of
      names is atomic, but nothing says when it reaches the disk. */
  datatype Disk = Disk(files: map<nat, File>, names: Names, views: seq<Names>)

  ghost predicate Valid(d: Disk) {
    && d.names in d.views
    && forall view, name | view in d.views && name in view :: view[name] in d.files
  }

  function View(d: Disk, names: Names): Disk {
    d.(names := names, views := d.views + [names])
  }

  function Create(d: Disk, name: string, inode: nat): Disk {
    View(d.(files := d.files[inode := File("", TEMPORARY_MODE, false)]), d.names[name := inode])
  }

  function SetMode(d: Disk, inode: nat, mode: nat): Disk
    requires inode in d.files
  {
    d.(files := d.files[inode := d.files[inode].(mode := mode)])
  }

  function Append(d: Disk, inode: nat, text: string): Disk
    requires inode in d.files
  {
    d.(files := d.files[inode := d.files[inode].(content := d.files[inode].content + text, synced := false)])
  }

  function Sync(d: Disk, inode: nat): Disk
    requires inode in d.files
  {
    d.(files := d.files[inode := d.files[inode].(synced := true)])
  }

  function Rename(d: Disk, from: string, to: string): Disk
    requires from in d.names
  {
    View(d, (d.names - {from})[to := d.names[from]])
  }

  function Remove(d: Disk, name: string): Disk {
    View(d, d.names - {name})
  }

  function Read(d: Disk, name: string): Option<string>
    requires name in d.names ==> d.names[name] in d.files
  {
    if name in d.names then Some(d.files[d.names[name]].content) else None
  }

  /** A crash now may leave this to be read: a file that is not synced may hold anything. */
  ghost predicate CrashReads(d: Disk, name: string, read: Option<string>) {
    exists view | view in d.views :: ViewReads(d, view, name, read)
  }

  ghost predicate ViewReads(d: Disk, view: Names, name: string, read: Option<string>) {
    if name !in view then read == None
    else
      && view[name] in d.files && read.Some?
      && (d.files[view[name]].synced ==> read.value == d.files[view[name]].content)
  }

  /** A new file is empty and its owner's alone; what is written to a file is at its end, and is not sure to be kept
      until the file is flushed. */
  lemma WritingIsNotKeeping(d: Disk, name: string, inode: nat, text: string)
    ensures Create(d, name, inode).files[inode] == File("", 384, false) && Create(d, name, inode).names[name] == inode
    ensures inode in d.files ==>
              && Append(d, inode, text).files[inode] == File(d.files[inode].content + text, d.files[inode].mode, false)
              && Sync(d, inode).files[inode] == File(d.files[inode].content, d.files[inode].mode, true)
  {
  }

  // ---- One writer ----------------------------------------------------------------------------------

  /** How one read or write goes: interrupted by a signal, so many bytes, or an error. */
  datatype Reply = Interrupted | Moved(count: nat) | Refused

  /** Of any `patience + 1` calls in a row one is not interrupted. */
  ghost predicate Fair(replies: nat -> Reply, patience: nat) {
    forall k :: Passing(replies, k, patience)
  }

  ghost predicate Passing(replies: nat -> Reply, k: nat, patience: nat) {
    exists j | k <= j <= k + patience :: !replies(j).Interrupted?
  }

  /** How many calls from `k` on are interrupted, up to `patience`. */
  ghost function Wait(replies: nat -> Reply, k: nat, patience: nat): (n: nat)
    ensures n <= patience
    decreases patience
  {
    if patience == 0 || !replies(k).Interrupted? then 0 else 1 + Wait(replies, k + 1, patience - 1)
  }

  lemma {:induction false} WaitStops(replies: nat -> Reply, k: nat, patience: nat, more: nat)
    requires Passing(replies, k, patience) && patience <= more
    ensures Wait(replies, k, more) == Wait(replies, k, patience)
    decreases patience
  {
    if replies(k).Interrupted? {
      var j :| k <= j <= k + patience && !replies(j).Interrupted?;
      assert Passing(replies, k + 1, patience - 1);
      WaitStops(replies, k + 1, patience - 1, more - 1);
    }
  }

  /** An interrupted call brings the next one that is not interrupted nearer. */
  lemma InterruptCounts(replies: nat -> Reply, k: nat, patience: nat)
    requires Fair(replies, patience) && replies(k).Interrupted?
    ensures Wait(replies, k + 1, patience) < Wait(replies, k, patience)
  {
    assert Passing(replies, k, patience);
    var j :| k <= j <= k + patience && !replies(j).Interrupted?;
    assert Passing(replies, k + 1, patience - 1);
    WaitStops(replies, k + 1, patience - 1, patience);
  }

  /** How each call goes; `random` and `inode` are what mkostemp comes up with. */
  datatype Calls = Calls(
    creates: bool,
    random: string,
    inode: nat,
    setsMode: bool,
    writes: nat -> Reply,
    patience: nat,
    syncs: bool,
    closes: bool,
    renames: bool,
    removes: bool)

  datatype Outcome =
    | Stored
    | CannotCreate
    | CannotSetPermissions
    | CannotWrite
    | CannotFlush
    | CannotClose
    | CannotReplace

  /** A write of no bytes is an error too. */
  predicate Writes(writes: nat -> Reply, i: nat) {
    writes(i).Interrupted? || (writes(i).Moved? && writes(i).count > 0)
  }

  /** What opening a name finds. */
  datatype Kind = Missing | NotOpenable | NotStatable | Directory | Special | Regular

  datatype ReadError = NoSuchFile | IsADirectory | InvalidArgument | TooLarge | OtherError

  datatype ReadResult = Text(text: string) | Unreadable(error: ReadError)

  /** Where the path leads, or the path itself where that cannot be told. */
  function ResolveLink(path: string, canonical: Option<string>): string {
    if canonical.Some? then canonical.value else path
  }

  function FileMode(d: Disk, target: string): nat {
    if target in d.names && d.names[target] in d.files then d.files[d.names[target]].mode % PERMISSION_BITS
    else NEW_FILE_MODE
  }

  /** Only the writer's own file differs, and it is as it was where another names it. */
  ghost predicate SameButFile(before: Disk, after: Disk, inode: nat) {
    && after.names == before.names && after.views == before.views && after.files.Keys == before.files.Keys
    && forall i | i in before.files && i != inode :: after.files[i] == before.files[i]
  }

  /** Where a view leads from the target: to where a view before the call led, or to the new file, which is
      then whole and synced. */
  ghost predicate Leads(origin: Disk, d: Disk, view: Names, target: string, inode: nat, text: string) {
    || (exists before | before in origin.views :: SameAt(view, before, target))
    || (&& target in view && view[target] == inode
        && inode in d.files && d.files[inode].content == text && d.files[inode].synced)
  }

  ghost predicate Contained(origin: Disk, d: Disk, target: string, inode: nat, text: string) {
    && inode in d.files
    && (forall i | i in origin.files :: i in d.files && d.files[i] == origin.files[i])
    && (forall view | view in d.views :: Leads(origin, d, view, target, inode, text))
  }

  predicate SameAt(a: Names, b: Names, name: string) {
    if name in b then name in a && a[name] == b[name] else name !in a
  }

  /** Whatever a crash can leave was already to be feared before, or is the new text, whole. */
  ghost predicate Recoverable(origin: Disk, d: Disk, target: string, text: string) {
    forall read | CrashReads(d, target, read) :: CrashReads(origin, target, read) || read == Some(text)
  }

  lemma ContainedIsRecoverable(origin: Disk, d: Disk, target: string, inode: nat, text: string)
    requires Valid(origin) && Contained(origin, d, target, inode, text)
    ensures Recoverable(origin, d, target, text)
  {
    forall read | CrashReads(d, target, read) ensures CrashReads(origin, target, read) || read == Some(text) {
      var view :| view in d.views && ViewReads(d, view, target, read);
      assert Leads(origin, d, view, target, inode, text);
      if before :| before in origin.views && SameAt(view, before, target) {
        assert target in before ==> before[target] in origin.files;
        assert ViewReads(origin, before, target, read);
      }
    }
  }

  /** A change to the new file alone, while no view leads to it, keeps everything contained. */
  lemma FileChangeContained(origin: Disk, d: Disk, after: Disk, target: string, inode: nat, text: string)
    requires Contained(origin, d, target, inode, text) && inode !in origin.files
    requires forall view | view in d.views && target in view :: view[target] != inode
    requires SameButFile(d, after, inode)
    ensures Contained(origin, after, target, inode, text)
  {
    forall view | view in after.views ensures Leads(origin, after, view, target, inode, text) {
      assert Leads(origin, d, view, target, inode, text);
    }
  }

  /** So does a new view that reads the target as the last one does. */
  lemma ViewContained(origin: Disk, d: Disk, names: Names, target: string, inode: nat, text: string)
    requires Contained(origin, d, target, inode, text) && d.names in d.views
    requires SameAt(names, d.names, target) || Leads(origin, d, names, target, inode, text)
    ensures Contained(origin, View(d, names), target, inode, text)
  {
    assert Leads(origin, d, d.names, target, inode, text);
    var after := View(d, names);
    forall view | view in after.views ensures Leads(origin, after, view, target, inode, text) {
      assert view in d.views ==> Leads(origin, d, view, target, inode, text);
      if view == names && SameAt(names, d.names, target) {
        if before :| before in origin.views && SameAt(d.names, before, target) {
          assert SameAt(names, before, target);
        }
      }
    }
  }

  predicate AllButWrites(calls: Calls) {
    calls.creates && calls.setsMode && calls.syncs && calls.closes && calls.renames
  }

  ghost predicate AllSucceed(calls: Calls) {
    AllButWrites(calls) && forall i :: Writes(calls.writes, i)
  }

  /** The states gone through since `before` are all contained. */
  ghost predicate Passes(before: seq<Disk>, after: seq<Disk>, origin: Disk, target: string, inode: nat, text: string) {
    && before <= after
    && forall i | |before| <= i < |after| :: Contained(origin, after[i], target, inode, text)
  }

  /** The file system as a process sees it, with every state it has gone through. */
  class FileSystem {
    var disk: Disk
    ghost var trace: seq<Disk>

    constructor (disk: Disk)
      ensures this.disk == disk && trace == [disk]
    {
      this.disk := disk;
      trace := [disk];
    }

    method Enter(next: Disk)
      modifies this
      ensures disk == next && trace == old(trace) + [next]
    {
      disk := next;
      trace := trace + [next];
    }

    /** Everything, or -- where it fails -- the start of it. */
    method WriteAll(inode: nat, text: string, writes: nat -> Reply, ghost patience: nat)
      returns (written: bool, ghost numWritten: nat)
      requires inode in disk.files && Fair(writes, patience)
      modifies this
      ensures numWritten <= |text| && (written <==> numWritten == |text|)
      ensures (forall i :: Writes(writes, i)) ==> written
      ensures SameButFile(old(disk), disk, inode)
      ensures disk.files[inode].content == old(disk.files[inode].content) + text[..numWritten]
      ensures disk.files[inode].mode == old(disk.files[inode].mode)
      ensures old(trace) <= trace
      ensures forall i | |old(trace)| <= i < |trace| :: SameButFile(old(disk), trace[i], inode)
    {
      var count: nat := 0;
      var call: nat := 0;
      written := true;
      assert text[..0] == [];
      while written && count < |text|
        invariant count <= |text| && (!written ==> count < |text|)
        invariant !written ==> exists i :: !Writes(writes, i)
        invariant SameButFile(old(disk), disk, inode)
        invariant disk.files[inode].content == old(disk.files[inode].content) + text[..count]
        invariant disk.files[inode].mode == old(disk.files[inode].mode)
        invariant old(trace) <= trace
        invariant forall i | |old(trace)| <= i < |trace| :: SameButFile(old(disk), trace[i], inode)
        decreases written, |text| - count, Wait(writes, call, patience)
      {
        assert Writes(writes, call) <==> writes(call).Interrupted? || (writes(call).Moved? && writes(call).count > 0);
        match writes(call) {
          case Interrupted =>
            InterruptCounts(writes, call, patience);
          case Moved(n) =>
            if n == 0 {
              written := false;
            } else {
              var chunk := if n < |text| - count then text[count..count + n] else text[count..];
              assert text[..count] + chunk == text[..count + |chunk|];
              Enter(Append(disk, inode, chunk));
              count := count + |chunk|;
            }
          case Refused =>
            written := false;
        }
        call := call + 1;
      }
      numWritten := count;
    }

    /** Through a temporary file of its own, beside the file the path leads to, so that no crash can tear it:
        over a settled disk every state on the way holds the old text or the new one, whole. A failure leaves
        it as it was, and a link in the path's place survives. */
    method WriteFileAtomically(path: string, canonical: Option<string>, text: string, calls: Calls)
      returns (outcome: Outcome)
      requires Valid(disk) && Fair(calls.writes, calls.patience)
      requires ResolveLink(path, canonical) + "." + calls.random !in disk.names && calls.inode !in disk.files
      modifies this
      ensures var target := if canonical.Some? then canonical.value else path;
              && Valid(disk)
              && Passes(old(trace), trace, old(disk), target, calls.inode, text)
              && (Settled(old(disk), target) ==>
                    forall i | |old(trace)| <= i < |trace| :: LeavesOldOrNew(old(disk), trace[i], target, text))
              && (forall i | |old(trace)| <= i < |trace| :: Recoverable(old(disk), trace[i], target, text))
              && (outcome == Stored ==> AddsOne(old(disk), disk, target, text))
              && (outcome == Stored ==>
                    && disk.names == old(disk.names)[target := calls.inode]
                    && disk.files == old(disk.files)[calls.inode := File(text, FileMode(old(disk), target), true)])
              && (outcome == Stored ==>
                    disk.files[calls.inode].mode
                      == if target in old(disk).names
                         then old(disk).files[old(disk).names[target]].mode % 4096
                         else 420)
              && (outcome != Stored ==> Read(disk, target) == old(Read(disk, target)))
              && (path != target && path in old(disk.names) && path != target + "." + calls.random ==>
                    path in disk.names && disk.names[path] == old(disk.names)[path])
      ensures outcome == CannotCreate <==> !calls.creates
      ensures outcome == Stored ==> AllButWrites(calls)
      ensures AllSucceed(calls) ==> outcome == Stored
    {
      var target := ResolveLink(path, canonical);
      outcome := WriteThroughTemporary(target, text, calls);
      forall i | |old(trace)| <= i < |trace| ensures Recoverable(old(disk), trace[i], target, text) {
        ContainedIsRecoverable(old(disk), trace[i], target, calls.inode, text);
      }
      if outcome == Stored {
        StoredAddsOne(old(disk), disk, target, calls.inode, text);
      }
      if Settled(old(disk), target) {
        PassesLeavesOldOrNew(old(trace), trace, old(disk), target, calls.inode, text);
      }
    }

    method WriteThroughTemporary(target: string, text: string, calls: Calls) returns (outcome: Outcome)
      requires Valid(disk) && Fair(calls.writes, calls.patience)
      requires target + "." + calls.random !in disk.names && calls.inode !in disk.files
      modifies this
      ensures Valid(disk)
      ensures Passes(old(trace), trace, old(disk), target, calls.inode, text)
      ensures outcome == Stored ==>
                && disk.names == old(disk.names)[target := calls.inode]
                && disk.files == old(disk.files)[calls.inode := File(text, FileMode(old(disk), target), true)]
      ensures outcome != Stored ==>
                && (disk.names == old(disk.names)
                    || (!calls.removes && disk.names == old(disk.names)[target + "." + calls.random := calls.inode]))
                && Read(disk, target) == old(Read(disk, target))
      ensures outcome == CannotCreate <==> !calls.creates
      ensures outcome == Stored ==> AllButWrites(calls)
      ensures AllSucceed(calls) ==> outcome == Stored
      ensures forall view | view in old(disk.views) :: view in disk.views
      ensures outcome == Stored ==> Contained(old(disk), disk, target, calls.inode, text)
    {
      var temporary := target + "." + calls.random;
      assert |temporary| > |target|;
      var inode := calls.inode;
      ghost var origin := disk;
      if !calls.creates {
        return CannotCreate;
      }
      var mode := FileMode(disk, target);
      CreateContained(origin, temporary, target, inode, text);
      Enter(Create(disk, temporary, inode));
      outcome := FillAndReplace(origin, temporary, target, text, mode, calls);
      if outcome != Stored && calls.removes {
        CleanUp(origin, temporary, target, text, calls);
      }
    }

    method FillAndReplace(ghost origin: Disk, temporary: string, target: string, text: string, mode: nat, calls: Calls)
      returns (outcome: Outcome)
      requires Valid(disk) && Valid(origin) && Fair(calls.writes, calls.patience)
      requires calls.creates && temporary !in origin.names && temporary != target && calls.inode !in origin.files
      requires disk == Create(origin, temporary, calls.inode)
      requires Contained(origin, disk, target, calls.inode, text)
      modifies this
      ensures Valid(disk) && Contained(origin, disk, target, calls.inode, text)
      ensures Passes(old(trace), trace, origin, target, calls.inode, text)
      ensures SameButFile(old(disk), disk.(names := old(disk.names), views := old(disk.views)), calls.inode)
      ensures if outcome == Stored
              then disk.names == origin.names[target := calls.inode]
                   && disk.files[calls.inode] == File(text, mode, true)
              else disk.names == origin.names[temporary := calls.inode]
      ensures outcome != CannotCreate && (outcome == Stored ==> AllButWrites(calls))
      ensures AllSucceed(calls) ==> outcome == Stored
      ensures forall view | view in old(disk.views) :: view in disk.views
    {
      outcome := FillFile(origin, temporary, target, text, mode, calls);
      if outcome == Stored {
        outcome := Replace(origin, temporary, target, text, calls);
      }
    }

    method CleanUp(ghost origin: Disk, temporary: string, target: string, text: string, calls: Calls)
      requires Valid(disk) && temporary !in origin.names && temporary != target
      requires disk.names == origin.names[temporary := calls.inode]
      requires Contained(origin, disk, target, calls.inode, text)
      modifies this
      ensures Valid(disk) && disk.names == origin.names && disk.files == old(disk.files)
      ensures Passes(old(trace), trace, origin, target, calls.inode, text)
      ensures forall view | view in old(disk.views) :: view in disk.views
    {
      ViewContained(origin, disk, disk.names - {temporary}, target, calls.inode, text);
      assert origin.names[temporary := calls.inode] - {temporary} == origin.names;
      Enter(Remove(disk, temporary));
    }

    method Replace(ghost origin: Disk, temporary: string, target: string, text: string, calls: Calls)
      returns (outcome: Outcome)
      requires Valid(disk) && Valid(origin) && temporary !in origin.names && temporary != target
      requires disk.names == origin.names[temporary := calls.inode]
      requires Contained(origin, disk, target, calls.inode, text)
      requires disk.files[calls.inode].content == text && disk.files[calls.inode].synced
      modifies this
      ensures Valid(disk) && disk.files == old(disk.files)
      ensures outcome == Stored <==> calls.renames
      ensures if outcome == Stored then disk.names == origin.names[target := calls.inode]
              else outcome == CannotReplace && disk == old(disk)
      ensures Contained(origin, disk, target, calls.inode, text)
      ensures Passes(old(trace), trace, origin, target, calls.inode, text)
      ensures forall view | view in old(disk.views) :: view in disk.views
    {
      if calls.renames {
        assert (disk.names - {temporary})[target := calls.inode] == origin.names[target := calls.inode];
        ViewContained(origin, disk, (disk.names - {temporary})[target := calls.inode], target, calls.inode, text);
        Enter(Rename(disk, temporary, target));
        outcome := Stored;
      } else {
        outcome := CannotReplace;
      }
    }

    method FillFile(ghost origin: Disk, temporary: string, target: string, text: string, mode: nat, calls: Calls)
      returns (outcome: Outcome)
      requires Fair(calls.writes, calls.patience)
      requires calls.inode in disk.files && disk.files[calls.inode].content == ""
      requires calls.inode !in origin.files && Contained(origin, disk, target, calls.inode, text)
      requires forall view | view in disk.views && target in view :: view[target] != calls.inode
      modifies this
      ensures SameButFile(old(disk), disk, calls.inode)
      ensures Passes(old(trace), trace, origin, target, calls.inode, text)
      ensures outcome == Stored ==> disk.files[calls.inode] == File(text, mode, true)
      ensures outcome != CannotCreate && (outcome == CannotSetPermissions <==> !calls.setsMode)
      ensures outcome == CannotFlush ==> !calls.syncs
      ensures outcome == CannotClose ==> !calls.closes
      ensures outcome == Stored ==> calls.setsMode && calls.syncs && calls.closes
      ensures AllSucceed(calls) ==> outcome == Stored
    {
      var inode := calls.inode;
      outcome := Stored;
      if !calls.setsMode {
        outcome := CannotSetPermissions;
      } else {
        Enter(SetMode(disk, inode, mode));
        var written, _ := WriteAll(inode, text, calls.writes, calls.patience);
        assert "" + text == text;
        if !written {
          outcome := CannotWrite;
        } else if !calls.syncs {
          outcome := CannotFlush;
        } else {
          Enter(Sync(disk, inode));
        }
      }
      if !calls.closes && outcome == Stored {
        outcome := CannotClose;
      }
      forall i | |old(trace)| <= i < |trace| ensures Contained(origin, trace[i], target, inode, text) {
        assert SameButFile(old(disk), trace[i], inode);
        FileChangeContained(origin, old(disk), trace[i], target, inode, text);
      }
    }

    /** A regular file, read in as many pieces as it takes. A read that finds nothing where the file should go
        on ends it there: then the file has been cut short, and what was read is its start. */
    method ReadFile(name: string, maxSize: nat, kind: Kind, arrivals: nat -> Reply, ghost patience: nat)
      returns (result: ReadResult)
      requires (name in disk.names ==> disk.names[name] in disk.files) && Fair(arrivals, patience)
      ensures kind == Missing || name !in disk.names ==> result == Unreadable(NoSuchFile)
      ensures result.Text? ==>
                && Read(disk, name).Some? && kind == Regular && |Read(disk, name).value| <= maxSize
                && result.text <= Read(disk, name).value
                && ((forall i :: arrivals(i) != Moved(0)) ==> Read(disk, name) == Some(result.text))
      ensures name in disk.names && kind == Regular && |Read(disk, name).value| <= maxSize
              && (forall i :: !arrivals(i).Refused?)
           ==> result.Text?
    {
      if kind == Missing || name !in disk.names {
        return Unreadable(NoSuchFile);
      }
      var content := disk.files[disk.names[name]].content;
      match kind {
        case NotOpenable | NotStatable => return Unreadable(OtherError);
        case Directory => return Unreadable(IsADirectory);
        case Special => return Unreadable(InvalidArgument);
        case Regular =>
      }
      if |content| > maxSize {
        return Unreadable(TooLarge);
      }
      var numRead: nat := 0;
      var isDone := false;
      var failed := false;
      var call: nat := 0;
      while !isDone
        invariant numRead <= |content|
        invariant isDone && !failed && numRead < |content| ==> exists i :: arrivals(i) == Moved(0)
        invariant failed ==> exists i :: arrivals(i).Refused?
        decreases !isDone, |content| - numRead, Wait(arrivals, call, patience)
      {
        match arrivals(call) {
          case Interrupted =>
            InterruptCounts(arrivals, call, patience);
          case Moved(n) =>
            // No more than is left.
            var count := if n < |content| - numRead then n else |content| - numRead;
            numRead := numRead + count;
            isDone := count == 0 || numRead == |content|;
            assert n == 0 ==> arrivals(call) == Moved(0);
          case Refused =>
            failed := true;
            isDone := true;
        }
        call := call + 1;
      }
      if failed {
        result := Unreadable(OtherError);
      } else {
        result := Text(content[..numRead]);
        assert content[..|content|] == content;
      }
    }
  }

  /** Everything about the target has reached the disk. */
  ghost predicate Settled(d: Disk, target: string) {
    && Valid(d)
    && (forall view | view in d.views :: SameAt(view, d.names, target))
    && (target in d.names ==> d.files[d.names[target]].synced)
  }

  /** A crash now leaves the old text or the new one. */
  ghost predicate LeavesOldOrNew(origin: Disk, d: Disk, target: string, text: string)
    requires target in origin.names ==> origin.names[target] in origin.files
  {
    forall read | CrashReads(d, target, read) :: read == Read(origin, target) || read == Some(text)
  }

  lemma PassesLeavesOldOrNew(before: seq<Disk>, after: seq<Disk>, origin: Disk, target: string, inode: nat,
                             text: string)
    requires Settled(origin, target) && Passes(before, after, origin, target, inode, text)
    ensures forall i | |before| <= i < |after| :: LeavesOldOrNew(origin, after[i], target, text)
  {
    forall i | |before| <= i < |after| ensures LeavesOldOrNew(origin, after[i], target, text) {
      CrashLeavesOldOrNew(origin, after[i], target, inode, text);
    }
  }

  /** Over a settled target, a crash at any state on the way leaves exactly the old text or the new one. */
  lemma CrashLeavesOldOrNew(origin: Disk, d: Disk, target: string, inode: nat, text: string)
    requires Settled(origin, target) && Contained(origin, d, target, inode, text)
    ensures LeavesOldOrNew(origin, d, target, text)
  {
    ContainedIsRecoverable(origin, d, target, inode, text);
    forall read | CrashReads(origin, target, read) ensures read == Read(origin, target) {
      var view :| view in origin.views && ViewReads(origin, view, target, read);
      assert SameAt(view, origin.names, target);
    }
  }

  /** A crash can leave what it could before, and the new text, and nothing else. */
  ghost predicate AddsOne(origin: Disk, d: Disk, target: string, text: string) {
    forall read :: CrashReads(d, target, read) <==> CrashReads(origin, target, read) || read == Some(text)
  }

  lemma StoredAddsOne(origin: Disk, d: Disk, target: string, inode: nat, text: string)
    requires Valid(origin) && Contained(origin, d, target, inode, text)
    requires forall view | view in origin.views :: view in d.views
    requires d.names in d.views && target in d.names && d.names[target] == inode
    requires d.files[inode].content == text && d.files[inode].synced
    ensures AddsOne(origin, d, target, text)
  {
    ContainedIsRecoverable(origin, d, target, inode, text);
    forall read | CrashReads(origin, target, read) ensures CrashReads(d, target, read) {
      StoredCanStillBeUndone(origin, d, target, inode, text, read);
    }
    assert ViewReads(d, d.names, target, Some(text));
  }

  /** Nothing makes the new directory reach the disk, so what a crash could read before it can still read
      after the write is reported as stored. */
  lemma StoredCanStillBeUndone(origin: Disk, d: Disk, target: string, inode: nat, text: string, read: Option<string>)
    requires Valid(origin) && Contained(origin, d, target, inode, text)
    requires forall view | view in origin.views :: view in d.views
    requires CrashReads(origin, target, read)
    ensures CrashReads(d, target, read)
  {
    var view :| view in origin.views && ViewReads(origin, view, target, read);
    assert ViewReads(d, view, target, read);
  }

  lemma CreateContained(origin: Disk, temporary: string, target: string, inode: nat, text: string)
    requires Valid(origin) && temporary != target && inode !in origin.files
    ensures Contained(origin, Create(origin, temporary, inode), target, inode, text)
    ensures Valid(Create(origin, temporary, inode))
  {
  }
}
