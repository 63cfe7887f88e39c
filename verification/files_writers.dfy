/** Several writers replacing one file at once, their calls interleaved in any way. */
module FilesWriters {
  import opened Wrappers
  import opened Files

  datatype Progress = Idle | Writing | Flushed | Replaced | GaveUp

  datatype Writer = Writer(text: string, progress: Progress, temporary: string, inode: nat)

  datatype System = System(disk: Disk, target: string, writers: seq<Writer>)

  datatype Step =
    | DoCreate(random: string, inode: nat)
    | DoSetMode(mode: nat)
    | DoWrite(count: nat)
    | DoSync
    | DoRename
    | DoGiveUp(removes: bool)

  /** One call of one writer: what the program allows next, and what mkostemp promises. */
  predicate Enabled(s: System, w: nat, step: Step) {
    && w < |s.writers|
    && var writer := s.writers[w];
       match step
       case DoCreate(random, inode) =>
         writer.progress == Idle && s.target + "." + random !in s.disk.names && inode !in s.disk.files
         && |random| == 6
       case DoSetMode(_) => writer.progress == Writing && writer.inode in s.disk.files
       case DoWrite(count) =>
         writer.progress == Writing && writer.inode in s.disk.files
         && |s.disk.files[writer.inode].content| + count <= |writer.text|
       case DoSync =>
         writer.progress == Writing && writer.inode in s.disk.files
         && |s.disk.files[writer.inode].content| == |writer.text|
       case DoRename => writer.progress == Flushed && writer.temporary in s.disk.names
       case DoGiveUp(_) => writer.progress in {Writing, Flushed}
  }

  function Put(s: System, w: nat, disk: Disk, writer: Writer): System
    requires w < |s.writers|
  {
    s.(disk := disk, writers := s.writers[w := writer])
  }

  function Apply(s: System, w: nat, step: Step): System
    requires Enabled(s, w, step)
  {
    var writer := s.writers[w];
    match step
    case DoCreate(random, inode) =>
      var temporary := s.target + "." + random;
      Put(s, w, Create(s.disk, temporary, inode), writer.(progress := Writing, temporary := temporary, inode := inode))
    case DoSetMode(mode) => s.(disk := SetMode(s.disk, writer.inode, mode))
    case DoWrite(count) =>
      var numWritten := |s.disk.files[writer.inode].content|;
      s.(disk := Append(s.disk, writer.inode, writer.text[numWritten..numWritten + count]))
    case DoSync => Put(s, w, Sync(s.disk, writer.inode), writer.(progress := Flushed))
    case DoRename => Put(s, w, Rename(s.disk, writer.temporary, s.target), writer.(progress := Replaced))
    case DoGiveUp(removes) =>
      Put(s, w, if removes then Remove(s.disk, writer.temporary) else s.disk, writer.(progress := GaveUp))
  }

  // ---- The invariant -------------------------------------------------------------------------------

  /** The writer's file is a start of its text, and once flushed it is all of it, for good. */
  ghost predicate FileInv(origin: Disk, d: Disk, w: Writer) {
    w.progress != Idle ==>
      && w.inode in d.files && w.inode !in origin.files
      && d.files[w.inode].content <= w.text
      && (w.progress in {Flushed, Replaced} ==> d.files[w.inode].content == w.text && d.files[w.inode].synced)
  }

  /** A writer at work owns its temporary name. */
  ghost predicate NameInv(s: System, w: Writer) {
    w.progress in {Writing, Flushed} ==>
      |w.temporary| > |s.target| && w.temporary in s.disk.names && s.disk.names[w.temporary] == w.inode
  }

  ghost predicate Apart(a: Writer, b: Writer) {
    && (a.progress != Idle && b.progress != Idle ==> a.inode != b.inode)
    && (a.progress in {Writing, Flushed} && b.progress in {Writing, Flushed} ==> a.temporary != b.temporary)
  }

  ghost predicate LedByWriter(s: System, view: Names) {
    exists w | 0 <= w < |s.writers| :: Owns(s.writers[w], view, s.target)
  }

  predicate Owns(w: Writer, view: Names, target: string) {
    w.progress == Replaced && target in view && view[target] == w.inode
  }

  ghost predicate LedAsBefore(origin: Disk, view: Names, target: string) {
    exists before | before in origin.views :: SameAt(view, before, target)
  }

  ghost predicate ViewsInv(origin: Disk, s: System) {
    forall view | view in s.disk.views :: LedAsBefore(origin, view, s.target) || LedByWriter(s, view)
  }

  ghost predicate Inv(origin: Disk, s: System) {
    && Valid(origin) && Valid(s.disk)
    && (forall i | i in origin.files :: i in s.disk.files && s.disk.files[i] == origin.files[i])
    && (forall w | 0 <= w < |s.writers| :: FileInv(origin, s.disk, s.writers[w]) && NameInv(s, s.writers[w]))
    && (forall v, w | 0 <= v < w < |s.writers| :: Apart(s.writers[v], s.writers[w]))
    && ViewsInv(origin, s)
  }

  // ---- One call ------------------------------------------------------------------------------------

  /** A writer touches its own file: no view changes, and no other writer's file does. */
  lemma OwnFileKeeps(origin: Disk, s: System, w: nat, disk: Disk, progress: Progress)
    requires Inv(origin, s) && w < |s.writers| && s.writers[w].progress == Writing
    requires progress == Writing || progress == Flushed
    requires SameButFile(s.disk, disk, s.writers[w].inode)
    requires FileInv(origin, disk, s.writers[w].(progress := progress))
    ensures Inv(origin, Put(s, w, disk, s.writers[w].(progress := progress)))
  {
    var r := Put(s, w, disk, s.writers[w].(progress := progress));
    forall v | 0 <= v < |r.writers| ensures FileInv(origin, r.disk, r.writers[v]) && NameInv(r, r.writers[v]) {
      assert FileInv(origin, s.disk, s.writers[v]) && NameInv(s, s.writers[v]);
      if v != w {
        assert Apart(s.writers[if v < w then v else w], s.writers[if v < w then w else v]);
      }
    }
    ApartAfter(s, w, r.writers[w], r.writers);
    LedAfter(origin, s, r, w);
  }

  lemma ApartAfter(s: System, w: nat, writer: Writer, next: seq<Writer>)
    requires forall u, v | 0 <= u < v < |s.writers| :: Apart(s.writers[u], s.writers[v])
    requires w < |s.writers| && next == s.writers[w := writer]
    requires writer.progress == Idle
          || (s.writers[w].progress != Idle && writer.inode == s.writers[w].inode
              && (writer.progress in {Writing, Flushed} ==>
                    s.writers[w].progress in {Writing, Flushed} && writer.temporary == s.writers[w].temporary))
    ensures forall u, v | 0 <= u < v < |next| :: Apart(next[u], next[v])
  {
    forall u, v | 0 <= u < v < |next| ensures Apart(next[u], next[v]) {
      assert Apart(s.writers[u], s.writers[v]);
    }
  }

  /** A view led as before is still led, once a writer that had not replaced the target goes on. */
  lemma LedAfter(origin: Disk, s: System, r: System, w: nat)
    requires ViewsInv(origin, s) && w < |s.writers| == |r.writers| && r.target == s.target
    requires s.writers[w].progress != Replaced
    requires forall v | 0 <= v < |s.writers| && v != w :: r.writers[v] == s.writers[v]
    ensures forall view | view in s.disk.views :: LedAsBefore(origin, view, r.target) || LedByWriter(r, view)
  {
    forall view | view in s.disk.views ensures LedAsBefore(origin, view, r.target) || LedByWriter(r, view) {
      if !LedAsBefore(origin, view, s.target) {
        var v :| 0 <= v < |s.writers| && Owns(s.writers[v], view, s.target);
        assert Owns(r.writers[v], view, r.target);
      }
    }
  }

  lemma SameTargetLed(origin: Disk, s: System, r: System, names: Names)
    requires s.disk.names in s.disk.views && r.target == s.target
    requires forall view | view in s.disk.views :: LedAsBefore(origin, view, r.target) || LedByWriter(r, view)
    requires SameAt(names, s.disk.names, s.target)
    ensures LedAsBefore(origin, names, r.target) || LedByWriter(r, names)
  {
    if LedAsBefore(origin, s.disk.names, r.target) {
      var before :| before in origin.views && SameAt(s.disk.names, before, s.target);
      assert SameAt(names, before, s.target);
    } else {
      var v :| 0 <= v < |r.writers| && Owns(r.writers[v], s.disk.names, s.target);
      assert Owns(r.writers[v], names, r.target);
    }
  }

  lemma CreateKeeps(origin: Disk, s: System, w: nat, random: string, inode: nat)
    requires Inv(origin, s) && Enabled(s, w, DoCreate(random, inode))
    ensures Inv(origin, Apply(s, w, DoCreate(random, inode)))
  {
    var r := Apply(s, w, DoCreate(random, inode));
    var temporary := s.target + "." + random;
    assert |temporary| > |s.target|;
    forall v | 0 <= v < |r.writers| ensures FileInv(origin, r.disk, r.writers[v]) && NameInv(r, r.writers[v]) {
      assert FileInv(origin, s.disk, s.writers[v]) && NameInv(s, s.writers[v]);
    }
    forall u, v | 0 <= u < v < |r.writers| ensures Apart(r.writers[u], r.writers[v]) {
      assert Apart(s.writers[u], s.writers[v]);
      assert FileInv(origin, s.disk, s.writers[u]) && NameInv(s, s.writers[u]);
      assert FileInv(origin, s.disk, s.writers[v]) && NameInv(s, s.writers[v]);
    }
    LedAfter(origin, s, r, w);
    SameTargetLed(origin, s, r, r.disk.names);
  }

  lemma RenameKeeps(origin: Disk, s: System, w: nat)
    requires Inv(origin, s) && Enabled(s, w, DoRename)
    ensures Inv(origin, Apply(s, w, DoRename))
  {
    var r := Apply(s, w, DoRename);
    var writer := s.writers[w];
    assert FileInv(origin, s.disk, writer) && NameInv(s, writer);
    OthersKeepTheirNames(origin, s, r, w);
    ApartAfter(s, w, r.writers[w], r.writers);
    LedAfter(origin, s, r, w);
    assert Owns(r.writers[w], r.disk.names, r.target);
  }

  /** Taking one writer's temporary name away, and perhaps moving the target, leaves the others theirs. */
  lemma OthersKeepTheirNames(origin: Disk, s: System, r: System, w: nat)
    requires Inv(origin, s) && w < |s.writers| == |r.writers| && s.writers[w].progress in {Writing, Flushed}
    requires r.writers[w].progress in {Replaced, GaveUp} && r.target == s.target && r.disk.files == s.disk.files
    requires forall v | 0 <= v < |s.writers| && v != w :: r.writers[v] == s.writers[v]
    requires FileInv(origin, r.disk, r.writers[w])
    requires forall name | name in s.disk.names && name != s.writers[w].temporary && name != s.target ::
               name in r.disk.names && r.disk.names[name] == s.disk.names[name]
    ensures forall v | 0 <= v < |r.writers| :: FileInv(origin, r.disk, r.writers[v]) && NameInv(r, r.writers[v])
  {
    forall v | 0 <= v < |r.writers| ensures FileInv(origin, r.disk, r.writers[v]) && NameInv(r, r.writers[v]) {
      assert FileInv(origin, s.disk, s.writers[v]) && NameInv(s, s.writers[v]);
      if v != w {
        assert Apart(s.writers[if v < w then v else w], s.writers[if v < w then w else v]);
      }
    }
  }

  lemma GiveUpKeeps(origin: Disk, s: System, w: nat, removes: bool)
    requires Inv(origin, s) && Enabled(s, w, DoGiveUp(removes))
    ensures Inv(origin, Apply(s, w, DoGiveUp(removes)))
  {
    var r := Apply(s, w, DoGiveUp(removes));
    assert FileInv(origin, s.disk, s.writers[w]) && NameInv(s, s.writers[w]);
    OthersKeepTheirNames(origin, s, r, w);
    ApartAfter(s, w, r.writers[w], r.writers);
    LedAfter(origin, s, r, w);
    if removes {
      SameTargetLed(origin, s, r, r.disk.names);
    }
  }

  lemma StepKeeps(origin: Disk, s: System, w: nat, step: Step)
    requires Inv(origin, s) && Enabled(s, w, step)
    ensures Inv(origin, Apply(s, w, step))
  {
    assert FileInv(origin, s.disk, s.writers[w]);
    match step
    case DoCreate(random, inode) => CreateKeeps(origin, s, w, random, inode);
    case DoSetMode(_) =>
      assert s.writers == s.writers[w := s.writers[w].(progress := Writing)];
      OwnFileKeeps(origin, s, w, Apply(s, w, step).disk, Writing);
    case DoWrite(count) =>
      var writer := s.writers[w];
      var numWritten := |s.disk.files[writer.inode].content|;
      assert writer.text[..numWritten] + writer.text[numWritten..numWritten + count]
          == writer.text[..numWritten + count];
      assert s.writers == s.writers[w := writer.(progress := Writing)];
      OwnFileKeeps(origin, s, w, Apply(s, w, step).disk, Writing);
    case DoSync =>
      OwnFileKeeps(origin, s, w, Apply(s, w, step).disk, Flushed);
    case DoRename => RenameKeeps(origin, s, w);
    case DoGiveUp(removes) => GiveUpKeeps(origin, s, w, removes);
  }

  // ---- Every interleaving --------------------------------------------------------------------------

  ghost predicate Runs(s: System, steps: seq<(nat, Step)>)
    decreases |steps|
  {
    steps == [] || (Enabled(s, steps[0].0, steps[0].1) && Runs(Apply(s, steps[0].0, steps[0].1), steps[1..]))
  }

  ghost function After(s: System, steps: seq<(nat, Step)>): System
    requires Runs(s, steps)
    decreases |steps|
  {
    if steps == [] then s else After(Apply(s, steps[0].0, steps[0].1), steps[1..])
  }

  lemma {:induction false} RunKeeps(origin: Disk, s: System, steps: seq<(nat, Step)>)
    requires Inv(origin, s) && Runs(s, steps)
    ensures Inv(origin, After(s, steps))
    ensures After(s, steps).target == s.target && |After(s, steps).writers| == |s.writers|
    ensures forall w | 0 <= w < |s.writers| :: After(s, steps).writers[w].text == s.writers[w].text
    decreases |steps|
  {
    if steps != [] {
      StepKeeps(origin, s, steps[0].0, steps[0].1);
      RunKeeps(origin, Apply(s, steps[0].0, steps[0].1), steps[1..]);
    }
  }

  function Start(disk: Disk, target: string, texts: seq<string>): System {
    System(disk, target, seq(|texts|, i requires 0 <= i < |texts| => Writer(texts[i], Idle, "", 0)))
  }

  ghost predicate ReadsAWhole(s: System, read: Option<string>, w: int) {
    0 <= w < |s.writers| && s.writers[w].progress == Replaced && read == Some(s.writers[w].text)
  }

  lemma AsBeforeReads(origin: Disk, s: System, view: Names, read: Option<string>)
    requires Inv(origin, s) && ViewReads(s.disk, view, s.target, read) && LedAsBefore(origin, view, s.target)
    ensures CrashReads(origin, s.target, read)
  {
    var before :| before in origin.views && SameAt(view, before, s.target);
    assert s.target in before ==> before[s.target] in origin.files;
    assert ViewReads(origin, before, s.target, read);
  }

  lemma CrashReadsAWhole(origin: Disk, s: System, read: Option<string>)
    requires Inv(origin, s) && CrashReads(s.disk, s.target, read)
    ensures CrashReads(origin, s.target, read) || exists w :: ReadsAWhole(s, read, w)
  {
    var view :| view in s.disk.views && ViewReads(s.disk, view, s.target, read);
    if LedAsBefore(origin, view, s.target) {
      AsBeforeReads(origin, s, view, read);
    } else {
      var w :| 0 <= w < |s.writers| && Owns(s.writers[w], view, s.target);
      assert FileInv(origin, s.disk, s.writers[w]);
      assert ReadsAWhole(s, read, w);
    }
  }

  lemma StartHolds(origin: Disk, target: string, texts: seq<string>)
    requires Valid(origin)
    ensures Inv(origin, Start(origin, target, texts))
  {
    assert forall view | view in origin.views :: SameAt(view, view, target);
  }

  /** However the calls of any number of writers interleave, and wherever a crash cuts them off, the target
      reads as it could have before, or as the whole text of a writer that has replaced it. */
  lemma NobodyTearsTheTarget(origin: Disk, target: string, texts: seq<string>, steps: seq<(nat, Step)>,
                             read: Option<string>)
    requires Valid(origin) && Runs(Start(origin, target, texts), steps)
    ensures var s := After(Start(origin, target, texts), steps);
            CrashReads(s.disk, target, read) ==>
              || CrashReads(origin, target, read)
              || exists w | 0 <= w < |texts| == |s.writers| ::
                   s.writers[w].progress == Replaced && read == Some(texts[w])
  {
    var start := Start(origin, target, texts);
    StartHolds(origin, target, texts);
    RunKeeps(origin, start, steps);
    var s := After(start, steps);
    if CrashReads(s.disk, target, read) {
      CrashReadsAWhole(origin, s, read);
      if w :| ReadsAWhole(s, read, w) {
        assert s.writers[w].text == start.writers[w].text == texts[w];
      }
    }
  }

  // ---- Every writer gets through -------------------------------------------------------------------

  /** A writer waits for no other: it can create its file under any free name of six letters, set its mode, write on
      from where it is, flush it once it is all there, rename it then, and give up at any time before. */
  lemma WritersGoOn(origin: Disk, s: System, w: nat)
    requires Inv(origin, s) && w < |s.writers|
    ensures var writer := s.writers[w];
            var content := if writer.inode in s.disk.files then s.disk.files[writer.inode].content else "";
            && (writer.progress == Idle ==>
                  forall random, inode :: Enabled(s, w, DoCreate(random, inode))
                    <==> |random| == 6 && s.target + "." + random !in s.disk.names && inode !in s.disk.files)
            && (writer.progress == Writing ==>
                  && |content| <= |writer.text| && (forall mode :: Enabled(s, w, DoSetMode(mode)))
                  && (forall count :: Enabled(s, w, DoWrite(count)) <==> |content| + count <= |writer.text|)
                  && (Enabled(s, w, DoSync) <==> content == writer.text))
            && (writer.progress == Flushed ==> Enabled(s, w, DoRename))
            && (forall removes :: Enabled(s, w, DoGiveUp(removes)) <==> writer.progress in {Writing, Flushed})
  {
    assert FileInv(origin, s.disk, s.writers[w]) && NameInv(s, s.writers[w]);
  }

  /** And with each call it is a step further: its file there and empty, with its mode, with more of its text, flushed,
      in the target's place -- or given up, and removed where it can be. */
  lemma CallsTell(origin: Disk, s: System, w: nat, step: Step)
    requires Inv(origin, s) && Enabled(s, w, step)
    ensures var writer, r, next := s.writers[w], Apply(s, w, step), Apply(s, w, step).writers[w];
            match step
            case DoCreate(random, inode) =>
              && next == Writer(writer.text, Writing, s.target + "." + random, inode)
              && r.disk.names == s.disk.names[next.temporary := inode] && r.disk.files[inode] == File("", 384, false)
            case DoSetMode(mode) =>
              next == writer && writer.inode in r.disk.files && r.disk.files[writer.inode].mode == mode
              && r.disk.names == s.disk.names
            case DoWrite(count) =>
              && next == writer && writer.inode in r.disk.files && r.disk.names == s.disk.names
              && r.disk.files[writer.inode].content
                   == writer.text[..|s.disk.files[writer.inode].content| + count]
            case DoSync => next == writer.(progress := Flushed) && r.disk.names == s.disk.names
            case DoRename =>
              && next == writer.(progress := Replaced) && writer.temporary !in r.disk.names
              && s.target in r.disk.names && r.disk.names[s.target] == writer.inode
              && Read(r.disk, s.target) == Some(writer.text)
            case DoGiveUp(removes) =>
              && next == writer.(progress := GaveUp)
              && r.disk.names == (if removes then s.disk.names - {writer.temporary} else s.disk.names)
  {
    assert FileInv(origin, s.disk, s.writers[w]) && NameInv(s, s.writers[w]);
  }

  /** At first none has begun. */
  lemma NoneHasBegun(disk: Disk, target: string, texts: seq<string>, w: nat)
    requires w < |texts|
    ensures Start(disk, target, texts).writers[w].progress == Idle
    ensures Start(disk, target, texts).writers[w].text == texts[w] && Start(disk, target, texts).disk == disk
  {
  }
}
