/** The configuration directory on a disk that may lose what it has not been made to keep. config.json is only
    ever replaced by a file that was flushed first; config.json.bad is copied to in place and never flushed; and
    nothing makes a change of names reach the disk. */
module StoreDisk {
  import opened Wrappers
  import opened JsonTree
  import opened SettingsJson
  import opened SettingsReading
  import opened SettingsStore
  import opened StoreResults

  /** A file is synced once what it holds is sure to outlive a power cut. */
  datatype File = File(entry: Entry, synced: bool)

  /** Which file each name leads to. */
  datatype Names = Names(config: Option<nat>, bad: Option<nat>)

  /** Files by number, the directory as it reads now, and every directory there has been since the disk last
      settled, each of which a power cut may bring back. */
  datatype Medium = Medium(files: seq<File>, names: Names, kept: seq<Names>, legacy: Legacy)

  function EntryOf(files: seq<File>, file: Option<nat>): Entry {
    if file.Some? && file.value < |files| then files[file.value].entry else Missing
  }

  /** The directory as the store reads it. */
  function Shown(m: Medium): Disk {
    Disk(EntryOf(m.files, m.names.config), EntryOf(m.files, m.names.bad), m.legacy)
  }

  /** A settled disk. */
  function FromDisk(disk: Disk): Medium {
    var config := if disk.config.Missing? then [] else [File(disk.config, true)];
    var bad := if disk.bad.Missing? then [] else [File(disk.bad, true)];
    var names := Names(if config == [] then None else Some(0), if bad == [] then None else Some(|config|));
    Medium(config + bad, names, [names], disk.legacy)
  }

  // ---- What happens to it --------------------------------------------------------------------------

  function Enter(m: Medium, names: Names): Medium {
    m.(names := names, kept := m.kept + [names])
  }

  /** A new file, flushed, takes the name. */
  function Replace(m: Medium, text: Text): Medium {
    Enter(m.(files := m.files + [File(Holds(text), true)]), m.names.(config := Some(|m.files|)))
  }

  /** What a copy leaves under .bad: in the file that is there, or in a new one, and not flushed. */
  function Copy(m: Medium, entry: Entry): Medium {
    if entry.Missing? then Enter(m, m.names.(bad := None))
    else if m.names.bad.Some? && m.names.bad.value < |m.files|
    then m.(files := m.files[m.names.bad.value := File(entry, false)])
    else Enter(m.(files := m.files + [File(entry, false)]), m.names.(bad := Some(|m.files|)))
  }

  function Move(m: Medium): Medium {
    Enter(m, Names(None, m.names.config))
  }

  /** In its own time, the system writes everything out. */
  function Settled(m: Medium): Medium {
    m.(files := seq(|m.files|, i requires 0 <= i < |m.files| => m.files[i].(synced := true)), kept := [m.names])
  }

  /** One of the kept directories comes back, with anything in the files that were not flushed. */
  function Cut(m: Medium, pick: nat, torn: nat -> Text): Medium {
    var names := if pick < |m.kept| then m.kept[pick] else m.names;
    m.(files := seq(|m.files|, i requires 0 <= i < |m.files| =>
                      if m.files[i].synced then m.files[i] else File(Holds(torn(i)), true)),
       names := names, kept := [names])
  }

  // ---- What holds of it ----------------------------------------------------------------------------

  /** None, or one that Klip may have written: an object of a known format in which nothing is refused. */
  ghost predicate Ours(config: Entry) {
    match config
    case Missing => true
    case Unreadable => false
    case Holds(text) =>
      && Parse(text).Some? && Parse(text).value.Object? && !IsNewer(Parse(text).value)
      && Rejected(Parse(text).value, KNOWN) == []
  }

  ghost predicate Fits(files: seq<File>, v: Names) {
    && (v.config.Some? ==> v.config.value < |files| && files[v.config.value].synced && v.config != v.bad)
    && (v.bad.Some? ==> v.bad.value < |files|)
  }

  /** Every settings file that may come back is flushed; and one that is not of Klip's making has not been
      replaced since the disk last settled -- so a copy never goes into a file that may come back as it. */
  ghost predicate MediumInv(m: Medium) {
    && m.names in m.kept
    && (forall i | 0 <= i < |m.files| :: !m.files[i].entry.Missing?)
    && (forall v | v in m.kept :: Fits(m.files, v))
    && (Ours(Shown(m).config) || forall v | v in m.kept :: v.config == m.names.config)
  }

  /** The settings files a power cut may bring back. */
  function Recoverable(m: Medium): set<Entry> {
    set v | v in m.kept :: EntryOf(m.files, v.config)
  }

  lemma ShownFromDisk(disk: Disk)
    ensures Shown(FromDisk(disk)) == disk && MediumInv(FromDisk(disk)) && Recoverable(FromDisk(disk)) == {disk.config}
  {
    var m := FromDisk(disk);
    assert m.kept == [m.names] && m.names in m.kept;
  }

  /** On a settled disk, and after a power cut, nothing is left that could still be torn; and a copy goes into the
      file that is there, so that a directory from before it has it too. */
  lemma NothingIsTorn(disk: Disk, m: Medium, pick: nat, torn: nat -> Text, entry: Entry)
    ensures forall f | f in FromDisk(disk).files + Settled(m).files + Cut(m, pick, torn).files :: f.synced
    ensures |FromDisk(disk).kept| == |Settled(m).kept| == |Cut(m, pick, torn).kept| == 1
    ensures m.names.bad.Some? && m.names.bad.value < |m.files| && !entry.Missing? ==>
              Copy(m, entry) == m.(files := m.files[m.names.bad.value := File(entry, false)])
  {
  }

  lemma ReplaceKeeps(m: Medium, text: Text)
    requires MediumInv(m) && Ours(Holds(text))
    ensures MediumInv(Replace(m, text)) && Shown(Replace(m, text)) == Shown(m).(config := Holds(text))
    ensures Recoverable(Replace(m, text)) == Recoverable(m) + {Holds(text)}
  {
    var r := Replace(m, text);
    assert r.names in r.kept;
    forall v | v in m.kept ensures EntryOf(r.files, v.config) == EntryOf(m.files, v.config) && v in r.kept {
      assert Fits(m.files, v);
    }
    assert Fits(m.files, m.names);
    forall v | v in r.kept ensures Fits(r.files, v) && (v == r.names || v in m.kept) {
      assert v in m.kept ==> Fits(m.files, v);
    }
  }

  lemma CopyKeeps(m: Medium, entry: Entry)
    requires MediumInv(m) && !Ours(Shown(m).config)
    ensures MediumInv(Copy(m, entry)) && Shown(Copy(m, entry)) == Shown(m).(bad := entry)
    ensures Recoverable(Copy(m, entry)) == Recoverable(m)
    ensures Copy(m, entry).names.config == m.names.config
    ensures EntryOf(Copy(m, entry).files, m.names.config) == Shown(m).config
  {
    var r := Copy(m, entry);
    assert Fits(m.files, m.names);
    assert r.names in r.kept;
    forall v | v in m.kept
      ensures v in r.kept && Fits(r.files, v) && EntryOf(r.files, v.config) == EntryOf(m.files, v.config)
    {
      assert Fits(m.files, v) && v.config == m.names.config;
    }
    forall v | v in r.kept ensures v == r.names || v in m.kept {
    }
    assert EntryOf(r.files, r.names.config) == Shown(m).config;
  }

  lemma MoveKeeps(m: Medium)
    requires MediumInv(m)
    ensures MediumInv(Move(m)) && Shown(Move(m)) == Shown(m).(config := Missing, bad := Shown(m).config)
    ensures Recoverable(Move(m)) == Recoverable(m) + {Missing}
  {
    var r := Move(m);
    assert r.names in r.kept && Fits(m.files, m.names);
    forall v | v in m.kept ensures v in r.kept {
    }
    forall v | v in r.kept ensures Fits(r.files, v) && (v == r.names || v in m.kept) {
    }
  }

  lemma SettleKeeps(m: Medium)
    requires MediumInv(m)
    ensures MediumInv(Settled(m)) && Shown(Settled(m)) == Shown(m) && Recoverable(Settled(m)) == {Shown(m).config}
  {
    var r := Settled(m);
    assert Fits(m.files, m.names);
    assert r.kept == [m.names] && r.names in r.kept;
    assert Recoverable(r) == {EntryOf(r.files, r.names.config)};
  }

  lemma CutKeeps(m: Medium, pick: nat, torn: nat -> Text)
    requires MediumInv(m)
    ensures var r := Cut(m, pick, torn);
            && MediumInv(r) && r.legacy == m.legacy
            && Shown(r).config in Recoverable(m) && Recoverable(r) == {Shown(r).config}
            && Shown(r).config == EntryOf(m.files, r.names.config) && r.names in m.kept
  {
    var r := Cut(m, pick, torn);
    assert Fits(m.files, r.names);
    assert r.kept == [r.names] && r.names in r.kept;
    assert EntryOf(m.files, r.names.config) in Recoverable(m);
    assert Recoverable(r) == {EntryOf(r.files, r.names.config)};
  }

  /** Any of them may. */
  lemma CutReaches(m: Medium, config: Entry, torn: nat -> Text) returns (pick: nat)
    requires MediumInv(m) && config in Recoverable(m)
    ensures pick < |m.kept| && Shown(Cut(m, pick, torn)).config == config
  {
    var v :| v in m.kept && EntryOf(m.files, v.config) == config;
    pick :| pick < |m.kept| && m.kept[pick] == v;
    CutKeeps(m, pick, torn);
  }

  lemma CutsReachExactly(m: Medium, config: Entry)
    requires MediumInv(m)
    ensures (exists pick, torn :: Shown(Cut(m, pick, torn)).config == config) <==> config in Recoverable(m)
  {
    if pick, torn :| Shown(Cut(m, pick, torn)).config == config {
      CutKeeps(m, pick, torn);
    }
    if config in Recoverable(m) {
      var pick := CutReaches(m, config, i => Empty);
    }
  }

  /** The settings file or its copy is this one. */
  predicate Present(disk: Disk, original: Entry) {
    disk.config == original || disk.bad == original
  }

  /** It is there after any power cut. */
  ghost predicate SurvivesCuts(m: Medium, original: Entry) {
    forall pick, torn :: Present(Shown(Cut(m, pick, torn)), original)
  }

  /** `original` stands under .bad, flushed. */
  predicate HasCopy(files: seq<File>, v: Names, original: Entry) {
    v.bad.Some? && v.bad.value < |files| && files[v.bad.value] == File(original, true)
  }

  /** That is so exactly where every directory that may come back has it as the settings file, or has a flushed
      copy of it. */
  lemma SurvivesExactlyWhen(m: Medium, original: Entry)
    requires MediumInv(m) && !original.Missing?
    ensures SurvivesCuts(m, original)
       <==> forall v | v in m.kept :: EntryOf(m.files, v.config) == original || HasCopy(m.files, v, original)
  {
    if v :| v in m.kept && EntryOf(m.files, v.config) != original && !HasCopy(m.files, v, original) {
      CutMayLose(m, v, original);
    } else {
      forall pick: nat, torn ensures Present(Shown(Cut(m, pick, torn)), original) {
        var names := if pick < |m.kept| then m.kept[pick] else m.names;
        assert names in m.kept && Fits(m.files, names);
      }
    }
  }

  lemma CutMayLose(m: Medium, v: Names, original: Entry)
    requires MediumInv(m) && v in m.kept && !original.Missing?
    requires EntryOf(m.files, v.config) != original && !HasCopy(m.files, v, original)
    ensures !SurvivesCuts(m, original)
  {
    var torn := (i: nat) => if original == Holds(Empty) then Other(0, None) else Empty;
    var pick: nat :| pick < |m.kept| && m.kept[pick] == v;
    assert Fits(m.files, v);
    assert !Present(Shown(Cut(m, pick, torn)), original);
  }

  // ---- What the store does to it -------------------------------------------------------------------

  function WrittenTo(m: Medium, s: State, settings: Settings, calls: Calls): Medium
    requires |settings.audio| == NUM_SOURCES
  {
    var text := Printed(SettingsJson.Write(settings, Root(s.kept)));
    if text != s.kept && calls.creates && calls.writes then Replace(m, text) else m
  }

  function SavedTo(m: Medium, s: State, saving: Saving): Medium
    requires |saving.settings.audio| == |s.written.audio| == NUM_SOURCES
  {
    if s.canSave && Asks(saving.changes)
    then WrittenTo(m, s, Merge(s.written, saving.settings, saving.changes), saving.calls)
    else m
  }

  ghost function LoadedFrom(e: Setting, m: Medium, calls: Calls): Medium
    requires |e.defaults.audio| == NUM_SOURCES
  {
    var start := State(Shown(m), Empty, e.defaults, false);
    if !e.hasPath then m
    else
      match Look(e, Shown(m).config)
      case NoFile => if m.legacy.Converts? then WrittenTo(m, start, Imported(e, m.legacy), calls) else m
      case CannotRead => m
      case NotSettings => if calls.moves then Move(m) else m
      case Document(root) =>
        if Rejected(root, KNOWN) == [] then m
        else Copy(m, if calls.copies then Shown(m).config else calls.leftover)
  }

  lemma WrittenIsOurs(settings: Settings, kept: Json)
    requires IsValid(settings)
    ensures Ours(Holds(Printed(SettingsJson.Write(settings, kept))))
  {
    ReadingUndoesWriting(settings, kept, settings);
    OutputIsRead(settings, kept);
  }

  lemma WrittenToKeeps(m: Medium, s: State, settings: Settings, calls: Calls)
    requires MediumInv(m) && s.disk == Shown(m) && IsValid(settings)
    ensures var r := WrittenTo(m, s, settings, calls);
            && MediumInv(r) && Shown(r) == WriteThrough(s, settings, calls).0.disk
            && Recoverable(r) == Recoverable(m) + {Shown(r).config}
  {
    WrittenIsOurs(settings, Root(s.kept));
    var text := Printed(SettingsJson.Write(settings, Root(s.kept)));
    ReplaceKeeps(m, text);
    assert Shown(m).config in Recoverable(m);
  }

  lemma SavedToKeeps(m: Medium, s: State, saving: Saving)
    requires MediumInv(m) && s.disk == Shown(m) && IsValid(saving.settings)
    requires |s.written.audio| == NUM_SOURCES && (s.canSave ==> IsValid(s.written))
    ensures var r := SavedTo(m, s, saving);
            && MediumInv(r) && Shown(r) == Save(s, saving.settings, saving.changes, saving.calls).disk
            && Recoverable(r) == Recoverable(m) + {Shown(r).config}
  {
    if s.canSave && Asks(saving.changes) {
      MergeIsValid(s.written, saving.settings, saving.changes);
      WrittenToKeeps(m, s, Merge(s.written, saving.settings, saving.changes), saving.calls);
    } else {
      assert Shown(m).config in Recoverable(m);
    }
  }

  lemma LoadedFromKeeps(e: Setting, m: Medium, calls: Calls)
    requires MediumInv(m) && IsValid(e.defaults)
    ensures var r := LoadedFrom(e, m, calls);
            && MediumInv(r) && Shown(r) == Load(e, Shown(m), calls).0.disk
            && Recoverable(r) == Recoverable(m) + {Shown(r).config}
  {
    assert Shown(m).config in Recoverable(m);
    if e.hasPath {
      match Look(e, Shown(m).config)
      case NoFile =>
        if m.legacy.Converts? {
          WhatIsReadIsValid(m.legacy.tree, e.defaults);
          WrittenToKeeps(m, State(Shown(m), Empty, e.defaults, false), Imported(e, m.legacy), calls);
        }
      case NotSettings => MoveKeeps(m);
      case Document(root) =>
        if Rejected(root, KNOWN) != [] {
          CopyKeeps(m, if calls.copies then Shown(m).config else calls.leftover);
        }
      case _ =>
    }
  }
}
