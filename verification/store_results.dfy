/** What holds of the settings store in every session: the cache agrees with the disk, and what is unknown stays. */
module StoreResults {
  import opened Wrappers
  import opened JsonTree
  import opened SettingsJson
  import opened SettingsReading
  import opened SettingsStore

  /** A store that may save knows the file: there is none yet, or it is the kept text, read as the settings
      last written -- with a copy put by where something in it was refused. */
  ghost predicate Inv(e: Setting, s: State)
    requires |e.defaults.audio| == NUM_SOURCES
  {
    && |s.written.audio| == NUM_SOURCES
    && (s.canSave ==>
          && e.hasPath && IsValid(s.written)
          && (s.disk.config.Missing? ==> s.kept == Empty)
          && !s.disk.config.Unreadable?
          && (s.disk.config.Holds? ==> s.kept == s.disk.config.text && Known(e, s, s.kept)))
  }

  ghost predicate Known(e: Setting, s: State, text: Text)
    requires |e.defaults.audio| == NUM_SOURCES
  {
    && Parse(text).Some? && Parse(text).value.Object? && !IsNewer(Parse(text).value)
    && s.written == SettingsOf(Parse(text).value, e.defaults)
    && (Rejected(Parse(text).value, KNOWN) == [] || s.disk.bad == Holds(text))
  }

  /** A text just written is known, whatever it was written over. */
  lemma WrittenIsKnown(e: Setting, s: State, settings: Settings, kept: Json)
    requires |e.defaults.audio| == NUM_SOURCES && IsValid(settings) && s.written == settings
    ensures Known(e, s, Printed(SettingsJson.Write(settings, kept)))
  {
    ReadingUndoesWriting(settings, kept, e.defaults);
    OutputIsRead(settings, kept);
  }

  lemma WriteKeeps(e: Setting, s: State, settings: Settings, calls: Calls)
    requires |e.defaults.audio| == NUM_SOURCES && Inv(e, s) && s.canSave && IsValid(settings)
    ensures var (r, stored) := WriteThrough(s, settings, calls);
            && Inv(e, r) && r.canSave && r.disk.legacy == s.disk.legacy && r.disk.bad == s.disk.bad
            && (stored ==> r.written == settings && r.disk.config.Holds?)
            && (!stored ==> r == s)
  {
    WrittenIsKnown(e, s.(written := settings), settings, Root(s.kept));
    WrittenIsKnown(e, WriteThrough(s, settings, calls).0.(written := settings), settings, Root(s.kept));
  }

  lemma MergeIsValid(written: Settings, settings: Settings, changes: Changes)
    requires IsValid(written) && IsValid(settings)
    ensures IsValid(Merge(written, settings, changes))
  {
  }

  lemma LoadEstablishes(e: Setting, disk: Disk, calls: Calls)
    requires IsValid(e.defaults)
    ensures Inv(e, Load(e, disk, calls).0)
    ensures Load(e, disk, calls).0.disk.legacy == disk.legacy
  {
    var start := State(disk, Empty, e.defaults, false);
    if e.hasPath {
      match Look(e, disk.config)
      case NoFile =>
        if disk.legacy.Converts? {
          WhatIsReadIsValid(disk.legacy.tree, e.defaults);
          WriteKeeps(e, start.(canSave := true), Imported(e, disk.legacy), calls);
        }
      case Document(root) => WhatIsReadIsValid(root, e.defaults);
      case _ =>
    }
  }

  lemma SaveKeeps(e: Setting, s: State, settings: Settings, changes: Changes, calls: Calls)
    requires |e.defaults.audio| == NUM_SOURCES && Inv(e, s) && IsValid(settings)
    ensures var r := Save(s, settings, changes, calls);
            && Inv(e, r) && r.canSave == s.canSave && r.disk.legacy == s.disk.legacy && r.disk.bad == s.disk.bad
            && r.written == Kept(s.canSave, s.written, settings, changes, calls)
            && (r.disk.config == s.disk.config || (s.canSave && r.disk.config.Holds?))
            && (s.canSave && Stores(changes, calls) ==> r.disk.config.Holds?)
            && (!Stores(changes, calls) ==> r == s)
  {
    if s.canSave && Asks(changes) {
      var merged := Merge(s.written, settings, changes);
      MergeIsValid(s.written, settings, changes);
      WriteKeeps(e, s, merged, calls);
      if Printed(SettingsJson.Write(merged, Root(s.kept))) == s.kept {
        ReadingUndoesWriting(merged, Root(s.kept), e.defaults);
      }
    }
  }

  // ---- What a save stores --------------------------------------------------------------------------

  /** Where the store may save and the file can be written, what the changes name is in the file afterwards, and
      what they do not name is as it was there; a fresh load gives both back, if the text is not too large. */
  lemma NamedIsStored(e: Setting, s: State, settings: Settings, changes: Changes, calls: Calls, again: Calls)
    requires IsValid(e.defaults) && Inv(e, s) && IsValid(settings) && s.canSave && calls.creates && calls.writes
    requires changes.choices || changes.screenToken || changes.windowToken
    ensures var r := Save(s, settings, changes, calls);
            && r.disk.config.Holds? && r.canSave
            && r.written.screenToken == (if changes.screenToken then settings.screenToken else s.written.screenToken)
            && r.written.windowToken == (if changes.windowToken then settings.windowToken else s.written.windowToken)
            && r.written.(screenToken := "", windowToken := "")
                 == (if changes.choices then settings else s.written).(screenToken := "", windowToken := "")
            && (e.fits(r.disk.config.text) ==> Load(e, r.disk, again).1 == r.written)
            && Parse(r.disk.config.text) == Some(SettingsJson.Write(r.written, Root(s.kept)))
  {
    var r := Save(s, settings, changes, calls);
    SaveKeeps(e, s, settings, changes, calls);
    FreshLoadOfKnown(e, r, again);
    SavedText(s, settings, changes, calls);
  }

  /** A write says it is stored exactly where the file has the text afterwards: it was there already, or has been
      written; and only then is it remembered. */
  lemma WriteSays(s: State, settings: Settings, calls: Calls)
    requires |settings.audio| == NUM_SOURCES && (s.disk.config.Holds? ==> s.kept == s.disk.config.text)
    requires !s.disk.config.Holds? ==> s.kept == Empty
    ensures var text := Printed(SettingsJson.Write(settings, Root(s.kept)));
            var (r, stored) := WriteThrough(s, settings, calls);
            && (stored <==> r.disk.config == Holds(text))
            && (stored <==> s.disk.config == Holds(text) || (calls.creates && calls.writes))
            && (stored ==> r.kept == text && r.written == settings)
            && (!stored ==> r == s)
            && r.disk.bad == s.disk.bad && r.disk.legacy == s.disk.legacy && r.canSave == s.canSave
  {
  }

  lemma SavedText(s: State, settings: Settings, changes: Changes, calls: Calls)
    requires |settings.audio| == |s.written.audio| == NUM_SOURCES && s.canSave && calls.creates && calls.writes
    requires changes.choices || changes.screenToken || changes.windowToken
    requires s.disk.config.Holds? ==> s.kept == s.disk.config.text
    requires s.disk.config.Missing? ==> s.kept == Empty
    requires !s.disk.config.Unreadable?
    ensures var r := Save(s, settings, changes, calls);
            r.disk.config.Holds? && Parse(r.disk.config.text) == Some(SettingsJson.Write(r.written, Root(s.kept)))
  {
  }

  /** Where nothing has changed, the store may not save, or the file cannot be written, nothing happens. */
  lemma NothingIsStored(e: Setting, s: State, settings: Settings, changes: Changes, calls: Calls)
    requires IsValid(e.defaults) && Inv(e, s) && IsValid(settings)
    requires (!changes.choices && !changes.screenToken && !changes.windowToken) || !s.canSave
             || !calls.creates || !calls.writes
    ensures Save(s, settings, changes, calls) == s
  {
    SaveKeeps(e, s, settings, changes, calls);
  }

  /** A file is of a newer format exactly where it says so: with a version past one that fits 32 bits. */
  lemma NewerExactlyWhen(root: Json)
    ensures IsNewer(root) <==>
              && Get(root, ["version"]).Some? && Get(root, ["version"]).value.Int?
              && 1 < Get(root, ["version"]).value.number <= 4_294_967_295
  {
  }

  /** What a load makes of the directory: where settings come from, whether the store may save over the file, and
      what has happened to the files. */
  lemma LoadDecides(e: Setting, disk: Disk, calls: Calls)
    requires IsValid(e.defaults)
    ensures var (s, loaded) := Load(e, disk, calls);
            && s.disk.legacy == disk.legacy
            && (!e.hasPath || disk.config.Unreadable? || (disk.config.Holds? && !e.fits(disk.config.text)) ==>
                  loaded == e.defaults && !s.canSave && s.disk == disk)
            && (e.hasPath && disk.config.Missing? ==>
                  && s.canSave && s.disk.bad == disk.bad
                  && loaded == (if disk.legacy.Converts? then SettingsOf(disk.legacy.tree, e.defaults) else e.defaults)
                  && (s.disk.config.Holds? <==> disk.legacy.Converts? && calls.creates && calls.writes)
                  && !s.disk.config.Unreadable?)
            && (e.hasPath && disk.config.Holds? && e.fits(disk.config.text) ==>
                  var parsed := Parse(disk.config.text);
                  if parsed.Some? && parsed.value.Object?
                  then
                    var invalid := Rejected(parsed.value, KNOWN) != [];
                    && loaded == SettingsOf(parsed.value, e.defaults) && s.disk.config == disk.config
                    && s.disk.bad
                         == (if !invalid then disk.bad else if calls.copies then disk.config else calls.leftover)
                    && (s.canSave <==> VersionOr(Get(parsed.value, ["version"]), 1) <= 1 && (!invalid || calls.copies))
                  else
                    && loaded == e.defaults && (s.canSave <==> calls.moves)
                    && (calls.moves ==> s.disk.config == Missing && s.disk.bad == disk.config)
                    && (!calls.moves ==> s.disk == disk))
  {
  }

  // ---- The cache agrees with the disk --------------------------------------------------------------

  datatype Saving = Saving(settings: Settings, changes: Changes, calls: Calls)

  /** A save stores where something has changed and the file can be written. */
  predicate Stores(changes: Changes, calls: Calls) {
    (changes.choices || changes.screenToken || changes.windowToken) && calls.creates && calls.writes
  }

  /** What a save leaves: the merged settings where it stores, and otherwise what was there. */
  function Kept(canSave: bool, written: Settings, settings: Settings, changes: Changes, calls: Calls): Settings {
    if canSave && Stores(changes, calls) then Merge(written, settings, changes) else written
  }

  function Folded(canSave: bool, written: Settings, savings: seq<Saving>): Settings
    decreases |savings|
  {
    if savings == [] then written
    else
      var first := savings[0];
      Folded(canSave, Kept(canSave, written, first.settings, first.changes, first.calls), savings[1..])
  }

  predicate AllValid(savings: seq<Saving>) {
    forall i | 0 <= i < |savings| :: IsValid(savings[i].settings)
  }

  predicate SomeStores(savings: seq<Saving>)
    decreases |savings|
  {
    savings != [] && (Stores(savings[0].changes, savings[0].calls) || SomeStores(savings[1..]))
  }

  function SaveAll(s: State, savings: seq<Saving>): State
    requires |s.written.audio| == NUM_SOURCES && AllValid(savings)
    decreases |savings|
  {
    if savings == [] then s
    else
      var next := Save(s, savings[0].settings, savings[0].changes, savings[0].calls);
      SaveAll(next, savings[1..])
  }

  lemma {:induction false} SavingsFold(e: Setting, s: State, savings: seq<Saving>)
    requires |e.defaults.audio| == NUM_SOURCES && Inv(e, s) && AllValid(savings)
    ensures var r := SaveAll(s, savings);
            && Inv(e, r) && r.canSave == s.canSave && r.disk.legacy == s.disk.legacy && r.disk.bad == s.disk.bad
            && r.written == Folded(s.canSave, s.written, savings)
            && (r.disk.config == s.disk.config || (s.canSave && r.disk.config.Holds?))
            && (s.canSave && SomeStores(savings) ==> r.disk.config.Holds?)
            && (!SomeStores(savings) ==> r == s)
    decreases |savings|
  {
    if savings != [] {
      var first, rest := savings[0], savings[1..];
      SaveKeeps(e, s, first.settings, first.changes, first.calls);
      var next := Save(s, first.settings, first.changes, first.calls);
      SavingsFold(e, next, rest);
    }
  }

  /** The token of the last save that stored one, else the loaded one. */
  function LastScreenToken(loaded: string, savings: seq<Saving>): string {
    if savings == [] then loaded
    else
      var last := savings[|savings| - 1];
      if Stores(last.changes, last.calls) && last.changes.screenToken then last.settings.screenToken
      else LastScreenToken(loaded, savings[..|savings| - 1])
  }

  function LastWindowToken(loaded: string, savings: seq<Saving>): string {
    if savings == [] then loaded
    else
      var last := savings[|savings| - 1];
      if Stores(last.changes, last.calls) && last.changes.windowToken then last.settings.windowToken
      else LastWindowToken(loaded, savings[..|savings| - 1])
  }

  /** Settings but for the tokens. */
  function Choices(s: Settings): Settings {
    s.(screenToken := "", windowToken := "")
  }

  function LastChoices(loaded: Settings, savings: seq<Saving>): Settings {
    if savings == [] then Choices(loaded)
    else
      var last := savings[|savings| - 1];
      if Stores(last.changes, last.calls) && last.changes.choices then Choices(last.settings)
      else LastChoices(loaded, savings[..|savings| - 1])
  }

  lemma {:induction false} FoldedSnoc(canSave: bool, written: Settings, savings: seq<Saving>, last: Saving)
    ensures Folded(canSave, written, savings + [last])
         == Kept(canSave, Folded(canSave, written, savings), last.settings, last.changes, last.calls)
    decreases |savings|
  {
    if savings == [] {
      assert ([] + [last])[1..] == [];
    } else {
      var next := Kept(canSave, written, savings[0].settings, savings[0].changes, savings[0].calls);
      assert (savings + [last])[1..] == savings[1..] + [last];
      FoldedSnoc(canSave, next, savings[1..], last);
    }
  }

  /** Only what a stored save names is taken from it: each token is the last one a stored save named, and the
      choices are those of the last stored save that named them -- so a token that arrives never writes the
      device the recorder fell back to. */
  lemma {:induction false} LastNamedWins(loaded: Settings, savings: seq<Saving>)
    ensures var folded := Folded(true, loaded, savings);
            && folded.screenToken == LastScreenToken(loaded.screenToken, savings)
            && folded.windowToken == LastWindowToken(loaded.windowToken, savings)
            && Choices(folded) == LastChoices(loaded, savings)
    ensures Folded(false, loaded, savings) == loaded
    decreases |savings|
  {
    if savings != [] {
      var before, last := savings[..|savings| - 1], savings[|savings| - 1];
      assert savings == before + [last];
      FoldedSnoc(true, loaded, before, last);
      FoldedSnoc(false, loaded, before, last);
      LastNamedWins(loaded, before);
    }
  }

  /** The one way to part: the file was no settings and was moved aside, nothing has been stored since, and
      the old file would be imported to something else than the defaults. */
  predicate WouldImport(e: Setting, disk: Disk, calls: Calls, savings: seq<Saving>)
    requires |e.defaults.audio| == NUM_SOURCES
  {
    && e.hasPath && Look(e, disk.config).NotSettings? && calls.moves && !SomeStores(savings)
    && Imported(e, disk.legacy) != e.defaults
  }

  /** The file has grown past what is read. */
  predicate Outgrown(e: Setting, before: Entry, after: Entry) {
    after != before && after.Holds? && !e.fits(after.text)
  }

  lemma FreshLoadOfKnown(e: Setting, s: State, calls: Calls)
    requires IsValid(e.defaults) && Inv(e, s) && s.canSave && s.disk.config.Holds?
    ensures Load(e, s.disk, calls).1 == if e.fits(s.disk.config.text) then s.written else e.defaults
  {
  }

  /** Where the store may not save, the file stays, and a fresh load finds in it what the first one did. */
  lemma FreshLoadUnsaved(e: Setting, disk: Disk, calls: Calls, again: Calls)
    requires IsValid(e.defaults) && !Load(e, disk, calls).0.canSave
    ensures Load(e, Load(e, disk, calls).0.disk, again).1 == Load(e, disk, calls).1
    ensures Load(e, disk, calls).0.disk.config == disk.config
  {
  }

  /** Where it may save, the file it found was known, or none, or has been moved aside. */
  lemma FirstLoad(e: Setting, disk: Disk, calls: Calls)
    requires IsValid(e.defaults) && Load(e, disk, calls).0.canSave
    ensures var s := Load(e, disk, calls).0;
            && e.hasPath && s.disk.legacy == disk.legacy
            && (s.disk.config.Missing? ==>
                  s.written == if Look(e, disk.config).NotSettings? then e.defaults else Imported(e, disk.legacy))
            && (Look(e, disk.config).NotSettings? ==> calls.moves && s.disk.config.Missing?)
            && (disk.config.Holds? ==> e.fits(disk.config.text))
  {
    LoadEstablishes(e, disk, calls);
  }

  /** After a load and any saves, whichever writes fail, a fresh load gives back the fold of the saves that
      were stored -- unless it would import, or the file has outgrown what is read. */
  lemma CacheAgreesWithDisk(e: Setting, disk: Disk, calls: Calls, savings: seq<Saving>, again: Calls)
    requires IsValid(e.defaults) && AllValid(savings)
    ensures var (start, loaded) := Load(e, disk, calls);
            var end := SaveAll(start, savings);
            var expected := Folded(start.canSave, loaded, savings);
            && end.written == expected
            && (Load(e, end.disk, again).1 == expected
                <==> && !WouldImport(e, disk, calls, savings)
                     && (Outgrown(e, disk.config, end.disk.config) ==> expected == e.defaults))
  {
    var start := Load(e, disk, calls).0;
    LoadEstablishes(e, disk, calls);
    SavingsFold(e, start, savings);
    var end := SaveAll(start, savings);
    if !start.canSave {
      FreshLoadUnsaved(e, disk, calls, again);
      UnsavedFold(start, savings);
      UnsavedIsNoImport(e, disk, calls, savings);
    } else {
      FirstLoad(e, disk, calls);
      if end.disk.config.Holds? {
        FreshLoadOfKnown(e, end, again);
      } else {
        LoadedAfresh(e, end.disk, again);
      }
    }
  }

  lemma {:induction false} UnsavedFold(s: State, savings: seq<Saving>)
    requires |s.written.audio| == NUM_SOURCES && AllValid(savings) && !s.canSave
    ensures SaveAll(s, savings) == s && Folded(false, s.written, savings) == s.written
    decreases |savings|
  {
    if savings != [] {
      UnsavedFold(s, savings[1..]);
    }
  }

  lemma UnsavedIsNoImport(e: Setting, disk: Disk, calls: Calls, savings: seq<Saving>)
    requires IsValid(e.defaults) && !Load(e, disk, calls).0.canSave
    ensures !WouldImport(e, disk, calls, savings)
  {
  }

  lemma MovedAside(e: Setting, disk: Disk, calls: Calls)
    requires |e.defaults.audio| == NUM_SOURCES && e.hasPath && calls.moves && Look(e, disk.config).NotSettings?
    ensures Load(e, disk, calls)
         == (State(Disk(Missing, disk.config, disk.legacy), Empty, e.defaults, true), e.defaults)
  {
  }

  lemma LoadedAfresh(e: Setting, disk: Disk, calls: Calls)
    requires |e.defaults.audio| == NUM_SOURCES && e.hasPath && disk.config.Missing?
    ensures Load(e, disk, calls).1 == Imported(e, disk.legacy)
  {
  }

  /** The import does get in the way: a file that is no JSON is moved aside and defaults are used, but the
      next start imports the old file instead. */
  lemma NextStartMayImport(e: Setting, legacy: Json, calls: Calls)
    requires IsValid(e.defaults) && e.hasPath && calls.moves
    requires e.fits(Other(0, None)) && SettingsOf(legacy, e.defaults) != e.defaults
    ensures var disk := Disk(Holds(Other(0, None)), Missing, Converts(legacy));
            var (s, loaded) := Load(e, disk, calls);
            loaded == e.defaults && Load(e, s.disk, calls).1 == SettingsOf(legacy, e.defaults)
  {
    var disk := Disk(Holds(Other(0, None)), Missing, Converts(legacy));
    MovedAside(e, disk, calls);
    LoadedAfresh(e, Disk(Missing, disk.config, disk.legacy), calls);
  }

  /** A write that fails changes neither the file nor what is cached of it. */
  lemma FailedSaveChangesNothing(e: Setting, s: State, settings: Settings, changes: Changes, calls: Calls)
    requires IsValid(e.defaults) && Inv(e, s) && IsValid(settings) && !(calls.creates && calls.writes)
    ensures Save(s, settings, changes, calls) == s
  {
    SaveKeeps(e, s, settings, changes, calls);
  }

  // ---- What is unknown -----------------------------------------------------------------------------

  /** What this Klip does not know outlives every save. */
  lemma {:induction false} UnknownValuesSurvive(e: Setting, s: State, savings: seq<Saving>, path: Path)
    requires |e.defaults.audio| == NUM_SOURCES && Inv(e, s) && AllValid(savings)
    requires Unknown(e.defaults, path)
    ensures Get(Root(SaveAll(s, savings).kept), path) == Get(Root(s.kept), path)
    decreases |savings|
  {
    if savings != [] {
      var first := savings[0];
      var next := Save(s, first.settings, first.changes, first.calls);
      SaveKeeps(e, s, first.settings, first.changes, first.calls);
      if s.canSave {
        var merged := Merge(s.written, first.settings, first.changes);
        PathsDoNotDepend(e.defaults, merged);
        WritingKeepsTheRest(merged, Root(s.kept), path);
      }
      UnknownValuesSurvive(e, next, savings[1..], path);
    }
  }
}
