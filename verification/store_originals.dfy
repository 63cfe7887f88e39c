/** Where the user's own file survives when the store cannot keep it in use: moved to .bad it is never lost, and
    copied there it is until the power goes between the repairing save and the copy's reaching the disk. */
module StoreOriginals {
  import opened Wrappers
  import opened JsonTree
  import opened SettingsJson
  import opened SettingsReading
  import opened SettingsStore
  import opened StoreResults
  import opened StoreDisk
  import opened StoreSessions

  // ---- Moved aside ---------------------------------------------------------------------------------

  /** It stands under either name: as it was, or flushed under .bad beside a file of Klip's own or none. */
  ghost predicate StandsIn(files: seq<File>, v: Names, original: Entry) {
    EntryOf(files, v.config) == original || (Ours(EntryOf(files, v.config)) && HasCopy(files, v, original))
  }

  ghost predicate Stands(m: Medium, original: Entry) {
    forall v | v in m.kept :: StandsIn(m.files, v, original)
  }

  lemma ReplaceStands(m: Medium, text: Text, original: Entry)
    requires MediumInv(m) && Stands(m, original) && Ours(Holds(text)) && Shown(m).config != original
    ensures Stands(Replace(m, text), original)
  {
    var r := Replace(m, text);
    forall v | v in r.kept ensures StandsIn(r.files, v, original) {
      if v in m.kept {
        assert Fits(m.files, v) && StandsIn(m.files, v, original);
      } else {
        assert Fits(m.files, m.names) && StandsIn(m.files, m.names, original);
      }
    }
  }

  lemma MoveStands(m: Medium, original: Entry)
    requires MediumInv(m) && Stands(m, original) && Shown(m).config == original && !original.Missing?
    ensures Stands(Move(m), original)
  {
    var r := Move(m);
    assert Fits(m.files, m.names);
    forall v | v in r.kept ensures StandsIn(r.files, v, original) {
      if v in m.kept {
        assert StandsIn(m.files, v, original);
      }
    }
  }

  lemma SettledStands(m: Medium, original: Entry)
    requires MediumInv(m) && Stands(m, original)
    ensures Stands(Settled(m), original)
  {
    assert Fits(m.files, m.names) && StandsIn(m.files, m.names, original);
  }

  lemma CutStands(m: Medium, pick: nat, torn: nat -> Text, original: Entry)
    requires MediumInv(m) && Stands(m, original)
    ensures Stands(Cut(m, pick, torn), original)
  {
    CutKeeps(m, pick, torn);
    var v := Cut(m, pick, torn).names;
    assert Fits(m.files, v) && StandsIn(m.files, v, original);
  }

  lemma WrittenToStands(m: Medium, s: State, settings: Settings, calls: Calls, original: Entry)
    requires MediumInv(m) && Stands(m, original) && Shown(m).config != original && IsValid(settings)
    ensures Stands(WrittenTo(m, s, settings, calls), original)
  {
    WrittenIsOurs(settings, Root(s.kept));
    var text := Printed(SettingsJson.Write(settings, Root(s.kept)));
    ReplaceStands(m, text, original);
  }

  lemma SavedToStands(e: Setting, w: World, saving: Saving, original: Entry)
    requires IsValid(e.defaults) && Sound(e, w) && Stands(w.m, original) && IsValid(saving.settings)
    requires Look(e, original).NotSettings?
    ensures Stands(SavedTo(w.m, Seen(w), saving), original)
  {
    if w.canSave && Asks(saving.changes) {
      MergeIsValid(w.written, saving.settings, saving.changes);
      var merged := Merge(w.written, saving.settings, saving.changes);
      WrittenToStands(w.m, Seen(w), merged, saving.calls, original);
    }
  }

  lemma LoadedFromStands(e: Setting, m: Medium, calls: Calls, original: Entry)
    requires IsValid(e.defaults) && MediumInv(m) && Stands(m, original) && Look(e, original).NotSettings?
    ensures Stands(LoadedFrom(e, m, calls), original)
  {
    assert StandsIn(m.files, m.names, original);
    if e.hasPath && Shown(m).config == original {
      MoveStands(m, original);
    } else if e.hasPath && Shown(m).config.Missing? && m.legacy.Converts? {
      WhatIsReadIsValid(m.legacy.tree, e.defaults);
      WrittenToStands(m, State(Shown(m), Empty, e.defaults, false), Imported(e, m.legacy), calls, original);
    }
  }

  lemma ActStands(e: Setting, w: World, a: Act, original: Entry)
    requires IsValid(e.defaults) && Sound(e, w) && ValidAct(a) && Stands(w.m, original)
    requires Look(e, original).NotSettings?
    ensures Stands(Do(e, w, a).m, original)
  {
    assert StandsIn(w.m.files, w.m.names, original);
    ReachedIsSound(e, w, a);
    var m := Reached(e, w, a);
    match a
    case DoLoad(calls) => LoadedFromStands(e, w.m, calls, original);
    case DoSave(saving) => SavedToStands(e, w, saving, original);
    case Settle => SettledStands(w.m, original);
    case CutLoad(calls, _, end) =>
      LoadedFromStands(e, w.m, calls, original);
      EndStands(m, end, original);
    case CutSave(saving, _, end) =>
      SavedToStands(e, w, saving, original);
      EndStands(m, end, original);
  }

  lemma EndStands(m: Medium, end: End, original: Entry)
    requires MediumInv(m) && Stands(m, original)
    ensures Stands(Ended(m, end), original)
  {
    if end.PowerCut? {
      CutStands(m, end.pick, end.torn, original);
    }
  }

  lemma {:induction false} ActsStand(e: Setting, w: World, acts: seq<Act>, original: Entry)
    requires IsValid(e.defaults) && Sound(e, w) && ValidActs(acts) && Stands(w.m, original)
    requires Look(e, original).NotSettings?
    ensures Stands(After(e, w, acts).m, original)
    decreases |acts|
  {
    if acts != [] {
      var before := acts[..|acts| - 1];
      ActsStand(e, w, before, original);
      ActsAreSound(e, w, before);
      ActStands(e, After(e, w, before), acts[|acts| - 1], original);
    }
  }

  /** A file that is no settings is never lost: from when it stands there, through any sessions, failures, kills
      and power cuts, it is the settings file or the .bad file. */
  lemma WhatIsMovedAsideIsKept(e: Setting, disk: Disk, before: seq<Act>, after: seq<Act>)
    requires IsValid(e.defaults) && ValidActs(before) && ValidActs(after)
    ensures var w := After(e, Before(e, disk), before);
            Look(e, Shown(w.m).config).NotSettings? ==>
              Present(Shown(After(e, w, after).m), Shown(w.m).config)
  {
    BeforeIsSound(e, disk);
    ActsAreSound(e, Before(e, disk), before);
    var w := After(e, Before(e, disk), before);
    var original := Shown(w.m).config;
    if Look(e, original).NotSettings? {
      assert Stands(w.m, original);
      ActsStand(e, w, after, original);
      ActsAreSound(e, w, after);
      var m := After(e, w, after).m;
      assert StandsIn(m.files, m.names, original);
    }
  }

  // ---- Copied and repaired -------------------------------------------------------------------------

  /** The rest of a session: saves, and the disk settling when it likes. */
  predicate InSession(acts: seq<Act>) {
    ValidActs(acts) && forall j | 0 <= j < |acts| :: acts[j].DoSave? || acts[j].Settle?
  }

  predicate SomeStore(acts: seq<Act>) {
    exists j :: 0 <= j < |acts| && acts[j].DoSave? && Stores(acts[j].saving.changes, acts[j].saving.calls)
  }

  predicate SomeSettle(acts: seq<Act>) {
    exists j :: 0 <= j < |acts| && acts[j].Settle?
  }

  /** The copy is there, and not flushed. */
  predicate JustCopied(m: Medium, original: Entry) {
    m.names.bad.Some? && m.names.bad.value < |m.files| && m.files[m.names.bad.value] == File(original, false)
  }

  ghost predicate CopyIsSafe(m: Medium, original: Entry) {
    forall v | v in m.kept :: HasCopy(m.files, v, original)
  }

  /** A save that stores leaves a file of Klip's own; one that does not leaves the disk alone. */
  lemma StoringRepairs(e: Setting, w: World, saving: Saving)
    requires IsValid(e.defaults) && Sound(e, w) && w.canSave && IsValid(saving.settings)
    ensures Stores(saving.changes, saving.calls) ==> Ours(Shown(SavedTo(w.m, Seen(w), saving)).config)
    ensures !Stores(saving.changes, saving.calls) ==> SavedTo(w.m, Seen(w), saving) == w.m
    ensures Do(e, w, DoSave(saving)).canSave
  {
    SavedToKeeps(w.m, Seen(w), saving);
    SaveKeeps(e, Seen(w), saving.settings, saving.changes, saving.calls);
    if Asks(saving.changes) {
      var merged := Merge(w.written, saving.settings, saving.changes);
      MergeIsValid(w.written, saving.settings, saving.changes);
      WrittenIsOurs(merged, Root(w.kept));
    }
  }

  lemma SaveLeavesTheCopy(e: Setting, w: World, saving: Saving, original: Entry)
    requires IsValid(e.defaults) && Sound(e, w) && IsValid(saving.settings)
    ensures var r := SavedTo(w.m, Seen(w), saving);
            && (JustCopied(w.m, original) ==> JustCopied(r, original))
            && (CopyIsSafe(w.m, original) ==> CopyIsSafe(r, original))
            && (Ours(Shown(w.m).config) ==> Ours(Shown(r).config))
  {
    var r := SavedTo(w.m, Seen(w), saving);
    if r != w.m {
      var merged := Merge(w.written, saving.settings, saving.changes);
      MergeIsValid(w.written, saving.settings, saving.changes);
      WrittenIsOurs(merged, Root(w.kept));
      var text := Printed(SettingsJson.Write(merged, Root(w.kept)));
      ReplaceKeeps(w.m, text);
      assert r == Replace(w.m, text);
      forall v | v in r.kept && CopyIsSafe(w.m, original) ensures HasCopy(r.files, v, original) {
        assert HasCopy(w.m.files, w.m.names, original);
        if v in w.m.kept {
          assert HasCopy(w.m.files, v, original);
        }
      }
    }
  }

  lemma SettlingFlushes(m: Medium, original: Entry)
    requires MediumInv(m) && (JustCopied(m, original) || CopyIsSafe(m, original))
    ensures CopyIsSafe(Settled(m), original)
  {
    assert CopyIsSafe(m, original) ==> HasCopy(m.files, m.names, original);
    assert forall v | v in Settled(m).kept :: v == m.names;
  }

  /** Where a repairing session stands. */
  ghost predicate Repairing(m: Medium, original: Entry, stored: bool, settled: bool) {
    && (if settled then CopyIsSafe(m, original) else JustCopied(m, original))
    && (if stored then Ours(Shown(m).config) else Shown(m).config == original)
  }

  lemma Snoc(acts: seq<Act>)
    requires acts != []
    ensures var before, last := acts[..|acts| - 1], acts[|acts| - 1];
            && (SomeSettle(acts) <==> SomeSettle(before) || last.Settle?)
            && (SomeStore(acts) <==> SomeStore(before)
                                     || (last.DoSave? && Stores(last.saving.changes, last.saving.calls)))
  {
    var before := acts[..|acts| - 1];
    assert forall j | 0 <= j < |before| :: before[j] == acts[j];
  }

  lemma RepairingAct(e: Setting, w: World, a: Act, original: Entry, stored: bool, settled: bool)
    requires IsValid(e.defaults) && Sound(e, w) && w.canSave && ValidAct(a) && (a.DoSave? || a.Settle?)
    requires !Ours(original) && Repairing(w.m, original, stored, settled)
    ensures Do(e, w, a).canSave
    ensures Repairing(Do(e, w, a).m, original,
                      stored || (a.DoSave? && Stores(a.saving.changes, a.saving.calls)), settled || a.Settle?)
  {
    if a.Settle? {
      SettlingFlushes(w.m, original);
      SettleKeeps(w.m);
    } else {
      StoringRepairs(e, w, a.saving);
      SaveLeavesTheCopy(e, w, a.saving, original);
    }
  }

  lemma {:induction false} RepairingActs(e: Setting, w: World, acts: seq<Act>, original: Entry)
    requires IsValid(e.defaults) && Sound(e, w) && w.canSave && InSession(acts)
    requires !Ours(original) && Repairing(w.m, original, false, false)
    ensures After(e, w, acts).canSave && Repairing(After(e, w, acts).m, original, SomeStore(acts), SomeSettle(acts))
    decreases |acts|
  {
    if acts != [] {
      var before, last := acts[..|acts| - 1], acts[|acts| - 1];
      RepairingActs(e, w, before, original);
      ActsAreSound(e, w, before);
      Snoc(acts);
      RepairingAct(e, After(e, w, before), last, original, SomeStore(before), SomeSettle(before));
    }
  }

  /** A session that may not save leaves the one file that may come back. */
  lemma {:induction false} IdleActs(e: Setting, w: World, acts: seq<Act>, original: Entry)
    requires IsValid(e.defaults) && Sound(e, w) && !w.canSave && InSession(acts)
    requires Recoverable(w.m) == {original} && Shown(w.m).config == original
    ensures var r := After(e, w, acts);
            !r.canSave && Recoverable(r.m) == {original} && Shown(r.m).config == original
    decreases |acts|
  {
    if acts != [] {
      var before := acts[..|acts| - 1];
      IdleActs(e, w, before, original);
      ActsAreSound(e, w, before);
      SettleKeeps(After(e, w, before).m);
    }
  }

  /** What the load of a file with something invalid in it leaves. */
  lemma LoadCopies(e: Setting, w: World, calls: Calls)
    requires IsValid(e.defaults) && Sound(e, w) && e.hasPath && Look(e, Shown(w.m).config).Document?
    requires Rejected(Look(e, Shown(w.m).config).root, KNOWN) != []
    ensures var original, r := Shown(w.m).config, Do(e, w, DoLoad(calls));
            && !Ours(original) && Shown(r.m).config == original && Recoverable(r.m) == {original}
            && (r.canSave <==> calls.copies && !IsNewer(Look(e, original).root))
            && (calls.copies ==> JustCopied(r.m, original))
  {
    var entry := if calls.copies then Shown(w.m).config else calls.leftover;
    ForeignIsAlone(w.m);
    CopyKeeps(w.m, entry);
    assert Fits(w.m.files, w.m.names);
  }

  lemma AloneSurvives(m: Medium, original: Entry)
    requires MediumInv(m) && Recoverable(m) == {original} && !original.Missing?
    ensures SurvivesCuts(m, original)
  {
    forall v | v in m.kept ensures EntryOf(m.files, v.config) == original {
      assert EntryOf(m.files, v.config) in Recoverable(m);
    }
    SurvivesExactlyWhen(m, original);
  }

  lemma RepairingSurvives(m: Medium, original: Entry, stored: bool, settled: bool)
    requires MediumInv(m) && !Ours(original) && Repairing(m, original, stored, settled)
    ensures SurvivesCuts(m, original) <==> !stored || settled
  {
    if settled {
      forall v | v in m.kept ensures HasCopy(m.files, v, original) {
      }
      SurvivesExactlyWhen(m, original);
    } else if stored {
      CutMayLose(m, m.names, original);
    } else {
      ForeignIsAlone(m);
      AloneSurvives(m, original);
    }
  }

  /** After any run, a settings file in which something is invalid is loaded, and the session goes on. What the
      file held is sure to survive a power cut -- in the file, or in the copy -- exactly unless the copy was
      made, a save has been stored since, and the disk has not settled since the load. */
  lemma OriginalSurvivesExactlyWhen(e: Setting, disk: Disk, before: seq<Act>, calls: Calls, acts: seq<Act>)
    requires IsValid(e.defaults) && e.hasPath && ValidActs(before) && InSession(acts)
    requires var config := Shown(After(e, Before(e, disk), before).m).config;
             Look(e, config).Document? && Rejected(Look(e, config).root, KNOWN) != []
    ensures var w := After(e, Before(e, disk), before);
            var original := Shown(w.m).config;
            var r := After(e, Do(e, w, DoLoad(calls)), acts);
            var copied := calls.copies && !IsNewer(Look(e, original).root);
            SurvivesCuts(r.m, original) <==> !(copied && SomeStore(acts) && !SomeSettle(acts))
  {
    BeforeIsSound(e, disk);
    ActsAreSound(e, Before(e, disk), before);
    var w := After(e, Before(e, disk), before);
    var original := Shown(w.m).config;
    var loaded := Do(e, w, DoLoad(calls));
    LoadCopies(e, w, calls);
    DoIsSound(e, w, DoLoad(calls));
    ActsAreSound(e, loaded, acts);
    var r := After(e, loaded, acts);
    if loaded.canSave {
      RepairingActs(e, loaded, acts, original);
      RepairingSurvives(r.m, original, SomeStore(acts), SomeSettle(acts));
    } else {
      IdleActs(e, loaded, acts, original);
      AloneSurvives(r.m, original);
    }
  }

  /** So a repair can cost what it replaced: an object with something invalid in it is loaded, and copied; a
      save stores; the power goes -- and neither file is the one there was. */
  lemma RepairCanLoseTheOriginal(e: Setting, root: Json, saving: Saving)
    requires IsValid(e.defaults) && e.hasPath && e.fits(Printed(root)) && root.Object?
    requires Rejected(root, KNOWN) != [] && !IsNewer(root) && IsValid(saving.settings)
    requires Stores(saving.changes, saving.calls)
    ensures var original := Holds(Printed(root));
            var w := After(e, Before(e, Disk(original, Missing, NoLegacy)), []);
            var r := After(e, Do(e, w, DoLoad(ALL_WELL)), [DoSave(saving)]);
            exists pick, torn :: !Present(Shown(Cut(r.m, pick, torn)), original)
  {
    var disk := Disk(Holds(Printed(root)), Missing, NoLegacy);
    var acts := [DoSave(saving)];
    BeforeIsSound(e, disk);
    assert acts[0].DoSave? && Stores(acts[0].saving.changes, acts[0].saving.calls);
    OriginalSurvivesExactlyWhen(e, disk, [], ALL_WELL, acts);
  }
}
