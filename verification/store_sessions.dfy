/** The settings file over any number of sessions, each of which may be killed, or lose its power with whatever
    the disk had not been made to keep: what comes back, what is never lost, and what is. */
module StoreSessions {
  import opened Wrappers
  import opened JsonTree
  import opened SettingsJson
  import opened SettingsReading
  import opened SettingsStore
  import opened StoreResults
  import opened StoreDisk

  // ---- Sessions ------------------------------------------------------------------------------------

  /** The store and the disk under it. */
  datatype World = World(m: Medium, kept: Text, written: Settings, canSave: bool)

  function Seen(w: World): State {
    State(Shown(w.m), w.kept, w.written, w.canSave)
  }

  function Over(m: Medium, s: State): World {
    World(m, s.kept, s.written, s.canSave)
  }

  /** How far an interrupted load has come: not to its file operations, into a copy, or through them. */
  datatype Progress = NotYet | Halfway | Through

  /** The process alone is gone, or the power is. */
  datatype End = Killed | PowerCut(pick: nat, torn: nat -> Text)

  /** A session starts with a load; between loads the store saves; the disk settles when it likes; and a
      session may be cut off at any point, between its calls or in one. */
  datatype Act =
    | DoLoad(calls: Calls)
    | DoSave(saving: Saving)
    | Settle
    | CutLoad(calls: Calls, progress: Progress, end: End)
    | CutSave(saving: Saving, lands: bool, end: End)

  /** A process that is gone has left its disk behind, and nothing else. */
  function Gone(e: Setting, m: Medium): World {
    World(m, Empty, e.defaults, false)
  }

  function Ended(m: Medium, end: End): Medium {
    match end
    case Killed => m
    case PowerCut(pick, torn) => Cut(m, pick, torn)
  }

  /** What a load that was cut off leaves: a copy may have been begun, over whatever copy there was. */
  ghost function Interrupted(e: Setting, m: Medium, calls: Calls, progress: Progress): Medium
    requires |e.defaults.audio| == NUM_SOURCES
  {
    match progress
    case NotYet => m
    case Halfway =>
      if e.hasPath && Look(e, Shown(m).config).Document? && Rejected(Look(e, Shown(m).config).root, KNOWN) != []
      then Copy(m, calls.leftover)
      else m
    case Through => LoadedFrom(e, m, calls)
  }

  predicate ValidAct(a: Act) {
    a.DoSave? || a.CutSave? ==> IsValid(a.saving.settings)
  }

  predicate ValidActs(acts: seq<Act>) {
    forall i | 0 <= i < |acts| :: ValidAct(acts[i])
  }

  /** The disk once the process has done its part of an act. */
  ghost function Reached(e: Setting, w: World, a: Act): Medium
    requires |e.defaults.audio| == |w.written.audio| == NUM_SOURCES && ValidAct(a)
  {
    match a
    case DoLoad(calls) => LoadedFrom(e, w.m, calls)
    case DoSave(saving) => SavedTo(w.m, Seen(w), saving)
    case Settle => w.m
    case CutLoad(calls, progress, _) => Interrupted(e, w.m, calls, progress)
    case CutSave(saving, lands, _) => if lands then SavedTo(w.m, Seen(w), saving) else w.m
  }

  ghost function Do(e: Setting, w: World, a: Act): (r: World)
    requires |e.defaults.audio| == |w.written.audio| == NUM_SOURCES && ValidAct(a)
    ensures |r.written.audio| == NUM_SOURCES
  {
    var m := Reached(e, w, a);
    match a
    case DoLoad(calls) => Over(m, Load(e, Shown(w.m), calls).0)
    case DoSave(saving) => Over(m, Save(Seen(w), saving.settings, saving.changes, saving.calls))
    case Settle => w.(m := Settled(m))
    case CutLoad(_, _, end) => Gone(e, Ended(m, end))
    case CutSave(_, _, end) => Gone(e, Ended(m, end))
  }

  ghost function After(e: Setting, w: World, acts: seq<Act>): (r: World)
    requires |e.defaults.audio| == |w.written.audio| == NUM_SOURCES && ValidActs(acts)
    ensures |r.written.audio| == NUM_SOURCES
    decreases |acts|
  {
    if acts == [] then w else Do(e, After(e, w, acts[..|acts| - 1]), acts[|acts| - 1])
  }

  /** Before the first session, on a settled disk. */
  function Before(e: Setting, disk: Disk): World {
    Gone(e, FromDisk(disk))
  }

  /** Everything is on the disk after it. */
  predicate Settles(a: Act) {
    a.Settle? || ((a.CutLoad? || a.CutSave?) && a.end.PowerCut?)
  }

  // ---- The invariant -------------------------------------------------------------------------------

  ghost predicate Sound(e: Setting, w: World)
    requires |e.defaults.audio| == NUM_SOURCES
  {
    MediumInv(w.m) && Inv(e, Seen(w))
  }

  lemma BeforeIsSound(e: Setting, disk: Disk)
    requires IsValid(e.defaults)
    ensures Sound(e, Before(e, disk)) && Shown(Before(e, disk).m) == disk
    ensures Recoverable(Before(e, disk).m) == {disk.config}
  {
    ShownFromDisk(disk);
  }

  /** What an act leaves may come back after it, and so may, unless the disk settles in it, whatever might
      have before. */
  ghost predicate Remembers(before: Medium, after: Medium, settles: bool) {
    && Recoverable(after) == (if settles then {} else Recoverable(before)) + {Shown(after).config}
    && after.legacy == before.legacy
  }

  lemma InterruptedIsSound(e: Setting, m: Medium, calls: Calls, progress: Progress)
    requires IsValid(e.defaults) && MediumInv(m)
    ensures var r := Interrupted(e, m, calls, progress);
            && MediumInv(r) && Remembers(m, r, false)
            && (progress.Through? || Shown(r).config == Shown(m).config)
  {
    assert Shown(m).config in Recoverable(m);
    LoadedFromKeeps(e, m, calls);
    if progress.Halfway? && Interrupted(e, m, calls, progress) != m {
      CopyKeeps(m, calls.leftover);
    }
  }

  lemma ReachedIsSound(e: Setting, w: World, a: Act)
    requires IsValid(e.defaults) && Sound(e, w) && ValidAct(a)
    ensures MediumInv(Reached(e, w, a)) && Remembers(w.m, Reached(e, w, a), false)
  {
    assert Shown(w.m).config in Recoverable(w.m);
    match a
    case DoLoad(calls) => LoadedFromKeeps(e, w.m, calls);
    case DoSave(saving) => SavedToKeeps(w.m, Seen(w), saving);
    case Settle =>
    case CutLoad(calls, progress, _) => InterruptedIsSound(e, w.m, calls, progress);
    case CutSave(saving, _, _) => SavedToKeeps(w.m, Seen(w), saving);
  }

  lemma EndedIsSound(e: Setting, before: Medium, m: Medium, end: End)
    requires IsValid(e.defaults) && MediumInv(m) && Remembers(before, m, false)
    ensures var r := Ended(m, end);
            && MediumInv(r) && Remembers(before, r, end.PowerCut?) && Shown(r).config in Recoverable(m)
            && Sound(e, Gone(e, r))
  {
    assert Shown(m).config in Recoverable(m);
    if end.PowerCut? {
      CutKeeps(m, end.pick, end.torn);
    }
  }

  lemma SavingIsSound(e: Setting, w: World, saving: Saving)
    requires IsValid(e.defaults) && Sound(e, w) && IsValid(saving.settings)
    ensures Sound(e, Do(e, w, DoSave(saving)))
  {
    SavedToKeeps(w.m, Seen(w), saving);
    SaveKeeps(e, Seen(w), saving.settings, saving.changes, saving.calls);
    assert Seen(Do(e, w, DoSave(saving))) == Save(Seen(w), saving.settings, saving.changes, saving.calls);
  }

  lemma LoadingIsSound(e: Setting, w: World, calls: Calls)
    requires IsValid(e.defaults) && Sound(e, w)
    ensures Sound(e, Do(e, w, DoLoad(calls)))
  {
    LoadedFromKeeps(e, w.m, calls);
    LoadEstablishes(e, Shown(w.m), calls);
    assert Seen(Do(e, w, DoLoad(calls))) == Load(e, Shown(w.m), calls).0;
  }

  lemma DoIsSound(e: Setting, w: World, a: Act)
    requires IsValid(e.defaults) && Sound(e, w) && ValidAct(a)
    ensures var r := Do(e, w, a);
            && Sound(e, r) && Remembers(w.m, r.m, Settles(a)) && Shown(r.m).config in Recoverable(Reached(e, w, a))
  {
    var m := Reached(e, w, a);
    ReachedIsSound(e, w, a);
    assert Shown(m).config in Recoverable(m);
    match a
    case DoLoad(calls) => LoadingIsSound(e, w, calls);
    case DoSave(saving) => SavingIsSound(e, w, saving);
    case Settle => SettleKeeps(w.m);
    case CutLoad(_, _, end) => EndedIsSound(e, w.m, m, end);
    case CutSave(_, _, end) => EndedIsSound(e, w.m, m, end);
  }

  lemma {:induction false} ActsAreSound(e: Setting, w: World, acts: seq<Act>)
    requires IsValid(e.defaults) && Sound(e, w) && ValidActs(acts)
    ensures Sound(e, After(e, w, acts)) && After(e, w, acts).m.legacy == w.m.legacy
    decreases |acts|
  {
    if acts != [] {
      ActsAreSound(e, w, acts[..|acts| - 1]);
      DoIsSound(e, After(e, w, acts[..|acts| - 1]), acts[|acts| - 1]);
    }
  }

  // ---- What a power cut brings back ----------------------------------------------------------------

  /** Nothing from the act `k` on settles the disk. */
  predicate Unsettled(acts: seq<Act>, k: nat) {
    forall j | k <= j < |acts| :: !Settles(acts[j])
  }

  /** `config` was the settings file when `k` acts were done, and the disk has not settled since. */
  ghost predicate WasThere(e: Setting, w: World, acts: seq<Act>, k: nat, config: Entry)
    requires |e.defaults.audio| == |w.written.audio| == NUM_SOURCES && ValidActs(acts)
  {
    k <= |acts| && Unsettled(acts, k) && Shown(After(e, w, acts[..k]).m).config == config
  }

  lemma WasThereBefore(e: Setting, w: World, acts: seq<Act>, k: nat, config: Entry)
    requires |e.defaults.audio| == |w.written.audio| == NUM_SOURCES && ValidActs(acts) && k < |acts|
    ensures WasThere(e, w, acts, k, config)
       <==> !Settles(acts[|acts| - 1]) && WasThere(e, w, acts[..|acts| - 1], k, config)
  {
    var before := acts[..|acts| - 1];
    assert before[..k] == acts[..k];
    assert forall j | 0 <= j < |before| :: before[j] == acts[j];
  }

  lemma {:induction false} RecoverableWereThere(e: Setting, w: World, acts: seq<Act>, config: Entry)
    requires IsValid(e.defaults) && Sound(e, w) && ValidActs(acts) && Recoverable(w.m) == {Shown(w.m).config}
    ensures config in Recoverable(After(e, w, acts).m) <==> exists k :: WasThere(e, w, acts, k, config)
    decreases |acts|
  {
    var now := After(e, w, acts);
    assert acts[..|acts|] == acts;
    assert WasThere(e, w, acts, |acts|, config) <==> Shown(now.m).config == config;
    if acts != [] {
      var before, last := acts[..|acts| - 1], acts[|acts| - 1];
      RecoverableWereThere(e, w, before, config);
      ActsAreSound(e, w, before);
      DoIsSound(e, After(e, w, before), last);
      forall k: nat | k < |acts|
        ensures WasThere(e, w, acts, k, config) <==> !Settles(last) && WasThere(e, w, before, k, config)
      {
        WasThereBefore(e, w, acts, k, config);
      }
    } else {
      assert forall k :: WasThere(e, w, acts, k, config) ==> k == 0;
    }
  }

  /** Over every run: a power cut brings back the settings file of some moment since the disk last settled,
      whole; and it may bring back that of any such moment, however often Klip has saved since. */
  lemma CutBringsBack(e: Setting, disk: Disk, acts: seq<Act>, config: Entry)
    requires IsValid(e.defaults) && ValidActs(acts)
    ensures var w := Before(e, disk);
            (exists pick, torn :: Shown(Cut(After(e, w, acts).m, pick, torn)).config == config)
            <==> exists k :: WasThere(e, w, acts, k, config)
  {
    var w := Before(e, disk);
    BeforeIsSound(e, disk);
    ActsAreSound(e, w, acts);
    RecoverableWereThere(e, w, acts, config);
    CutsReachExactly(After(e, w, acts).m, config);
  }

  // ---- Old or new ----------------------------------------------------------------------------------

  /** After a save was cut off, the settings file is the one from before it, or the one it writes. */
  ghost predicate OldOrNew(e: Setting, w: World, cut: Act)
    requires |e.defaults.audio| == |w.written.audio| == NUM_SOURCES && cut.CutSave? && ValidAct(cut)
  {
    var saving := cut.saving;
    var config := Shown(Do(e, w, cut).m).config;
    || config == Shown(w.m).config
    || config == Save(Seen(w), saving.settings, saving.changes, saving.calls).disk.config
  }

  /** Whatever is being saved, and wherever the power goes. */
  ghost predicate AlwaysOldOrNew(e: Setting, w: World)
    requires |e.defaults.audio| == |w.written.audio| == NUM_SOURCES
  {
    forall cut: Act | cut.CutSave? && ValidAct(cut) :: OldOrNew(e, w, cut)
  }

  /** The act `k` replaced or moved the settings file, and the disk has not settled since. */
  ghost predicate ChangedBy(e: Setting, w: World, acts: seq<Act>, k: nat)
    requires |e.defaults.audio| == |w.written.audio| == NUM_SOURCES && ValidActs(acts)
  {
    && k < |acts| && Unsettled(acts, k)
    && Shown(After(e, w, acts[..k + 1]).m).config != Shown(After(e, w, acts[..k]).m).config
  }

  lemma {:induction false} StaysSince(e: Setting, w: World, acts: seq<Act>, k: nat)
    requires |e.defaults.audio| == |w.written.audio| == NUM_SOURCES && ValidActs(acts)
    requires k <= |acts| && Unsettled(acts, k) && !exists j :: ChangedBy(e, w, acts, j)
    ensures Shown(After(e, w, acts[..k]).m).config == Shown(After(e, w, acts).m).config
    decreases |acts| - k
  {
    if k == |acts| {
      assert acts[..k] == acts;
    } else {
      assert !ChangedBy(e, w, acts, k);
      StaysSince(e, w, acts, k + 1);
    }
  }

  lemma CutSaveKeeps(e: Setting, w: World, cut: Act)
    requires IsValid(e.defaults) && Sound(e, w) && cut.CutSave? && ValidAct(cut)
    ensures var saving := cut.saving;
            Shown(Do(e, w, cut).m).config
              in Recoverable(w.m) + {Save(Seen(w), saving.settings, saving.changes, saving.calls).disk.config}
  {
    ReachedIsSound(e, w, cut);
    DoIsSound(e, w, cut);
    SavedToKeeps(w.m, Seen(w), cut.saving);
    assert Shown(w.m).config in Recoverable(w.m);
  }

  /** A save of nothing, cut off with the power, brings back any file that is kept. */
  lemma KeptComesBack(e: Setting, w: World, config: Entry) returns (cut: Act)
    requires IsValid(e.defaults) && Sound(e, w) && config in Recoverable(w.m)
    ensures cut.CutSave? && ValidAct(cut) && Shown(Do(e, w, cut).m).config == config
    ensures Save(Seen(w), cut.saving.settings, cut.saving.changes, cut.saving.calls) == Seen(w)
  {
    var torn := (i: nat) => Empty;
    var pick := CutReaches(w.m, config, torn);
    var nothing := Saving(e.defaults, Changes(false, false, false), Calls(true, Missing, true, true, true));
    cut := CutSave(nothing, false, PowerCut(pick, torn));
  }

  /** Over every run: a save that is cut off is sure to leave the old settings file or the new one exactly where
      none has been replaced or moved since the disk last settled. */
  lemma OldOrNewExactlyWhen(e: Setting, disk: Disk, acts: seq<Act>)
    requires IsValid(e.defaults) && ValidActs(acts)
    ensures var w := Before(e, disk);
            AlwaysOldOrNew(e, After(e, w, acts)) <==> !exists k :: ChangedBy(e, w, acts, k)
  {
    var w := Before(e, disk);
    var now := After(e, w, acts);
    BeforeIsSound(e, disk);
    ActsAreSound(e, w, acts);
    if k: nat :| ChangedBy(e, w, acts, k) {
      var one, other := Shown(After(e, w, acts[..k]).m).config, Shown(After(e, w, acts[..k + 1]).m).config;
      assert WasThere(e, w, acts, k, one) && WasThere(e, w, acts, k + 1, other);
      RecoverableWereThere(e, w, acts, one);
      RecoverableWereThere(e, w, acts, other);
      var cut := KeptComesBack(e, now, if one == Shown(now.m).config then other else one);
      assert !OldOrNew(e, now, cut);
    } else {
      forall cut: Act | cut.CutSave? && ValidAct(cut) ensures OldOrNew(e, now, cut) {
        CutSaveKeeps(e, now, cut);
        var config := Shown(Do(e, now, cut).m).config;
        RecoverableWereThere(e, w, acts, config);
        if k: nat :| WasThere(e, w, acts, k, config) {
          StaysSince(e, w, acts, k);
        }
      }
    }
  }

  /** For one save: exactly where every file that may come back is the old one or the one being written. */
  lemma ThisSaveIsOldOrNew(e: Setting, w: World, saving: Saving)
    requires IsValid(e.defaults) && Sound(e, w) && IsValid(saving.settings)
    ensures var wanted := Save(Seen(w), saving.settings, saving.changes, saving.calls).disk.config;
            (forall lands, end :: OldOrNew(e, w, CutSave(saving, lands, end)))
            <==> Recoverable(w.m) <= {Shown(w.m).config, wanted}
  {
    var wanted := Save(Seen(w), saving.settings, saving.changes, saving.calls).disk.config;
    forall lands, end | Recoverable(w.m) <= {Shown(w.m).config, wanted}
      ensures OldOrNew(e, w, CutSave(saving, lands, end))
    {
      CutSaveKeeps(e, w, CutSave(saving, lands, end));
    }
    if other :| other in Recoverable(w.m) && other !in {Shown(w.m).config, wanted} {
      var torn := (i: nat) => Empty;
      var pick := CutReaches(w.m, other, torn);
      assert !OldOrNew(e, w, CutSave(saving, false, PowerCut(pick, torn)));
    }
  }

  /** The next load gives what it would have given at the moment `k`. */
  ghost predicate LoadsAsAt(e: Setting, w: World, acts: seq<Act>, k: nat, again: Calls, loaded: Settings)
    requires |e.defaults.audio| == |w.written.audio| == NUM_SOURCES && ValidActs(acts)
  {
    k <= |acts| && Unsettled(acts, k) && loaded == Load(e, Shown(After(e, w, acts[..k]).m), again).1
  }

  /** After a save is cut off, the next load gives what it would have given at some moment since the disk last
      settled, or the settings that were being saved -- unless their text has grown past what is read. */
  lemma CrashedSaveLoads(e: Setting, disk: Disk, acts: seq<Act>, cut: Act, again: Calls)
    requires IsValid(e.defaults) && ValidActs(acts) && cut.CutSave? && ValidAct(cut)
    ensures var w := Before(e, disk);
            var s := Seen(After(e, w, acts));
            var crashed := Shown(Do(e, After(e, w, acts), cut).m);
            var loaded := Load(e, crashed, again).1;
            || (exists k :: LoadsAsAt(e, w, acts, k, again, loaded))
            || (&& crashed.config.Holds?
                && loaded == if e.fits(crashed.config.text)
                             then Merge(s.written, cut.saving.settings, cut.saving.changes)
                             else e.defaults)
  {
    var w := Before(e, disk);
    var now := After(e, w, acts);
    BeforeIsSound(e, disk);
    ActsAreSound(e, w, acts);
    CutSaveKeeps(e, now, cut);
    DoIsSound(e, now, cut);
    var crashed := Shown(Do(e, now, cut).m);
    if crashed.config in Recoverable(now.m) {
      RecoverableWereThere(e, w, acts, crashed.config);
      var k: nat :| WasThere(e, w, acts, k, crashed.config);
      ActsAreSound(e, w, acts[..k]);
      LoadIsOfTheFile(e, Shown(After(e, w, acts[..k]).m), crashed, again);
      assert LoadsAsAt(e, w, acts, k, again, Load(e, crashed, again).1);
    } else {
      assert Shown(now.m).config in Recoverable(now.m);
      NewOneLoads(e, now, cut.saving, crashed, again);
    }
  }

  lemma NewOneLoads(e: Setting, w: World, saving: Saving, crashed: Disk, again: Calls)
    requires IsValid(e.defaults) && Sound(e, w) && IsValid(saving.settings)
    requires var r := Save(Seen(w), saving.settings, saving.changes, saving.calls).disk;
             r.config != Shown(w.m).config && crashed.config == r.config && crashed.legacy == w.m.legacy
    ensures crashed.config.Holds?
         && Load(e, crashed, again).1 == if e.fits(crashed.config.text)
                                         then Merge(w.written, saving.settings, saving.changes)
                                         else e.defaults
  {
    var r := Save(Seen(w), saving.settings, saving.changes, saving.calls);
    SaveKeeps(e, Seen(w), saving.settings, saving.changes, saving.calls);
    FreshLoadOfKnown(e, r, again);
    LoadIsOfTheFile(e, r.disk, crashed, again);
  }

  /** What a load gives depends on the settings file and the old one, not on the copy. */
  lemma LoadIsOfTheFile(e: Setting, disk: Disk, other: Disk, calls: Calls)
    requires |e.defaults.audio| == NUM_SOURCES && other.config == disk.config && other.legacy == disk.legacy
    ensures Load(e, other, calls).1 == Load(e, disk, calls).1
  {
  }

  /** Text that stores these settings and nothing else. */
  function TextOf(settings: Settings): Text
    requires |settings.audio| == NUM_SOURCES
  {
    Printed(SettingsJson.Write(settings, Null))
  }

  const ALL_WELL: Calls := Calls(true, Missing, true, true, true)

  function SaveOfAll(settings: Settings): Saving {
    Saving(settings, Changes(true, true, true), ALL_WELL)
  }

  /** One set of settings in the file, then a session that stores another. */
  ghost function Overwritten(e: Setting, one: Settings, two: Settings): World
    requires |e.defaults.audio| == NUM_SOURCES && IsValid(one) && IsValid(two)
  {
    var acts := [DoLoad(ALL_WELL), DoSave(SaveOfAll(two))];
    After(e, Before(e, Disk(Holds(TextOf(one)), Missing, NoLegacy)), acts)
  }

  /** So a save that is cut off may bring back settings from before the one that was stored last: `one` is in
      the file, a save of `two` is reported as stored, the power goes in a save of `three` -- and `one` is
      loaded. */
  lemma AnOlderSaveComesBack(e: Setting, one: Settings, two: Settings, three: Settings, torn: nat -> Text)
    returns (pick: nat)
    requires IsValid(e.defaults) && e.hasPath && IsValid(one) && IsValid(two) && IsValid(three)
    requires one != two && e.fits(TextOf(one))
    ensures var w := Overwritten(e, one, two);
            var r := Do(e, w, CutSave(SaveOfAll(three), false, PowerCut(pick, torn)));
            && w.written == two && Shown(w.m).config.Holds? && Shown(w.m).config != Holds(TextOf(one))
            && Shown(r.m).config == Holds(TextOf(one)) && Load(e, Shown(r.m), ALL_WELL).1 == one
  {
    OlderOneIsKept(e, one, two);
    pick := ComesBack(e, Overwritten(e, one, two), one, SaveOfAll(three), torn);
  }

  lemma ComesBack(e: Setting, w: World, one: Settings, saving: Saving, torn: nat -> Text) returns (pick: nat)
    requires IsValid(e.defaults) && e.hasPath && IsValid(one) && IsValid(saving.settings) && e.fits(TextOf(one))
    requires Sound(e, w) && Holds(TextOf(one)) in Recoverable(w.m)
    ensures var r := Do(e, w, CutSave(saving, false, PowerCut(pick, torn)));
            Shown(r.m).config == Holds(TextOf(one)) && Load(e, Shown(r.m), ALL_WELL).1 == one
  {
    pick := CutReaches(w.m, Holds(TextOf(one)), torn);
    CutBeforeItLands(e, w, saving, pick, torn);
    OwnTextLoads(e, one, Shown(Cut(w.m, pick, torn)), ALL_WELL);
  }

  lemma CutBeforeItLands(e: Setting, w: World, saving: Saving, pick: nat, torn: nat -> Text)
    requires |e.defaults.audio| == |w.written.audio| == NUM_SOURCES && IsValid(saving.settings)
    ensures Do(e, w, CutSave(saving, false, PowerCut(pick, torn))).m == Cut(w.m, pick, torn)
  {
  }

  lemma OlderOneIsKept(e: Setting, one: Settings, two: Settings)
    requires IsValid(e.defaults) && e.hasPath && IsValid(one) && IsValid(two) && one != two && e.fits(TextOf(one))
    ensures var w := Overwritten(e, one, two);
            && Sound(e, w) && w.written == two && Holds(TextOf(one)) in Recoverable(w.m)
            && Shown(w.m).config.Holds? && Shown(w.m).config != Holds(TextOf(one))
  {
    var disk := Disk(Holds(TextOf(one)), Missing, NoLegacy);
    var w0 := Before(e, disk);
    var load, save := DoLoad(ALL_WELL), DoSave(SaveOfAll(two));
    var w1 := Do(e, w0, load);
    TwoActs(e, w0, load, save);
    BeforeIsSound(e, disk);
    DoIsSound(e, w0, load);
    OwnTextLoads(e, one, disk, ALL_WELL);
    LoadedFromKeeps(e, w0.m, ALL_WELL);
    assert Seen(w1) == State(disk, TextOf(one), one, true);
    DoIsSound(e, w1, save);
    OtherSettingsOtherText(e, w1, two);
  }

  lemma TwoActs(e: Setting, w: World, first: Act, second: Act)
    requires |e.defaults.audio| == |w.written.audio| == NUM_SOURCES && ValidAct(first) && ValidAct(second)
    ensures After(e, w, [first, second]) == Do(e, Do(e, w, first), second)
  {
    assert [first, second][..1] == [first] && [first][..0] == [];
    assert After(e, w, []) == w;
    assert After(e, w, [first]) == Do(e, w, first);
  }

  lemma OwnTextLoads(e: Setting, settings: Settings, disk: Disk, calls: Calls)
    requires IsValid(e.defaults) && e.hasPath && IsValid(settings) && e.fits(TextOf(settings))
    requires disk.config == Holds(TextOf(settings))
    ensures Load(e, disk, calls) == (State(disk, TextOf(settings), settings, true), settings)
  {
    var root := SettingsJson.Write(settings, Null);
    WrittenIsOurs(settings, Null);
    ReadingUndoesWriting(settings, Null, e.defaults);
    SoundTextLoads(e, root, disk, calls);
  }

  lemma SoundTextLoads(e: Setting, root: Json, disk: Disk, calls: Calls)
    requires |e.defaults.audio| == NUM_SOURCES && e.hasPath && e.fits(Printed(root))
    requires disk.config == Holds(Printed(root)) && Ours(disk.config)
    ensures Load(e, disk, calls)
         == (State(disk, Printed(root), SettingsOf(root, e.defaults), true), SettingsOf(root, e.defaults))
  {
    assert Look(e, disk.config) == Document(root);
  }

  /** Other settings make another text. */
  lemma OtherSettingsOtherText(e: Setting, w: World, settings: Settings)
    requires IsValid(e.defaults) && Sound(e, w) && w.canSave && IsValid(settings) && w.written != settings
    requires Shown(w.m).config.Holds?
    ensures var r := Do(e, w, DoSave(SaveOfAll(settings)));
            && r.written == settings && Shown(r.m).config.Holds? && Shown(r.m).config != Shown(w.m).config
            && r.m == Replace(w.m, Printed(SettingsJson.Write(settings, Root(w.kept))))
  {
    ReadingUndoesWriting(settings, Root(w.kept), e.defaults);
    SavedToKeeps(w.m, Seen(w), SaveOfAll(settings));
    assert Merge(w.written, settings, Changes(true, true, true)) == settings;
  }

  // ---- Nothing is lost -----------------------------------------------------------------------------

  /** Not for this Klip to write over: unreadable, or of a newer format. */
  predicate Untouchable(config: Entry) {
    match config
    case Missing => false
    case Unreadable => true
    case Holds(text) => Parse(text).Some? && Parse(text).value.Object? && IsNewer(Parse(text).value)
  }

  /** The new text is the old object with settings assigned in it. */
  ghost predicate WrittenOver(root: Json, after: Entry) {
    exists settings :: IsValid(settings) && after == Holds(Printed(SettingsJson.Write(settings, root)))
  }

  /** Where the file changes, there was none; or it was no object, and is now the .bad file; or it was an
      object of a known format and has been written over -- after a copy, where it held something invalid. */
  ghost predicate LosesNothing(before: Disk, after: Disk) {
    after.config != before.config ==>
      && !Untouchable(before.config)
      && (before.config.Holds? ==>
            var parsed := Parse(before.config.text);
            if parsed.Some? && parsed.value.Object?
            then
              && WrittenOver(parsed.value, after.config)
              && (Rejected(parsed.value, KNOWN) == [] || after.bad == before.config)
            else after.bad == before.config && after.config == Missing)
  }

  lemma SaveLosesNothing(e: Setting, s: State, settings: Settings, changes: Changes, calls: Calls)
    requires |e.defaults.audio| == NUM_SOURCES && Inv(e, s) && IsValid(settings)
    ensures LosesNothing(s.disk, Save(s, settings, changes, calls).disk)
  {
    if s.canSave && Asks(changes) {
      var merged := Merge(s.written, settings, changes);
      MergeIsValid(s.written, settings, changes);
      SaveKeeps(e, s, settings, changes, calls);
      assert WrittenOver(Root(s.kept), Holds(Printed(SettingsJson.Write(merged, Root(s.kept)))));
    }
  }

  lemma LoadLosesNothing(e: Setting, disk: Disk, calls: Calls)
    requires |e.defaults.audio| == NUM_SOURCES
    ensures LosesNothing(disk, Load(e, disk, calls).0.disk)
  {
  }

  lemma ReachedLosesNothing(e: Setting, w: World, a: Act)
    requires IsValid(e.defaults) && Sound(e, w) && ValidAct(a)
    ensures LosesNothing(Shown(w.m), Shown(Reached(e, w, a)))
  {
    match a
    case DoLoad(calls) =>
      LoadedFromKeeps(e, w.m, calls);
      LoadLosesNothing(e, Shown(w.m), calls);
    case DoSave(saving) =>
      SavedToKeeps(w.m, Seen(w), saving);
      SaveLosesNothing(e, Seen(w), saving.settings, saving.changes, saving.calls);
    case Settle =>
    case CutLoad(calls, progress, _) =>
      InterruptedIsSound(e, w.m, calls, progress);
      LoadedFromKeeps(e, w.m, calls);
      LoadLosesNothing(e, Shown(w.m), calls);
    case CutSave(saving, _, _) =>
      SavedToKeeps(w.m, Seen(w), saving);
      SaveLosesNothing(e, Seen(w), saving.settings, saving.changes, saving.calls);
  }

  /** Over any number of sessions, from any directory, with any file operations failing, whatever was killed
      and wherever the power went: the store's own part of the next act, finished or cut off, loses nothing of
      what the settings file held. */
  lemma NoSettingsAreLost(e: Setting, disk: Disk, acts: seq<Act>, next: Act)
    requires IsValid(e.defaults) && ValidActs(acts) && ValidAct(next)
    ensures var w := After(e, Before(e, disk), acts);
            && LosesNothing(Shown(w.m), Shown(Reached(e, w, next)))
            && (Settles(next) || Shown(Do(e, w, next).m) == Shown(Reached(e, w, next)))
  {
    BeforeIsSound(e, disk);
    ActsAreSound(e, Before(e, disk), acts);
    ReachedLosesNothing(e, After(e, Before(e, disk), acts), next);
  }

  // ---- What this Klip may not judge ----------------------------------------------------------------

  /** What is not of Klip's making is the one file that may come back. */
  lemma ForeignIsAlone(m: Medium)
    requires MediumInv(m) && !Ours(Shown(m).config)
    ensures Recoverable(m) == {Shown(m).config}
  {
    assert Shown(m).config in Recoverable(m);
  }

  lemma UntouchableAct(e: Setting, w: World, a: Act)
    requires IsValid(e.defaults) && Sound(e, w) && ValidAct(a) && Untouchable(Shown(w.m).config)
    ensures Shown(Do(e, w, a).m).config == Shown(w.m).config
  {
    ForeignIsAlone(w.m);
    ReachedLosesNothing(e, w, a);
    ReachedIsSound(e, w, a);
    DoIsSound(e, w, a);
  }

  /** A file that is unreadable, or of a newer format, is there to the end of the run as it was. */
  lemma {:induction false} UntouchableStays(e: Setting, w: World, acts: seq<Act>)
    requires IsValid(e.defaults) && Sound(e, w) && ValidActs(acts) && Untouchable(Shown(w.m).config)
    ensures Shown(After(e, w, acts).m).config == Shown(w.m).config
    decreases |acts|
  {
    if acts != [] {
      var before := acts[..|acts| - 1];
      UntouchableStays(e, w, before);
      ActsAreSound(e, w, before);
      UntouchableAct(e, After(e, w, before), acts[|acts| - 1]);
    }
  }

  predicate NoPowerCut(acts: seq<Act>) {
    forall i | 0 <= i < |acts| :: acts[i].Settle? || !Settles(acts[i])
  }

  lemma TooLargeAct(e: Setting, w: World, a: Act)
    requires IsValid(e.defaults) && Sound(e, w) && ValidAct(a)
    requires !w.canSave && Look(e, Shown(w.m).config).CannotRead?
    requires Recoverable(w.m) == {Shown(w.m).config} || a.Settle? || !Settles(a)
    ensures !Do(e, w, a).canSave && Shown(Do(e, w, a).m).config == Shown(w.m).config
    ensures Recoverable(w.m) == {Shown(w.m).config} ==> Recoverable(Do(e, w, a).m) == {Shown(w.m).config}
  {
    DoIsSound(e, w, a);
    assert Reached(e, w, a) == w.m;
  }

  /** A file that a load finds unreadable, be it only too large, stays as it was through everything after --
      unless the power goes before the disk has settled on it. */
  lemma {:induction false} TooLargeStays(e: Setting, w: World, acts: seq<Act>)
    requires IsValid(e.defaults) && Sound(e, w) && ValidActs(acts)
    requires !w.canSave && Look(e, Shown(w.m).config).CannotRead?
    requires Recoverable(w.m) == {Shown(w.m).config} || NoPowerCut(acts)
    ensures var r := After(e, w, acts);
            && !r.canSave && Shown(r.m).config == Shown(w.m).config
            && (Recoverable(w.m) == {Shown(w.m).config} ==> Recoverable(r.m) == {Shown(w.m).config})
    decreases |acts|
  {
    if acts != [] {
      var before := acts[..|acts| - 1];
      TooLargeStays(e, w, before);
      ActsAreSound(e, w, before);
      TooLargeAct(e, After(e, w, before), acts[|acts| - 1]);
    }
  }

  /** Over every run: whatever the directory holds, a file of a newer format or an unreadable one is never
      written over or lost, and neither is one a load has found too large to read, unless the power goes while
      an earlier one may still come back. */
  lemma NeverWrittenOver(e: Setting, disk: Disk, before: seq<Act>, calls: Calls, after: seq<Act>)
    requires IsValid(e.defaults) && ValidActs(before) && ValidActs(after)
    ensures var w := After(e, Before(e, disk), before);
            var loaded := Do(e, w, DoLoad(calls));
            var config := Shown(w.m).config;
            && (Untouchable(config) ==> Shown(After(e, w, after).m).config == config)
            && (Look(e, config).CannotRead?
                && (NoPowerCut(after) || !exists k :: ChangedBy(e, Before(e, disk), before, k)) ==>
                  Shown(After(e, loaded, after).m).config == config)
  {
    var start := Before(e, disk);
    BeforeIsSound(e, disk);
    ActsAreSound(e, start, before);
    var w := After(e, start, before);
    if Untouchable(Shown(w.m).config) {
      UntouchableStays(e, w, after);
    }
    if Look(e, Shown(w.m).config).CannotRead?
       && (NoPowerCut(after) || !exists k :: ChangedBy(e, start, before, k))
    {
      DoIsSound(e, w, DoLoad(calls));
      assert Do(e, w, DoLoad(calls)).m == w.m;
      UnchangedIsAlone(e, start, before);
      TooLargeStays(e, Do(e, w, DoLoad(calls)), after);
    }
  }

  lemma UnchangedIsAlone(e: Setting, w: World, acts: seq<Act>)
    requires IsValid(e.defaults) && Sound(e, w) && ValidActs(acts) && Recoverable(w.m) == {Shown(w.m).config}
    ensures (!exists k :: ChangedBy(e, w, acts, k))
        ==> Recoverable(After(e, w, acts).m) == {Shown(After(e, w, acts).m).config}
  {
    var now := After(e, w, acts);
    ActsAreSound(e, w, acts);
    assert Shown(now.m).config in Recoverable(now.m);
    if !exists k :: ChangedBy(e, w, acts, k) {
      forall config | config in Recoverable(now.m) ensures config == Shown(now.m).config {
        RecoverableWereThere(e, w, acts, config);
        var k: nat :| WasThere(e, w, acts, k, config);
        StaysSince(e, w, acts, k);
      }
    }
  }
}
