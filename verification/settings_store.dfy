/** The settings store: a cache of the settings file, which it alone writes while Klip runs. */
module SettingsStore {
  import opened Wrappers
  import opened JsonTree
  import opened SettingsJson
  import opened SettingsReading
  import R = SettingsReader

  /** A text is Printed where it is exactly what printing the tree gives, so every text has one form here;
      printing a tree and parsing it again gives the tree back. */
  datatype Text = Empty | Printed(tree: Json) | Other(id: nat, parsed: Option<Json>)

  function Parse(text: Text): Option<Json> {
    match text
    case Empty => None
    case Printed(tree) => Some(tree)
    case Other(_, parsed) => parsed
  }

  datatype Entry = Missing | Unreadable | Holds(text: Text)

  /** The old settings file, which converts to some object, whatever it holds. */
  datatype Legacy = NoLegacy | UnreadableLegacy | Converts(tree: Json)

  /** The configuration directory: config.json, config.json.bad and Klip.conf. */
  datatype Disk = Disk(config: Entry, bad: Entry, legacy: Legacy)

  /** Where there is a directory for the settings, which texts are small enough to be read, and the defaults. */
  datatype Setting = Setting(hasPath: bool, fits: Text -> bool, defaults: Settings)

  datatype Changes = Changes(choices: bool, screenToken: bool, windowToken: bool)

  datatype State = State(disk: Disk, kept: Text, written: Settings, canSave: bool)

  /** How the file operations of one call go; a copy that fails may leave anything behind. */
  datatype Calls = Calls(copies: bool, leftover: Entry, moves: bool, creates: bool, writes: bool)

  // ---- The operations ------------------------------------------------------------------------------

  function Root(kept: Text): Json {
    if Parse(kept).Some? then Parse(kept).value else Null
  }

  function WriteThrough(s: State, settings: Settings, calls: Calls): (State, bool)
    requires |settings.audio| == NUM_SOURCES
  {
    var text := Printed(SettingsJson.Write(settings, Root(s.kept)));
    if text == s.kept then (s.(written := settings), true)
    else if calls.creates && calls.writes
    then (s.(disk := s.disk.(config := Holds(text)), kept := text, written := settings), true)
    else (s, false)
  }

  function Merge(written: Settings, settings: Settings, changes: Changes): Settings {
    (if changes.choices then settings else written).(
      screenToken := if changes.screenToken then settings.screenToken else written.screenToken,
      windowToken := if changes.windowToken then settings.windowToken else written.windowToken)
  }

  predicate Asks(changes: Changes) {
    changes.choices || changes.screenToken || changes.windowToken
  }

  function Save(s: State, settings: Settings, changes: Changes, calls: Calls): State
    requires |settings.audio| == |s.written.audio| == NUM_SOURCES
  {
    if s.canSave && Asks(changes) then WriteThrough(s, Merge(s.written, settings, changes), calls).0 else s
  }

  /** What is imported where there is no settings file. */
  function Imported(e: Setting, legacy: Legacy): Settings
    requires |e.defaults.audio| == NUM_SOURCES
  {
    if legacy.Converts? then SettingsOf(legacy.tree, e.defaults) else e.defaults
  }

  function Import(e: Setting, s: State, calls: Calls): State
    requires |e.defaults.audio| == NUM_SOURCES
  {
    if s.disk.legacy.Converts? then WriteThrough(s, Imported(e, s.disk.legacy), calls).0 else s
  }

  function KeepBackup(s: State, calls: Calls): State {
    if calls.copies then s.(disk := s.disk.(bad := s.disk.config))
    else s.(disk := s.disk.(bad := calls.leftover), canSave := false)
  }

  function MoveAside(s: State, calls: Calls): State {
    if calls.moves then s.(disk := s.disk.(bad := s.disk.config, config := Missing), canSave := true)
    else s.(canSave := false)
  }

  /** What the file is to the store. */
  datatype Finding = NoFile | CannotRead | NotSettings | Document(root: Json)

  function Look(e: Setting, config: Entry): Finding {
    match config
    case Missing => NoFile
    case Unreadable => CannotRead
    case Holds(text) =>
      if !e.fits(text) then CannotRead
      else if Parse(text).Some? && Parse(text).value.Object? then Document(Parse(text).value)
      else NotSettings
  }

  predicate IsNewer(root: Json) {
    VersionOr(Get(root, ["version"]), VERSION) > VERSION
  }

  ghost function Load(e: Setting, disk: Disk, calls: Calls): (r: (State, Settings))
    requires |e.defaults.audio| == NUM_SOURCES
    ensures |r.0.written.audio| == NUM_SOURCES && r.0.written == r.1
  {
    var start := State(disk, Empty, e.defaults, false);
    if !e.hasPath then (start, e.defaults)
    else
      match Look(e, disk.config)
      case NoFile =>
        var settings := Imported(e, disk.legacy);
        (Import(e, start.(canSave := true), calls).(written := settings), settings)
      case CannotRead => (start, e.defaults)
      case NotSettings => (MoveAside(start, calls), e.defaults)
      case Document(root) =>
        var settings := SettingsOf(root, e.defaults);
        var read := start.(kept := disk.config.text, written := settings, canSave := !IsNewer(root));
        (if Rejected(root, KNOWN) == [] then read else KeepBackup(read, calls), settings)
  }

  // ---- As it runs ----------------------------------------------------------------------------------

  class Store {
    const e: Setting
    var disk: Disk
    var written: Settings
    var kept: Text
    var canSave: bool

    ghost function Now(): State
      reads this
    {
      State(disk, kept, written, canSave)
    }

    constructor (e: Setting, disk: Disk)
      ensures this.e == e && this.disk == disk
    {
      this.e, this.disk, written, kept, canSave := e, disk, e.defaults, Empty, false;
    }

    /** Skipped where the file already says the same; false only where it could not be written. */
    method WriteSettings(settings: Settings, calls: Calls) returns (isStored: bool)
      requires |settings.audio| == NUM_SOURCES
      modifies `disk, `kept, `written
      ensures (Now(), isStored) == WriteThrough(old(Now()), settings, calls)
    {
      var root := if Parse(kept).Some? then Parse(kept).value else Null;
      var tree := WriteSettingsJson(settings, root);
      var text := Printed(tree);
      isStored := text == kept;
      if !isStored && calls.creates {
        isStored := calls.writes;
        if isStored {
          disk := disk.(config := Holds(text));
          kept := text;
        }
      }
      if isStored {
        written := settings;
      }
    }

    /** Only what the changes name is taken from the settings. */
    method SaveSettings(settings: Settings, changes: Changes, calls: Calls)
      requires |settings.audio| == |written.audio| == NUM_SOURCES
      modifies this
      ensures Now() == Save(old(Now()), settings, changes, calls)
    {
      if canSave && Asks(changes) {
        var merged := if changes.choices then settings else written;
        merged := merged.(screenToken := if changes.screenToken then settings.screenToken else written.screenToken);
        merged := merged.(windowToken := if changes.windowToken then settings.windowToken else written.windowToken);
        var _ := WriteSettings(merged, calls);
      }
    }

    method ImportLegacy(calls: Calls) returns (settings: Settings)
      requires |e.defaults.audio| == NUM_SOURCES
      modifies `disk, `kept, `written
      ensures Now() == Import(e, old(Now()), calls) && settings == Imported(e, old(disk).legacy)
    {
      settings := e.defaults;
      match disk.legacy {
        case Converts(tree) =>
          var document := new R.Document(e.defaults);
          document.ReadDocument(tree);
          settings := document.settings;
          var _ := WriteSettings(settings, calls);
        case _ =>
      }
    }

    method Backup(calls: Calls)
      modifies `disk, `canSave
      ensures Now() == KeepBackup(old(Now()), calls)
    {
      if calls.copies {
        disk := disk.(bad := disk.config);
      } else {
        disk := disk.(bad := calls.leftover);
        canSave := false;
      }
    }

    method SetAside(calls: Calls)
      modifies `disk, `canSave
      ensures Now() == MoveAside(old(Now()), calls)
    {
      canSave := calls.moves;
      if canSave {
        disk := disk.(bad := disk.config, config := Missing);
      }
    }

    /** Takes in the file's settings, or leaves the file alone. */
    method TakeDocument(text: Text, root: Json, calls: Calls) returns (settings: Settings)
      requires |e.defaults.audio| == NUM_SOURCES && root.Object?
      modifies this
      ensures settings == SettingsOf(root, e.defaults) && written == old(written)
      ensures var read := State(old(disk), text, written, !IsNewer(root));
              Now() == if Rejected(root, KNOWN) == [] then read else KeepBackup(read, calls)
    {
      var outcome := R.ReadSettingsJson(Some(root), e.defaults);
      settings := outcome.settings;
      kept := text;
      canSave := outcome.version <= VERSION;
      if outcome.numInvalid != 0 {
        Backup(calls);
      }
    }

    method LoadSettings(calls: Calls) returns (settings: Settings)
      requires |e.defaults.audio| == NUM_SOURCES
      modifies this
      ensures (Now(), settings) == Load(e, old(disk), calls)
    {
      settings := e.defaults;
      written := e.defaults;
      kept := Empty;
      canSave := false;
      if e.hasPath {
        match Look(e, disk.config) {
          case NoFile =>
            canSave := true;
            settings := ImportLegacy(calls);
          case CannotRead =>
          case NotSettings => SetAside(calls);
          case Document(root) => settings := TakeDocument(disk.config.text, root, calls);
        }
      }
      written := settings;
    }
  }
}
