/** The settings in their JSON file: written over what the file holds, so that what this Klip does not know
    survives. */
module SettingsJson {
  import opened Wrappers
  import opened JsonTree

  datatype Container = Mp4 | Matroska | WebM
  datatype Codec = H264 | Hevc | Av1
  datatype Quality = Smallest | Smaller | Balanced | High | Best
  datatype Source = Screen | Window | Region

  datatype AudioChoice = AudioChoice(enabled: bool, device: string, gain: int)

  datatype Settings = Settings(
    directory: string,
    source: Source,
    rememberWindow: bool,
    container: Container,
    codec: Codec,
    quality: Quality,
    maxFrameRate: nat,
    audio: seq<AudioChoice>,
    audioQuality: Quality,
    screenToken: string,
    windowToken: string)

  const VERSION: nat := 1
  const MAX_UINT32: nat := 0xFFFF_FFFF
  const MIN_GAIN: int := -30
  const MAX_GAIN: int := 20
  const NUM_SOURCES: nat := 2
  const AUDIO_KEYS: seq<string> := ["system", "microphone"]
  const NUL: char := 0 as char

  predicate IsFrameRate(n: int) {
    n == 30 || n == 60 || n == 0
  }

  function ContainerName(c: Container): string {
    match c
    case Mp4 => "mp4"
    case Matroska => "matroska"
    case WebM => "webm"
  }

  function CodecName(c: Codec): string {
    match c
    case H264 => "h264"
    case Hevc => "hevc"
    case Av1 => "av1"
  }

  function QualityName(q: Quality): string {
    match q
    case Smallest => "smallest"
    case Smaller => "smaller"
    case Balanced => "balanced"
    case High => "high"
    case Best => "best"
  }

  function SourceName(s: Source): string {
    match s
    case Screen => "screen"
    case Window => "window"
    case Region => "region"
  }

  /** Two sources of audio, gains and frame rates in range, and no NUL in a string. */
  predicate IsValid(s: Settings) {
    && |s.audio| == NUM_SOURCES
    && (forall i | 0 <= i < NUM_SOURCES :: MIN_GAIN <= s.audio[i].gain <= MAX_GAIN && NUL !in s.audio[i].device)
    && IsFrameRate(s.maxFrameRate)
    && NUL !in s.directory && NUL !in s.screenToken && NUL !in s.windowToken
  }

  // ---- The paths -----------------------------------------------------------------------------------

  const VERSION_PATH: Path := ["version"]

  function OutputAssignments(s: Settings): seq<Assignment> {
    [Assignment(["output", "directory"], String(s.directory)),
     Assignment(["output", "container"], String(ContainerName(s.container))),
     Assignment(["output", "codec"], String(CodecName(s.codec))),
     Assignment(["output", "quality"], String(QualityName(s.quality)))]
  }

  function CaptureAssignments(s: Settings): seq<Assignment> {
    [Assignment(["capture", "source"], String(SourceName(s.source))),
     Assignment(["capture", "frameRate"], Int(s.maxFrameRate)),
     Assignment(["capture", "rememberWindow"], Bool(s.rememberWindow))]
  }

  function ChoiceAssignments(c: AudioChoice, key: string): seq<Assignment> {
    [Assignment(["audio", key, "enabled"], Bool(c.enabled)),
     Assignment(["audio", key, "device"], String(c.device)),
     Assignment(["audio", key, "gain"], Int(c.gain))]
  }

  function AudioAssignments(s: Settings): seq<Assignment>
    requires |s.audio| == NUM_SOURCES
  {
    ChoiceAssignments(s.audio[0], AUDIO_KEYS[0]) + ChoiceAssignments(s.audio[1], AUDIO_KEYS[1])
    + [Assignment(["audio", "quality"], String(QualityName(s.audioQuality)))]
  }

  function PortalAssignments(s: Settings): seq<Assignment> {
    [Assignment(["portal", "restoreTokens", "screen"], String(s.screenToken)),
     Assignment(["portal", "restoreTokens", "window"], String(s.windowToken))]
  }

  /** The seventeen values Klip writes, in the order it writes them. */
  function Assignments(s: Settings): seq<Assignment>
    requires |s.audio| == NUM_SOURCES
  {
    [Assignment(VERSION_PATH, Int(VERSION))] + OutputAssignments(s) + CaptureAssignments(s)
    + AudioAssignments(s) + PortalAssignments(s)
  }

  /** Over `kept`, or over nothing where that is no object. */
  function Write(s: Settings, kept: Json): Json
    requires |s.audio| == NUM_SOURCES
  {
    Assign(kept, Assignments(s))
  }

  // ---- The paths are apart -------------------------------------------------------------------------

  ghost predicate StartsWith(a: seq<Assignment>, key: string) {
    forall i | 0 <= i < |a| :: |a[i].path| > 0 && a[i].path[0] == key
  }

  lemma DifferentSections(p: Path, q: Path)
    requires |p| > 0 && |q| > 0 && p[0] != q[0]
    ensures Apart(p, q)
  {
  }

  lemma SameSection(p: Path, q: Path, i: nat)
    requires i < |p| && i < |q| && p[i] != q[i]
    ensures Apart(p, q)
  {
  }

  lemma JoinApart(a: seq<Assignment>, b: seq<Assignment>)
    requires AllApart(a) && AllApart(b)
    requires forall i, j | 0 <= i < |a| && 0 <= j < |b| :: Apart(a[i].path, b[j].path)
    ensures AllApart(a + b)
  {
    forall i, j | 0 <= i < j < |a + b| ensures Apart((a + b)[i].path, (a + b)[j].path) {
    }
  }

  lemma OutputApart(s: Settings)
    ensures AllApart(OutputAssignments(s)) && StartsWith(OutputAssignments(s), "output")
  {
    var a := OutputAssignments(s);
    assert "directory"[0] != "container"[0] && "directory"[0] != "codec"[0] && "directory"[0] != "quality"[0];
    assert |"container"| != |"codec"| && "container"[0] != "quality"[0] && "codec"[0] != "quality"[0];
    forall i, j | 0 <= i < j < |a| ensures Apart(a[i].path, a[j].path) {
      SameSection(a[i].path, a[j].path, 1);
    }
  }

  lemma CaptureApart(s: Settings)
    ensures AllApart(CaptureAssignments(s)) && StartsWith(CaptureAssignments(s), "capture")
  {
    var a := CaptureAssignments(s);
    assert "source"[0] != "frameRate"[0] && "source"[0] != "rememberWindow"[0] && "frameRate"[0] != "rememberWindow"[0];
    forall i, j | 0 <= i < j < |a| ensures Apart(a[i].path, a[j].path) {
      SameSection(a[i].path, a[j].path, 1);
    }
  }

  lemma ChoiceApart(c: AudioChoice, key: string)
    ensures AllApart(ChoiceAssignments(c, key)) && StartsWith(ChoiceAssignments(c, key), "audio")
  {
    var a := ChoiceAssignments(c, key);
    assert "enabled"[0] != "device"[0] && "enabled"[0] != "gain"[0] && "device"[0] != "gain"[0];
    forall i, j | 0 <= i < j < |a| ensures Apart(a[i].path, a[j].path) {
      SameSection(a[i].path, a[j].path, 2);
    }
  }

  lemma AudioApart(s: Settings)
    requires |s.audio| == NUM_SOURCES
    ensures AllApart(AudioAssignments(s)) && StartsWith(AudioAssignments(s), "audio")
  {
    var system := ChoiceAssignments(s.audio[0], AUDIO_KEYS[0]);
    var microphone := ChoiceAssignments(s.audio[1], AUDIO_KEYS[1]);
    var quality := [Assignment(["audio", "quality"], String(QualityName(s.audioQuality)))];
    assert "system"[0] != "microphone"[0] && "system"[0] != "quality"[0] && "microphone"[0] != "quality"[0];
    ChoiceApart(s.audio[0], AUDIO_KEYS[0]);
    ChoiceApart(s.audio[1], AUDIO_KEYS[1]);
    forall i, j | 0 <= i < |system| && 0 <= j < |microphone| ensures Apart(system[i].path, microphone[j].path) {
      SameSection(system[i].path, microphone[j].path, 1);
    }
    JoinApart(system, microphone);
    var both := system + microphone;
    forall i, j | 0 <= i < |both| && 0 <= j < |quality| ensures Apart(both[i].path, quality[j].path) {
      SameSection(both[i].path, quality[j].path, 1);
    }
    JoinApart(both, quality);
  }

  lemma PortalApart(s: Settings)
    ensures AllApart(PortalAssignments(s)) && StartsWith(PortalAssignments(s), "portal")
  {
    var a := PortalAssignments(s);
    assert "screen"[0] != "window"[0];
    SameSection(a[0].path, a[1].path, 2);
  }

  lemma SectionsApart(a: seq<Assignment>, b: seq<Assignment>, keys: seq<string>, key: string)
    requires AllApart(a) && AllApart(b) && StartsWith(b, key)
    requires forall i | 0 <= i < |a| :: |a[i].path| > 0 && a[i].path[0] in keys
    requires key !in keys
    ensures AllApart(a + b)
    ensures forall i | 0 <= i < |a + b| :: |(a + b)[i].path| > 0 && (a + b)[i].path[0] in keys + [key]
  {
    forall i, j | 0 <= i < |a| && 0 <= j < |b| ensures Apart(a[i].path, b[j].path) {
      DifferentSections(a[i].path, b[j].path);
    }
    JoinApart(a, b);
  }

  /** No two of the seventeen paths lead through one another. */
  lemma PathsApart(s: Settings)
    requires |s.audio| == NUM_SOURCES
    ensures AllApart(Assignments(s))
  {
    OutputApart(s);
    CaptureApart(s);
    AudioApart(s);
    PortalApart(s);
    var version := [Assignment(VERSION_PATH, Int(VERSION))];
    assert "version"[0] != "output"[0] && "version"[0] != "capture"[0] && "version"[0] != "audio"[0];
    assert "version"[0] != "portal"[0] && "output"[0] != "capture"[0] && "output"[0] != "audio"[0];
    assert "output"[0] != "portal"[0] && "capture"[0] != "audio"[0] && "capture"[0] != "portal"[0];
    assert "audio"[0] != "portal"[0];
    SectionsApart(version, OutputAssignments(s), ["version"], "output");
    SectionsApart(version + OutputAssignments(s), CaptureAssignments(s), ["version", "output"], "capture");
    assert ["version"] + ["output"] == ["version", "output"];
    assert ["version", "output"] + ["capture"] == ["version", "output", "capture"];
    assert ["version", "output", "capture"] + ["audio"] == ["version", "output", "capture", "audio"];
    SectionsApart(version + OutputAssignments(s) + CaptureAssignments(s), AudioAssignments(s),
                  ["version", "output", "capture"], "audio");
    SectionsApart(version + OutputAssignments(s) + CaptureAssignments(s) + AudioAssignments(s), PortalAssignments(s),
                  ["version", "output", "capture", "audio"], "portal");
  }

  // ---- What writing does ---------------------------------------------------------------------------

  lemma PathsDoNotDepend(s: Settings, t: Settings)
    requires |s.audio| == |t.audio| == NUM_SOURCES
    ensures SamePaths(Assignments(s), Assignments(t))
  {
    var version := [Assignment(VERSION_PATH, Int(VERSION))];
    AudioPathsDoNotDepend(s, t);
    SamePathsConcat(version, version, OutputAssignments(s), OutputAssignments(t));
    SamePathsConcat(version + OutputAssignments(s), version + OutputAssignments(t),
                    CaptureAssignments(s), CaptureAssignments(t));
    SamePathsConcat(version + OutputAssignments(s) + CaptureAssignments(s),
                    version + OutputAssignments(t) + CaptureAssignments(t),
                    AudioAssignments(s), AudioAssignments(t));
    SamePathsConcat(version + OutputAssignments(s) + CaptureAssignments(s) + AudioAssignments(s),
                    version + OutputAssignments(t) + CaptureAssignments(t) + AudioAssignments(t),
                    PortalAssignments(s), PortalAssignments(t));
  }

  lemma AudioPathsDoNotDepend(s: Settings, t: Settings)
    requires |s.audio| == |t.audio| == NUM_SOURCES
    ensures SamePaths(AudioAssignments(s), AudioAssignments(t))
  {
    assert SamePaths(ChoiceAssignments(s.audio[0], AUDIO_KEYS[0]), ChoiceAssignments(t.audio[0], AUDIO_KEYS[0]));
    assert SamePaths(ChoiceAssignments(s.audio[1], AUDIO_KEYS[1]), ChoiceAssignments(t.audio[1], AUDIO_KEYS[1]));
  }

  lemma SamePathsConcat(a: seq<Assignment>, b: seq<Assignment>, c: seq<Assignment>, d: seq<Assignment>)
    requires SamePaths(a, b) && SamePaths(c, d)
    ensures SamePaths(a + c, b + d)
  {
  }

  /** Writing forgets what was written before it, so writing the same settings twice changes nothing. */
  lemma WritingForgets(s: Settings, t: Settings, kept: Json)
    requires |s.audio| == |t.audio| == NUM_SOURCES
    ensures Write(t, Write(s, kept)) == Write(t, kept)
    ensures Write(t, Write(t, kept)) == Write(t, kept)
  {
    PathsApart(t);
    PathsDoNotDepend(s, t);
    PathsDoNotDepend(t, t);
    AssignForgets(kept, Assignments(s), Assignments(t));
    AssignForgets(kept, Assignments(t), Assignments(t));
  }

  /** Neither written, nor under a key that is, nor a section on the way to one. */
  ghost predicate Unknown(s: Settings, path: Path)
    requires |s.audio| == NUM_SOURCES
  {
    forall i | 0 <= i < |Assignments(s)| :: Apart(Assignments(s)[i].path, path)
  }

  /** Neither written nor under a key that is: an unknown key, or a section on the way to a written one. */
  ghost predicate NotWritten(s: Settings, path: Path)
    requires |s.audio| == NUM_SOURCES
  {
    forall i | 0 <= i < |Assignments(s)| ::
      Apart(Assignments(s)[i].path, path) || (path <= Assignments(s)[i].path && path != Assignments(s)[i].path)
  }

  /** What Klip does not know keeps its value, wherever it is; and every object Klip writes into keeps its
      members in their order, with those it did not have after them. */
  lemma WritingKeepsTheRest(s: Settings, kept: Json, path: Path)
    requires |s.audio| == NUM_SOURCES
    ensures Unknown(s, path) ==> Get(Write(s, kept), path) == Get(kept, path)
    ensures NotWritten(s, path) && Get(kept, path).Some? && Get(kept, path).value.Object? ==>
              && Get(Write(s, kept), path).Some? && Get(Write(s, kept), path).value.Object?
              && Keys(Get(kept, path).value.members) <= Keys(Get(Write(s, kept), path).value.members)
  {
    if Unknown(s, path) {
      AssignFrame(kept, Assignments(s), path);
    }
    if NotWritten(s, path) && Get(kept, path).Some? && Get(kept, path).value.Object? {
      AssignKeepsOrder(kept, Assignments(s), path);
    }
  }

  /** Every value written is there afterwards. */
  lemma WrittenIsThere(s: Settings, kept: Json, i: nat)
    requires |s.audio| == NUM_SOURCES && i < |Assignments(s)|
    ensures Get(Write(s, kept), Assignments(s)[i].path) == Some(Assignments(s)[i].value)
  {
    PathsApart(s);
    AssignedIsRead(kept, Assignments(s), i);
  }

  // ---- As it runs ----------------------------------------------------------------------------------

  function OutputFields(s: Settings): seq<Assignment> {
    [Assignment(["directory"], String(s.directory)),
     Assignment(["container"], String(ContainerName(s.container))),
     Assignment(["codec"], String(CodecName(s.codec))),
     Assignment(["quality"], String(QualityName(s.quality)))]
  }

  function CaptureFields(s: Settings): seq<Assignment> {
    [Assignment(["source"], String(SourceName(s.source))),
     Assignment(["frameRate"], Int(s.maxFrameRate)),
     Assignment(["rememberWindow"], Bool(s.rememberWindow))]
  }

  function ChoiceFields(c: AudioChoice): seq<Assignment> {
    [Assignment(["enabled"], Bool(c.enabled)),
     Assignment(["device"], String(c.device)),
     Assignment(["gain"], Int(c.gain))]
  }

  function TokenFields(s: Settings): seq<Assignment> {
    [Assignment(["screen"], String(s.screenToken)),
     Assignment(["window"], String(s.windowToken))]
  }

  lemma AssignField(j: Json, fields: seq<Assignment>, k: nat, key: string)
    requires k < |fields| && fields[k].path == [key]
    ensures Assign(j, fields[k..]) == Assign(WithField(j, key, fields[k].value), fields[k + 1..])
    ensures Assign(j, fields[|fields|..]) == j
  {
    Peel(j, fields, k);
    SetField(j, key, fields[k].value);
  }

  method WriteOutput(section: Json, s: Settings) returns (output: Json)
    ensures output == Assign(section, OutputFields(s))
  {
    ghost var fields := OutputFields(s);
    assert fields[0..] == fields;
    AssignField(section, fields, 0, "directory");
    output := WithField(section, "directory", String(s.directory));
    AssignField(output, fields, 1, "container");
    output := WithField(output, "container", String(ContainerName(s.container)));
    AssignField(output, fields, 2, "codec");
    output := WithField(output, "codec", String(CodecName(s.codec)));
    AssignField(output, fields, 3, "quality");
    output := WithField(output, "quality", String(QualityName(s.quality)));
    AssignField(output, fields, 0, "directory");
  }

  method WriteCapture(section: Json, s: Settings) returns (capture: Json)
    ensures capture == Assign(section, CaptureFields(s))
  {
    ghost var fields := CaptureFields(s);
    assert fields[0..] == fields;
    AssignField(section, fields, 0, "source");
    capture := WithField(section, "source", String(SourceName(s.source)));
    AssignField(capture, fields, 1, "frameRate");
    capture := WithField(capture, "frameRate", Int(s.maxFrameRate));
    AssignField(capture, fields, 2, "rememberWindow");
    capture := WithField(capture, "rememberWindow", Bool(s.rememberWindow));
    AssignField(capture, fields, 0, "source");
  }

  method WriteChoice(section: Json, c: AudioChoice) returns (choice: Json)
    ensures choice == Assign(section, ChoiceFields(c))
  {
    ghost var fields := ChoiceFields(c);
    assert fields[0..] == fields;
    AssignField(section, fields, 0, "enabled");
    choice := WithField(section, "enabled", Bool(c.enabled));
    AssignField(choice, fields, 1, "device");
    choice := WithField(choice, "device", String(c.device));
    AssignField(choice, fields, 2, "gain");
    choice := WithField(choice, "gain", Int(c.gain));
    AssignField(choice, fields, 0, "enabled");
  }

  function AudioFields(s: Settings): seq<Assignment>
    requires |s.audio| == NUM_SOURCES
  {
    ChoicesFrom(s, 0) + [Assignment(["quality"], String(QualityName(s.audioQuality)))]
  }

  function ChoicesFrom(s: Settings, i: nat): seq<Assignment>
    requires i <= |s.audio| == NUM_SOURCES
    decreases NUM_SOURCES - i
  {
    if i == NUM_SOURCES then [] else Under(AUDIO_KEYS[i], ChoiceFields(s.audio[i])) + ChoicesFrom(s, i + 1)
  }

  method WriteAudio(section: Json, s: Settings) returns (audio: Json)
    requires |s.audio| == NUM_SOURCES
    ensures audio == Assign(section, AudioFields(s))
  {
    audio := section;
    for i := 0 to NUM_SOURCES
      invariant Assign(audio, ChoicesFrom(s, i)) == Assign(section, ChoicesFrom(s, 0))
    {
      var choice := WriteChoice(Section(audio, AUDIO_KEYS[i]), s.audio[i]);
      AssignConcat(audio, Under(AUDIO_KEYS[i], ChoiceFields(s.audio[i])), ChoicesFrom(s, i + 1));
      AssignUnder(audio, AUDIO_KEYS[i], ChoiceFields(s.audio[i]));
      audio := WithField(audio, AUDIO_KEYS[i], choice);
    }
    ghost var quality := [Assignment(["quality"], String(QualityName(s.audioQuality)))];
    AssignConcat(section, ChoicesFrom(s, 0), quality);
    assert quality[0..] == quality;
    AssignField(audio, quality, 0, "quality");
    audio := WithField(audio, "quality", String(QualityName(s.audioQuality)));
    AssignField(audio, quality, 0, "quality");
  }

  method WriteTokens(section: Json, s: Settings) returns (tokens: Json)
    ensures tokens == Assign(section, TokenFields(s))
  {
    ghost var fields := TokenFields(s);
    assert fields[0..] == fields;
    AssignField(section, fields, 0, "screen");
    tokens := WithField(section, "screen", String(s.screenToken));
    AssignField(tokens, fields, 1, "window");
    tokens := WithField(tokens, "window", String(s.windowToken));
    AssignField(tokens, fields, 0, "screen");
  }

  lemma FieldsUnder(key: string, fields: seq<Assignment>, whole: seq<Assignment>)
    requires |whole| == |fields|
    requires forall i | 0 <= i < |fields| :: |fields[i].path| == 1
    requires forall i | 0 <= i < |fields| :: whole[i] == Assignment([key, fields[i].path[0]], fields[i].value)
    ensures whole == Under(key, fields)
  {
    forall i | 0 <= i < |fields| ensures whole[i] == Under(key, fields)[i] {
      assert [key] + fields[i].path == [key, fields[i].path[0]];
    }
  }

  lemma InnerFieldsUnder(outer: string, key: string, fields: seq<Assignment>, whole: seq<Assignment>)
    requires |whole| == |fields|
    requires forall i | 0 <= i < |fields| :: |fields[i].path| == 1
    requires forall i | 0 <= i < |fields| :: whole[i] == Assignment([outer, key, fields[i].path[0]], fields[i].value)
    ensures whole == Under(outer, Under(key, fields))
  {
    forall i | 0 <= i < |fields| ensures whole[i] == Under(outer, Under(key, fields))[i] {
      assert [outer] + ([key] + fields[i].path) == [outer, key, fields[i].path[0]];
    }
  }

  lemma UnderConcat(key: string, a: seq<Assignment>, b: seq<Assignment>)
    ensures Under(key, a + b) == Under(key, a) + Under(key, b)
  {
  }

  lemma AudioIsUnder(s: Settings)
    requires |s.audio| == NUM_SOURCES
    ensures AudioAssignments(s) == Under("audio", AudioFields(s))
  {
    var quality := [Assignment(["quality"], String(QualityName(s.audioQuality)))];
    var system := Under(AUDIO_KEYS[0], ChoiceFields(s.audio[0]));
    var microphone := Under(AUDIO_KEYS[1], ChoiceFields(s.audio[1]));
    InnerFieldsUnder("audio", AUDIO_KEYS[0], ChoiceFields(s.audio[0]), ChoiceAssignments(s.audio[0], AUDIO_KEYS[0]));
    InnerFieldsUnder("audio", AUDIO_KEYS[1], ChoiceFields(s.audio[1]), ChoiceAssignments(s.audio[1], AUDIO_KEYS[1]));
    FieldsUnder("audio", quality, [Assignment(["audio", "quality"], String(QualityName(s.audioQuality)))]);
    assert ChoicesFrom(s, 2) == [];
    assert ChoicesFrom(s, 1) == microphone;
    assert ChoicesFrom(s, 0) == system + microphone;
    UnderConcat("audio", system, microphone);
    UnderConcat("audio", system + microphone, quality);
  }

  /** Section by section, each filled in and stored again, the tree is written. */
  method WriteSettingsJson(s: Settings, kept: Json) returns (root: Json)
    requires |s.audio| == NUM_SOURCES
    ensures root == Write(s, kept)
  {
    root := WithField(kept, "version", Int(VERSION));
    var output := WriteOutput(Section(root, "output"), s);
    root := WithField(root, "output", output);
    var capture := WriteCapture(Section(root, "capture"), s);
    root := WithField(root, "capture", capture);
    var audio := WriteAudio(Section(root, "audio"), s);
    root := WithField(root, "audio", audio);
    var portal := Section(root, "portal");
    var tokens := WriteTokens(Section(portal, "restoreTokens"), s);
    portal := WithField(portal, "restoreTokens", tokens);
    root := WithField(root, "portal", portal);
    WrittenBySections(s, kept);
  }

  function Filled(root: Json, key: string, fields: seq<Assignment>): Json {
    WithField(root, key, Assign(Section(root, key), fields))
  }

  lemma WrittenBySections(s: Settings, kept: Json)
    requires |s.audio| == NUM_SOURCES
    ensures var versioned := WithField(kept, "version", Int(VERSION));
            var output := Filled(versioned, "output", OutputFields(s));
            var capture := Filled(output, "capture", CaptureFields(s));
            var audio := Filled(capture, "audio", AudioFields(s));
            var portal := Section(audio, "portal");
            Write(s, kept) == WithField(audio, "portal", Filled(portal, "restoreTokens", TokenFields(s)))
  {
    WrittenInTurn(s, kept);
    VersionIsFilled(kept);
    var versioned := WithField(kept, "version", Int(VERSION));
    OutputIsFilled(s, versioned);
    var output := Filled(versioned, "output", OutputFields(s));
    CaptureIsFilled(s, output);
    var capture := Filled(output, "capture", CaptureFields(s));
    AudioIsFilled(s, capture);
    PortalIsFilled(s, Filled(capture, "audio", AudioFields(s)));
  }

  lemma WrittenInTurn(s: Settings, kept: Json)
    requires |s.audio| == NUM_SOURCES
    ensures var output := Assign(Assign(kept, [Assignment(VERSION_PATH, Int(VERSION))]), OutputAssignments(s));
            var audio := Assign(Assign(output, CaptureAssignments(s)), AudioAssignments(s));
            Write(s, kept) == Assign(audio, PortalAssignments(s))
  {
    var version := [Assignment(VERSION_PATH, Int(VERSION))];
    AssignConcat(kept, version, OutputAssignments(s));
    AssignConcat(kept, version + OutputAssignments(s), CaptureAssignments(s));
    AssignConcat(kept, version + OutputAssignments(s) + CaptureAssignments(s), AudioAssignments(s));
    AssignConcat(kept, version + OutputAssignments(s) + CaptureAssignments(s) + AudioAssignments(s),
                 PortalAssignments(s));
  }

  lemma VersionIsFilled(kept: Json)
    ensures Assign(kept, [Assignment(VERSION_PATH, Int(VERSION))]) == WithField(kept, "version", Int(VERSION))
  {
    var version := [Assignment(VERSION_PATH, Int(VERSION))];
    assert version[0..] == version;
    AssignField(kept, version, 0, "version");
    AssignField(WithField(kept, "version", Int(VERSION)), version, 0, "version");
  }

  lemma OutputIsFilled(s: Settings, root: Json)
    ensures Assign(root, OutputAssignments(s)) == Filled(root, "output", OutputFields(s))
  {
    FieldsUnder("output", OutputFields(s), OutputAssignments(s));
    AssignUnder(root, "output", OutputFields(s));
  }

  lemma CaptureIsFilled(s: Settings, root: Json)
    ensures Assign(root, CaptureAssignments(s)) == Filled(root, "capture", CaptureFields(s))
  {
    FieldsUnder("capture", CaptureFields(s), CaptureAssignments(s));
    AssignUnder(root, "capture", CaptureFields(s));
  }

  lemma AudioIsFilled(s: Settings, root: Json)
    requires |s.audio| == NUM_SOURCES
    ensures Assign(root, AudioAssignments(s)) == Filled(root, "audio", AudioFields(s))
  {
    AudioIsUnder(s);
    AudioFieldsHavePaths(s);
    AssignUnder(root, "audio", AudioFields(s));
  }

  lemma AudioFieldsHavePaths(s: Settings)
    requires |s.audio| == NUM_SOURCES
    ensures AudioFields(s) != [] && forall i | 0 <= i < |AudioFields(s)| :: AudioFields(s)[i].path != []
  {
    assert ChoicesFrom(s, 2) == [];
    assert ChoicesFrom(s, 1) == Under(AUDIO_KEYS[1], ChoiceFields(s.audio[1]));
  }

  lemma PortalIsFilled(s: Settings, root: Json)
    ensures Assign(root, PortalAssignments(s))
         == WithField(root, "portal", Filled(Section(root, "portal"), "restoreTokens", TokenFields(s)))
  {
    InnerFieldsUnder("portal", "restoreTokens", TokenFields(s), PortalAssignments(s));
    AssignUnder(root, "portal", Under("restoreTokens", TokenFields(s)));
    AssignUnder(Section(root, "portal"), "restoreTokens", TokenFields(s));
  }
}
