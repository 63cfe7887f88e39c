/** Reading the settings back: each value that is there and valid is taken, each that is not keeps its default
    and is counted where something invalid stands in its place. */
module SettingsReading {
  import opened Wrappers
  import opened JsonTree
  import opened SettingsJson

  // ---- What reading means --------------------------------------------------------------------------

  datatype Kind = SectionKind | VersionKind | TextKind | FlagKind | GainKind | RateKind
                | ContainerKind | CodecKind | QualityKind | SourceKind

  ghost predicate Acceptable(kind: Kind, j: Json) {
    match kind
    case SectionKind => j.Object?
    case VersionKind => j.Int? && 0 <= j.number <= MAX_UINT32
    case TextKind => j.String? && NUL !in j.text
    case FlagKind => j.Bool?
    case GainKind => j.Int? && MIN_GAIN <= j.number <= MAX_GAIN
    case RateKind => j.Int? && IsFrameRate(j.number)
    case ContainerKind => j.String? && exists c :: ContainerName(c) == j.text
    case CodecKind => j.String? && exists c :: CodecName(c) == j.text
    case QualityKind => j.String? && exists q :: QualityName(q) == j.text
    case SourceKind => j.String? && exists s :: SourceName(s) == j.text
  }

  datatype Known = Known(path: Path, kind: Kind)

  const VERSION_KNOWN: seq<Known> := [Known(["version"], VersionKind)]

  const OUTPUT_KNOWN: seq<Known> :=
    [Known(["output"], SectionKind),
     Known(["output", "directory"], TextKind),
     Known(["output", "container"], ContainerKind),
     Known(["output", "codec"], CodecKind),
     Known(["output", "quality"], QualityKind)]

  const CAPTURE_KNOWN: seq<Known> :=
    [Known(["capture"], SectionKind),
     Known(["capture", "source"], SourceKind),
     Known(["capture", "rememberWindow"], FlagKind),
     Known(["capture", "frameRate"], RateKind)]

  function ChoiceKnown(key: string): seq<Known> {
    [Known(["audio", key], SectionKind),
     Known(["audio", key, "enabled"], FlagKind),
     Known(["audio", key, "device"], TextKind),
     Known(["audio", key, "gain"], GainKind)]
  }

  const AUDIO_KNOWN: seq<Known> :=
    [Known(["audio"], SectionKind)] + ChoiceKnown(AUDIO_KEYS[0]) + ChoiceKnown(AUDIO_KEYS[1])
    + [Known(["audio", "quality"], QualityKind)]

  const TOKENS_KNOWN: seq<Known> :=
    [Known(["portal", "restoreTokens"], SectionKind),
     Known(["portal", "restoreTokens", "screen"], TextKind),
     Known(["portal", "restoreTokens", "window"], TextKind)]

  const PORTAL_KNOWN: seq<Known> := [Known(["portal"], SectionKind)] + TOKENS_KNOWN

  /** Every path Klip looks at, in the order it does. */
  const KNOWN: seq<Known> := VERSION_KNOWN + OUTPUT_KNOWN + CAPTURE_KNOWN + AUDIO_KNOWN + PORTAL_KNOWN

  function JoinPath(parent: string, key: string): string {
    if parent == "" then key else parent + "." + key
  }

  function PathText(path: Path): string {
    if path == [] then "" else JoinPath(PathText(path[..|path| - 1]), path[|path| - 1])
  }

  /** Something stands there that is not what belongs there. */
  ghost predicate IsInvalid(root: Json, k: Known) {
    Get(root, k.path).Some? && !Acceptable(k.kind, Get(root, k.path).value)
  }

  ghost function Rejected(root: Json, known: seq<Known>): seq<string> {
    if known == [] then []
    else (if IsInvalid(root, known[0]) then [PathText(known[0].path)] else []) + Rejected(root, known[1..])
  }

  function ParseContainer(name: string, fallback: Container): Container {
    if name == "mp4" then Mp4 else if name == "matroska" then Matroska else if name == "webm" then WebM else fallback
  }

  function ParseCodec(name: string, fallback: Codec): Codec {
    if name == "h264" then H264 else if name == "hevc" then Hevc else if name == "av1" then Av1 else fallback
  }

  function ParseQuality(name: string, fallback: Quality): Quality {
    if name == "smallest" then Smallest
    else if name == "smaller" then Smaller
    else if name == "balanced" then Balanced
    else if name == "high" then High
    else if name == "best" then Best
    else fallback
  }

  function ParseSource(name: string, fallback: Source): Source {
    if name == "screen" then Screen else if name == "window" then Window else if name == "region" then Region
    else fallback
  }

  function FlagOr(j: Option<Json>, fallback: bool): bool {
    if j.Some? && j.value.Bool? then j.value.flag else fallback
  }

  function TextOr(j: Option<Json>, fallback: string): string {
    if j.Some? && j.value.String? && NUL !in j.value.text then j.value.text else fallback
  }

  function GainOr(j: Option<Json>, fallback: int): int {
    if j.Some? && j.value.Int? && MIN_GAIN <= j.value.number <= MAX_GAIN then j.value.number else fallback
  }

  function RateOr(j: Option<Json>, fallback: nat): nat {
    if j.Some? && j.value.Int? && IsFrameRate(j.value.number) then j.value.number else fallback
  }

  function VersionOr(j: Option<Json>, fallback: nat): nat {
    if j.Some? && j.value.Int? && 0 <= j.value.number <= MAX_UINT32 then j.value.number else fallback
  }

  function ContainerOr(j: Option<Json>, fallback: Container): Container {
    if j.Some? && j.value.String? then ParseContainer(j.value.text, fallback) else fallback
  }

  function CodecOr(j: Option<Json>, fallback: Codec): Codec {
    if j.Some? && j.value.String? then ParseCodec(j.value.text, fallback) else fallback
  }

  function QualityOr(j: Option<Json>, fallback: Quality): Quality {
    if j.Some? && j.value.String? then ParseQuality(j.value.text, fallback) else fallback
  }

  function SourceOr(j: Option<Json>, fallback: Source): Source {
    if j.Some? && j.value.String? then ParseSource(j.value.text, fallback) else fallback
  }

  function ChoiceOf(root: Json, key: string, fallback: AudioChoice): AudioChoice {
    AudioChoice(FlagOr(Get(root, ["audio", key, "enabled"]), fallback.enabled),
                TextOr(Get(root, ["audio", key, "device"]), fallback.device),
                GainOr(Get(root, ["audio", key, "gain"]), fallback.gain))
  }

  /** Each setting by its path: the valid value that is there, or its default. */
  function SettingsOf(root: Json, defaults: Settings): Settings
    requires |defaults.audio| == NUM_SOURCES
  {
    Settings(
      TextOr(Get(root, ["output", "directory"]), defaults.directory),
      SourceOr(Get(root, ["capture", "source"]), defaults.source),
      FlagOr(Get(root, ["capture", "rememberWindow"]), defaults.rememberWindow),
      ContainerOr(Get(root, ["output", "container"]), defaults.container),
      CodecOr(Get(root, ["output", "codec"]), defaults.codec),
      QualityOr(Get(root, ["output", "quality"]), defaults.quality),
      RateOr(Get(root, ["capture", "frameRate"]), defaults.maxFrameRate),
      [ChoiceOf(root, AUDIO_KEYS[0], defaults.audio[0]), ChoiceOf(root, AUDIO_KEYS[1], defaults.audio[1])],
      QualityOr(Get(root, ["audio", "quality"]), defaults.audioQuality),
      TextOr(Get(root, ["portal", "restoreTokens", "screen"]), defaults.screenToken),
      TextOr(Get(root, ["portal", "restoreTokens", "window"]), defaults.windowToken))
  }

  // ---- Names ---------------------------------------------------------------------------------------

  lemma ContainerNames(name: string, fallback: Container)
    ensures (exists c :: ContainerName(c) == name) <==> ContainerName(ParseContainer(name, fallback)) == name
    ensures forall c :: ParseContainer(ContainerName(c), fallback) == c
  {
    assert "mp4" != "matroska" && "mp4"[0] != "webm"[0] && "matroska"[0] != "webm"[0];
  }

  lemma CodecNames(name: string, fallback: Codec)
    ensures (exists c :: CodecName(c) == name) <==> CodecName(ParseCodec(name, fallback)) == name
    ensures forall c :: ParseCodec(CodecName(c), fallback) == c
  {
    assert "h264"[1] != "hevc"[1] && "h264"[0] != "av1"[0] && "hevc"[0] != "av1"[0];
  }

  lemma QualityNames(name: string, fallback: Quality)
    ensures (exists q :: QualityName(q) == name) <==> QualityName(ParseQuality(name, fallback)) == name
    ensures forall q :: ParseQuality(QualityName(q), fallback) == q
  {
    assert |"smallest"| != |"smaller"| && "balanced"[0] != "smallest"[0] && |"high"| == |"best"|;
    assert "high"[0] != "best"[0] && |"balanced"| != |"high"| && |"smaller"| != |"balanced"|;
  }

  lemma SourceNames(name: string, fallback: Source)
    ensures (exists s :: SourceName(s) == name) <==> SourceName(ParseSource(name, fallback)) == name
    ensures forall s :: ParseSource(SourceName(s), fallback) == s
  {
    assert "screen"[0] != "window"[0] && "screen"[0] != "region"[0] && "window"[0] != "region"[0];
  }

  // ---- Reading undoes writing ----------------------------------------------------------------------

  lemma {:induction false} RejectedConcat(root: Json, a: seq<Known>, b: seq<Known>)
    ensures Rejected(root, a + b) == Rejected(root, a) + Rejected(root, b)
  {
    if a == [] {
      assert a + b == b;
    } else {
      assert (a + b)[0] == a[0] && (a + b)[1..] == a[1..] + b;
      RejectedConcat(root, a[1..], b);
      var head := if IsInvalid(root, a[0]) then [PathText(a[0].path)] else [];
      assert head + (Rejected(root, a[1..]) + Rejected(root, b)) == (head + Rejected(root, a[1..])) + Rejected(root, b);
    }
  }

  lemma {:induction false} NothingRejected(root: Json, known: seq<Known>)
    requires forall i | 0 <= i < |known| :: !IsInvalid(root, known[i])
    ensures Rejected(root, known) == []
  {
    if known != [] {
      NothingRejected(root, known[1..]);
    }
  }

  /** The first path refused is the first known one that is invalid; nothing is refused where none is. */
  lemma {:induction false} FirstRejected(root: Json, known: seq<Known>)
    ensures Rejected(root, known) == [] <==> forall i | 0 <= i < |known| :: !IsInvalid(root, known[i])
    ensures Rejected(root, known) != [] ==>
              exists i | 0 <= i < |known| ::
                && IsInvalid(root, known[i]) && Rejected(root, known)[0] == PathText(known[i].path)
                && forall j | 0 <= j < i :: !IsInvalid(root, known[j])
  {
    if known != [] {
      FirstRejected(root, known[1..]);
      if IsInvalid(root, known[0]) {
        assert Rejected(root, known)[0] == PathText(known[0].path);
      } else if Rejected(root, known[1..]) != [] {
        var rest := known[1..];
        var i :| 0 <= i < |rest| && IsInvalid(root, rest[i]) && Rejected(root, rest)[0] == PathText(rest[i].path)
                 && forall j | 0 <= j < i :: !IsInvalid(root, rest[j]);
        assert known[i + 1] == rest[i];
        forall j | 0 <= j < i + 1 ensures !IsInvalid(root, known[j]) {
          assert j > 0 ==> known[j] == rest[j - 1];
        }
      } else {
        forall i | 0 <= i < |known| ensures !IsInvalid(root, known[i]) {
          assert i > 0 ==> known[i] == known[1..][i - 1];
        }
      }
    }
  }

  lemma OutputIsRead(s: Settings, kept: Json)
    requires IsValid(s)
    ensures var root := Write(s, kept);
            && Get(root, ["output", "directory"]) == Some(String(s.directory))
            && Get(root, ["output", "container"]) == Some(String(ContainerName(s.container)))
            && Get(root, ["output", "codec"]) == Some(String(CodecName(s.codec)))
            && Get(root, ["output", "quality"]) == Some(String(QualityName(s.quality)))
            && Get(root, ["version"]) == Some(Int(VERSION))
  {
    var a := Assignments(s);
    assert a[0] == Assignment(VERSION_PATH, Int(VERSION)) && a[1] == OutputAssignments(s)[0];
    assert a[2] == OutputAssignments(s)[1] && a[3] == OutputAssignments(s)[2] && a[4] == OutputAssignments(s)[3];
    forall i | 0 <= i <= 4 ensures Get(Write(s, kept), a[i].path) == Some(a[i].value) {
      WrittenIsThere(s, kept, i);
    }
  }

  lemma CaptureIsRead(s: Settings, kept: Json)
    requires IsValid(s)
    ensures var root := Write(s, kept);
            && Get(root, ["capture", "source"]) == Some(String(SourceName(s.source)))
            && Get(root, ["capture", "frameRate"]) == Some(Int(s.maxFrameRate))
            && Get(root, ["capture", "rememberWindow"]) == Some(Bool(s.rememberWindow))
  {
    var a := Assignments(s);
    assert a[5] == CaptureAssignments(s)[0] && a[6] == CaptureAssignments(s)[1] && a[7] == CaptureAssignments(s)[2];
    forall i | 5 <= i <= 7 ensures Get(Write(s, kept), a[i].path) == Some(a[i].value) {
      WrittenIsThere(s, kept, i);
    }
  }

  lemma ChoiceIsRead(s: Settings, kept: Json, k: nat)
    requires IsValid(s) && k < NUM_SOURCES
    ensures var root := Write(s, kept);
            && Get(root, ["audio", AUDIO_KEYS[k], "enabled"]) == Some(Bool(s.audio[k].enabled))
            && Get(root, ["audio", AUDIO_KEYS[k], "device"]) == Some(String(s.audio[k].device))
            && Get(root, ["audio", AUDIO_KEYS[k], "gain"]) == Some(Int(s.audio[k].gain))
    ensures forall d :: ChoiceOf(Write(s, kept), AUDIO_KEYS[k], d) == s.audio[k]
  {
    var a, c := Assignments(s), ChoiceAssignments(s.audio[k], AUDIO_KEYS[k]);
    var first := 8 + 3 * k;
    assert a[first] == c[0] && a[first + 1] == c[1] && a[first + 2] == c[2];
    forall i | first <= i <= first + 2 ensures Get(Write(s, kept), a[i].path) == Some(a[i].value) {
      WrittenIsThere(s, kept, i);
    }
  }

  lemma TokensAreRead(s: Settings, kept: Json)
    requires IsValid(s)
    ensures var root := Write(s, kept);
            && Get(root, ["audio", "quality"]) == Some(String(QualityName(s.audioQuality)))
            && Get(root, ["portal", "restoreTokens", "screen"]) == Some(String(s.screenToken))
            && Get(root, ["portal", "restoreTokens", "window"]) == Some(String(s.windowToken))
  {
    var a := Assignments(s);
    assert a[14].path == ["audio", "quality"] && a[15] == PortalAssignments(s)[0] && a[16] == PortalAssignments(s)[1];
    forall i | 14 <= i <= 16 ensures Get(Write(s, kept), a[i].path) == Some(a[i].value) {
      WrittenIsThere(s, kept, i);
    }
  }

  /** A section that holds a value is an object, so it is what belongs there. */
  lemma SectionIsSound(root: Json, path: Path, key: string, whole: Path)
    requires whole == path + [key] && Get(root, whole).Some?
    ensures !IsInvalid(root, Known(path, SectionKind))
  {
    SectionIsObject(root, path, key);
  }

  lemma VersionIsSound(s: Settings, kept: Json)
    requires IsValid(s)
    ensures Rejected(Write(s, kept), VERSION_KNOWN) == []
  {
    OutputIsRead(s, kept);
    NothingRejected(Write(s, kept), VERSION_KNOWN);
  }

  lemma OutputValuesAreSound(s: Settings, root: Json)
    requires Get(root, ["output", "directory"]) == Some(String(s.directory)) && IsValid(s)
    requires Get(root, ["output", "container"]) == Some(String(ContainerName(s.container)))
    requires Get(root, ["output", "codec"]) == Some(String(CodecName(s.codec)))
    requires Get(root, ["output", "quality"]) == Some(String(QualityName(s.quality)))
    ensures forall i | 1 <= i <= 4 :: !IsInvalid(root, OUTPUT_KNOWN[i])
  {
    assert !IsInvalid(root, OUTPUT_KNOWN[1]) && !IsInvalid(root, OUTPUT_KNOWN[2]);
    assert !IsInvalid(root, OUTPUT_KNOWN[3]) && !IsInvalid(root, OUTPUT_KNOWN[4]);
  }

  lemma OutputIsSound(s: Settings, kept: Json)
    requires IsValid(s)
    ensures Rejected(Write(s, kept), OUTPUT_KNOWN) == []
  {
    var root := Write(s, kept);
    OutputIsRead(s, kept);
    SectionIsSound(root, ["output"], "codec", ["output", "codec"]);
    OutputValuesAreSound(s, root);
    NothingRejected(root, OUTPUT_KNOWN);
  }

  lemma CaptureIsSound(s: Settings, kept: Json)
    requires IsValid(s)
    ensures Rejected(Write(s, kept), CAPTURE_KNOWN) == []
  {
    CaptureIsRead(s, kept);
    SectionIsSound(Write(s, kept), ["capture"], "source", ["capture", "source"]);
    NothingRejected(Write(s, kept), CAPTURE_KNOWN);
  }

  lemma ChoiceIsSound(s: Settings, kept: Json, k: nat)
    requires IsValid(s) && k < NUM_SOURCES
    ensures Rejected(Write(s, kept), ChoiceKnown(AUDIO_KEYS[k])) == []
  {
    var key := AUDIO_KEYS[k];
    ChoiceIsRead(s, kept, k);
    SectionIsSound(Write(s, kept), ["audio", key], "gain", ["audio", key, "gain"]);
    ChoiceValuesAreSound(Write(s, kept), key, s.audio[k].enabled, s.audio[k].device, s.audio[k].gain);
    NothingRejected(Write(s, kept), ChoiceKnown(key));
  }

  lemma ChoiceValuesAreSound(root: Json, key: string, enabled: bool, device: string, gain: int)
    requires Get(root, ["audio", key, "enabled"]) == Some(Bool(enabled))
    requires Get(root, ["audio", key, "device"]) == Some(String(device)) && NUL !in device
    requires Get(root, ["audio", key, "gain"]) == Some(Int(gain)) && MIN_GAIN <= gain <= MAX_GAIN
    ensures forall i | 1 <= i <= 3 :: !IsInvalid(root, ChoiceKnown(key)[i])
  {
    assert !IsInvalid(root, ChoiceKnown(key)[1]) && !IsInvalid(root, ChoiceKnown(key)[2]);
    assert !IsInvalid(root, ChoiceKnown(key)[3]);
  }

  lemma AudioIsSound(s: Settings, kept: Json)
    requires IsValid(s)
    ensures Rejected(Write(s, kept), AUDIO_KNOWN) == []
  {
    var root := Write(s, kept);
    TokensAreRead(s, kept);
    SectionIsSound(root, ["audio"], "quality", ["audio", "quality"]);
    var section, quality := [Known(["audio"], SectionKind)], [Known(["audio", "quality"], QualityKind)];
    NothingRejected(root, section);
    NothingRejected(root, quality);
    ChoiceIsSound(s, kept, 0);
    ChoiceIsSound(s, kept, 1);
    RejectedConcat(root, section, ChoiceKnown(AUDIO_KEYS[0]));
    RejectedConcat(root, section + ChoiceKnown(AUDIO_KEYS[0]), ChoiceKnown(AUDIO_KEYS[1]));
    RejectedConcat(root, section + ChoiceKnown(AUDIO_KEYS[0]) + ChoiceKnown(AUDIO_KEYS[1]), quality);
  }

  lemma PortalIsSound(s: Settings, kept: Json)
    requires IsValid(s)
    ensures Rejected(Write(s, kept), PORTAL_KNOWN) == []
  {
    var root := Write(s, kept);
    TokensAreRead(s, kept);
    SectionIsSound(root, ["portal", "restoreTokens"], "screen", ["portal", "restoreTokens", "screen"]);
    SectionIsObject(root, ["portal", "restoreTokens"], "screen");
    SectionIsSound(root, ["portal"], "restoreTokens", ["portal", "restoreTokens"]);
    NothingRejected(root, PORTAL_KNOWN);
  }

  lemma KnownBySections(root: Json)
    ensures Rejected(root, KNOWN)
         == Rejected(root, VERSION_KNOWN) + Rejected(root, OUTPUT_KNOWN) + Rejected(root, CAPTURE_KNOWN)
            + Rejected(root, AUDIO_KNOWN) + Rejected(root, PORTAL_KNOWN)
  {
    RejectedConcat(root, VERSION_KNOWN, OUTPUT_KNOWN);
    RejectedConcat(root, VERSION_KNOWN + OUTPUT_KNOWN, CAPTURE_KNOWN);
    RejectedConcat(root, VERSION_KNOWN + OUTPUT_KNOWN + CAPTURE_KNOWN, AUDIO_KNOWN);
    RejectedConcat(root, VERSION_KNOWN + OUTPUT_KNOWN + CAPTURE_KNOWN + AUDIO_KNOWN, PORTAL_KNOWN);
  }

  lemma NamesAreRead(s: Settings, d: Settings)
    ensures ContainerOr(Some(String(ContainerName(s.container))), d.container) == s.container
    ensures CodecOr(Some(String(CodecName(s.codec))), d.codec) == s.codec
    ensures QualityOr(Some(String(QualityName(s.quality))), d.quality) == s.quality
    ensures QualityOr(Some(String(QualityName(s.audioQuality))), d.audioQuality) == s.audioQuality
    ensures SourceOr(Some(String(SourceName(s.source))), d.source) == s.source
  {
    ContainerNames("", d.container);
    CodecNames("", d.codec);
    QualityNames("", d.quality);
    QualityNames("", d.audioQuality);
    SourceNames("", d.source);
  }

  lemma SettingsAreRead(s: Settings, kept: Json, defaults: Settings)
    requires IsValid(s) && |defaults.audio| == NUM_SOURCES
    ensures SettingsOf(Write(s, kept), defaults) == s
  {
    OutputIsRead(s, kept);
    CaptureIsRead(s, kept);
    ChoiceIsRead(s, kept, 0);
    ChoiceIsRead(s, kept, 1);
    TokensAreRead(s, kept);
    NamesAreRead(s, defaults);
    assert [s.audio[0], s.audio[1]] == s.audio;
  }

  /** Over any kept tree and any defaults, reading gives back the valid settings that were written, with the
      version of this Klip and nothing invalid. */
  lemma ReadingUndoesWriting(s: Settings, kept: Json, defaults: Settings)
    requires IsValid(s) && |defaults.audio| == NUM_SOURCES
    ensures SettingsOf(Write(s, kept), defaults) == s
    ensures VersionOr(Get(Write(s, kept), ["version"]), VERSION) == VERSION
    ensures Rejected(Write(s, kept), KNOWN) == []
  {
    SettingsAreRead(s, kept, defaults);
    OutputIsRead(s, kept);
    KnownBySections(Write(s, kept));
    VersionIsSound(s, kept);
    OutputIsSound(s, kept);
    CaptureIsSound(s, kept);
    AudioIsSound(s, kept);
    PortalIsSound(s, kept);
  }

  /** Whatever the file holds, what is read from it is valid where the defaults are. */
  lemma WhatIsReadIsValid(root: Json, defaults: Settings)
    requires IsValid(defaults)
    ensures IsValid(SettingsOf(root, defaults))
  {
  }

  /** Saving what was read loses nothing that was valid, and repairs what was not. */
  lemma SavingRepairs(root: Json, defaults: Settings, other: Settings)
    requires IsValid(defaults) && |other.audio| == NUM_SOURCES
    ensures var read := SettingsOf(root, defaults);
            && SettingsOf(Write(read, root), other) == read
            && Rejected(Write(read, root), KNOWN) == []
  {
    WhatIsReadIsValid(root, defaults);
    ReadingUndoesWriting(SettingsOf(root, defaults), root, other);
  }
}
