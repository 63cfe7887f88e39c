/** The reader of the settings file as it runs: it walks the tree section by section, and updates the document
    in place. */
module SettingsReader {
  import opened Wrappers
  import opened JsonTree
  import opened SettingsJson
  import opened SettingsReading

  type Fields = seq<(string, Kind)>

  const OUTPUT_FIELDS: Fields :=
    [("directory", TextKind), ("container", ContainerKind), ("codec", CodecKind), ("quality", QualityKind)]
  const CAPTURE_FIELDS: Fields := [("source", SourceKind), ("rememberWindow", FlagKind), ("frameRate", RateKind)]
  const CHOICE_FIELDS: Fields := [("enabled", FlagKind), ("device", TextKind), ("gain", GainKind)]
  const TOKEN_FIELDS: Fields := [("screen", TextKind), ("window", TextKind)]

  function Find(section: Json, key: string): Option<Json> {
    Lookup(MembersOf(section), key)
  }

  ghost function RejectedAt(section: Json, parent: string, key: string, kind: Kind): seq<string> {
    if Find(section, key).Some? && !Acceptable(kind, Find(section, key).value) then [JoinPath(parent, key)] else []
  }

  ghost function RejectedFields(section: Json, parent: string, fields: Fields): seq<string> {
    if fields == [] then []
    else RejectedAt(section, parent, fields[0].0, fields[0].1) + RejectedFields(section, parent, fields[1..])
  }

  function Inside(path: Path, fields: Fields): seq<Known> {
    seq(|fields|, i requires 0 <= i < |fields| => Known(path + [fields[i].0], fields[i].1))
  }

  // ---- From a section to the whole -----------------------------------------------------------------

  lemma {:induction false} GetInside(root: Json, path: Path, key: string)
    ensures Get(root, path + [key]) == if Get(root, path).Some? then Find(Get(root, path).value, key) else None
    decreases |path|
  {
    if path == [] {
      assert [] + [key] == [key] && [key][1..] == [];
    } else {
      assert (path + [key])[0] == path[0] && (path + [key])[1..] == path[1..] + [key];
      if Find(root, path[0]).Some? {
        GetInside(Find(root, path[0]).value, path[1..], key);
      }
    }
  }

  lemma {:induction false} RejectedInside(root: Json, path: Path, fields: Fields)
    ensures Rejected(root, Inside(path, fields))
         == if Get(root, path).Some? then RejectedFields(Get(root, path).value, PathText(path), fields) else []
  {
    if fields != [] {
      GetInside(root, path, fields[0].0);
      var whole := path + [fields[0].0];
      assert whole[..|whole| - 1] == path;
      assert Inside(path, fields)[1..] == Inside(path, fields[1..]);
      RejectedInside(root, path, fields[1..]);
    }
  }

  /** What is refused field by field, after what was refused before. */
  ghost function RejectedFrom(before: seq<string>, section: Json, parent: string, fields: Fields): seq<string>
    decreases |fields|
  {
    if fields == [] then before
    else RejectedFrom(before + RejectedAt(section, parent, fields[0].0, fields[0].1), section, parent, fields[1..])
  }

  lemma {:induction false} RejectedInTurn(before: seq<string>, section: Json, parent: string, fields: Fields)
    ensures RejectedFrom(before, section, parent, fields) == before + RejectedFields(section, parent, fields)
    decreases |fields|
  {
    if fields != [] {
      var first := RejectedAt(section, parent, fields[0].0, fields[0].1);
      RejectedInTurn(before + first, section, parent, fields[1..]);
      assert (before + first) + RejectedFields(section, parent, fields[1..])
          == before + (first + RejectedFields(section, parent, fields[1..]));
    }
  }

  lemma RejectedStep(before: seq<string>, section: Json, parent: string, fields: Fields, k: nat)
    requires k < |fields|
    ensures RejectedFrom(before, section, parent, fields[k..])
         == RejectedFrom(before + RejectedAt(section, parent, fields[k].0, fields[k].1),
                         section, parent, fields[k + 1..])
    ensures RejectedFrom(before, section, parent, fields[|fields|..]) == before
    ensures fields[0..] == fields
  {
    assert fields[k..][1..] == fields[k + 1..];
  }

  lemma RejectedThree(before: seq<string>, section: Json, parent: string, fields: Fields)
    requires |fields| == 3
    ensures before + RejectedAt(section, parent, fields[0].0, fields[0].1)
            + RejectedAt(section, parent, fields[1].0, fields[1].1)
            + RejectedAt(section, parent, fields[2].0, fields[2].1)
         == before + RejectedFields(section, parent, fields)
  {
    var one := before + RejectedAt(section, parent, fields[0].0, fields[0].1);
    var two := one + RejectedAt(section, parent, fields[1].0, fields[1].1);
    RejectedStep(before, section, parent, fields, 0);
    RejectedStep(one, section, parent, fields, 1);
    RejectedStep(two, section, parent, fields, 2);
    RejectedStep(two + RejectedAt(section, parent, fields[2].0, fields[2].1), section, parent, fields, 2);
    RejectedInTurn(before, section, parent, fields);
  }

  lemma RejectedFour(before: seq<string>, section: Json, parent: string, fields: Fields)
    requires |fields| == 4
    ensures before + RejectedAt(section, parent, fields[0].0, fields[0].1)
            + RejectedAt(section, parent, fields[1].0, fields[1].1)
            + RejectedAt(section, parent, fields[2].0, fields[2].1)
            + RejectedAt(section, parent, fields[3].0, fields[3].1)
         == before + RejectedFields(section, parent, fields)
  {
    var one := before + RejectedAt(section, parent, fields[0].0, fields[0].1);
    RejectedThree(one, section, parent, fields[1..]);
    assert one + RejectedFields(section, parent, fields[1..])
        == before + (RejectedAt(section, parent, fields[0].0, fields[0].1)
                     + RejectedFields(section, parent, fields[1..]));
  }

  /** A name is acceptable where it reads back as itself, and otherwise parsing answers the fallback. */
  ghost predicate NamesFit<E>(found: Option<Json>, parse: (string, E) -> E, getName: E -> string, value: E,
                              kind: Kind) {
    found.Some? ==>
      var j := found.value;
      && (Acceptable(kind, j) <==> j.String? && getName(parse(j.text, value)) == j.text)
      && (j.String? && getName(parse(j.text, value)) != j.text ==> parse(j.text, value) == value)
  }

  function OutputOf(section: Json, s: Settings): Settings {
    s.(directory := TextOr(Find(section, "directory"), s.directory),
       container := ContainerOr(Find(section, "container"), s.container),
       codec := CodecOr(Find(section, "codec"), s.codec),
       quality := QualityOr(Find(section, "quality"), s.quality))
  }

  function CaptureOf(section: Json, s: Settings): Settings {
    s.(source := SourceOr(Find(section, "source"), s.source),
       rememberWindow := FlagOr(Find(section, "rememberWindow"), s.rememberWindow),
       maxFrameRate := RateOr(Find(section, "frameRate"), s.maxFrameRate))
  }

  function ChoiceIn(audio: Json, key: string, value: AudioChoice): AudioChoice {
    var section := if Find(audio, key).Some? then Find(audio, key).value else Null;
    AudioChoice(FlagOr(Find(section, "enabled"), value.enabled),
                TextOr(Find(section, "device"), value.device),
                GainOr(Find(section, "gain"), value.gain))
  }

  ghost function RejectedSource(audio: Json, key: string): seq<string> {
    RejectedAt(audio, "audio", key, SectionKind) + RejectedIn(Find(audio, key), JoinPath("audio", key), CHOICE_FIELDS)
  }

  ghost function ChoicesRefused(before: seq<string>, audio: Json, n: nat): seq<string>
    requires n <= NUM_SOURCES
  {
    if n == 0 then before else ChoicesRefused(before, audio, n - 1) + RejectedSource(audio, AUDIO_KEYS[n - 1])
  }

  ghost function AudioRefused(before: seq<string>, audio: Json): seq<string> {
    ChoicesRefused(before, audio, NUM_SOURCES) + RejectedAt(audio, "audio", "quality", QualityKind)
  }

  function ChoicesOf(audio: Json, choices: seq<AudioChoice>, n: nat): (r: seq<AudioChoice>)
    requires n <= NUM_SOURCES == |choices|
    ensures |r| == NUM_SOURCES && forall i | n <= i < NUM_SOURCES :: r[i] == choices[i]
  {
    if n == 0 then choices
    else ChoicesOf(audio, choices, n - 1)[n - 1 := ChoiceIn(audio, AUDIO_KEYS[n - 1], choices[n - 1])]
  }

  function AudioOf(audio: Json, s: Settings): Settings
    requires |s.audio| == NUM_SOURCES
  {
    s.(audio := ChoicesOf(audio, s.audio, NUM_SOURCES),
       audioQuality := QualityOr(Find(audio, "quality"), s.audioQuality))
  }

  /** Where a section is missing, or no object, nothing is looked for inside. */
  lemma {:induction false} NothingInside(section: Json, parent: string, fields: Fields)
    requires !section.Object?
    ensures RejectedFields(section, parent, fields) == []
  {
    if fields != [] {
      NothingInside(section, parent, fields[1..]);
    }
  }

  /** What is refused under a section that may not be there, or may be no object. */
  ghost function RejectedIn(section: Option<Json>, parent: string, fields: Fields): seq<string> {
    if section.Some? then RejectedFields(section.value, parent, fields) else []
  }

  predicate HasSection(root: Json, section: string) {
    Find(root, section).Some? && Find(root, section).value.Object?
  }

  predicate HasTokens(root: Json) {
    HasSection(root, "portal") && HasSection(Find(root, "portal").value, "restoreTokens")
  }

  function TokensIn(root: Json): Json
    requires HasTokens(root)
  {
    Find(Find(root, "portal").value, "restoreTokens").value
  }

  function TokensOf(section: Json, s: Settings): Settings {
    s.(screenToken := TextOr(Find(section, "screen"), s.screenToken),
       windowToken := TextOr(Find(section, "window"), s.windowToken))
  }

  ghost function TokensRefused(before: seq<string>, tokens: Json): seq<string> {
    before + RejectedAt(tokens, "portal.restoreTokens", "screen", TextKind)
    + RejectedAt(tokens, "portal.restoreTokens", "window", TextKind)
  }

  ghost function OutputRefused(before: seq<string>, root: Json): seq<string> {
    var found := before + RejectedAt(root, "", "output", SectionKind);
    if HasSection(root, "output") then found + RejectedFields(Find(root, "output").value, "output", OUTPUT_FIELDS)
    else found
  }

  ghost function CaptureRefused(before: seq<string>, root: Json): seq<string> {
    var found := before + RejectedAt(root, "", "capture", SectionKind);
    if HasSection(root, "capture") then found + RejectedFields(Find(root, "capture").value, "capture", CAPTURE_FIELDS)
    else found
  }

  ghost function AudioSectionRefused(before: seq<string>, root: Json): seq<string> {
    var found := before + RejectedAt(root, "", "audio", SectionKind);
    if HasSection(root, "audio") then AudioRefused(found, Find(root, "audio").value) else found
  }

  ghost function PortalRefused(before: seq<string>, root: Json): seq<string> {
    var found := before + RejectedAt(root, "", "portal", SectionKind);
    if HasSection(root, "portal")
    then
      var inner := found + RejectedAt(Find(root, "portal").value, "portal", "restoreTokens", SectionKind);
      if HasTokens(root) then TokensRefused(inner, TokensIn(root)) else inner
    else found
  }

  /** A document while it is filled in: the settings, the version, and how many values were refused. */
  class Document {
    var settings: Settings
    var version: nat
    var numInvalid: nat
    var firstInvalidPath: string
    ghost var rejected: seq<string>

    ghost predicate Counts()
      reads this
    {
      && numInvalid == |rejected|
      && firstInvalidPath == (if rejected == [] then "" else rejected[0])
    }

    constructor (defaults: Settings)
      ensures Counts() && settings == defaults && version == VERSION && rejected == []
    {
      settings, version, numInvalid, firstInvalidPath, rejected := defaults, VERSION, 0, "", [];
    }

    method Reject(path: string)
      requires Counts()
      modifies `numInvalid, `firstInvalidPath, `rejected
      ensures Counts() && rejected == old(rejected) + [path]
    {
      if numInvalid == 0 {
        firstInvalidPath := path;
      }
      numInvalid := numInvalid + 1;
      rejected := rejected + [path];
    }

    method FindObject(section: Json, parent: string, key: string) returns (found: Option<Json>)
      requires Counts()
      modifies `numInvalid, `firstInvalidPath, `rejected
      ensures Counts() && rejected == old(rejected) + RejectedAt(section, parent, key, SectionKind)
      ensures found == if Find(section, key).Some? && Find(section, key).value.Object? then Find(section, key) else None
    {
      found := Find(section, key);
      if found.Some? && !found.value.Object? {
        Reject(JoinPath(parent, key));
        found := None;
      }
    }

    method ReadBool(section: Json, parent: string, key: string, value: bool) returns (read: bool)
      requires Counts()
      modifies `numInvalid, `firstInvalidPath, `rejected
      ensures Counts() && rejected == old(rejected) + RejectedAt(section, parent, key, FlagKind)
      ensures read == FlagOr(Find(section, key), value)
    {
      read := value;
      var found := Find(section, key);
      if found.Some? {
        if found.value.Bool? {
          read := found.value.flag;
        } else {
          Reject(JoinPath(parent, key));
        }
      }
    }

    method ReadString(section: Json, parent: string, key: string, value: string) returns (read: string)
      requires Counts()
      modifies `numInvalid, `firstInvalidPath, `rejected
      ensures Counts() && rejected == old(rejected) + RejectedAt(section, parent, key, TextKind)
      ensures read == TextOr(Find(section, key), value)
    {
      read := value;
      var found := Find(section, key);
      if found.Some? {
        if found.value.String? && NUL !in found.value.text {
          read := found.value.text;
        } else {
          Reject(JoinPath(parent, key));
        }
      }
    }

    method ReadInteger(section: Json, parent: string, key: string, value: int, ghost kind: Kind, inRange: int -> bool)
      returns (read: int)
      requires Counts()
      requires Find(section, key).Some? ==>
                 (var j := Find(section, key).value; Acceptable(kind, j) <==> j.Int? && inRange(j.number))
      modifies `numInvalid, `firstInvalidPath, `rejected
      ensures Counts() && rejected == old(rejected) + RejectedAt(section, parent, key, kind)
      ensures read == if Find(section, key).Some? && Find(section, key).value.Int?
                         && inRange(Find(section, key).value.number)
                      then Find(section, key).value.number
                      else value
    {
      read := value;
      var found := Find(section, key);
      if found.Some? {
        if found.value.Int? && inRange(found.value.number) {
          read := found.value.number;
        } else {
          Reject(JoinPath(parent, key));
        }
      }
    }

    /** Read back through the name, since parsing answers its fallback for a name it does not know. */
    method ReadName<E(==)>(section: Json, parent: string, key: string, parse: (string, E) -> E, getName: E -> string,
                           value: E, ghost kind: Kind)
      returns (read: E)
      requires Counts()
      requires NamesFit(Find(section, key), parse, getName, value, kind)
      modifies `numInvalid, `firstInvalidPath, `rejected
      ensures Counts() && rejected == old(rejected) + RejectedAt(section, parent, key, kind)
      ensures var found := Find(section, key);
              read == if found.Some? && found.value.String? then parse(found.value.text, value) else value
    {
      read := value;
      var found := Find(section, key);
      if found.Some? {
        var isValid := found.value.String?;
        if isValid {
          var parsed := parse(found.value.text, value);
          isValid := getName(parsed) == found.value.text;
          if isValid {
            read := parsed;
          }
        }
        if !isValid {
          Reject(JoinPath(parent, key));
        }
      }
    }

    method ReadContainer(section: Json, parent: string, key: string, value: Container) returns (read: Container)
      requires Counts()
      modifies `numInvalid, `firstInvalidPath, `rejected
      ensures Counts() && rejected == old(rejected) + RejectedAt(section, parent, key, ContainerKind)
      ensures read == ContainerOr(Find(section, key), value)
    {
      ContainersFit(Find(section, key), value);
      read := ReadName(section, parent, key, ParseContainer, ContainerName, value, ContainerKind);
    }

    method ReadCodec(section: Json, parent: string, key: string, value: Codec) returns (read: Codec)
      requires Counts()
      modifies `numInvalid, `firstInvalidPath, `rejected
      ensures Counts() && rejected == old(rejected) + RejectedAt(section, parent, key, CodecKind)
      ensures read == CodecOr(Find(section, key), value)
    {
      CodecsFit(Find(section, key), value);
      read := ReadName(section, parent, key, ParseCodec, CodecName, value, CodecKind);
    }

    method ReadQuality(section: Json, parent: string, key: string, value: Quality) returns (read: Quality)
      requires Counts()
      modifies `numInvalid, `firstInvalidPath, `rejected
      ensures Counts() && rejected == old(rejected) + RejectedAt(section, parent, key, QualityKind)
      ensures read == QualityOr(Find(section, key), value)
    {
      QualitiesFit(Find(section, key), value);
      read := ReadName(section, parent, key, ParseQuality, QualityName, value, QualityKind);
    }

    method ReadSource(section: Json, parent: string, key: string, value: Source) returns (read: Source)
      requires Counts()
      modifies `numInvalid, `firstInvalidPath, `rejected
      ensures Counts() && rejected == old(rejected) + RejectedAt(section, parent, key, SourceKind)
      ensures read == SourceOr(Find(section, key), value)
    {
      SourcesFit(Find(section, key), value);
      read := ReadName(section, parent, key, ParseSource, SourceName, value, SourceKind);
    }

    method ReadOutput(output: Json)
      requires Counts()
      modifies `settings, `numInvalid, `firstInvalidPath, `rejected
      ensures Counts() && rejected == old(rejected) + RejectedFields(output, "output", OUTPUT_FIELDS)
      ensures settings == OutputOf(output, old(settings))
    {
      var directory := ReadString(output, "output", "directory", settings.directory);
      var container := ReadContainer(output, "output", "container", settings.container);
      var codec := ReadCodec(output, "output", "codec", settings.codec);
      var quality := ReadQuality(output, "output", "quality", settings.quality);
      settings := settings.(directory := directory, container := container, codec := codec, quality := quality);
      RejectedFour(old(rejected), output, "output", OUTPUT_FIELDS);
    }

    method ReadCapture(capture: Json)
      requires Counts()
      modifies `settings, `numInvalid, `firstInvalidPath, `rejected
      ensures Counts() && rejected == old(rejected) + RejectedFields(capture, "capture", CAPTURE_FIELDS)
      ensures settings == CaptureOf(capture, old(settings))
    {
      var source := ReadSource(capture, "capture", "source", settings.source);
      var rememberWindow := ReadBool(capture, "capture", "rememberWindow", settings.rememberWindow);
      var maxFrameRate := ReadInteger(capture, "capture", "frameRate", settings.maxFrameRate, RateKind,
                                      n => IsFrameRate(n));
      settings := settings.(source := source, rememberWindow := rememberWindow, maxFrameRate := maxFrameRate);
      RejectedThree(old(rejected), capture, "capture", CAPTURE_FIELDS);
    }

    method ReadChoice(section: Json, path: string, value: AudioChoice) returns (choice: AudioChoice)
      requires Counts()
      modifies `numInvalid, `firstInvalidPath, `rejected
      ensures Counts() && rejected == old(rejected) + RejectedFields(section, path, CHOICE_FIELDS)
      ensures choice == AudioChoice(FlagOr(Find(section, "enabled"), value.enabled),
                                    TextOr(Find(section, "device"), value.device),
                                    GainOr(Find(section, "gain"), value.gain))
    {
      var enabled := ReadBool(section, path, "enabled", value.enabled);
      var device := ReadString(section, path, "device", value.device);
      var gain := ReadInteger(section, path, "gain", value.gain, GainKind, n => MIN_GAIN <= n <= MAX_GAIN);
      choice := AudioChoice(enabled, device, gain);
      RejectedThree(old(rejected), section, path, CHOICE_FIELDS);
    }

    method ReadAudioSource(audio: Json, key: string, value: AudioChoice) returns (choice: AudioChoice)
      requires Counts()
      modifies `numInvalid, `firstInvalidPath, `rejected
      ensures Counts() && rejected == old(rejected) + RejectedSource(audio, key)
      ensures choice == ChoiceIn(audio, key, value)
    {
      var found := FindObject(audio, "audio", key);
      choice := value;
      if found.Some? {
        choice := ReadChoice(found.value, JoinPath("audio", key), value);
      } else if Find(audio, key).Some? {
        NothingInside(Find(audio, key).value, JoinPath("audio", key), CHOICE_FIELDS);
      }
    }

    method ReadAudio(audio: Json)
      requires Counts() && |settings.audio| == NUM_SOURCES
      modifies `settings, `numInvalid, `firstInvalidPath, `rejected
      ensures Counts() && rejected == AudioRefused(old(rejected), audio)
      ensures settings == AudioOf(audio, old(settings))
    {
      for i := 0 to NUM_SOURCES
        invariant Counts() && |settings.audio| == NUM_SOURCES
        invariant rejected == ChoicesRefused(old(rejected), audio, i)
        invariant settings == old(settings).(audio := ChoicesOf(audio, old(settings).audio, i))
      {
        var choice := ReadAudioSource(audio, AUDIO_KEYS[i], settings.audio[i]);
        settings := settings.(audio := settings.audio[i := choice]);
      }
      var quality := ReadQuality(audio, "audio", "quality", settings.audioQuality);
      settings := settings.(audioQuality := quality);
    }

    method ReadTokens(tokens: Json)
      requires Counts()
      modifies `settings, `numInvalid, `firstInvalidPath, `rejected
      ensures Counts() && rejected == TokensRefused(old(rejected), tokens)
      ensures settings == TokensOf(tokens, old(settings))
    {
      var screen := ReadString(tokens, "portal.restoreTokens", "screen", settings.screenToken);
      var window := ReadString(tokens, "portal.restoreTokens", "window", settings.windowToken);
      settings := settings.(screenToken := screen, windowToken := window);
    }

    method ReadVersion(root: Json)
      requires Counts()
      modifies `version, `numInvalid, `firstInvalidPath, `rejected
      ensures Counts() && rejected == VersionRefused(old(rejected), root)
      ensures version == VersionOr(Find(root, "version"), old(version))
    {
      var read := ReadInteger(root, "", "version", version, VersionKind, n => 0 <= n <= MAX_UINT32);
      version := read;
    }

    method ReadOutputSection(root: Json)
      requires Counts()
      modifies `settings, `numInvalid, `firstInvalidPath, `rejected
      ensures Counts() && rejected == OutputRefused(old(rejected), root)
      ensures settings == OutputFrom(root, old(settings))
    {
      var output := FindObject(root, "", "output");
      if output.Some? {
        ReadOutput(output.value);
      }
    }

    method ReadCaptureSection(root: Json)
      requires Counts()
      modifies `settings, `numInvalid, `firstInvalidPath, `rejected
      ensures Counts() && rejected == CaptureRefused(old(rejected), root)
      ensures settings == CaptureFrom(root, old(settings))
    {
      var capture := FindObject(root, "", "capture");
      if capture.Some? {
        ReadCapture(capture.value);
      }
    }

    method ReadAudioSection(root: Json)
      requires Counts() && |settings.audio| == NUM_SOURCES
      modifies `settings, `numInvalid, `firstInvalidPath, `rejected
      ensures Counts() && rejected == AudioSectionRefused(old(rejected), root)
      ensures settings == AudioFrom(root, old(settings))
    {
      var audio := FindObject(root, "", "audio");
      if audio.Some? {
        ReadAudio(audio.value);
      }
    }

    method ReadPortalSection(root: Json)
      requires Counts()
      modifies `settings, `numInvalid, `firstInvalidPath, `rejected
      ensures Counts() && rejected == PortalRefused(old(rejected), root)
      ensures settings == TokensFrom(root, old(settings))
    {
      var portal := FindObject(root, "", "portal");
      if portal.Some? {
        var tokens := FindObject(portal.value, "portal", "restoreTokens");
        if tokens.Some? {
          ReadTokens(tokens.value);
        }
      }
    }

    /** Section after section. */
    method ReadSections(root: Json)
      requires Counts() && |settings.audio| == NUM_SOURCES
      modifies this
      ensures Counts() && version == VersionOr(Find(root, "version"), old(version))
      ensures var capture := CaptureRefused(OutputRefused(VersionRefused(old(rejected), root), root), root);
              rejected == PortalRefused(AudioSectionRefused(capture, root), root)
      ensures settings == TokensFrom(root, AudioFrom(root, CaptureFrom(root, OutputFrom(root, old(settings)))))
    {
      ReadVersion(root);
      ReadOutputSection(root);
      ReadCaptureSection(root);
      ReadAudioSection(root);
      ReadPortalSection(root);
    }

    method ReadDocument(root: Json)
      requires Counts() && |settings.audio| == NUM_SOURCES
      modifies this
      ensures Counts() && rejected == old(rejected) + Rejected(root, KNOWN)
      ensures settings == SettingsOf(root, old(settings))
      ensures version == VersionOr(Get(root, ["version"]), old(version))
    {
      VersionRejected([], root);
      RejectedBySections(rejected, root);
      SettingsBySections(root, settings);
      ReadSections(root);
    }
  }

  // ---- The sections of the whole -------------------------------------------------------------------

  /** A section's members by their path from the root, or nothing where there is no such section. */
  lemma SectionInside(root: Json, section: string, key: string)
    ensures Get(root, [section, key])
         == if HasSection(root, section) then Find(Find(root, section).value, key) else None
    ensures Get(root, [section]) == Find(root, section)
  {
    GetInside(root, [section], key);
    GetInside(root, [], section);
    assert [section] + [key] == [section, key] && [] + [section] == [section];
  }

  lemma InnerInside(root: Json, section: string, inner: string, key: string)
    ensures Get(root, [section, inner, key])
         == if HasSection(root, section) && HasSection(Find(root, section).value, inner)
            then Find(Find(Find(root, section).value, inner).value, key)
            else None
  {
    SectionInside(root, section, inner);
    GetInside(root, [section, inner], key);
    assert [section, inner] + [key] == [section, inner, key];
  }

  lemma PathTexts(section: string, inner: string)
    requires section != ""
    ensures PathText([section]) == section && PathText([section, inner]) == JoinPath(section, inner)
  {
    assert [section][..0] == [] && [section, inner][..1] == [section];
  }

  /** A section and its fields, refused in turn. */
  lemma SectionRejected(before: seq<string>, root: Json, section: string, fields: Fields, known: seq<Known>)
    requires section != "" && |known| == |fields| + 1 && known[0] == Known([section], SectionKind)
    requires forall i | 0 <= i < |fields| :: known[i + 1] == Known([section, fields[i].0], fields[i].1)
    ensures var found := before + RejectedAt(root, "", section, SectionKind);
            before + Rejected(root, known)
              == if HasSection(root, section)
                 then found + RejectedFields(Find(root, section).value, section, fields)
                 else found
  {
    SectionInside(root, section, "");
    PathTexts(section, "");
    forall i | 0 <= i < |fields| ensures known[1..][i] == Inside([section], fields)[i] {
      assert [section] + [fields[i].0] == [section, fields[i].0];
    }
    assert known[1..] == Inside([section], fields);
    RejectedInside(root, [section], fields);
    if Find(root, section).Some? && !HasSection(root, section) {
      NothingInside(Find(root, section).value, section, fields);
    }
    Associate(before, RejectedAt(root, "", section, SectionKind), Rejected(root, known[1..]));
  }

  lemma Associate(a: seq<string>, b: seq<string>, c: seq<string>)
    ensures a + (b + c) == (a + b) + c
    ensures a + [] == a
  {
  }

  lemma InnerRejected(root: Json, section: string, inner: string, fields: Fields, known: seq<Known>)
    requires section != "" && |known| == |fields| + 1 && known[0] == Known([section, inner], SectionKind)
    requires forall i | 0 <= i < |fields| :: known[i + 1] == Known([section, inner, fields[i].0], fields[i].1)
    ensures Rejected(root, known)
         == if HasSection(root, section)
            then RejectedAt(Find(root, section).value, section, inner, SectionKind)
                 + RejectedIn(Find(Find(root, section).value, inner), JoinPath(section, inner), fields)
            else []
  {
    SectionInside(root, section, inner);
    PathTexts(section, inner);
    forall i | 0 <= i < |fields| ensures known[1..][i] == Inside([section, inner], fields)[i] {
      assert [section, inner] + [fields[i].0] == [section, inner, fields[i].0];
    }
    assert known[1..] == Inside([section, inner], fields);
    RejectedInside(root, [section, inner], fields);
  }

  lemma RejectedExtend(before: seq<string>, root: Json, a: seq<Known>, b: seq<Known>)
    ensures before + Rejected(root, a + b) == before + Rejected(root, a) + Rejected(root, b)
  {
    RejectedConcat(root, a, b);
    Associate(before, Rejected(root, a), Rejected(root, b));
  }

  lemma AudioInTurn(before: seq<string>, root: Json)
    ensures before + Rejected(root, AUDIO_KNOWN)
         == before + Rejected(root, [Known(["audio"], SectionKind)]) + Rejected(root, ChoiceKnown(AUDIO_KEYS[0]))
            + Rejected(root, ChoiceKnown(AUDIO_KEYS[1])) + Rejected(root, [Known(["audio", "quality"], QualityKind)])
  {
    var section, quality := [Known(["audio"], SectionKind)], [Known(["audio", "quality"], QualityKind)];
    var system, microphone := ChoiceKnown(AUDIO_KEYS[0]), ChoiceKnown(AUDIO_KEYS[1]);
    RejectedExtend(before, root, section + system + microphone, quality);
    RejectedExtend(before, root, section + system, microphone);
    RejectedExtend(before, root, section, system);
  }

  lemma SourceRejected(root: Json, key: string)
    ensures Rejected(root, ChoiceKnown(key))
         == if HasSection(root, "audio") then RejectedSource(Find(root, "audio").value, key) else []
  {
    InnerRejected(root, "audio", key, CHOICE_FIELDS, ChoiceKnown(key));
  }

  lemma QualityRejected(root: Json)
    ensures Rejected(root, [Known(["audio", "quality"], QualityKind)])
         == if HasSection(root, "audio")
            then RejectedAt(Find(root, "audio").value, "audio", "quality", QualityKind)
            else []
  {
    SectionInside(root, "audio", "quality");
    PathTexts("audio", "quality");
    assert [Known(["audio", "quality"], QualityKind)][1..] == [];
  }

  lemma AudioRejected(before: seq<string>, root: Json)
    ensures AudioSectionRefused(before, root) == before + Rejected(root, AUDIO_KNOWN)
  {
    AudioInTurn(before, root);
    SectionRejected(before, root, "audio", [], [Known(["audio"], SectionKind)]);
    SourceRejected(root, AUDIO_KEYS[0]);
    SourceRejected(root, AUDIO_KEYS[1]);
    QualityRejected(root);
    if HasSection(root, "audio") {
      var found := before + Rejected(root, [Known(["audio"], SectionKind)]);
      ChoicesInTurn(found, Find(root, "audio").value);
    }
  }

  lemma ChoicesInTurn(before: seq<string>, audio: Json)
    ensures ChoicesRefused(before, audio, NUM_SOURCES)
         == before + RejectedSource(audio, AUDIO_KEYS[0]) + RejectedSource(audio, AUDIO_KEYS[1])
  {
    assert ChoicesRefused(before, audio, 1) == before + RejectedSource(audio, AUDIO_KEYS[0]);
  }

  lemma TokensInTurn(before: seq<string>, tokens: Json)
    ensures TokensRefused(before, tokens) == before + RejectedFields(tokens, "portal.restoreTokens", TOKEN_FIELDS)
  {
    var one := before + RejectedAt(tokens, "portal.restoreTokens", "screen", TextKind);
    RejectedStep(before, tokens, "portal.restoreTokens", TOKEN_FIELDS, 0);
    RejectedStep(one, tokens, "portal.restoreTokens", TOKEN_FIELDS, 1);
    RejectedStep(TokensRefused(before, tokens), tokens, "portal.restoreTokens", TOKEN_FIELDS, 1);
    RejectedInTurn(before, tokens, "portal.restoreTokens", TOKEN_FIELDS);
  }

  lemma TokensRejected(root: Json)
    ensures Rejected(root, TOKENS_KNOWN)
         == if HasSection(root, "portal")
            then RejectedAt(Find(root, "portal").value, "portal", "restoreTokens", SectionKind)
                 + RejectedIn(Find(Find(root, "portal").value, "restoreTokens"), "portal.restoreTokens", TOKEN_FIELDS)
            else []
  {
    InnerRejected(root, "portal", "restoreTokens", TOKEN_FIELDS, TOKENS_KNOWN);
    assert JoinPath("portal", "restoreTokens") == "portal.restoreTokens";
  }

  lemma PortalRejected(before: seq<string>, root: Json)
    ensures PortalRefused(before, root) == before + Rejected(root, PORTAL_KNOWN)
  {
    var section := [Known(["portal"], SectionKind)];
    RejectedExtend(before, root, section, TOKENS_KNOWN);
    SectionRejected(before, root, "portal", [], section);
    TokensRejected(root);
    if HasSection(root, "portal") {
      TokensAfter(before + Rejected(root, section), Find(root, "portal").value);
    }
  }

  lemma TokensAfter(found: seq<string>, portal: Json)
    ensures var inner := RejectedAt(portal, "portal", "restoreTokens", SectionKind);
            found + (inner + RejectedIn(Find(portal, "restoreTokens"), "portal.restoreTokens", TOKEN_FIELDS))
              == if HasSection(portal, "restoreTokens")
                 then TokensRefused(found + inner, Find(portal, "restoreTokens").value)
                 else found + inner
  {
    var inner := RejectedAt(portal, "portal", "restoreTokens", SectionKind);
    Associate(found, inner, RejectedIn(Find(portal, "restoreTokens"), "portal.restoreTokens", TOKEN_FIELDS));
    if HasSection(portal, "restoreTokens") {
      TokensInTurn(found + inner, Find(portal, "restoreTokens").value);
    } else if Find(portal, "restoreTokens").Some? {
      NothingInside(Find(portal, "restoreTokens").value, "portal.restoreTokens", TOKEN_FIELDS);
    }
  }

  // ---- The settings of the whole -------------------------------------------------------------------

  function OutputFrom(root: Json, s: Settings): Settings {
    if HasSection(root, "output") then OutputOf(Find(root, "output").value, s) else s
  }

  function CaptureFrom(root: Json, s: Settings): Settings {
    if HasSection(root, "capture") then CaptureOf(Find(root, "capture").value, s) else s
  }

  function AudioFrom(root: Json, s: Settings): Settings
    requires |s.audio| == NUM_SOURCES
  {
    if HasSection(root, "audio") then AudioOf(Find(root, "audio").value, s) else s
  }

  function TokensFrom(root: Json, s: Settings): Settings {
    if HasTokens(root) then TokensOf(TokensIn(root), s) else s
  }

  lemma OutputByPath(root: Json, s: Settings)
    ensures OutputFrom(root, s) == s.(
              directory := TextOr(Get(root, ["output", "directory"]), s.directory),
              container := ContainerOr(Get(root, ["output", "container"]), s.container),
              codec := CodecOr(Get(root, ["output", "codec"]), s.codec),
              quality := QualityOr(Get(root, ["output", "quality"]), s.quality))
  {
    SectionInside(root, "output", "directory");
    SectionInside(root, "output", "container");
    SectionInside(root, "output", "codec");
    SectionInside(root, "output", "quality");
  }

  lemma CaptureByPath(root: Json, s: Settings)
    ensures CaptureFrom(root, s) == s.(
              source := SourceOr(Get(root, ["capture", "source"]), s.source),
              rememberWindow := FlagOr(Get(root, ["capture", "rememberWindow"]), s.rememberWindow),
              maxFrameRate := RateOr(Get(root, ["capture", "frameRate"]), s.maxFrameRate))
  {
    SectionInside(root, "capture", "source");
    SectionInside(root, "capture", "rememberWindow");
    SectionInside(root, "capture", "frameRate");
  }

  lemma ChoiceByPath(root: Json, key: string, value: AudioChoice)
    ensures ChoiceOf(root, key, value)
         == if HasSection(root, "audio") then ChoiceIn(Find(root, "audio").value, key, value) else value
  {
    InnerInside(root, "audio", key, "enabled");
    InnerInside(root, "audio", key, "device");
    InnerInside(root, "audio", key, "gain");
  }

  lemma AudioByPath(root: Json, s: Settings)
    requires |s.audio| == NUM_SOURCES
    ensures AudioFrom(root, s) == s.(
              audio := [ChoiceOf(root, AUDIO_KEYS[0], s.audio[0]), ChoiceOf(root, AUDIO_KEYS[1], s.audio[1])],
              audioQuality := QualityOr(Get(root, ["audio", "quality"]), s.audioQuality))
  {
    SectionInside(root, "audio", "quality");
    ChoiceByPath(root, AUDIO_KEYS[0], s.audio[0]);
    ChoiceByPath(root, AUDIO_KEYS[1], s.audio[1]);
    if HasSection(root, "audio") {
      var audio := Find(root, "audio").value;
      assert ChoicesOf(audio, s.audio, 1) == s.audio[0 := ChoiceIn(audio, AUDIO_KEYS[0], s.audio[0])];
      assert ChoicesOf(audio, s.audio, 2)
          == [ChoiceIn(audio, AUDIO_KEYS[0], s.audio[0]), ChoiceIn(audio, AUDIO_KEYS[1], s.audio[1])];
    } else {
      assert s.audio == [s.audio[0], s.audio[1]];
    }
  }

  lemma TokensByPath(root: Json, s: Settings)
    ensures TokensFrom(root, s) == s.(
              screenToken := TextOr(Get(root, ["portal", "restoreTokens", "screen"]), s.screenToken),
              windowToken := TextOr(Get(root, ["portal", "restoreTokens", "window"]), s.windowToken))
  {
    InnerInside(root, "portal", "restoreTokens", "screen");
    InnerInside(root, "portal", "restoreTokens", "window");
  }

  /** Section by section or path by path, the same is read. */
  lemma SettingsBySections(root: Json, s: Settings)
    requires |s.audio| == NUM_SOURCES
    ensures SettingsOf(root, s) == TokensFrom(root, AudioFrom(root, CaptureFrom(root, OutputFrom(root, s))))
  {
    OutputByPath(root, s);
    var output := OutputFrom(root, s);
    CaptureByPath(root, output);
    var capture := CaptureFrom(root, output);
    AudioByPath(root, capture);
    TokensByPath(root, AudioFrom(root, capture));
  }

  ghost function VersionRefused(before: seq<string>, root: Json): seq<string> {
    before + RejectedAt(root, "", "version", VersionKind)
  }

  lemma VersionRejected(before: seq<string>, root: Json)
    ensures VersionRefused(before, root) == before + Rejected(root, VERSION_KNOWN)
    ensures Find(root, "version") == Get(root, ["version"])
  {
    SectionInside(root, "version", "");
    PathTexts("version", "");
    assert VERSION_KNOWN[1..] == [];
  }

  /** Section by section, the known paths are refused in their order. */
  lemma RejectedBySections(before: seq<string>, root: Json)
    ensures var capture := CaptureRefused(OutputRefused(VersionRefused(before, root), root), root);
            PortalRefused(AudioSectionRefused(capture, root), root) == before + Rejected(root, KNOWN)
  {
    VersionRejected(before, root);
    var version := before + Rejected(root, VERSION_KNOWN);
    SectionRejected(version, root, "output", OUTPUT_FIELDS, OUTPUT_KNOWN);
    var output := version + Rejected(root, OUTPUT_KNOWN);
    SectionRejected(output, root, "capture", CAPTURE_FIELDS, CAPTURE_KNOWN);
    var capture := output + Rejected(root, CAPTURE_KNOWN);
    AudioRejected(capture, root);
    PortalRejected(capture + Rejected(root, AUDIO_KNOWN), root);
    RejectedExtend(before, root, VERSION_KNOWN, OUTPUT_KNOWN);
    RejectedExtend(before, root, VERSION_KNOWN + OUTPUT_KNOWN, CAPTURE_KNOWN);
    RejectedExtend(before, root, VERSION_KNOWN + OUTPUT_KNOWN + CAPTURE_KNOWN, AUDIO_KNOWN);
    RejectedExtend(before, root, VERSION_KNOWN + OUTPUT_KNOWN + CAPTURE_KNOWN + AUDIO_KNOWN, PORTAL_KNOWN);
  }

  /** What reading a text comes to. */
  datatype Outcome =
    | Read(settings: Settings, version: nat, numInvalid: nat, firstInvalidPath: string)
    | NotJson
    | NotAnObject

  ghost function Reading(parsed: Option<Json>, defaults: Settings): Outcome
    requires |defaults.audio| == NUM_SOURCES
  {
    match parsed
    case None => NotJson
    case Some(root) =>
      if !root.Object? then NotAnObject
      else
        var rejected := Rejected(root, KNOWN);
        Read(SettingsOf(root, defaults), VersionOr(Get(root, ["version"]), VERSION), |rejected|,
             if rejected == [] then "" else rejected[0])
  }

  /** A text is no JSON, JSON but no object, or settings: their version where it is one that fits 32 bits and else
      the present one, and how many known paths hold something invalid, with the first of them. */
  lemma ReadingDecides(parsed: Option<Json>, defaults: Settings)
    requires |defaults.audio| == NUM_SOURCES
    ensures var outcome := Reading(parsed, defaults);
            && (outcome.NotJson? <==> parsed.None?)
            && (outcome.NotAnObject? <==> parsed.Some? && !parsed.value.Object?)
            && (outcome.Read? ==>
                  && outcome.settings == SettingsOf(parsed.value, defaults)
                  && outcome.numInvalid == |Rejected(parsed.value, KNOWN)|
                  && (outcome.numInvalid == 0 ==> outcome.firstInvalidPath == "")
                  && (outcome.numInvalid > 0 ==> outcome.firstInvalidPath == Rejected(parsed.value, KNOWN)[0])
                  && var version := Get(parsed.value, ["version"]);
                     outcome.version
                       == if version.Some? && version.value.Int? && 0 <= version.value.number <= 4_294_967_295
                          then version.value.number
                          else 1)
  {
  }

  /** Reads a parsed text: each setting by its path, and how many known paths hold something invalid, with
      the first of them in reading order. */
  method ReadSettingsJson(parsed: Option<Json>, defaults: Settings) returns (outcome: Outcome)
    requires |defaults.audio| == NUM_SOURCES
    ensures outcome == Reading(parsed, defaults)
  {
    match parsed
    case None => outcome := NotJson;
    case Some(root) =>
      if root.Object? {
        var document := new Document(defaults);
        document.ReadDocument(root);
        assert [] + Rejected(root, KNOWN) == Rejected(root, KNOWN);
        outcome := Read(document.settings, document.version, document.numInvalid, document.firstInvalidPath);
      } else {
        outcome := NotAnObject;
      }
  }

  lemma ContainersFit(found: Option<Json>, value: Container)
    ensures NamesFit(found, ParseContainer, ContainerName, value, ContainerKind)
  {
    if found.Some? && found.value.String? {
      ContainerNames(found.value.text, value);
    }
  }

  lemma CodecsFit(found: Option<Json>, value: Codec)
    ensures NamesFit(found, ParseCodec, CodecName, value, CodecKind)
  {
    if found.Some? && found.value.String? {
      CodecNames(found.value.text, value);
    }
  }

  lemma QualitiesFit(found: Option<Json>, value: Quality)
    ensures NamesFit(found, ParseQuality, QualityName, value, QualityKind)
  {
    if found.Some? && found.value.String? {
      QualityNames(found.value.text, value);
    }
  }

  lemma SourcesFit(found: Option<Json>, value: Source)
    ensures NamesFit(found, ParseSource, SourceName, value, SourceKind)
  {
    if found.Some? && found.value.String? {
      SourceNames(found.value.text, value);
    }
  }
}
