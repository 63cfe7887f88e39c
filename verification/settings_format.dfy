/** The settings file as users and other versions of Klip see it: the document as it is spelled, and what is
    taken from one. */
module SettingsFormat {
  import opened Wrappers
  import opened JsonTree
  import opened SettingsJson
  import opened SettingsReading

  lemma NamesAreSpelled()
    ensures ContainerName(Mp4) == "mp4" && ContainerName(Matroska) == "matroska" && ContainerName(WebM) == "webm"
    ensures CodecName(H264) == "h264" && CodecName(Hevc) == "hevc" && CodecName(Av1) == "av1"
    ensures QualityName(Smallest) == "smallest" && QualityName(Smaller) == "smaller"
    ensures QualityName(Balanced) == "balanced" && QualityName(High) == "high" && QualityName(Best) == "best"
    ensures SourceName(Screen) == "screen" && SourceName(Window) == "window" && SourceName(Region) == "region"
  {
  }

  function OutputSection(s: Settings): Json {
    Object([Member("directory", String(s.directory)),
            Member("container", String(ContainerName(s.container))),
            Member("codec", String(CodecName(s.codec))),
            Member("quality", String(QualityName(s.quality)))])
  }

  function CaptureSection(s: Settings): Json {
    Object([Member("source", String(SourceName(s.source))),
            Member("frameRate", Int(s.maxFrameRate)),
            Member("rememberWindow", Bool(s.rememberWindow))])
  }

  function DeviceSection(c: AudioChoice): Json {
    Object([Member("enabled", Bool(c.enabled)), Member("device", String(c.device)), Member("gain", Int(c.gain))])
  }

  function AudioSection(s: Settings): Json
    requires |s.audio| == 2
  {
    Object([Member("system", DeviceSection(s.audio[0])),
            Member("microphone", DeviceSection(s.audio[1])),
            Member("quality", String(QualityName(s.audioQuality)))])
  }

  function PortalSection(s: Settings): Json {
    Object([Member("restoreTokens", Object([Member("screen", String(s.screenToken)),
                                            Member("window", String(s.windowToken))]))])
  }

  lemma {:induction false} PutNew(members: seq<Member>, key: string, value: Json)
    requires Lookup(members, key).None?
    ensures Put(members, key, value) == members + [Member(key, value)]
  {
    if members != [] {
      PutNew(members[1..], key, value);
      assert members == [members[0]] + members[1..];
    }
  }

  /** A field that is not there yet comes last, and is there alone. */
  lemma NewField(members: seq<Member>, key: string, value: Json)
    requires forall i | 0 <= i < |members| :: members[i].key != key
    ensures Lookup(members, key).None? && Section(Object(members), key) == Object([])
    ensures WithField(Object(members), key, value) == Object(members + [Member(key, value)])
  {
    NotThere(members, key);
    PutNew(members, key, value);
  }

  lemma {:induction false} NotThere(members: seq<Member>, key: string)
    requires forall i | 0 <= i < |members| :: members[i].key != key
    ensures Lookup(members, key).None?
  {
    if members != [] {
      NotThere(members[1..], key);
    }
  }

  lemma NewValue(members: seq<Member>, fields: seq<Assignment>, key: string)
    requires fields != [] && fields[0].path == [key]
    requires forall i | 0 <= i < |members| :: members[i].key != key
    ensures Assign(Object(members), fields) == Assign(Object(members + [Member(key, fields[0].value)]), fields[1..])
  {
    SetField(Object(members), key, fields[0].value);
    NewField(members, key, fields[0].value);
  }

  lemma OutputIsSpelled(s: Settings)
    ensures Assign(Object([]), OutputFields(s)) == OutputSection(s)
  {
    var f := OutputFields(s);
    var m := OutputSection(s).members;
    assert m[..0] == [] && m[..4] == m;
    NewValue([], f, "directory");
    assert [] + [m[0]] == m[..1];
    NewValue(m[..1], f[1..], "container");
    assert m[..1] + [m[1]] == m[..2] && f[1..][1..] == f[2..];
    NewValue(m[..2], f[2..], "codec");
    assert m[..2] + [m[2]] == m[..3] && f[2..][1..] == f[3..];
    NewValue(m[..3], f[3..], "quality");
    assert m[..3] + [m[3]] == m && f[3..][1..] == [];
  }

  lemma CaptureIsSpelled(s: Settings)
    ensures Assign(Object([]), CaptureFields(s)) == CaptureSection(s)
  {
    var f := CaptureFields(s);
    var m := CaptureSection(s).members;
    NewValue([], f, "source");
    assert [] + [m[0]] == m[..1];
    NewValue(m[..1], f[1..], "frameRate");
    assert m[..1] + [m[1]] == m[..2] && f[1..][1..] == f[2..];
    NewValue(m[..2], f[2..], "rememberWindow");
    assert m[..2] + [m[2]] == m && f[2..][1..] == [];
  }

  lemma DeviceIsSpelled(c: AudioChoice)
    ensures Assign(Object([]), ChoiceFields(c)) == DeviceSection(c)
  {
    var f := ChoiceFields(c);
    var m := DeviceSection(c).members;
    NewValue([], f, "enabled");
    assert [] + [m[0]] == m[..1];
    NewValue(m[..1], f[1..], "device");
    assert m[..1] + [m[1]] == m[..2] && f[1..][1..] == f[2..];
    NewValue(m[..2], f[2..], "gain");
    assert m[..2] + [m[2]] == m && f[2..][1..] == [];
  }

  lemma TokensAreSpelled(s: Settings)
    ensures Assign(Object([]), TokenFields(s))
         == Object([Member("screen", String(s.screenToken)), Member("window", String(s.windowToken))])
  {
    var f := TokenFields(s);
    NewValue([], f, "screen");
    NewValue([Member("screen", String(s.screenToken))], f[1..], "window");
    var screen, window := Member("screen", String(s.screenToken)), Member("window", String(s.windowToken));
    assert f[1..][1..] == [] && [] + [screen] == [screen] && [screen] + [window] == [screen, window];
  }

  /** The fields of one device, in an audio section that does not have it yet. */
  lemma DeviceIsAdded(members: seq<Member>, key: string, c: AudioChoice)
    requires forall i | 0 <= i < |members| :: members[i].key != key
    ensures Assign(Object(members), Under(key, ChoiceFields(c))) == Object(members + [Member(key, DeviceSection(c))])
  {
    AssignUnder(Object(members), key, ChoiceFields(c));
    NewField(members, key, DeviceSection(c));
    DeviceIsSpelled(c);
  }

  lemma AudioIsSpelled(s: Settings)
    requires |s.audio| == NUM_SOURCES
    ensures Assign(Object([]), AudioFields(s)) == AudioSection(s)
  {
    var m := AudioSection(s).members;
    var quality := [Assignment(["quality"], String(QualityName(s.audioQuality)))];
    var system, microphone := Under("system", ChoiceFields(s.audio[0])), Under("microphone", ChoiceFields(s.audio[1]));
    assert ChoicesFrom(s, 2) == [];
    assert ChoicesFrom(s, 1) == microphone;
    assert ChoicesFrom(s, 0) == system + microphone;
    AssignConcat(Object([]), system + microphone, quality);
    AssignConcat(Object([]), system, microphone);
    DeviceIsAdded([], "system", s.audio[0]);
    assert [] + [m[0]] == m[..1];
    DeviceIsAdded(m[..1], "microphone", s.audio[1]);
    assert m[..1] + [m[1]] == m[..2];
    NewValue(m[..2], quality, "quality");
    assert m[..2] + [m[2]] == m && quality[1..] == [];
  }

  /** A section that is not there yet is filled and comes last. */
  lemma SectionIsAdded(members: seq<Member>, key: string, fields: seq<Assignment>, section: Json)
    requires forall i | 0 <= i < |members| :: members[i].key != key
    requires Assign(Object([]), fields) == section
    ensures Filled(Object(members), key, fields) == Object(members + [Member(key, section)])
  {
    NewField(members, key, section);
  }

  lemma PortalIsAdded(members: seq<Member>, s: Settings)
    requires forall i | 0 <= i < |members| :: members[i].key != "portal"
    ensures var portal := Section(Object(members), "portal");
            WithField(Object(members), "portal", Filled(portal, "restoreTokens", TokenFields(s)))
              == Object(members + [Member("portal", PortalSection(s))])
  {
    TokensAreSpelled(s);
    NewField(members, "portal", PortalSection(s));
    NewField([], "restoreTokens", Assign(Object([]), TokenFields(s)));
    assert [] + PortalSection(s).members == PortalSection(s).members;
  }

  /** A new settings file is this document: five sections in this order, with these keys, spelled like this. */
  function Document(s: Settings): seq<Member>
    requires |s.audio| == 2
  {
    [Member("version", Int(1)),
     Member("output", OutputSection(s)),
     Member("capture", CaptureSection(s)),
     Member("audio", AudioSection(s)),
     Member("portal", PortalSection(s))]
  }

  lemma SectionsInTurn(s: Settings)
    requires |s.audio| == NUM_SOURCES
    ensures var m := Document(s);
            && Filled(Object(m[..1]), "output", OutputFields(s)) == Object(m[..2])
            && Filled(Object(m[..2]), "capture", CaptureFields(s)) == Object(m[..3])
            && Filled(Object(m[..3]), "audio", AudioFields(s)) == Object(m[..4])
  {
    var m := Document(s);
    OutputIsSpelled(s);
    SectionIsAdded(m[..1], "output", OutputFields(s), m[1].value);
    assert m[..1] + [m[1]] == m[..2];
    CaptureIsSpelled(s);
    SectionIsAdded(m[..2], "capture", CaptureFields(s), m[2].value);
    assert m[..2] + [m[2]] == m[..3];
    AudioIsSpelled(s);
    SectionIsAdded(m[..3], "audio", AudioFields(s), m[3].value);
    assert m[..3] + [m[3]] == m[..4];
  }

  lemma NewDocument(s: Settings)
    requires |s.audio| == NUM_SOURCES
    ensures Write(s, Null) == Object(Document(s))
  {
    var m := Document(s);
    WrittenBySections(s, Null);
    assert WithField(Null, "version", Int(1)) == Object(m[..1]);
    SectionsInTurn(s);
    PortalIsAdded(m[..4], s);
    assert m[..4] + [m[4]] == m;
  }

  /** What is taken for each kind of value; anything else is counted as invalid. */
  lemma TakenExactlyWhen(j: Json)
    ensures Acceptable(SectionKind, j) <==> j.Object?
    ensures Acceptable(FlagKind, j) <==> j.Bool?
    ensures Acceptable(TextKind, j) <==> j.String? && (0 as char) !in j.text
    ensures Acceptable(VersionKind, j) <==> j.Int? && 0 <= j.number <= 4_294_967_295
    ensures Acceptable(GainKind, j) <==> j.Int? && -30 <= j.number <= 20
    ensures Acceptable(RateKind, j) <==> j.Int? && j.number in {0, 30, 60}
    ensures Acceptable(ContainerKind, j) <==> j.String? && j.text in {"mp4", "matroska", "webm"}
    ensures Acceptable(CodecKind, j) <==> j.String? && j.text in {"h264", "hevc", "av1"}
    ensures Acceptable(QualityKind, j) <==> j.String? && j.text in {"smallest", "smaller", "balanced", "high", "best"}
    ensures Acceptable(SourceKind, j) <==> j.String? && j.text in {"screen", "window", "region"}
  {
    NamesAreSpelled();
    if j.String? {
      assert ContainerName(Mp4) == "mp4" && ContainerName(Matroska) == "matroska" && ContainerName(WebM) == "webm";
    }
  }
}
