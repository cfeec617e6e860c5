/** Exported camera configurations: the writer's document tree and the reader that parses it back. */
module CameraConfigs {
  import opened VideoFrames
  import opened PixelFormats
  import opened Numerals

  const INT32_LIMIT: int := 0x8000_0000
  const INT64_LIMIT: int := 0x8000_0000_0000_0000

  type Int32 = x: int | -INT32_LIMIT <= x < INT32_LIMIT
  type Int64 = x: int | -INT64_LIMIT <= x < INT64_LIMIT
  type ControlId = x: nat | x < WORD32

  datatype SourceKind = V4l2 | Gstreamer

  datatype SourceDescriptor = SourceDescriptor(
    kind: SourceKind, device: string, uri: string, pipeline: string,
    format: PixelFormat, width: Int32, height: Int32, fps: real)

  datatype ControlValue = ControlValue(name: string, id: ControlId, value: Int64)

  datatype CameraConfig = CameraConfig(
    schemaVersion: Int32, source: SourceDescriptor,
    deviceById: string, deviceByPath: string, card: string, pipeline: string,
    controls: seq<ControlValue>)

  const DEFAULT_CONFIG :=
    CameraConfig(1, SourceDescriptor(V4l2, "", "", "", Unknown, 0, 0, 0.0), "", "", "", "", [])

  /** A YAML tree. Integers and strings are text; a floating-point scalar carries its value. */
  datatype Node =
    | Text(text: string)
    | Float(value: real)
    | Mapping(entries: seq<(string, Node)>)
    | List(items: seq<Node>)

  // ---- writing -----------------------------------------------------------------------------------

  function IfNotEmpty(key: string, s: string): seq<(string, Node)> {
    if s != "" then [(key, Text(s))] else []
  }

  /** The explicit pipeline wins over the one in the source descriptor. */
  function ChosenPipeline(cfg: CameraConfig): string {
    if cfg.pipeline != "" then cfg.pipeline else cfg.source.pipeline
  }

  function SourceEntries(cfg: CameraConfig): seq<(string, Node)> {
    if cfg.source.kind.V4l2? then
      [("type", Text("v4l2")), ("device", Text(cfg.source.device))]
      + IfNotEmpty("device_by_path", cfg.deviceByPath)
      + IfNotEmpty("device_by_id", cfg.deviceById)
      + IfNotEmpty("card", cfg.card)
    else
      [("type", Text("gstreamer"))]
      + IfNotEmpty("uri", cfg.source.uri)
      + IfNotEmpty("pipeline", ChosenPipeline(cfg))
  }

  function FormatEntries(s: SourceDescriptor): seq<(string, Node)> {
    (if s.kind.V4l2? && !s.format.Unknown? then [("fourcc", Text(ToString(s.format)))] else [])
    + [("width", Text(SignedDecimal(s.width))), ("height", Text(SignedDecimal(s.height))), ("fps", Float(s.fps))]
  }

  function ControlNode(c: ControlValue): Node {
    Mapping([("name", Text(c.name)), ("id", Text(FormatControlId(c.id))), ("value", Text(SignedDecimal(c.value)))])
  }

  function ControlNodes(cs: seq<ControlValue>): (r: seq<Node>) {
    seq(|cs|, k requires 0 <= k < |cs| => ControlNode(cs[k]))
  }

  function Document(cfg: CameraConfig): Node {
    Mapping([("schema_version", Text(SignedDecimal(cfg.schemaVersion))),
             ("source", Mapping(SourceEntries(cfg))),
             ("format", Mapping(FormatEntries(cfg.source))),
             ("controls", List(ControlNodes(cfg.controls)))])
  }

  method WriteSource(cfg: CameraConfig) returns (source: seq<(string, Node)>)
    ensures source == SourceEntries(cfg)
  {
    if cfg.source.kind.V4l2? {
      source := [("type", Text("v4l2")), ("device", Text(cfg.source.device))];
      if cfg.deviceByPath != "" {
        source := source + [("device_by_path", Text(cfg.deviceByPath))];
      }
      if cfg.deviceById != "" {
        source := source + [("device_by_id", Text(cfg.deviceById))];
      }
      if cfg.card != "" {
        source := source + [("card", Text(cfg.card))];
      }
    } else {
      source := [("type", Text("gstreamer"))];
      if cfg.source.uri != "" {
        source := source + [("uri", Text(cfg.source.uri))];
      }
      var pipeline := if cfg.pipeline != "" then cfg.pipeline else cfg.source.pipeline;
      if pipeline != "" {
        source := source + [("pipeline", Text(pipeline))];
      }
    }
  }

  method WriteFormat(s: SourceDescriptor) returns (format: seq<(string, Node)>)
    ensures format == FormatEntries(s)
  {
    format := [];
    if s.kind.V4l2? && !s.format.Unknown? {
      format := [("fourcc", Text(ToString(s.format)))];
    }
    format := format + [("width", Text(SignedDecimal(s.width)))];
    format := format + [("height", Text(SignedDecimal(s.height)))];
    format := format + [("fps", Float(s.fps))];
  }

  method Write(cfg: CameraConfig) returns (doc: Node)
    ensures doc == Document(cfg)
  {
    hide SourceEntries, FormatEntries, SignedDecimal, ControlNode;
    var source := WriteSource(cfg);
    var format := WriteFormat(cfg.source);
    var controls := [];
    var k := 0;
    while k < |cfg.controls|
      invariant k == |controls| <= |cfg.controls|
      invariant forall j :: 0 <= j < k ==> controls[j] == ControlNode(cfg.controls[j])
    {
      controls := controls + [ControlNode(cfg.controls[k])];
      k := k + 1;
    }
    assert controls == ControlNodes(cfg.controls);
    doc := Mapping([("schema_version", Text(SignedDecimal(cfg.schemaVersion))), ("source", Mapping(source)),
                    ("format", Mapping(format)), ("controls", List(controls))]);
  }

  // ---- reading -----------------------------------------------------------------------------------

  function Lookup(entries: seq<(string, Node)>, key: string): Option<Node> {
    if |entries| == 0 then None
    else if entries[0].0 == key then Some(entries[0].1)
    else Lookup(entries[1..], key)
  }

  /** node.as<std::string>("") and its likes: a missing or unfit node gives the default. */
  function AsText(n: Option<Node>, default: string): string {
    if n.Some? && n.value.Text? then n.value.text else default
  }

  function AsInt32(n: Option<Node>, default: Int32): Int32 {
    if n.Some? && n.value.Text? && ParseSigned(n.value.text, INT32_LIMIT).Some?
    then ParseSigned(n.value.text, INT32_LIMIT).value else default
  }

  function AsReal(n: Option<Node>, default: real): real {
    if n.Some? && n.value.Float? then n.value.value
    else if n.Some? && n.value.Text? && ParseSigned(n.value.text, INT64_LIMIT).Some?
    then ParseSigned(n.value.text, INT64_LIMIT).value as real else default
  }

  const TRUE_WORDS: set<string> :=
    {"y", "Y", "yes", "Yes", "YES", "true", "True", "TRUE", "on", "On", "ON"}

  const FALSE_WORDS: set<string> :=
    {"n", "N", "no", "No", "NO", "false", "False", "FALSE", "off", "Off", "OFF"}

  /** An integer, or a boolean word. */
  function ParseControlValue(n: Node): Option<Int64> {
    if !n.Text? then None
    else if ParseSigned(n.text, INT64_LIMIT).Some? then Some(ParseSigned(n.text, INT64_LIMIT).value)
    else if n.text in TRUE_WORDS then Some(1)
    else if n.text in FALSE_WORDS then Some(0)
    else None
  }

  function PixelFormatFromString(s: string): PixelFormat {
    if s == "GRAY8" then Gray8
    else if s == "RGB8" then Rgb8
    else if s == "RGBA8" then Rgba8
    else if s == "BGR8" then Bgr8
    else if s == "BGRA8" then Bgra8
    else if s == "YUYV" then Yuyv
    else if s == "NV12" then Nv12
    else if s == "I420" then I420
    else if s == "MJPEG" then Mjpeg
    else if s == "H264" then H264
    else Unknown
  }

  /** Names are read exactly as they are written, upper case and all; any other text is Unknown. */
  lemma PixelFormatFromStringIff(s: string, f: PixelFormat)
    ensures f != Unknown ==> (PixelFormatFromString(s) == f <==> s == ToString(f))
    ensures PixelFormatFromString(s) == Unknown <==> forall g: PixelFormat :: g != Unknown ==> s != ToString(g)
  {
    if PixelFormatFromString(s) != Unknown {
      assert s == ToString(PixelFormatFromString(s));
    }
  }

  lemma PixelFormatRoundTrip(f: PixelFormat)
    ensures PixelFormatFromString(ToString(f)) == f
  {
    PixelFormatFromStringIff(ToString(f), f);
  }

  /** So the lower-case spelling that a case-insensitive reader would take is not read. */
  lemma LowerCaseIsUnknown()
    ensures PixelFormatFromString("yuyv") == Unknown && PixelFormatFromString("YUYV") == Yuyv
  {
    var s := "yuyv";
    assert s[0] == 'y';
  }

  /** An unparsable id or value keeps its default, 0. */
  function ParsedControl(entries: seq<(string, Node)>): ControlValue {
    var id := Lookup(entries, "id");
    var value := Lookup(entries, "value");
    var parsedId := if id.Some? then ParseControlId(AsText(id, "")) else None;
    var parsedValue := if value.Some? then ParseControlValue(value.value) else None;
    ControlValue(AsText(Lookup(entries, "name"), ""),
                 if parsedId.Some? then parsedId.value else 0,
                 if parsedValue.Some? then parsedValue.value else 0)
  }

  /** Items that are not maps are skipped. */
  function ParsedControls(items: seq<Node>): seq<ControlValue> {
    if |items| == 0 then []
    else
      var before, last := ParsedControls(items[..|items| - 1]), items[|items| - 1];
      if last.Mapping? then before + [ParsedControl(last.entries)] else before
  }

  function ParsedSource(cfg: CameraConfig, entries: seq<(string, Node)>): CameraConfig {
    if AsText(Lookup(entries, "type"), "v4l2") == "gstreamer" then
      var pipeline := AsText(Lookup(entries, "pipeline"), "");
      cfg.(source := cfg.source.(kind := Gstreamer, uri := AsText(Lookup(entries, "uri"), ""), pipeline := pipeline),
           pipeline := pipeline)
    else
      cfg.(source := cfg.source.(kind := V4l2, device := AsText(Lookup(entries, "device"), "")),
           deviceByPath := AsText(Lookup(entries, "device_by_path"), ""),
           deviceById := AsText(Lookup(entries, "device_by_id"), ""),
           card := AsText(Lookup(entries, "card"), ""))
  }

  function ParsedFormat(s: SourceDescriptor, entries: seq<(string, Node)>): SourceDescriptor {
    var fourcc := Lookup(entries, "fourcc");
    s.(format := if fourcc.Some? then PixelFormatFromString(AsText(fourcc, "")) else s.format,
       width := AsInt32(Lookup(entries, "width"), 0),
       height := AsInt32(Lookup(entries, "height"), 0),
       fps := AsReal(Lookup(entries, "fps"), 0.0))
  }

  function MapAt(root: seq<(string, Node)>, key: string): Option<seq<(string, Node)>> {
    var n := Lookup(root, key);
    if n.Some? && n.value.Mapping? then Some(n.value.entries) else None
  }

  /** None: the root is not a map. */
  function Parsed(root: Node): Option<CameraConfig> {
    if !root.Mapping? then None
    else
      var version := DEFAULT_CONFIG.(schemaVersion := AsInt32(Lookup(root.entries, "schema_version"), 1));
      var source := MapAt(root.entries, "source");
      var sourced := if source.Some? then ParsedSource(version, source.value) else version;
      var format := MapAt(root.entries, "format");
      var formatted := if format.Some? then sourced.(source := ParsedFormat(sourced.source, format.value)) else sourced;
      var controls := Lookup(root.entries, "controls");
      Some(if controls.Some? && controls.value.List? then formatted.(controls := ParsedControls(controls.value.items))
           else formatted)
  }

  method ParseRoot(root: Node) returns (result: Option<CameraConfig>)
    ensures result == Parsed(root)
  {
    if !root.Mapping? {
      return None;
    }
    var cfg := DEFAULT_CONFIG;
    var version := Lookup(root.entries, "schema_version");
    if version.Some? {
      cfg := cfg.(schemaVersion := AsInt32(version, cfg.schemaVersion));
    }
    var source := Lookup(root.entries, "source");
    if source.Some? && source.value.Mapping? {
      cfg := ParsedSource(cfg, source.value.entries);
    }
    var format := Lookup(root.entries, "format");
    if format.Some? && format.value.Mapping? {
      cfg := cfg.(source := ParsedFormat(cfg.source, format.value.entries));
    }
    var controls := Lookup(root.entries, "controls");
    if controls.Some? && controls.value.List? {
      var items := controls.value.items;
      var k := 0;
      var parsed := [];
      assert items[..0] == [];
      while k < |items|
        invariant k <= |items| && parsed == ParsedControls(items[..k])
      {
        assert items[..k + 1][..k] == items[..k];
        if items[k].Mapping? {
          parsed := parsed + [ParsedControl(items[k].entries)];
        }
        k := k + 1;
      }
      assert items[..|items|] == items;
      cfg := cfg.(controls := parsed);
    }
    return Some(cfg);
  }

  // ---- what survives -------------------------------------------------------------------------------

  /** What a written configuration can carry: only the fields of its own source kind. */
  function Canonical(cfg: CameraConfig): CameraConfig {
    var s := cfg.source;
    if s.kind.V4l2? then
      cfg.(source := s.(uri := "", pipeline := ""), pipeline := "")
    else
      var pipeline := ChosenPipeline(cfg);
      cfg.(source := s.(device := "", pipeline := pipeline, format := Unknown),
           deviceById := "", deviceByPath := "", card := "", pipeline := pipeline)
  }

  lemma LookupHere(entries: seq<(string, Node)>, key: string)
    requires |entries| > 0
    ensures Lookup(entries, key) == if entries[0].0 == key then Some(entries[0].1) else Lookup(entries[1..], key)
  {
  }

  lemma {:induction false} LookupConcat(a: seq<(string, Node)>, b: seq<(string, Node)>, key: string)
    ensures Lookup(a + b, key) == if Lookup(a, key).Some? then Lookup(a, key) else Lookup(b, key)
  {
    if |a| == 0 {
      assert a + b == b;
    } else {
      assert (a + b)[1..] == a[1..] + b;
      LookupConcat(a[1..], b, key);
    }
  }

  lemma LookupOptional(key: string, s: string, other: string)
    ensures Lookup(IfNotEmpty(key, s), other) == if other == key && s != "" then Some(Text(s)) else None
  {
    if s != "" {
      LookupHere([(key, Text(s))], other);
      assert [(key, Text(s))][1..] == [];
    }
  }

  lemma V4l2Lookup(cfg: CameraConfig, key: string)
    requires cfg.source.kind.V4l2?
    ensures Lookup(SourceEntries(cfg), key) ==
      if key == "type" then Some(Text("v4l2"))
      else if key == "device" then Some(Text(cfg.source.device))
      else if key == "device_by_path" && cfg.deviceByPath != "" then Some(Text(cfg.deviceByPath))
      else if key == "device_by_id" && cfg.deviceById != "" then Some(Text(cfg.deviceById))
      else if key == "card" && cfg.card != "" then Some(Text(cfg.card))
      else None
  {
    hide Lookup, IfNotEmpty;
    var head := [("type", Text("v4l2")), ("device", Text(cfg.source.device))];
    var path, id := IfNotEmpty("device_by_path", cfg.deviceByPath), IfNotEmpty("device_by_id", cfg.deviceById);
    var card := IfNotEmpty("card", cfg.card);
    LookupHere(head, key);
    LookupHere(head[1..], key);
    LookupNothing(head[1..][1..], key);
    LookupConcat(head, path, key);
    LookupConcat(head + path, id, key);
    LookupConcat(head + path + id, card, key);
    LookupOptional("device_by_path", cfg.deviceByPath, key);
    LookupOptional("device_by_id", cfg.deviceById, key);
    LookupOptional("card", cfg.card, key);
  }

  lemma LookupNothing(entries: seq<(string, Node)>, key: string)
    requires |entries| == 0
    ensures Lookup(entries, key) == None
  {
  }

  lemma GstreamerLookup(cfg: CameraConfig, key: string)
    requires cfg.source.kind.Gstreamer?
    ensures Lookup(SourceEntries(cfg), key) ==
      if key == "type" then Some(Text("gstreamer"))
      else if key == "uri" && cfg.source.uri != "" then Some(Text(cfg.source.uri))
      else if key == "pipeline" && ChosenPipeline(cfg) != "" then Some(Text(ChosenPipeline(cfg)))
      else None
  {
    hide Lookup, IfNotEmpty, ChosenPipeline;
    var head := [("type", Text("gstreamer"))];
    var uri, pipeline := IfNotEmpty("uri", cfg.source.uri), IfNotEmpty("pipeline", ChosenPipeline(cfg));
    LookupHere(head, key);
    LookupNothing(head[1..], key);
    LookupConcat(head, uri, key);
    LookupConcat(head + uri, pipeline, key);
    LookupOptional("uri", cfg.source.uri, key);
    LookupOptional("pipeline", ChosenPipeline(cfg), key);
  }

  lemma SourceSurvives(cfg: CameraConfig, base: CameraConfig)
    requires base.source == DEFAULT_CONFIG.source
    requires base.deviceById == base.deviceByPath == base.card == base.pipeline == ""
    ensures var r, c := ParsedSource(base, SourceEntries(cfg)), Canonical(cfg);
      && r.source == c.source.(format := Unknown, width := 0, height := 0, fps := 0.0)
      && r.deviceById == c.deviceById && r.deviceByPath == c.deviceByPath && r.card == c.card
      && r.pipeline == c.pipeline
      && r.schemaVersion == base.schemaVersion && r.controls == base.controls
  {
    hide Lookup, SourceEntries;
    if cfg.source.kind.V4l2? {
      V4l2Lookup(cfg, "type");
      V4l2Lookup(cfg, "device");
      V4l2Lookup(cfg, "device_by_path");
      V4l2Lookup(cfg, "device_by_id");
      V4l2Lookup(cfg, "card");
    } else {
      GstreamerLookup(cfg, "type");
      GstreamerLookup(cfg, "uri");
      GstreamerLookup(cfg, "pipeline");
    }
  }

  lemma Lookup3(a: (string, Node), b: (string, Node), c: (string, Node), key: string)
    ensures Lookup([a, b, c], key) ==
      if a.0 == key then Some(a.1) else if b.0 == key then Some(b.1) else if c.0 == key then Some(c.1) else None
  {
    var s := [a, b, c];
    hide Lookup;
    LookupHere(s, key);
    LookupHere(s[1..], key);
    LookupHere(s[2..], key);
    assert s[1..][1..] == s[2..] && s[2..][1..] == s[3..];
    LookupNothing(s[3..], key);
  }

  lemma FormatLookup(s: SourceDescriptor, key: string)
    ensures Lookup(FormatEntries(s), key) ==
      if key == "fourcc" && s.kind.V4l2? && !s.format.Unknown? then Some(Text(ToString(s.format)))
      else if key == "width" then Some(Text(SignedDecimal(s.width)))
      else if key == "height" then Some(Text(SignedDecimal(s.height)))
      else if key == "fps" then Some(Float(s.fps))
      else None
  {
    hide Lookup, SignedDecimal, ToString;
    var size := [("width", Text(SignedDecimal(s.width))), ("height", Text(SignedDecimal(s.height))),
                 ("fps", Float(s.fps))];
    Lookup3(size[0], size[1], size[2], key);
    if s.kind.V4l2? && !s.format.Unknown? {
      var fourcc := [("fourcc", Text(ToString(s.format)))];
      LookupHere(fourcc, key);
      LookupNothing(fourcc[1..], key);
      LookupConcat(fourcc, size, key);
    } else {
      assert FormatEntries(s) == size;
    }
  }

  lemma FormatSurvives(s: SourceDescriptor, base: SourceDescriptor)
    requires base.format.Unknown?
    ensures ParsedFormat(base, FormatEntries(s)) ==
      base.(format := if s.kind.V4l2? then s.format else Unknown, width := s.width, height := s.height, fps := s.fps)
  {
    hide Lookup, FormatEntries, SignedDecimal, ToString, PixelFormatFromString, ParseSigned;
    FormatLookup(s, "fourcc");
    FormatLookup(s, "width");
    FormatLookup(s, "height");
    FormatLookup(s, "fps");
    PixelFormatRoundTrip(s.format);
    SignedDecimalReads(s.width, INT32_LIMIT);
    SignedDecimalReads(s.height, INT32_LIMIT);
  }

  lemma ControlSurvives(c: ControlValue)
    ensures ParsedControl(ControlNode(c).entries) == c
  {
    hide Lookup, SignedDecimal, ParseSigned, FormatControlId, ParseControlId;
    var e := ControlNode(c).entries;
    Lookup3(e[0], e[1], e[2], "name");
    Lookup3(e[0], e[1], e[2], "id");
    Lookup3(e[0], e[1], e[2], "value");
    ControlIdRoundTrip(c.id);
    SignedDecimalReads(c.value, INT64_LIMIT);
  }

  lemma {:induction false} ControlsSurvive(cs: seq<ControlValue>)
    ensures ParsedControls(ControlNodes(cs)) == cs
  {
    hide ParsedControl, ControlNode;
    if |cs| > 0 {
      var init, last := cs[..|cs| - 1], cs[|cs| - 1];
      ControlsSurvive(init);
      assert ControlNodes(cs)[..|cs| - 1] == ControlNodes(init);
      LastControl(cs);
      assert cs == init + [last];
    }
  }

  lemma LastControl(cs: seq<ControlValue>)
    requires |cs| > 0
    ensures var n := ControlNodes(cs)[|cs| - 1];
      n.Mapping? && ParsedControl(n.entries) == cs[|cs| - 1]
  {
    hide ParsedControl;
    ControlSurvives(cs[|cs| - 1]);
  }

  lemma RootLookup(cfg: CameraConfig)
    ensures var e := Document(cfg).entries;
      && Lookup(e, "schema_version") == Some(Text(SignedDecimal(cfg.schemaVersion)))
      && Lookup(e, "source") == Some(Mapping(SourceEntries(cfg)))
      && Lookup(e, "format") == Some(Mapping(FormatEntries(cfg.source)))
      && Lookup(e, "controls") == Some(List(ControlNodes(cfg.controls)))
  {
    hide Lookup, SignedDecimal, SourceEntries, FormatEntries, ControlNodes;
    var e := Document(cfg).entries;
    RootLookupKey(e, "schema_version");
    RootLookupKey(e, "source");
    RootLookupKey(e, "format");
    RootLookupKey(e, "controls");
  }

  lemma RootLookupKey(e: seq<(string, Node)>, key: string)
    requires |e| == 4
    ensures Lookup(e, key) ==
      if e[0].0 == key then Some(e[0].1) else if e[1].0 == key then Some(e[1].1)
      else if e[2].0 == key then Some(e[2].1) else if e[3].0 == key then Some(e[3].1) else None
  {
    hide Lookup;
    LookupHere(e, key);
    assert e[1..] == [e[1], e[2], e[3]];
    Lookup3(e[1], e[2], e[3], key);
  }

  /** Reading back what was written gives the canonical form: nothing of the source's own kind is
      lost, for every configuration. */
  lemma WriteThenParse(cfg: CameraConfig)
    ensures Parsed(Document(cfg)) == Some(Canonical(cfg))
  {
    hide Lookup, Document, ParsedSource, SourceEntries, ParsedFormat, FormatEntries, ParsedControls, ControlNodes,
         SignedDecimal, ParseSigned;
    RootLookup(cfg);
    SignedDecimalReads(cfg.schemaVersion, INT32_LIMIT);
    DocumentIsMapping(cfg);
    var base := DEFAULT_CONFIG.(schemaVersion := cfg.schemaVersion);
    SourceSurvives(cfg, base);
    FormatSurvives(cfg.source, ParsedSource(base, SourceEntries(cfg)).source);
    ControlsSurvive(cfg.controls);
  }

  lemma DocumentIsMapping(cfg: CameraConfig)
    ensures Document(cfg).Mapping?
  {
  }

  lemma CanonicalIdempotent(cfg: CameraConfig)
    ensures Canonical(Canonical(cfg)) == Canonical(cfg)
  {
  }

  /** Canonicalising loses nothing that the file would have held. */
  lemma CanonicalWritesTheSame(cfg: CameraConfig)
    ensures Document(Canonical(cfg)) == Document(cfg)
  {
    hide SignedDecimal, ControlNodes;
  }

  /** So a file is a fixed point: parsing a written file and writing it again reproduces it. */
  lemma RewriteReproduces(cfg: CameraConfig)
    ensures Parsed(Document(cfg)).Some? && Document(Parsed(Document(cfg)).value) == Document(cfg)
  {
    hide Parsed, Document, Canonical;
    WriteThenParse(cfg);
    CanonicalWritesTheSame(cfg);
  }

  /** Exactly the configurations that hold no field of the other source kind come back unchanged. */
  lemma ExactRoundTripIff(cfg: CameraConfig)
    ensures Parsed(Document(cfg)) == Some(cfg) <==>
      if cfg.source.kind.V4l2? then cfg.source.uri == "" && cfg.source.pipeline == "" && cfg.pipeline == ""
      else
        && cfg.source.device == "" && cfg.source.format.Unknown? && cfg.source.pipeline == cfg.pipeline
        && cfg.deviceById == "" && cfg.deviceByPath == "" && cfg.card == ""
  {
    hide Parsed, Document;
    WriteThenParse(cfg);
  }

  // ---- forward compatibility -------------------------------------------------------------------------

  const ROOT_KEYS: set<string> := {"schema_version", "source", "format", "controls"}

  /** Unknown root keys are ignored, wherever they stand in any document. */
  lemma UnknownKeysIgnored(a: seq<(string, Node)>, extra: (string, Node), b: seq<(string, Node)>)
    requires extra.0 !in ROOT_KEYS
    ensures Parsed(Mapping(a + [extra] + b)) == Parsed(Mapping(a + b))
  {
    hide Lookup, ParsedSource, ParsedFormat, ParsedControls, ParseSigned;
    SkipEntry(a, extra, b, "schema_version");
    SkipEntry(a, extra, b, "source");
    SkipEntry(a, extra, b, "format");
    SkipEntry(a, extra, b, "controls");
  }

  lemma SkipEntry(a: seq<(string, Node)>, extra: (string, Node), b: seq<(string, Node)>, key: string)
    requires extra.0 != key
    ensures Lookup(a + [extra] + b, key) == Lookup(a + b, key)
  {
    hide Lookup;
    LookupHere([extra], key);
    LookupNothing([extra][1..], key);
    LookupConcat(a, [extra], key);
    LookupConcat(a + [extra], b, key);
    LookupConcat(a, b, key);
  }

  // ---- hand-written files ----------------------------------------------------------------------------

  /** A document that says nothing, at the top or inside its sections, gives version 1, a V4L2 source
      without a device, no format and no controls; only a root that is not a map is refused. */
  lemma NothingGivenIsDefault(root: Node)
    requires root.Mapping? ==>
      root == Mapping([])
      || root == Mapping([("source", Mapping([])), ("format", Mapping([])), ("controls", List([]))])
    ensures root.Mapping? ==>
      Parsed(root) == Some(CameraConfig(1, SourceDescriptor(V4l2, "", "", "", Unknown, 0, 0, 0.0), "", "", "", "", []))
    ensures !root.Mapping? ==> Parsed(root).None?
  {
    var sections := [("source", Mapping([])), ("format", Mapping([])), ("controls", List([]))];
    if root == Mapping(sections) {
      LookupHere(sections, "source");
      LookupHere(sections, "format");
      LookupHere(sections[1..], "format");
      LookupHere(sections, "controls");
      LookupHere(sections[1..], "controls");
      LookupHere(sections[1..][1..], "controls");
      LookupHere(sections, "schema_version");
      LookupHere(sections[1..], "schema_version");
      LookupHere(sections[1..][1..], "schema_version");
    }
  }

  /** A format section without a fourcc leaves the format unknown; a size or rate that is missing or no
      number is 0. */
  lemma UnfitFormatIsZero(s: SourceDescriptor, entries: seq<(string, Node)>)
    ensures Lookup(entries, "fourcc").None? ==> ParsedFormat(s, entries).format == s.format
    ensures Lookup(entries, "width") == Some(Text("wide")) ==> ParsedFormat(s, entries).width == 0
    ensures Lookup(entries, "height").None? ==> ParsedFormat(s, entries).height == 0
    ensures Lookup(entries, "fps") == Some(List([])) ==> ParsedFormat(s, entries).fps == 0.0
  {
    hide Lookup;
    NotANumber("wide", INT32_LIMIT);
  }

  /** A whole number is taken as a rate, too. */
  lemma WholeRateIsRead(s: SourceDescriptor, entries: seq<(string, Node)>, v: Int64)
    requires Lookup(entries, "fps") == Some(Text(SignedDecimal(v)))
    ensures ParsedFormat(s, entries).fps == v as real
  {
    hide Lookup, SignedDecimal;
    SignedDecimalReads(v, INT64_LIMIT);
  }

  /** An item of the control list that is not a map is skipped, wherever it stands. */
  lemma {:induction false} OddItemsAreSkipped(a: seq<Node>, odd: Node, b: seq<Node>)
    requires !odd.Mapping?
    ensures ParsedControls(a + [odd] + b) == ParsedControls(a + b)
    decreases |b|
  {
    hide ParsedControl;
    if |b| == 0 {
      assert a + [odd] + b == a + [odd] && a + b == a;
      assert (a + [odd])[..|a|] == a;
    } else {
      var init, last := b[..|b| - 1], b[|b| - 1];
      OddItemsAreSkipped(a, odd, init);
      assert (a + [odd] + b)[..|a| + |b|] == a + [odd] + init;
      assert (a + b)[..|a| + |b| - 1] == a + init;
    }
  }

  /** A control entry without a readable id or value keeps 0 for it. */
  lemma UnfitControlIsZero(entries: seq<(string, Node)>)
    ensures Lookup(entries, "id").None? || Lookup(entries, "id") == Some(Text("")) ==> ParsedControl(entries).id == 0
    ensures Lookup(entries, "value").None? || Lookup(entries, "value") == Some(Text("auto")) ==>
      ParsedControl(entries).value == 0
    ensures Lookup(entries, "name").None? ==> ParsedControl(entries).name == ""
  {
    hide Lookup;
    NotANumber("auto", INT64_LIMIT);
    assert "auto"[0] == 'a';
    NoWord("auto");
  }

  /** Every word for yes is 1 and every word for no is 0, in the three spellings. */
  lemma WordsAreValues(n: Node)
    ensures
      n == Text("true") || n == Text("True") || n == Text("TRUE") || n == Text("yes") || n == Text("Yes")
      || n == Text("YES") || n == Text("on") || n == Text("On") || n == Text("ON") || n == Text("y") || n == Text("Y")
      ==> ParseControlValue(n) == Some(1)
    ensures
      n == Text("false") || n == Text("False") || n == Text("FALSE") || n == Text("no") || n == Text("No")
      || n == Text("NO") || n == Text("off") || n == Text("Off") || n == Text("OFF") || n == Text("n") || n == Text("N")
      ==> ParseControlValue(n) == Some(0)
  {
    if n.Text? && n.text in TRUE_WORDS + FALSE_WORDS {
      NotANumber(n.text, INT64_LIMIT);
    }
  }

  /** Any other text is a value exactly if it is a number of 64 bits, and no list or map is one. */
  lemma OtherValues(n: Node)
    ensures !n.Text? ==> ParseControlValue(n).None?
    ensures n.Text? && n.text !in TRUE_WORDS && n.text !in FALSE_WORDS ==>
      (ParseControlValue(n).Some? <==> ParseSigned(n.text, INT64_LIMIT).Some?)
  {
  }

  /** A text that starts and ends with letters other than hex digits is no number. */
  lemma NotANumber(s: string, limit: int)
    requires |s| > 0 && s[0] != '0' && s[0] != '-' && s[0] != '+'
    requires Digit(s[|s| - 1]).None? || Digit(s[|s| - 1]).value >= 10
    ensures ParseSigned(s, limit).None?
  {
  }

  lemma NoWord(s: string)
    requires |s| > 0 && s[0] == 'a'
    ensures s !in TRUE_WORDS && s !in FALSE_WORDS
  {
  }
}
