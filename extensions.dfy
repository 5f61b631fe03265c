/** The YAML values of the configuration file and the stored form of one
    extension entry.

    `ToValue` and `Parse` stand for `serde_yaml::to_value` and
    `serde_yaml::from_value::<ExtensionEntry>`. The serde derives of
    `ExtensionEntry` and `ExtensionConfig` are not part of this model; the
    encoding below follows their usual shape (an internally tagged enum under
    `"type"`, flattened next to `"enabled"`). What the migrations rely on is
    only that `Parse` is partial and that `Parse(ToValue(e)) == Some(e)`,
    proved as `ParseToValue`. */
module Extensions {
  import opened Wrappers

  /** serde_yaml's `u64` for the builtin timeout. */
  newtype u64 = x: int | 0 <= x < 0x1_0000_0000_0000_0000

  /** `serde_yaml::Value`. Every key this core reads or writes is a string,
      so a `Mapping` is keyed by strings. */
  datatype Value =
    | Null
    | Bool(b: bool)
    | Number(n: int)
    | String(s: string)
    | Sequence(items: seq<Value>)
    | Mapping(entries: map<string, Value>)

  /** The variants of `ExtensionConfig` other than `Builtin` and `Platform`;
      only their tag and name are kept. */
  datatype OtherKind = Sse | Stdio | StreamableHttp | Frontend | InlinePython

  datatype ExtensionConfig =
    | Platform(name: string, description: string, displayName: Option<string>,
               bundled: Option<bool>, availableTools: seq<string>)
    | Builtin(name: string, displayName: Option<string>, description: string,
              timeout: Option<u64>, bundled: Option<bool>, availableTools: seq<string>)
    | Other(kind: OtherKind, name: string)

  datatype ExtensionEntry = ExtensionEntry(config: ExtensionConfig, enabled: bool)

  function KindTag(k: OtherKind): string {
    match k
    case Sse => "sse"
    case Stdio => "stdio"
    case StreamableHttp => "streamable_http"
    case Frontend => "frontend"
    case InlinePython => "inline_python"
  }

  function KindOfTag(tag: string): (r: Option<OtherKind>)
    ensures r.Some? ==> KindTag(r.value) == tag
  {
    if tag == "sse" then Some(Sse)
    else if tag == "stdio" then Some(Stdio)
    else if tag == "streamable_http" then Some(StreamableHttp)
    else if tag == "frontend" then Some(Frontend)
    else if tag == "inline_python" then Some(InlinePython)
    else None
  }

  // ---------------------------------------------------------------------
  // Encoding

  function EncodeOptString(o: Option<string>): Value {
    match o
    case None => Null
    case Some(s) => String(s)
  }

  function EncodeOptBool(o: Option<bool>): Value {
    match o
    case None => Null
    case Some(b) => Bool(b)
  }

  function EncodeOptU64(o: Option<u64>): Value {
    match o
    case None => Null
    case Some(n) => Number(n as int)
  }

  function EncodeStrings(xs: seq<string>): (r: seq<Value>)
    ensures |r| == |xs|
  {
    if xs == [] then [] else [String(xs[0])] + EncodeStrings(xs[1..])
  }

  /** `serde_yaml::to_value(&entry)`; total, as it never fails on these types. */
  function ToValue(e: ExtensionEntry): Value {
    match e.config
    case Platform(name, description, displayName, bundled, tools) =>
      Mapping(map[
        "type" := String("platform"),
        "name" := String(name),
        "description" := String(description),
        "display_name" := EncodeOptString(displayName),
        "bundled" := EncodeOptBool(bundled),
        "available_tools" := Sequence(EncodeStrings(tools)),
        "enabled" := Bool(e.enabled)])
    case Builtin(name, displayName, description, timeout, bundled, tools) =>
      Mapping(map[
        "type" := String("builtin"),
        "name" := String(name),
        "display_name" := EncodeOptString(displayName),
        "description" := String(description),
        "timeout" := EncodeOptU64(timeout),
        "bundled" := EncodeOptBool(bundled),
        "available_tools" := Sequence(EncodeStrings(tools)),
        "enabled" := Bool(e.enabled)])
    case Other(kind, name) =>
      Mapping(map[
        "type" := String(KindTag(kind)),
        "name" := String(name),
        "enabled" := Bool(e.enabled)])
  }

  // ---------------------------------------------------------------------
  // Decoding: `None` is a deserialisation error.

  function FieldString(m: map<string, Value>, key: string): Option<string> {
    if key in m && m[key].String? then Some(m[key].s) else None
  }

  function FieldBool(m: map<string, Value>, key: string): Option<bool> {
    if key in m && m[key].Bool? then Some(m[key].b) else None
  }

  /** An optional field: absent or null is `Some(None)`, a wrong type is an error. */
  function FieldOptString(m: map<string, Value>, key: string): Option<Option<string>> {
    if key !in m || m[key].Null? then Some(None)
    else if m[key].String? then Some(Some(m[key].s))
    else None
  }

  function FieldOptBool(m: map<string, Value>, key: string): Option<Option<bool>> {
    if key !in m || m[key].Null? then Some(None)
    else if m[key].Bool? then Some(Some(m[key].b))
    else None
  }

  function FieldOptU64(m: map<string, Value>, key: string): Option<Option<u64>> {
    if key !in m || m[key].Null? then Some(None)
    else if m[key].Number? && 0 <= m[key].n < 0x1_0000_0000_0000_0000 then Some(Some(m[key].n as u64))
    else None
  }

  function DecodeStrings(items: seq<Value>): Option<seq<string>> {
    if items == [] then Some([])
    else if !items[0].String? then None
    else match DecodeStrings(items[1..])
      case None => None
      case Some(rest) => Some([items[0].s] + rest)
  }

  /** A list field that defaults to empty when absent. */
  function FieldStrings(m: map<string, Value>, key: string): Option<seq<string>> {
    if key !in m then Some([])
    else if m[key].Sequence? then DecodeStrings(m[key].items)
    else None
  }

  function ParsePlatform(m: map<string, Value>): Option<ExtensionConfig> {
    match (FieldString(m, "name"), FieldString(m, "description"), FieldOptString(m, "display_name"),
           FieldOptBool(m, "bundled"), FieldStrings(m, "available_tools"))
    case (Some(name), Some(description), Some(displayName), Some(bundled), Some(tools)) =>
      Some(Platform(name, description, displayName, bundled, tools))
    case _ => None
  }

  function ParseBuiltin(m: map<string, Value>): Option<ExtensionConfig> {
    match (FieldString(m, "name"), FieldOptString(m, "display_name"), FieldString(m, "description"),
           FieldOptU64(m, "timeout"), FieldOptBool(m, "bundled"), FieldStrings(m, "available_tools"))
    case (Some(name), Some(displayName), Some(description), Some(timeout), Some(bundled), Some(tools)) =>
      Some(Builtin(name, displayName, description, timeout, bundled, tools))
    case _ => None
  }

  function ParseConfig(m: map<string, Value>): Option<ExtensionConfig> {
    match FieldString(m, "type")
    case None => None
    case Some(tag) =>
      if tag == "platform" then ParsePlatform(m)
      else if tag == "builtin" then ParseBuiltin(m)
      else match (KindOfTag(tag), FieldString(m, "name"))
        case (Some(kind), Some(name)) => Some(Other(kind, name))
        case _ => None
  }

  /** `serde_yaml::from_value::<ExtensionEntry>(v).ok()`. */
  function Parse(v: Value): Option<ExtensionEntry> {
    if !v.Mapping? then None
    else match (ParseConfig(v.entries), FieldBool(v.entries, "enabled"))
      case (Some(config), Some(enabled)) => Some(ExtensionEntry(config, enabled))
      case _ => None
  }

  // ---------------------------------------------------------------------
  // Round trip

  lemma {:induction false} DecodeEncodeStrings(xs: seq<string>)
    ensures DecodeStrings(EncodeStrings(xs)) == Some(xs)
  {
    if xs != [] {
      DecodeEncodeStrings(xs[1..]);
      assert EncodeStrings(xs)[1..] == EncodeStrings(xs[1..]);
      assert [xs[0]] + xs[1..] == xs;
    }
  }

  lemma PlatformRoundTrip(e: ExtensionEntry)
    requires e.config.Platform?
    ensures Parse(ToValue(e)) == Some(e)
  {
    var m := ToValue(e).entries;
    DecodeEncodeStrings(e.config.availableTools);
    assert FieldString(m, "type") == Some("platform");
    assert FieldString(m, "name") == Some(e.config.name);
    assert FieldString(m, "description") == Some(e.config.description);
    assert FieldOptString(m, "display_name") == Some(e.config.displayName);
    assert FieldOptBool(m, "bundled") == Some(e.config.bundled);
    assert FieldStrings(m, "available_tools") == Some(e.config.availableTools);
    assert FieldBool(m, "enabled") == Some(e.enabled);
  }

  lemma BuiltinRoundTrip(e: ExtensionEntry)
    requires e.config.Builtin?
    ensures Parse(ToValue(e)) == Some(e)
  {
    var m := ToValue(e).entries;
    DecodeEncodeStrings(e.config.availableTools);
    assert FieldString(m, "type") == Some("builtin");
    assert FieldString(m, "name") == Some(e.config.name);
    assert FieldOptString(m, "display_name") == Some(e.config.displayName);
    assert FieldString(m, "description") == Some(e.config.description);
    assert FieldOptU64(m, "timeout") == Some(e.config.timeout);
    assert FieldOptBool(m, "bundled") == Some(e.config.bundled);
    assert FieldStrings(m, "available_tools") == Some(e.config.availableTools);
    assert FieldBool(m, "enabled") == Some(e.enabled);
  }

  /** Serialising an entry and reading it back gives the same entry. */
  lemma ParseToValue(e: ExtensionEntry)
    ensures Parse(ToValue(e)) == Some(e)
  {
    match e.config
    case Platform(_, _, _, _, _) => PlatformRoundTrip(e);
    case Builtin(_, _, _, _, _, _) => BuiltinRoundTrip(e);
    case Other(kind, _) =>
      assert KindTag(kind) != "platform" && KindTag(kind) != "builtin";
      assert KindOfTag(KindTag(kind)) == Some(kind);
  }
}
