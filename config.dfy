/** The configuration schemas of rabbit_force/config.py, loaded with
    marshmallow 3 semantics and unknown=RAISE: an unknown key is an error
    of the field it names, and schema rules run only when every field
    loaded. Also the choice of a file loader by the file's suffix, and
    the three-stage loading of a configuration file. */
module Config {
  import opened Common
  import opened SchemaLoad
  import CS = ConfigSchema

  /** The AMQP basic properties a route may set. */
  const AMQP_PROPERTY_NAMES: set<string> := {
    "content_type", "content_encoding", "headers", "delivery_mode", "priority", "correlation_id",
    "reply_to", "expiration", "message_id", "timestamp", "type", "user_id", "app_id", "cluster_id"}

  /** Route parameters; properties may only name AMQP basic properties,
      and their values are kept as they are. */
  const RouteFields: seq<(string, Field)> := [
    ("broker_name", Field(StringKind, [CS.NonEmpty], required := true)),
    ("exchange_name", Field(StringKind, required := true)),
    ("routing_key", Field(StringKind, [CS.NonEmpty], required := true)),
    ("properties", Field(DictKind([OneOf(AMQP_PROPERTY_NAMES)], None), allowNone := true))
  ]

  /** Router parameters; an absent rule list loads as an empty list. */
  const MessageRouterFields: seq<(string, Field)> := [
    ("default_route", Field(NestedKind(RouteSchema), required := true, allowNone := true,
                            attribute := Some("default_route_spec"))),
    ("rules", Field(ListKind(Field(NestedKind(RoutingRuleSchema))), attribute := Some("rule_specs"),
                    missing := Some(JArr([]))))
  ]

  /** Every schema of the module. The fields are those of
      config_schema.py except for routes and routers; no schema carries
      an unknown-field rule, since unknown keys are field errors. */
  function Schemas(name: SchemaName): SchemaDef {
    match name
    case PushTopicSchema => SchemaDef(CS.PushTopicFields, [PushTopicRequiredFields, PushTopicApiVersion])
    case StreamingChannelSchema => SchemaDef(CS.StreamingChannelFields, [StreamingChannelRequiredFields])
    case StreamingResourceSchema => SchemaDef(CS.StreamingResourceFields, [], LoadSpecByType)
    case SalesforceOrgSchema => SchemaDef(CS.SalesforceOrgFields, [])
    case ReplaySchema => SchemaDef(CS.ReplayFields, [])
    case MessageSourceSchema => SchemaDef(CS.MessageSourceFields, [])
    case AmqpExchangeSchema => SchemaDef(CS.AmqpExchangeFields, [])
    case AmqpBrokerSchema => SchemaDef(CS.AmqpBrokerFields, [])
    case MessageSinkSchema => SchemaDef(CS.MessageSinkFields, [])
    case RouteSchema => SchemaDef(RouteFields, [])
    case RoutingRuleSchema => SchemaDef(CS.RoutingRuleFields, [])
    case MessageRouterSchema => SchemaDef(MessageRouterFields, [])
    case ApplicationConfigSchema => SchemaDef(CS.ApplicationConfigFields, [])
  }

  // ---------------------------------------------------------------------
  // The validator rules, as in the other variant
  // ---------------------------------------------------------------------

  /** Every schema refuses a key that is not one of its fields, and
      reports it under its name. */
  lemma UnknownKeyRejected(name: SchemaName, m: map<string, Json>, k: string)
    requires k in m && k !in Declared(Schemas(name).fields)
    ensures Load(Schemas, Marshmallow3, name, JObj(m)).Failure?
    ensures LoadError([Key(k)], UnknownField) in Load(Schemas, Marshmallow3, name, JObj(m)).error
  {
    UnknownFieldRejected(Schemas, Marshmallow3, name, m, k);
  }

  /** A PushTopic spec is accepted exactly when it meets the reference
      definition, and is loaded unchanged. */
  lemma PushTopicLoad(m: map<string, Json>)
    ensures Load(Schemas, Marshmallow3, PushTopicSchema, JObj(m)).Success? <==> CS.PushTopicSpecValid(m)
    ensures Load(Schemas, Marshmallow3, PushTopicSchema, JObj(m)).Success? ==>
      Load(Schemas, Marshmallow3, PushTopicSchema, JObj(m)).value == JObj(m)
  {
    CS.PushTopicVerdict(Schemas, Marshmallow3, m);
  }

  /** A StreamingChannel spec is accepted exactly when it meets the
      reference definition, and is loaded unchanged. */
  lemma StreamingChannelLoad(m: map<string, Json>)
    ensures Load(Schemas, Marshmallow3, StreamingChannelSchema, JObj(m)).Success? <==> CS.StreamingChannelSpecValid(m)
    ensures Load(Schemas, Marshmallow3, StreamingChannelSchema, JObj(m)).Success? ==>
      Load(Schemas, Marshmallow3, StreamingChannelSchema, JObj(m)).value == JObj(m)
  {
    CS.StreamingChannelVerdict(Schemas, Marshmallow3, m);
  }

  /** A streaming resource is accepted exactly when its spec is valid for
      its type, and loads to its renamed keys. */
  lemma StreamingResourceLoad(m: map<string, Json>)
    ensures Load(Schemas, Marshmallow3, StreamingResourceSchema, JObj(m)).Success? <==> CS.StreamingResourceSpecValid(m)
    ensures Load(Schemas, Marshmallow3, StreamingResourceSchema, JObj(m)).Success? ==>
      Load(Schemas, Marshmallow3, StreamingResourceSchema, JObj(m)).value == JObj(CS.ResourceOutput(m))
  {
    CS.StreamingResourceVerdict(Schemas, Marshmallow3, m);
  }

  /** The two variants accept the same PushTopic specs and load them to the
      same values. */
  lemma PushTopicVariantsAgree(m: map<string, Json>)
    ensures Load(Schemas, Marshmallow3, PushTopicSchema, JObj(m)) ==
            Load(CS.Schemas, Marshmallow2, PushTopicSchema, JObj(m))
            || (Load(Schemas, Marshmallow3, PushTopicSchema, JObj(m)).Failure?
                && Load(CS.Schemas, Marshmallow2, PushTopicSchema, JObj(m)).Failure?)
  {
    PushTopicLoad(m);
    CS.PushTopicLoad(m);
  }

  /** The two variants accept the same StreamingChannel specs and load them to the
      same values. */
  lemma StreamingChannelVariantsAgree(m: map<string, Json>)
    ensures Load(Schemas, Marshmallow3, StreamingChannelSchema, JObj(m)) ==
            Load(CS.Schemas, Marshmallow2, StreamingChannelSchema, JObj(m))
            || (Load(Schemas, Marshmallow3, StreamingChannelSchema, JObj(m)).Failure?
                && Load(CS.Schemas, Marshmallow2, StreamingChannelSchema, JObj(m)).Failure?)
  {
    StreamingChannelLoad(m);
    CS.StreamingChannelLoad(m);
  }

  /** The two variants accept the same streaming resources and load them to the
      same values. */
  lemma StreamingResourceVariantsAgree(m: map<string, Json>)
    ensures Load(Schemas, Marshmallow3, StreamingResourceSchema, JObj(m)) ==
            Load(CS.Schemas, Marshmallow2, StreamingResourceSchema, JObj(m))
            || (Load(Schemas, Marshmallow3, StreamingResourceSchema, JObj(m)).Failure?
                && Load(CS.Schemas, Marshmallow2, StreamingResourceSchema, JObj(m)).Failure?)
  {
    StreamingResourceLoad(m);
    CS.StreamingResourceLoad(m);
  }

  /** The two variants accept the same PushTopic specs, StreamingChannel
      specs and streaming resources, and load them to the same values. */
  lemma VariantsAgree(m: map<string, Json>)
    ensures Load(Schemas, Marshmallow3, PushTopicSchema, JObj(m)) ==
            Load(CS.Schemas, Marshmallow2, PushTopicSchema, JObj(m))
            || (Load(Schemas, Marshmallow3, PushTopicSchema, JObj(m)).Failure?
                && Load(CS.Schemas, Marshmallow2, PushTopicSchema, JObj(m)).Failure?)
    ensures Load(Schemas, Marshmallow3, StreamingChannelSchema, JObj(m)) ==
            Load(CS.Schemas, Marshmallow2, StreamingChannelSchema, JObj(m))
            || (Load(Schemas, Marshmallow3, StreamingChannelSchema, JObj(m)).Failure?
                && Load(CS.Schemas, Marshmallow2, StreamingChannelSchema, JObj(m)).Failure?)
    ensures Load(Schemas, Marshmallow3, StreamingResourceSchema, JObj(m)) ==
            Load(CS.Schemas, Marshmallow2, StreamingResourceSchema, JObj(m))
            || (Load(Schemas, Marshmallow3, StreamingResourceSchema, JObj(m)).Failure?
                && Load(CS.Schemas, Marshmallow2, StreamingResourceSchema, JObj(m)).Failure?)
  {
    PushTopicVariantsAgree(m);
    StreamingChannelVariantsAgree(m);
    StreamingResourceVariantsAgree(m);
  }

  // ---------------------------------------------------------------------
  // Routes and routers
  // ---------------------------------------------------------------------

  /** Route properties are null, or an object whose keys are all AMQP
      basic property names; they load unchanged. */
  lemma RoutePropertiesKeys(t: Table, sem: Semantics, x: Json)
    ensures RouteFields[3].0 == "properties"
    ensures LoadField(t, sem, RouteFields[3].1, x).Success? <==>
      x == JNull || (x.JObj? && x.fields.Keys <= AMQP_PROPERTY_NAMES)
    ensures LoadField(t, sem, RouteFields[3].1, x).Success? ==> LoadField(t, sem, RouteFields[3].1, x).value == x
  {
    var f := RouteFields[3].1;
    if x.JObj? {
      DictKeysChecked(t, sem, f.kind.keys, x.fields);
      assert forall k :: ValidatorProblem(f.kind.keys[0], JStr(k)).None? <==> k in AMQP_PROPERTY_NAMES;
    }
  }

  lemma MessageRouterFieldsFacts()
    ensures Declared(MessageRouterFields) == {"default_route", "rules"}
    ensures DistinctAttributes(MessageRouterFields)
  {
    var fs := MessageRouterFields;
    assert fs[0].0 == "default_route" && fs[1].0 == "rules";
  }

  /** A router without rules loads with an empty rule list. */
  lemma RouterRulesDefault(m: map<string, Json>)
    requires "rules" !in m
    ensures Load(Schemas, Marshmallow3, MessageRouterSchema, JObj(m)).Success? ==>
      var r := Load(Schemas, Marshmallow3, MessageRouterSchema, JObj(m)).value;
      r.JObj? && "rule_specs" in r.fields && r.fields["rule_specs"] == JArr([])
  {
    var fs := MessageRouterFields;
    MessageRouterFieldsFacts();
    LoadVerdict(Schemas, Marshmallow3, MessageRouterSchema, m);
    assert Contributes(Schemas, Marshmallow3, fs[1], m);
    LoadedDataValue(Schemas, Marshmallow3, fs, m, 1);
  }

  /** A router must give a default route: without one it is refused. */
  lemma RouterDefaultRouteRequired(m: map<string, Json>)
    requires "default_route" !in m
    ensures Load(Schemas, Marshmallow3, MessageRouterSchema, JObj(m)).Failure?
    ensures LoadError([Key("default_route")], MissingField) in Load(Schemas, Marshmallow3, MessageRouterSchema, JObj(m)).error
  {
    RequiredFieldRejected(Schemas, Marshmallow3, MessageRouterSchema, m, 0);
  }

  /** The default route may be null, and then routes nothing by default. */
  lemma RouterDefaultRouteNullable(t: Table, sem: Semantics)
    ensures MessageRouterFields[0].0 == "default_route"
    ensures LoadField(t, sem, MessageRouterFields[0].1, JNull) == Success(JNull)
  {
  }

  // ---------------------------------------------------------------------
  // Choosing a loader by the file suffix
  // ---------------------------------------------------------------------

  /** The index of the last occurrence of `c` in `s`, or -1. */
  function RFind(s: string, c: char): (r: int)
    ensures -1 <= r < |s|
    ensures r >= 0 ==> s[r] == c
    ensures forall j :: r < j < |s| ==> s[j] != c
  {
    if s == [] then -1
    else if s[|s| - 1] == c then |s| - 1
    else RFind(s[..|s| - 1], c)
  }

  /** The final component of a path, as pathlib gives it: trailing
      slashes and "." components are skipped, and an empty path or "."
      has no name. */
  function PathName(path: string): string
    decreases |path|
  {
    var i := RFind(path, '/');
    var last := path[i + 1..];
    if (last == "" || last == ".") && i >= 0 then PathName(path[..i])
    else if last == "." then ""
    else last
  }

  /** The suffix of a file name, dot included: from its last dot, when
      that dot is neither its first nor its last character. */
  function Suffix(name: string): (r: string)
    ensures r == "" || (r[0] == '.' && |r| >= 2 && '.' !in r[1..])
    ensures r != "" ==> exists stem :: stem != "" && name == stem + r
  {
    var i := RFind(name, '.');
    if 0 < i < |name| - 1 then
      assert name == name[..i] + name[i..];
      name[i..]
    else ""
  }

  /** The functions that parse a configuration file's text. */
  datatype FileLoader = JsonLoad | YamlSafeLoad

  /** The loader of a file: by its lower-cased suffix without the dot,
      JSON for "json", YAML for "yml" and "yaml", none otherwise. */
  function ConfigLoader(path: string): Option<FileLoader> {
    var suffix := Lower(Suffix(PathName(path)));
    var ext := if suffix != "" then suffix[1..] else suffix;
    if ext == "json" then Some(JsonLoad)
    else if ext == "yml" || ext == "yaml" then Some(YamlSafeLoad)
    else None
  }

  /** The loader an extension selects, case-insensitively. */
  function LoaderForExtension(ext: string): Option<FileLoader> {
    var e := Lower(ext);
    if e == "json" then Some(JsonLoad)
    else if e == "yml" || e == "yaml" then Some(YamlSafeLoad)
    else None
  }

  lemma RFindAfter(s: string, t: string, c: char)
    requires c !in t
    ensures RFind(s + t, c) == RFind(s, c)
    decreases |t|
  {
    if t != [] {
      assert (s + t)[..|s + t| - 1] == s + t[..|t| - 1];
      RFindAfter(s, t[..|t| - 1], c);
    } else {
      assert s + t == s;
    }
  }

  /** A path whose last component is a proper name has that name. */
  lemma PathNameOfLast(path: string)
    requires var i := RFind(path, '/'); path[i + 1..] != "" && path[i + 1..] != "."
    ensures PathName(path) == path[RFind(path, '/') + 1..]
  {
  }

  /** A file name, alone or after a directory, is the path's name. */
  lemma PathNameOfFile(dir: string, file: string)
    requires '/' !in file && file != "" && file != "."
    ensures PathName(file) == file
    ensures PathName(dir + "/" + file) == file
  {
    BareFileName(file);
    FileNameInDir(dir, file);
  }

  lemma BareFileName(file: string)
    requires '/' !in file && file != "" && file != "."
    ensures PathName(file) == file
  {
    RFindAfter("", file, '/');
    assert "" + file == file;
    PathNameOfLast(file);
  }

  lemma FileNameInDir(dir: string, file: string)
    requires '/' !in file && file != "" && file != "."
    ensures PathName(dir + "/" + file) == file
  {
    var full := dir + "/" + file;
    assert full == (dir + "/") + file;
    RFindAfter(dir + "/", file, '/');
    assert RFind(dir + "/", '/') == |dir|;
    assert full[|dir| + 1..] == file;
    PathNameOfLast(full);
  }

  /** The suffix of `stem.ext`, for a non-empty stem and an extension
      without a dot, is ".ext". */
  lemma SuffixOfFile(stem: string, ext: string)
    requires stem != "" && ext != "" && '.' !in ext
    ensures Suffix(stem + "." + ext) == "." + ext
  {
    var file := stem + "." + ext;
    assert file == (stem + ".") + ext;
    RFindAfter(stem + ".", ext, '.');
    assert RFind(stem + ".", '.') == |stem|;
    assert file[|stem|..] == "." + ext;
  }

  /** Lower-casing keeps a leading dot and lower-cases what follows. */
  lemma LowerAfterDot(ext: string)
    ensures Lower("." + ext)[1..] == Lower(ext)
  {
    var l := Lower("." + ext);
    assert |l[1..]| == |Lower(ext)|;
    forall j | 0 <= j < |ext|
      ensures l[1..][j] == Lower(ext)[j]
    {
      assert ("." + ext)[j + 1] == ext[j];
    }
  }

  /** A path whose name has the suffix ".ext" is loaded by the loader of
      `ext`. */
  lemma LoaderOfSuffix(path: string, ext: string)
    requires Suffix(PathName(path)) == "." + ext
    ensures ConfigLoader(path) == LoaderForExtension(ext)
  {
    LowerAfterDot(ext);
  }

  /** A file `stem.ext` whose extension has no dot is loaded by the
      loader of its extension, whatever directory it is in. */
  lemma LoaderByExtension(dir: string, stem: string, ext: string)
    requires stem != "" && '/' !in stem && ext != "" && '/' !in ext && '.' !in ext
    ensures ConfigLoader(stem + "." + ext) == LoaderForExtension(ext)
    ensures ConfigLoader(dir + "/" + stem + "." + ext) == LoaderForExtension(ext)
  {
    var file := stem + "." + ext;
    assert '/' !in file by {
      assert file == stem + ("." + ext);
      assert '/' !in "." + ext;
    }
    PathNameOfFile(dir, file);
    assert dir + "/" + stem + "." + ext == dir + "/" + file;
    SuffixOfFile(stem, ext);
    LoaderOfSuffix(file, ext);
    LoaderOfSuffix(dir + "/" + file, ext);
  }

  /** A path without a dot in its name has no loader. */
  lemma NoLoaderWithoutDot(path: string)
    requires '.' !in PathName(path)
    ensures ConfigLoader(path).None?
  {
  }

  /** A name whose only dot is its first character, such as ".json", has
      no suffix and so no loader. */
  lemma NoLoaderForHiddenFile(ext: string)
    requires ext != "" && '/' !in ext && '.' !in ext
    ensures ConfigLoader("." + ext).None?
  {
    var file := "." + ext;
    assert '/' !in file;
    PathNameOfFile("", file);
    RFindAfter(".", ext, '.');
    assert RFind(".", '.') == 0;
    assert Suffix(file) == "";
  }

  // ---------------------------------------------------------------------
  // Loading a configuration file
  // ---------------------------------------------------------------------

  /** Why a configuration file is refused, one kind per stage. */
  datatype ConfigurationError =
    | UnrecognizedFormat(path: string)
    | LoadFailed(path: string, reason: string)
    | ValidationFailed(path: string, errors: Errors)

  /** Loads and validates the configuration in `path`. `readWith` opens
      the file and parses it with a loader: the parsed value, or the reason
      either step fails. */
  function LoadConfig(path: string, readWith: FileLoader -> Result<Json, string>): (r: Result<Json, ConfigurationError>)
    ensures ConfigLoader(path).None? ==> r == Failure(UnrecognizedFormat(path))
    ensures ConfigLoader(path).Some? && readWith(ConfigLoader(path).value).Failure? ==>
      r == Failure(LoadFailed(path, readWith(ConfigLoader(path).value).error))
    ensures r.Success? <==>
      && ConfigLoader(path).Some?
      && readWith(ConfigLoader(path).value).Success?
      && Load(Schemas, Marshmallow3, ApplicationConfigSchema, readWith(ConfigLoader(path).value).value).Success?
    ensures r.Success? ==>
      r.value == Load(Schemas, Marshmallow3, ApplicationConfigSchema, readWith(ConfigLoader(path).value).value).value
    ensures r.Failure? && r.error.ValidationFailed? ==>
      r.error.errors == Load(Schemas, Marshmallow3, ApplicationConfigSchema, readWith(ConfigLoader(path).value).value).error
  {
    match ConfigLoader(path)
    case None => Failure(UnrecognizedFormat(path))
    case Some(loader) =>
      match readWith(loader)
      case Failure(reason) => Failure(LoadFailed(path, reason))
      case Success(raw) =>
        match Load(Schemas, Marshmallow3, ApplicationConfigSchema, raw)
        case Failure(es) => Failure(ValidationFailed(path, es))
        case Success(config) => Success(config)
  }

  /** A file of unrecognized format is refused before it is read: the
      outcome does not depend on the file. */
  lemma UnrecognizedBeforeReading(path: string, read1: FileLoader -> Result<Json, string>,
                                  read2: FileLoader -> Result<Json, string>)
    requires ConfigLoader(path).None?
    ensures LoadConfig(path, read1) == LoadConfig(path, read2)
  {
  }

  /** Each stage's failure is reported as that stage's error. */
  lemma StageOfFailure(path: string, readWith: FileLoader -> Result<Json, string>)
    ensures LoadConfig(path, readWith).Failure? ==>
      (LoadConfig(path, readWith).error.UnrecognizedFormat? <==> ConfigLoader(path).None?)
      && (LoadConfig(path, readWith).error.LoadFailed? <==>
            ConfigLoader(path).Some? && readWith(ConfigLoader(path).value).Failure?)
  {
  }
}
