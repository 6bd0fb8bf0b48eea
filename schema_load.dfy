/** Loading a configuration value against a declarative schema, the way
    the marshmallow library loads the schemas of the configuration modules:
    every declared field is deserialized and validated, unknown keys are
    refused, schema-level rules check the loaded data and a post-load step
    may transform it. A schema table maps each schema name to its fields and
    rules; the two configuration modules give two tables. */
module SchemaLoad {
  import opened Common

  /** The schemas the configuration modules declare. */
  datatype SchemaName =
    | PushTopicSchema
    | StreamingChannelSchema
    | StreamingResourceSchema
    | SalesforceOrgSchema
    | ReplaySchema
    | MessageSourceSchema
    | AmqpExchangeSchema
    | AmqpBrokerSchema
    | MessageSinkSchema
    | RouteSchema
    | RoutingRuleSchema
    | MessageRouterSchema
    | ApplicationConfigSchema

  /** Field validators: lengths of strings, lists and dictionaries (bounds
      inclusive), ranges of numbers (inclusive) and choices of strings. */
  datatype Validator =
    | Length(min: Option<nat>, max: Option<nat>)
    | Range(low: real, high: real)
    | OneOf(choices: set<string>)

  /** What a field deserializes. Dict keys are strings checked by
      `keys`; when `values` is absent the dictionary is kept as it is. */
  datatype Kind =
    | StringKind
    | FloatKind
    | BoolKind
    | IntKind
    | UrlKind(schemes: set<string>)
    | DictKind(keys: seq<Validator>, values: Option<Field>)
    | ListKind(item: Field)
    | NestedKind(schema: SchemaName)

  /** A declared field: its kind and validators, whether it must be present,
      whether null is accepted, the key it is loaded under when that differs
      from its own name, and the value loaded when it is absent. */
  datatype Field = Field(kind: Kind, validators: seq<Validator> := [], required: bool := false,
                         allowNone: bool := false, attribute: Option<string> := None,
                         missing: Option<Json> := None)

  /** Why a schema-level rule refuses the data. */
  datatype RuleViolation =
    | SingleFieldNotIdentifier
    | IncompleteDefinition
    | NoFields
    | OperationsFieldTooNew
    | OperationFlagsTooOld

  /** Schema-level validators. */
  datatype SchemaRule =
    | RejectUnknownFields
    | PushTopicRequiredFields
    | PushTopicApiVersion
    | StreamingChannelRequiredFields

  /** What happens to the loaded data of a schema without errors. */
  datatype PostLoad = KeepData | LoadSpecByType

  datatype SchemaDef = SchemaDef(fields: seq<(string, Field)>, rules: seq<SchemaRule>,
                                 postLoad: PostLoad := KeepData)

  type Table = SchemaName -> SchemaDef

  /** How a library version treats unknown keys and schema rules: whether
      an unknown key is an error of the field it names, and whether schema
      rules are skipped once a field has an error. */
  datatype Semantics = Semantics(unknownAsFieldError: bool, rulesNeedValidFields: bool)

  /** Marshmallow 2: unknown keys are dropped, schema rules always run. */
  const Marshmallow2 := Semantics(false, false)
  /** Marshmallow 3 with unknown=RAISE: unknown keys are field errors and
      schema rules are skipped when a field has an error. */
  const Marshmallow3 := Semantics(true, true)

  /** Where an error was found, outermost first. */
  datatype PathStep = Key(key: string) | Index(index: nat)

  datatype Problem =
    | UnknownField
    | MissingField
    | NullValue
    | WrongType
    | TooShort
    | TooLong
    | OutOfRange
    | NotOneOf
    | InvalidUrl
    | NoSchemaForType
    | RuleFailed(violation: RuleViolation)

  datatype LoadError = LoadError(path: seq<PathStep>, problem: Problem)

  type Errors = set<LoadError>

  /** The declared field names of a schema. */
  function Declared(fs: seq<(string, Field)>): set<string> {
    set i | 0 <= i < |fs| :: fs[i].0
  }

  /** The key a field's value is loaded under. */
  function AttrOf(name: string, f: Field): string {
    if f.attribute.Some? then f.attribute.value else name
  }

  function ErrorsOf<T>(r: Result<T, Errors>): Errors {
    if r.Failure? then r.error else {}
  }

  /** Errors of a part, placed under the step that leads to it. */
  function Under(step: PathStep, es: Errors): Errors {
    set e | e in es :: LoadError([step] + e.path, e.problem)
  }

  /** One error per key that is not a declared field. */
  function UnknownErrors(keys: set<string>, declared: set<string>): (r: Errors)
    ensures r == {} <==> keys <= declared
    ensures forall k :: k in keys && k !in declared ==> LoadError([Key(k)], UnknownField) in r
  {
    var r := set k | k in keys && k !in declared :: LoadError([Key(k)], UnknownField);
    assert forall k :: k in keys && k !in declared ==> LoadError([Key(k)], UnknownField) in r;
    r
  }

  /** The length Python's len() gives a string, list or dictionary. */
  function Len(x: Json): Option<nat> {
    match x
    case JStr(s) => Some(|s|)
    case JArr(xs) => Some(|xs|)
    case JObj(m) => Some(|m|)
    case _ => None
  }

  /** The problem a validator finds in a value, if any. */
  function ValidatorProblem(v: Validator, x: Json): Option<Problem> {
    match v
    case Length(min, max) =>
      (match Len(x)
       case None => Some(WrongType)
       case Some(n) =>
         if min.Some? && n < min.value then Some(TooShort)
         else if max.Some? && n > max.value then Some(TooLong)
         else None)
    case Range(low, high) =>
      if !x.JNum? then Some(WrongType)
      else if x.n < low || x.n > high then Some(OutOfRange)
      else None
    case OneOf(choices) =>
      if x.JStr? && x.s in choices then None else Some(NotOneOf)
  }

  function ValidatorErrors(vs: seq<Validator>, x: Json): Errors {
    set i | 0 <= i < |vs| && ValidatorProblem(vs[i], x).Some? :: LoadError([], ValidatorProblem(vs[i], x).value)
  }

  /** A value passes every validator exactly when no validator reports a
      problem with it. */
  lemma ValidatorErrorsEmpty(vs: seq<Validator>, x: Json)
    ensures ValidatorErrors(vs, x) == {} <==> forall i :: 0 <= i < |vs| ==> ValidatorProblem(vs[i], x).None?
  {
    if exists i :: 0 <= i < |vs| && ValidatorProblem(vs[i], x).Some? {
      var i :| 0 <= i < |vs| && ValidatorProblem(vs[i], x).Some?;
      assert LoadError([], ValidatorProblem(vs[i], x).value) in ValidatorErrors(vs, x);
    }
  }

  /** A "://" starts at position `i` of `s`. */
  predicate SeparatorAt(s: string, i: int) {
    0 <= i && i + 3 <= |s| && s[i..i + 3] == "://"
  }

  lemma SeparatorShift(s: string)
    requires |s| >= 1
    ensures SeparatorAt(s, 0) <==> |s| >= 3 && s[..3] == "://"
    ensures forall i :: 0 < i ==> (SeparatorAt(s, i) <==> SeparatorAt(s[1..], i - 1))
  {
    forall i | 0 < i
      ensures SeparatorAt(s, i) <==> SeparatorAt(s[1..], i - 1)
    {
      if i + 3 <= |s| {
        assert s[1..][i - 1..i + 2] == s[i..i + 3];
      }
    }
    if |s| >= 3 {
      assert s[0..3] == s[..3];
    }
  }

  /** The text before the first "://" of a URL, if it has one. */
  function SchemeOf(s: string): (r: Option<string>)
    ensures r.Some? ==> |r.value| + 3 <= |s| && s[..|r.value| + 3] == r.value + "://"
    ensures r.Some? ==> forall i :: 0 <= i < |r.value| ==> !SeparatorAt(s, i)
    ensures r.None? ==> forall i :: 0 <= i <= |s| - 3 ==> !SeparatorAt(s, i)
  {
    if |s| < 3 then None
    else if s[..3] == "://" then Some("")
    else
      SeparatorShift(s);
      match SchemeOf(s[1..])
      case None => None
      case Some(p) => Some([s[0]] + p)
  }

  /** A URL names one of `schemes` (case-insensitively) before its first
      "://". The rest of the URL syntax is not checked. */
  predicate UrlValid(schemes: set<string>, s: string) {
    match SchemeOf(s)
    case Some(p) => Lower(p) in schemes
    case None => false
  }

  /** Python's int() of a float: truncation toward zero. */
  function TruncateTowardZero(x: real): (r: int)
    ensures 0.0 <= x ==> r as real <= x < r as real + 1.0
    ensures x < 0.0 ==> r as real - 1.0 < x <= r as real
  {
    if x >= 0.0 then x.Floor else -((-x).Floor)
  }

  /** The schema a streaming resource's spec is loaded with, by its type. */
  function SpecSchemaFor(typeName: Json): Option<SchemaName> {
    if typeName == JStr("PushTopic") then Some(PushTopicSchema)
    else if typeName == JStr("StreamingChannel") then Some(StreamingChannelSchema)
    else None
  }

  // ---------------------------------------------------------------------
  // Schema-level rules
  // ---------------------------------------------------------------------

  const IDENTIFIER_FIELDS: set<string> := {"Id", "Name"}
  const PUSH_TOPIC_DEFINITION_FIELDS: set<string> := {"Name", "ApiVersion", "Query"}
  const OPERATION_FLAGS: set<string> :=
    {"NotifyForOperationCreate", "NotifyForOperationDelete", "NotifyForOperationUndelete", "NotifyForOperationUpdate"}

  /** A PushTopic spec is either a single identifying field (Id or Name),
      or several fields among which Name, ApiVersion and Query; an empty
      spec is refused. */
  function PushTopicFieldsViolation(keys: set<string>): (r: Option<RuleViolation>)
    ensures r.None? <==> (|keys| == 1 && ("Id" in keys || "Name" in keys))
                         || (|keys| > 1 && PUSH_TOPIC_DEFINITION_FIELDS <= keys)
    ensures r == Some(NoFields) <==> keys == {}
  {
    if |keys| == 1 then
      if keys * IDENTIFIER_FIELDS == {} then
        assert "Id" !in keys && "Name" !in keys by {
          assert "Id" !in keys * IDENTIFIER_FIELDS && "Name" !in keys * IDENTIFIER_FIELDS;
        }
        Some(SingleFieldNotIdentifier)
      else
        assert "Id" in keys || "Name" in keys by {
          var k :| k in keys * IDENTIFIER_FIELDS;
        }
        None
    else if |keys| > 1 then
      if keys * PUSH_TOPIC_DEFINITION_FIELDS != PUSH_TOPIC_DEFINITION_FIELDS then Some(IncompleteDefinition) else None
    else Some(NoFields)
  }

  /** NotifyForOperations belongs to API versions up to 28.0, the four
      NotifyForOperation flags to 29.0 and later; a spec without a (valid)
      ApiVersion is not checked. */
  function ApiVersionViolation(version: Option<real>, keys: set<string>): (r: Option<RuleViolation>)
    ensures r.None? <==>
      (version.None?
       || ((version.value >= 29.0 ==> "NotifyForOperations" !in keys)
           && (version.value <= 28.0 ==> keys * OPERATION_FLAGS == {})))
  {
    if version.None? then None
    else if version.value >= 29.0 && "NotifyForOperations" in keys then Some(OperationsFieldTooNew)
    else if version.value <= 28.0 && keys * OPERATION_FLAGS != {} then Some(OperationFlagsTooOld)
    else None
  }

  /** A StreamingChannel spec is a single identifying field or any larger
      set of fields; an empty spec is refused. */
  function StreamingChannelFieldsViolation(keys: set<string>): (r: Option<RuleViolation>)
    ensures r.None? <==> (|keys| == 1 && ("Id" in keys || "Name" in keys)) || |keys| > 1
    ensures r == Some(NoFields) <==> keys == {}
  {
    if |keys| == 1 then
      if keys * IDENTIFIER_FIELDS == {} then
        assert "Id" !in keys && "Name" !in keys by {
          assert "Id" !in keys * IDENTIFIER_FIELDS && "Name" !in keys * IDENTIFIER_FIELDS;
        }
        Some(SingleFieldNotIdentifier)
      else
        assert "Id" in keys || "Name" in keys by {
          var k :| k in keys * IDENTIFIER_FIELDS;
        }
        None
    else if keys == {} then Some(NoFields)
    else None
  }

  /** The ApiVersion of loaded data, when it was loaded. */
  function VersionOf(data: map<string, Json>): Option<real> {
    if "ApiVersion" in data && data["ApiVersion"].JNum? then Some(data["ApiVersion"].n) else None
  }

  function Report(v: Option<RuleViolation>): Errors {
    if v.Some? then {LoadError([], RuleFailed(v.value))} else {}
  }

  /** The errors one schema rule reports on the loaded data; `original`
      holds the keys of the value being loaded. */
  function RuleErrorsOf(rule: SchemaRule, data: map<string, Json>, original: set<string>, declared: set<string>): Errors {
    match rule
    case RejectUnknownFields => UnknownErrors(original, declared)
    case PushTopicRequiredFields => Report(PushTopicFieldsViolation(data.Keys))
    case PushTopicApiVersion => Report(ApiVersionViolation(VersionOf(data), data.Keys))
    case StreamingChannelRequiredFields => Report(StreamingChannelFieldsViolation(data.Keys))
  }

  /** Every rule runs and reports its errors. */
  function RuleErrors(rules: seq<SchemaRule>, data: map<string, Json>, original: set<string>, declared: set<string>): Errors {
    set i, e | 0 <= i < |rules| && e in RuleErrorsOf(rules[i], data, original, declared) :: e
  }

  lemma RuleErrorsEmpty(rules: seq<SchemaRule>, data: map<string, Json>, original: set<string>, declared: set<string>)
    ensures RuleErrors(rules, data, original, declared) == {} <==>
      forall i :: 0 <= i < |rules| ==> RuleErrorsOf(rules[i], data, original, declared) == {}
  {
    if exists i :: 0 <= i < |rules| && RuleErrorsOf(rules[i], data, original, declared) != {} {
      var i :| 0 <= i < |rules| && RuleErrorsOf(rules[i], data, original, declared) != {};
      var e :| e in RuleErrorsOf(rules[i], data, original, declared);
      assert e in RuleErrors(rules, data, original, declared);
    }
  }

  // ---------------------------------------------------------------------
  // Loading
  // ---------------------------------------------------------------------

  /** Loads a value with a schema: it must be an object. */
  function Load(t: Table, sem: Semantics, name: SchemaName, v: Json): Result<Json, Errors>
    decreases v, 4, 0
  {
    match v
    case JObj(m) => LoadObject(t, sem, name, m)
    case _ => Failure({LoadError([], WrongType)})
  }

  /** A declared field entry loads: present and deserialized, or absent but
      not required. */
  predicate EntryOk(t: Table, sem: Semantics, entry: (string, Field), m: map<string, Json>)
    decreases JObj(m), 0, 0
  {
    if entry.0 in m then LoadField(t, sem, entry.1, m[entry.0]).Success? else !entry.1.required
  }

  function EntryErrors(t: Table, sem: Semantics, entry: (string, Field), m: map<string, Json>): Errors
    decreases JObj(m), 0, 0
  {
    if entry.0 in m then Under(Key(entry.0), ErrorsOf(LoadField(t, sem, entry.1, m[entry.0])))
    else if entry.1.required then {LoadError([Key(entry.0)], MissingField)}
    else {}
  }

  predicate FieldsOk(t: Table, sem: Semantics, fs: seq<(string, Field)>, m: map<string, Json>)
    decreases JObj(m), 2, 0
  {
    forall i :: 0 <= i < |fs| ==> EntryOk(t, sem, fs[i], m)
  }

  function FieldErrors(t: Table, sem: Semantics, fs: seq<(string, Field)>, m: map<string, Json>): Errors
    decreases JObj(m), 2, 0
  {
    set i, e | 0 <= i < |fs| && e in EntryErrors(t, sem, fs[i], m) :: e
  }

  /** An entry puts a value into the loaded data: its deserialized value
      when present and valid, its `missing` value when absent. */
  predicate Contributes(t: Table, sem: Semantics, entry: (string, Field), m: map<string, Json>)
    decreases JObj(m), 0, 0
  {
    if entry.0 in m then LoadField(t, sem, entry.1, m[entry.0]).Success? else entry.1.missing.Some?
  }

  function Contribution(t: Table, sem: Semantics, entry: (string, Field), m: map<string, Json>): Json
    requires Contributes(t, sem, entry, m)
    decreases JObj(m), 1, 0
  {
    if entry.0 in m then LoadField(t, sem, entry.1, m[entry.0]).value else entry.1.missing.value
  }

  /** The loaded data: fields in declaration order, each stored under its
      attribute name; fields that fail or are absent without a `missing`
      value are left out. */
  function LoadedData(t: Table, sem: Semantics, fs: seq<(string, Field)>, m: map<string, Json>): map<string, Json>
    decreases JObj(m), 2, |fs|
  {
    if fs == [] then map[]
    else
      var data := LoadedData(t, sem, fs[..|fs| - 1], m);
      var entry := fs[|fs| - 1];
      if Contributes(t, sem, entry, m) then data[AttrOf(entry.0, entry.1) := Contribution(t, sem, entry, m)]
      else data
  }

  /** Loads an object: fields, unknown keys, schema rules, post-load step. */
  function LoadObject(t: Table, sem: Semantics, name: SchemaName, m: map<string, Json>): Result<Json, Errors>
    decreases JObj(m), 3, 0
  {
    var def := t(name);
    var declared := Declared(def.fields);
    var unknown := if sem.unknownAsFieldError then UnknownErrors(m.Keys, declared) else {};
    var fieldsClean := FieldsOk(t, sem, def.fields, m) && unknown == {};
    var data := LoadedData(t, sem, def.fields, m);
    var ruleErrors := if sem.rulesNeedValidFields && !fieldsClean then {}
                      else RuleErrors(def.rules, data, m.Keys, declared);
    if fieldsClean && ruleErrors == {} then AfterLoad(t, sem, def.postLoad, data, m)
    else Failure(FieldErrors(t, sem, def.fields, m) + unknown + ruleErrors)
  }

  /** The post-load step. LoadSpecByType loads the `spec` field again with
      the schema of the resource type; the Dict field keeps the spec as it
      is (DictKeepsValue), so the raw spec is what gets loaded. A type
      without a schema cannot reach this step in the tables of this model,
      because `type` is validated by OneOf first. */
  function AfterLoad(t: Table, sem: Semantics, post: PostLoad, data: map<string, Json>, m: map<string, Json>): Result<Json, Errors>
    decreases JObj(m), 2, 0
  {
    match post
    case KeepData => Success(JObj(data))
    case LoadSpecByType =>
      if "resource_type" in data && "spec" in m && SpecSchemaFor(data["resource_type"]).Some? then
        match Load(t, sem, SpecSchemaFor(data["resource_type"]).value, m["spec"])
        case Success(spec) => Success(JObj(data["resource_spec" := spec]))
        case Failure(es) => Failure(es)
      else Failure({LoadError([Key("type")], NoSchemaForType)})
  }

  /** Loads the field value `v`: null, then the kind's deserialization,
      then every validator. */
  function LoadField(t: Table, sem: Semantics, f: Field, v: Json): Result<Json, Errors>
    decreases v, 5, 0
  {
    if v == JNull then
      if f.allowNone then Success(JNull) else Failure({LoadError([], NullValue)})
    else
      var r: Result<Json, Errors> := match f.kind
        case StringKind => if v.JStr? then Success(v) else Failure({LoadError([], WrongType)})
        case FloatKind => if v.JNum? then Success(v) else Failure({LoadError([], WrongType)})
        case BoolKind => if v.JBool? then Success(v) else Failure({LoadError([], WrongType)})
        case IntKind =>
          if v.JNum? then Success(JNum(TruncateTowardZero(v.n) as real)) else Failure({LoadError([], WrongType)})
        case UrlKind(schemes) =>
          if !v.JStr? then Failure({LoadError([], WrongType)})
          else if UrlValid(schemes, v.s) then Success(v)
          else Failure({LoadError([], InvalidUrl)})
        case DictKind(keys, values) =>
          if v.JObj? then LoadDict(t, sem, keys, values, v.fields) else Failure({LoadError([], WrongType)})
        case ListKind(item) =>
          if v.JArr? then
            match LoadItems(t, sem, item, v.items, 0)
            case Success(ys) => Success(JArr(ys))
            case Failure(es) => Failure(es)
          else Failure({LoadError([], WrongType)})
        case NestedKind(s) => Load(t, sem, s, v);
      match r
      case Failure(es) => Failure(es)
      case Success(x) =>
        var es := ValidatorErrors(f.validators, x);
        if es == {} then Success(x) else Failure(es)
  }

  /** Loads a dictionary: every key is checked, then every value when
      there is a value field. */
  function LoadDict(t: Table, sem: Semantics, keys: seq<Validator>, values: Option<Field>, m: map<string, Json>): Result<Json, Errors>
    decreases JObj(m), 1, 0
  {
    var keyErrors := set k, i | k in m && 0 <= i < |keys| && ValidatorProblem(keys[i], JStr(k)).Some? ::
                       LoadError([Key(k)], ValidatorProblem(keys[i], JStr(k)).value);
    match values
    case None => if keyErrors == {} then Success(JObj(m)) else Failure(keyErrors)
    case Some(vf) =>
      if keyErrors == {} && forall k :: k in m ==> LoadField(t, sem, vf, m[k]).Success? then
        Success(JObj(map k | k in m :: LoadField(t, sem, vf, m[k]).value))
      else
        Failure(keyErrors + set k, e | k in m && e in ErrorsOf(LoadField(t, sem, vf, m[k])) ::
                                 LoadError([Key(k)] + e.path, e.problem))
  }

  /** Loads the items of a list from index `i` on. */
  function LoadItems(t: Table, sem: Semantics, f: Field, xs: seq<Json>, i: nat): Result<seq<Json>, Errors>
    requires i <= |xs|
    decreases JArr(xs), 1, |xs| - i
  {
    if i == |xs| then Success([])
    else
      var head := LoadField(t, sem, f, xs[i]);
      var tail := LoadItems(t, sem, f, xs, i + 1);
      if head.Success? && tail.Success? then Success([head.value] + tail.value)
      else Failure(Under(Index(i), ErrorsOf(head)) + ErrorsOf(tail))
  }

  // ---------------------------------------------------------------------
  // Properties of loading
  // ---------------------------------------------------------------------

  /** An object loads exactly when its declared fields load, it has no
      unknown key (where unknown keys are field errors), every schema rule
      accepts the loaded data and the post-load step succeeds. */
  lemma LoadVerdict(t: Table, sem: Semantics, name: SchemaName, m: map<string, Json>)
    ensures var def := t(name);
      var data := LoadedData(t, sem, def.fields, m);
      Load(t, sem, name, JObj(m)).Success? <==>
        && FieldsOk(t, sem, def.fields, m)
        && (sem.unknownAsFieldError ==> m.Keys <= Declared(def.fields))
        && RuleErrors(def.rules, data, m.Keys, Declared(def.fields)) == {}
        && AfterLoad(t, sem, def.postLoad, data, m).Success?
  {
  }

  /** A key that is not a declared field makes loading fail with an
      UnknownField error under that key: as a field error under
      marshmallow 3, through the RejectUnknownFields rule under
      marshmallow 2, whose rules always run. */
  lemma UnknownFieldRejected(t: Table, sem: Semantics, name: SchemaName, m: map<string, Json>, k: string)
    requires k in m && k !in Declared(t(name).fields)
    requires sem.unknownAsFieldError || (!sem.rulesNeedValidFields && RejectUnknownFields in t(name).rules)
    ensures Load(t, sem, name, JObj(m)).Failure?
    ensures LoadError([Key(k)], UnknownField) in Load(t, sem, name, JObj(m)).error
  {
    var def := t(name);
    var declared := Declared(def.fields);
    var data := LoadedData(t, sem, def.fields, m);
    assert LoadError([Key(k)], UnknownField) in UnknownErrors(m.Keys, declared);
    if !sem.unknownAsFieldError {
      var i :| 0 <= i < |def.rules| && def.rules[i] == RejectUnknownFields;
      assert LoadError([Key(k)], UnknownField) in RuleErrorsOf(def.rules[i], data, m.Keys, declared);
      assert LoadError([Key(k)], UnknownField) in RuleErrors(def.rules, data, m.Keys, declared);
    }
  }

  /** An absent required field makes loading fail with a MissingField
      error under its name. */
  lemma RequiredFieldRejected(t: Table, sem: Semantics, name: SchemaName, m: map<string, Json>, i: nat)
    requires i < |t(name).fields| && t(name).fields[i].1.required && t(name).fields[i].0 !in m
    ensures Load(t, sem, name, JObj(m)).Failure?
    ensures LoadError([Key(t(name).fields[i].0)], MissingField) in Load(t, sem, name, JObj(m)).error
  {
    var fs := t(name).fields;
    assert !EntryOk(t, sem, fs[i], m);
    assert LoadError([Key(fs[i].0)], MissingField) in EntryErrors(t, sem, fs[i], m);
    assert LoadError([Key(fs[i].0)], MissingField) in FieldErrors(t, sem, fs, m);
    assert !FieldsOk(t, sem, fs, m);
    assert Load(t, sem, name, JObj(m)) == LoadObject(t, sem, name, m);
  }

  /** A present field whose value does not load makes the object fail,
      and each of the field's errors is reported under the field's name. */
  lemma InvalidFieldRejected(t: Table, sem: Semantics, name: SchemaName, m: map<string, Json>, i: nat)
    requires i < |t(name).fields| && t(name).fields[i].0 in m
    requires LoadField(t, sem, t(name).fields[i].1, m[t(name).fields[i].0]).Failure?
    ensures Load(t, sem, name, JObj(m)).Failure?
    ensures Under(Key(t(name).fields[i].0), LoadField(t, sem, t(name).fields[i].1, m[t(name).fields[i].0]).error)
            <= Load(t, sem, name, JObj(m)).error
  {
    var fs := t(name).fields;
    var errs := LoadField(t, sem, fs[i].1, m[fs[i].0]).error;
    assert !EntryOk(t, sem, fs[i], m);
    assert EntryErrors(t, sem, fs[i], m) == Under(Key(fs[i].0), errs);
    forall e | e in Under(Key(fs[i].0), errs)
      ensures e in FieldErrors(t, sem, fs, m)
    {
      assert e in EntryErrors(t, sem, fs[i], m);
    }
    assert !FieldsOk(t, sem, fs, m);
    assert Load(t, sem, name, JObj(m)) == LoadObject(t, sem, name, m);
  }

  /** The keys of the loaded data are the attribute names of the entries
      that contribute a value. */
  lemma {:induction false} LoadedDataKeys(t: Table, sem: Semantics, fs: seq<(string, Field)>, m: map<string, Json>)
    ensures forall a :: a in LoadedData(t, sem, fs, m) <==>
      exists i :: 0 <= i < |fs| && AttrOf(fs[i].0, fs[i].1) == a && Contributes(t, sem, fs[i], m)
  {
    if fs != [] {
      var init := fs[..|fs| - 1];
      LoadedDataKeys(t, sem, init, m);
      assert forall i :: 0 <= i < |init| ==> init[i] == fs[i];
    }
  }

  /** No two fields load under the same key. */
  predicate DistinctAttributes(fs: seq<(string, Field)>) {
    forall i, j :: 0 <= i < j < |fs| ==> AttrOf(fs[i].0, fs[i].1) != AttrOf(fs[j].0, fs[j].1)
  }

  /** With distinct attribute names, a contributing entry's value is what
      the loaded data holds under its attribute name. */
  lemma {:induction false} LoadedDataValue(t: Table, sem: Semantics, fs: seq<(string, Field)>, m: map<string, Json>, i: nat)
    requires DistinctAttributes(fs) && i < |fs| && Contributes(t, sem, fs[i], m)
    ensures AttrOf(fs[i].0, fs[i].1) in LoadedData(t, sem, fs, m)
    ensures LoadedData(t, sem, fs, m)[AttrOf(fs[i].0, fs[i].1)] == Contribution(t, sem, fs[i], m)
  {
    var init := fs[..|fs| - 1];
    if i < |fs| - 1 {
      assert init[i] == fs[i];
      assert DistinctAttributes(init) by {
        forall a, b | 0 <= a < b < |init|
          ensures AttrOf(init[a].0, init[a].1) != AttrOf(init[b].0, init[b].1)
        {
          assert init[a] == fs[a] && init[b] == fs[b];
        }
      }
      LoadedDataValue(t, sem, init, m, i);
    }
  }

  /** A dictionary field without key or value fields and without
      validators loads any object as it is. */
  lemma DictKeepsValue(t: Table, sem: Semantics, f: Field, x: map<string, Json>)
    requires f.kind == DictKind([], None) && f.validators == []
    ensures LoadField(t, sem, f, JObj(x)) == Success(JObj(x))
  {
  }

  /** A dictionary field without a value field loads an object exactly
      when every key passes every key validator, and keeps it. */
  lemma DictKeysChecked(t: Table, sem: Semantics, keys: seq<Validator>, m: map<string, Json>)
    ensures LoadDict(t, sem, keys, None, m).Success? <==>
      forall k, i :: k in m && 0 <= i < |keys| ==> ValidatorProblem(keys[i], JStr(k)).None?
    ensures LoadDict(t, sem, keys, None, m).Success? ==> LoadDict(t, sem, keys, None, m).value == JObj(m)
  {
    if exists k, i :: k in m && 0 <= i < |keys| && ValidatorProblem(keys[i], JStr(k)).Some? {
      var k, i :| k in m && 0 <= i < |keys| && ValidatorProblem(keys[i], JStr(k)).Some?;
      var e := LoadError([Key(k)], ValidatorProblem(keys[i], JStr(k)).value);
      assert e in ErrorsOf(LoadDict(t, sem, keys, None, m));
    }
  }

  /** When every field keeps its name, has no `missing` value and loads
      each present value as it is, the loaded data is the input itself,
      provided that it has no undeclared key. */
  lemma LoadedDataIsInput(t: Table, sem: Semantics, fs: seq<(string, Field)>, m: map<string, Json>)
    requires forall i :: 0 <= i < |fs| ==> fs[i].1.attribute.None? && fs[i].1.missing.None?
    requires forall i :: 0 <= i < |fs| && fs[i].0 in m ==> LoadField(t, sem, fs[i].1, m[fs[i].0]) == Success(m[fs[i].0])
    requires DistinctAttributes(fs) && m.Keys <= Declared(fs)
    ensures LoadedData(t, sem, fs, m) == m
  {
    var data := LoadedData(t, sem, fs, m);
    LoadedDataKeys(t, sem, fs, m);
    forall a | a in m
      ensures a in data && data[a] == m[a]
    {
      var i :| 0 <= i < |fs| && fs[i].0 == a;
      assert AttrOf(fs[i].0, fs[i].1) == a;
      LoadedDataValue(t, sem, fs, m, i);
    }
  }

  /** The JSON type a string, float or boolean field accepts. */
  predicate ScalarAccepts(k: Kind, x: Json) {
    match k
    case StringKind => x.JStr?
    case FloatKind => x.JNum?
    case BoolKind => x.JBool?
    case _ => false
  }

  /** A string, float or boolean field that refuses null loads exactly the
      values of its JSON type that pass its validators, and keeps them. */
  lemma ScalarFieldLoads(t: Table, sem: Semantics, f: Field, x: Json)
    requires f.kind == StringKind || f.kind == FloatKind || f.kind == BoolKind
    requires !f.allowNone
    ensures LoadField(t, sem, f, x).Success? <==>
      ScalarAccepts(f.kind, x) && forall i :: 0 <= i < |f.validators| ==> ValidatorProblem(f.validators[i], x).None?
    ensures LoadField(t, sem, f, x).Success? ==> LoadField(t, sem, f, x).value == x
  {
    ValidatorErrorsEmpty(f.validators, x);
  }

  /** What an object that loads satisfies, when unknown keys are refused
      either as field errors or by a rule that always runs: every declared
      field loads, every key is declared and every rule passes. */
  lemma LoadedObjectFacts(t: Table, sem: Semantics, name: SchemaName, m: map<string, Json>)
    requires sem.unknownAsFieldError || (!sem.rulesNeedValidFields && RejectUnknownFields in t(name).rules)
    requires Load(t, sem, name, JObj(m)).Success?
    ensures FieldsOk(t, sem, t(name).fields, m)
    ensures m.Keys <= Declared(t(name).fields)
    ensures RuleErrors(t(name).rules, LoadedData(t, sem, t(name).fields, m), m.Keys, Declared(t(name).fields)) == {}
  {
    LoadVerdict(t, sem, name, m);
    forall k | k in m
      ensures k in Declared(t(name).fields)
    {
      if k !in Declared(t(name).fields) {
        UnknownFieldRejected(t, sem, name, m, k);
      }
    }
  }

  /** An object whose fields load, that has no unknown key where unknown
      keys are field errors and whose rules pass loads to what the
      post-load step yields. */
  lemma LoadedObjectValue(t: Table, sem: Semantics, name: SchemaName, m: map<string, Json>)
    requires FieldsOk(t, sem, t(name).fields, m)
    requires sem.unknownAsFieldError ==> m.Keys <= Declared(t(name).fields)
    requires RuleErrors(t(name).rules, LoadedData(t, sem, t(name).fields, m), m.Keys, Declared(t(name).fields)) == {}
    ensures Load(t, sem, name, JObj(m)) == AfterLoad(t, sem, t(name).postLoad, LoadedData(t, sem, t(name).fields, m), m)
  {
  }

  /** A schema whose fields keep their names and have no `missing`
      values, with no post-load step: an object of declared keys whose
      fields all load unchanged is accepted, unchanged, exactly when its
      rules pass on the object itself. */
  lemma UnchangedLoad(t: Table, sem: Semantics, name: SchemaName, m: map<string, Json>)
    requires var fs := t(name).fields;
      && t(name).postLoad == KeepData
      && (forall i :: 0 <= i < |fs| ==> fs[i].1.attribute.None? && fs[i].1.missing.None?)
      && DistinctAttributes(fs) && m.Keys <= Declared(fs)
      && (forall i :: 0 <= i < |fs| ==> fs[i].0 in m || !fs[i].1.required)
      && (forall i :: 0 <= i < |fs| && fs[i].0 in m ==> LoadField(t, sem, fs[i].1, m[fs[i].0]) == Success(m[fs[i].0]))
    ensures Load(t, sem, name, JObj(m)).Success? <==> RuleErrors(t(name).rules, m, m.Keys, Declared(t(name).fields)) == {}
    ensures Load(t, sem, name, JObj(m)).Success? ==> Load(t, sem, name, JObj(m)).value == JObj(m)
  {
    var fs := t(name).fields;
    LoadVerdict(t, sem, name, m);
    LoadedDataIsInput(t, sem, fs, m);
    assert FieldsOk(t, sem, fs, m) by {
      forall i | 0 <= i < |fs|
        ensures EntryOk(t, sem, fs[i], m)
      {
      }
    }
  }
}

