/** The configuration schemas of rabbit_force/config_schema.py, loaded
    with marshmallow 2 semantics: unknown keys are refused by a schema
    rule of the common base schema, and every schema rule runs on the data
    of the fields that loaded. The field lists that config.py declares
    identically are defined here once. */
module ConfigSchema {
  import opened Common
  import opened SchemaLoad

  const NonEmpty: Validator := Length(Some(1), None)

  const PushTopicFields: seq<(string, Field)> := [
    ("Id", Field(StringKind, [NonEmpty])),
    ("Name", Field(StringKind, [Length(Some(1), Some(25))])),
    ("ApiVersion", Field(FloatKind, [Range(20.0, 42.0)])),
    ("IsActive", Field(BoolKind)),
    ("NotifyForFields", Field(StringKind, [OneOf({"All", "Referenced", "Select", "Where"})])),
    ("Description", Field(StringKind, [Length(None, Some(400))])),
    ("NotifyForOperationCreate", Field(BoolKind)),
    ("NotifyForOperationUpdate", Field(BoolKind)),
    ("NotifyForOperationDelete", Field(BoolKind)),
    ("NotifyForOperationUndelete", Field(BoolKind)),
    ("NotifyForOperations", Field(StringKind, [OneOf({"All", "Create", "Extended", "Update"})])),
    ("Query", Field(StringKind, [Length(Some(1), Some(1300))]))
  ]

  const StreamingChannelFields: seq<(string, Field)> := [
    ("Id", Field(StringKind, [NonEmpty])),
    ("Name", Field(StringKind, [Length(Some(1), Some(80))])),
    ("Description", Field(StringKind, [Length(None, Some(255))]))
  ]

  /** The values of the streaming resource type enumeration. */
  const RESOURCE_TYPE_NAMES: set<string> := {"PushTopic", "StreamingChannel"}

  const StreamingResourceFields: seq<(string, Field)> := [
    ("type", Field(StringKind, [OneOf(RESOURCE_TYPE_NAMES)], required := true, attribute := Some("resource_type"))),
    ("spec", Field(DictKind([], None), required := true, attribute := Some("resource_spec"))),
    ("durable", Field(BoolKind))
  ]

  const SalesforceOrgFields: seq<(string, Field)> := [
    ("consumer_key", Field(StringKind, required := true)),
    ("consumer_secret", Field(StringKind, required := true)),
    ("username", Field(StringKind, required := true)),
    ("password", Field(StringKind, required := true)),
    ("resources", Field(ListKind(Field(NestedKind(StreamingResourceSchema))), [NonEmpty], required := true,
                        attribute := Some("streaming_resource_specs")))
  ]

  const ReplayFields: seq<(string, Field)> := [
    ("address", Field(UrlKind({"redis"}), required := true)),
    ("key_prefix", Field(StringKind))
  ]

  const MessageSourceFields: seq<(string, Field)> := [
    ("orgs", Field(DictKind([], Some(Field(NestedKind(SalesforceOrgSchema)))), [NonEmpty], required := true,
                   attribute := Some("org_specs"))),
    ("replay", Field(NestedKind(ReplaySchema), attribute := Some("replay_spec")))
  ]

  const EXCHANGE_TYPES: set<string> := {"fanout", "direct", "topic", "headers"}

  const AmqpExchangeFields: seq<(string, Field)> := [
    ("exchange_name", Field(StringKind, [NonEmpty], required := true)),
    ("type_name", Field(StringKind, [OneOf(EXCHANGE_TYPES)], required := true)),
    ("passive", Field(BoolKind)),
    ("durable", Field(BoolKind)),
    ("auto_delete", Field(BoolKind)),
    ("no_wait", Field(BoolKind)),
    ("arguments", Field(DictKind([], None), allowNone := true))
  ]

  const AmqpBrokerFields: seq<(string, Field)> := [
    ("host", Field(StringKind, [NonEmpty], required := true)),
    ("port", Field(IntKind, [Range(1.0, 65535.0)], allowNone := true)),
    ("login", Field(StringKind)),
    ("password", Field(StringKind)),
    ("virtualhost", Field(StringKind)),
    ("ssl", Field(BoolKind)),
    ("verify_ssl", Field(BoolKind)),
    ("login_method", Field(StringKind)),
    ("insist", Field(BoolKind)),
    ("exchanges", Field(ListKind(Field(NestedKind(AmqpExchangeSchema))), [NonEmpty], required := true,
                        attribute := Some("exchange_specs")))
  ]

  const MessageSinkFields: seq<(string, Field)> := [
    ("brokers", Field(DictKind([], Some(Field(NestedKind(AmqpBrokerSchema)))), [NonEmpty], required := true,
                      attribute := Some("broker_specs")))
  ]

  /** Route parameters; in this module properties map strings to strings. */
  const RouteFields: seq<(string, Field)> := [
    ("broker_name", Field(StringKind, [NonEmpty], required := true)),
    ("exchange_name", Field(StringKind, required := true)),
    ("routing_key", Field(StringKind, [NonEmpty], required := true)),
    ("properties", Field(DictKind([], Some(Field(StringKind))), allowNone := true))
  ]

  const RoutingRuleFields: seq<(string, Field)> := [
    ("condition", Field(StringKind, [NonEmpty], required := true, attribute := Some("condition_spec"))),
    ("route", Field(NestedKind(RouteSchema), required := true, attribute := Some("route_spec")))
  ]

  /** Router parameters; in this module an absent rule list stays absent. */
  const MessageRouterFields: seq<(string, Field)> := [
    ("default_route", Field(NestedKind(RouteSchema), required := true, allowNone := true,
                            attribute := Some("default_route_spec"))),
    ("rules", Field(ListKind(Field(NestedKind(RoutingRuleSchema))), attribute := Some("rule_specs")))
  ]

  const ApplicationConfigFields: seq<(string, Field)> := [
    ("source", Field(NestedKind(MessageSourceSchema), required := true)),
    ("sink", Field(NestedKind(MessageSinkSchema), required := true)),
    ("router", Field(NestedKind(MessageRouterSchema), required := true))
  ]

  /** Every schema of the module, each with the unknown-field rule of the
      common base schema before its own rules. */
  function Schemas(name: SchemaName): SchemaDef {
    match name
    case PushTopicSchema =>
      SchemaDef(PushTopicFields, [RejectUnknownFields, PushTopicRequiredFields, PushTopicApiVersion])
    case StreamingChannelSchema =>
      SchemaDef(StreamingChannelFields, [RejectUnknownFields, StreamingChannelRequiredFields])
    case StreamingResourceSchema =>
      SchemaDef(StreamingResourceFields, [RejectUnknownFields], LoadSpecByType)
    case SalesforceOrgSchema => SchemaDef(SalesforceOrgFields, [RejectUnknownFields])
    case ReplaySchema => SchemaDef(ReplayFields, [RejectUnknownFields])
    case MessageSourceSchema => SchemaDef(MessageSourceFields, [RejectUnknownFields])
    case AmqpExchangeSchema => SchemaDef(AmqpExchangeFields, [RejectUnknownFields])
    case AmqpBrokerSchema => SchemaDef(AmqpBrokerFields, [RejectUnknownFields])
    case MessageSinkSchema => SchemaDef(MessageSinkFields, [RejectUnknownFields])
    case RouteSchema => SchemaDef(RouteFields, [RejectUnknownFields])
    case RoutingRuleSchema => SchemaDef(RoutingRuleFields, [RejectUnknownFields])
    case MessageRouterSchema => SchemaDef(MessageRouterFields, [RejectUnknownFields])
    case ApplicationConfigSchema => SchemaDef(ApplicationConfigFields, [RejectUnknownFields])
  }

  // ---------------------------------------------------------------------
  // What a valid PushTopic spec is, stated without the loader
  // ---------------------------------------------------------------------

  const PUSH_TOPIC_FIELD_NAMES: set<string> := {
    "Id", "Name", "ApiVersion", "IsActive", "NotifyForFields", "Description",
    "NotifyForOperationCreate", "NotifyForOperationUpdate", "NotifyForOperationDelete",
    "NotifyForOperationUndelete", "NotifyForOperations", "Query"}

  /** A string whose length lies in [low, high]. */
  predicate TextWithin(x: Json, low: nat, high: nat) {
    x.JStr? && low <= |x.s| <= high
  }

  /** The value constraints of each PushTopic field, after the Salesforce
      PushTopic object: a non-empty Id, a Name of at most 25 characters, an
      API version between 20.0 and 42.0, booleans for the flags, the
      allowed NotifyForFields and NotifyForOperations values, a Description
      of at most 400 characters and a Query of at most 1300. */
  predicate PushTopicFieldValid(k: string, x: Json) {
    if k == "Id" then x.JStr? && |x.s| >= 1
    else if k == "Name" then TextWithin(x, 1, 25)
    else if k == "ApiVersion" then x.JNum? && 20.0 <= x.n <= 42.0
    else if k == "NotifyForFields" then x.JStr? && x.s in {"All", "Referenced", "Select", "Where"}
    else if k == "Description" then x.JStr? && |x.s| <= 400
    else if k == "NotifyForOperations" then x.JStr? && x.s in {"All", "Create", "Extended", "Update"}
    else if k == "Query" then TextWithin(x, 1, 1300)
    else k in PUSH_TOPIC_FIELD_NAMES && x.JBool?
  }

  /** Only PushTopic fields have valid values. */
  lemma PushTopicFieldKnown(k: string, x: Json)
    requires PushTopicFieldValid(k, x)
    ensures k in PUSH_TOPIC_FIELD_NAMES
  {
  }

  /** A PushTopic spec that the configuration accepts: known fields with
      valid values, an identifier alone or a full definition, and only
      the operation fields of its API version. */
  predicate PushTopicSpecValid(m: map<string, Json>) {
    && (forall k :: k in m ==> PushTopicFieldValid(k, m[k]))
    && PushTopicFieldsViolation(m.Keys).None?
    && ApiVersionViolation(VersionOf(m), m.Keys).None?
  }

  /** Each PushTopic field loads exactly the values the reference accepts,
      and loads them unchanged. */
  lemma PushTopicFieldLoads(t: Table, sem: Semantics, i: nat, x: Json)
    requires i < |PushTopicFields|
    ensures LoadField(t, sem, PushTopicFields[i].1, x).Success? <==> PushTopicFieldValid(PushTopicFields[i].0, x)
    ensures LoadField(t, sem, PushTopicFields[i].1, x).Success? ==> LoadField(t, sem, PushTopicFields[i].1, x).value == x
  {
    var (k, f) := PushTopicFields[i];
    ScalarFieldLoads(t, sem, f, x);
    if |f.validators| == 1 {
      var v := f.validators[0];
      if v.Length? && x.JStr? {
        assert ValidatorProblem(v, x).None? <==>
          (v.min.None? || v.min.value <= |x.s|) && (v.max.None? || |x.s| <= v.max.value);
      }
    }
  }

  lemma PushTopicDeclared()
    ensures Declared(PushTopicFields) == PUSH_TOPIC_FIELD_NAMES
  {
    var fs := PushTopicFields;
    assert fs[0].0 == "Id" && fs[1].0 == "Name" && fs[2].0 == "ApiVersion" && fs[3].0 == "IsActive";
    assert fs[4].0 == "NotifyForFields" && fs[5].0 == "Description" && fs[6].0 == "NotifyForOperationCreate";
    assert fs[7].0 == "NotifyForOperationUpdate" && fs[8].0 == "NotifyForOperationDelete";
    assert fs[9].0 == "NotifyForOperationUndelete" && fs[10].0 == "NotifyForOperations" && fs[11].0 == "Query";
  }

  /** No PushTopic field is required, renamed or given a `missing` value. */
  lemma PushTopicFieldsPlain()
    ensures forall i :: 0 <= i < |PushTopicFields| ==>
      PushTopicFields[i].1.attribute.None? && PushTopicFields[i].1.missing.None? && !PushTopicFields[i].1.required
  {
  }

  lemma PushTopicDistinct()
    ensures DistinctAttributes(PushTopicFields)
  {
  }

  /** The schema conditions under which PushTopicVerdict holds: the
      PushTopic fields, its two rules and possibly the unknown-field rule,
      no post-load step, and unknown keys refused either as field errors or
      by a rule that always runs. */
  predicate PushTopicSchemaOf(t: Table, sem: Semantics) {
    var def := t(PushTopicSchema);
    && def.fields == PushTopicFields && def.postLoad == KeepData
    && (forall j :: 0 <= j < |def.rules| ==>
          def.rules[j] in {RejectUnknownFields, PushTopicRequiredFields, PushTopicApiVersion})
    && PushTopicRequiredFields in def.rules && PushTopicApiVersion in def.rules
    && (sem.unknownAsFieldError || (!sem.rulesNeedValidFields && RejectUnknownFields in def.rules))
  }

  /** Fields that load are fields the reference accepts, loaded unchanged. */
  lemma PushTopicFieldsUnchanged(t: Table, sem: Semantics, m: map<string, Json>)
    requires FieldsOk(t, sem, PushTopicFields, m)
    ensures forall i :: 0 <= i < |PushTopicFields| && PushTopicFields[i].0 in m ==>
      LoadField(t, sem, PushTopicFields[i].1, m[PushTopicFields[i].0]) == Success(m[PushTopicFields[i].0])
    ensures forall k :: k in m && k in Declared(PushTopicFields) ==> PushTopicFieldValid(k, m[k])
  {
    var fs := PushTopicFields;
    forall i | 0 <= i < |fs| && fs[i].0 in m
      ensures LoadField(t, sem, fs[i].1, m[fs[i].0]) == Success(m[fs[i].0])
    {
      assert EntryOk(t, sem, fs[i], m);
      PushTopicFieldLoads(t, sem, i, m[fs[i].0]);
    }
    forall k | k in m && k in Declared(fs)
      ensures PushTopicFieldValid(k, m[k])
    {
      var i :| 0 <= i < |fs| && fs[i].0 == k;
      assert EntryOk(t, sem, fs[i], m);
      PushTopicFieldLoads(t, sem, i, m[k]);
    }
  }

  /** Fields the reference accepts load, unchanged. */
  lemma PushTopicValidFieldsLoad(t: Table, sem: Semantics, m: map<string, Json>)
    requires forall k :: k in m ==> PushTopicFieldValid(k, m[k])
    ensures FieldsOk(t, sem, PushTopicFields, m)
    ensures forall i :: 0 <= i < |PushTopicFields| && PushTopicFields[i].0 in m ==>
      LoadField(t, sem, PushTopicFields[i].1, m[PushTopicFields[i].0]) == Success(m[PushTopicFields[i].0])
  {
    var fs := PushTopicFields;
    forall i | 0 <= i < |fs| && fs[i].0 in m
      ensures LoadField(t, sem, fs[i].1, m[fs[i].0]) == Success(m[fs[i].0])
    {
      PushTopicFieldLoads(t, sem, i, m[fs[i].0]);
    }
    assert forall i :: 0 <= i < |fs| ==> EntryOk(t, sem, fs[i], m);
  }

  /** On data equal to the input, the PushTopic rules pass exactly when
      the reference's two rule conditions hold. */
  lemma PushTopicRulesPass(t: Table, sem: Semantics, m: map<string, Json>)
    requires PushTopicSchemaOf(t, sem) && m.Keys <= Declared(PushTopicFields)
    ensures RuleErrors(t(PushTopicSchema).rules, m, m.Keys, Declared(PushTopicFields)) == {} <==>
      PushTopicFieldsViolation(m.Keys).None? && ApiVersionViolation(VersionOf(m), m.Keys).None?
  {
    var rules := t(PushTopicSchema).rules;
    var declared := Declared(PushTopicFields);
    RuleErrorsEmpty(rules, m, m.Keys, declared);
    var jr :| 0 <= jr < |rules| && rules[jr] == PushTopicRequiredFields;
    var ja :| 0 <= ja < |rules| && rules[ja] == PushTopicApiVersion;
    assert RuleErrorsOf(rules[jr], m, m.Keys, declared) == Report(PushTopicFieldsViolation(m.Keys));
    assert RuleErrorsOf(rules[ja], m, m.Keys, declared) == Report(ApiVersionViolation(VersionOf(m), m.Keys));
  }

  /** A PushTopic spec that loads meets the reference and loads unchanged. */
  lemma PushTopicAccepted(t: Table, sem: Semantics, m: map<string, Json>)
    requires PushTopicSchemaOf(t, sem)
    requires Load(t, sem, PushTopicSchema, JObj(m)).Success?
    ensures PushTopicSpecValid(m)
    ensures Load(t, sem, PushTopicSchema, JObj(m)).value == JObj(m)
  {
    PushTopicDeclared();
    PushTopicDistinct();
    PushTopicFieldsPlain();
    LoadedObjectFacts(t, sem, PushTopicSchema, m);
    PushTopicFieldsUnchanged(t, sem, m);
    UnchangedLoad(t, sem, PushTopicSchema, m);
    PushTopicRulesPass(t, sem, m);
  }

  /** A PushTopic spec that meets the reference loads, unchanged. */
  lemma PushTopicValidLoads(t: Table, sem: Semantics, m: map<string, Json>)
    requires PushTopicSchemaOf(t, sem)
    requires PushTopicSpecValid(m)
    ensures Load(t, sem, PushTopicSchema, JObj(m)) == Success(JObj(m))
  {
    PushTopicDeclared();
    PushTopicDistinct();
    PushTopicFieldsPlain();
    forall k | k in m
      ensures k in PUSH_TOPIC_FIELD_NAMES
    {
      PushTopicFieldKnown(k, m[k]);
    }
    PushTopicValidFieldsLoad(t, sem, m);
    UnchangedLoad(t, sem, PushTopicSchema, m);
    PushTopicRulesPass(t, sem, m);
  }

  /** Loading with the PushTopic fields and rules accepts exactly the
      specs of the reference definition, and yields each accepted spec
      unchanged, under either library semantics. */
  lemma PushTopicVerdict(t: Table, sem: Semantics, m: map<string, Json>)
    requires PushTopicSchemaOf(t, sem)
    ensures Load(t, sem, PushTopicSchema, JObj(m)).Success? <==> PushTopicSpecValid(m)
    ensures Load(t, sem, PushTopicSchema, JObj(m)).Success? ==> Load(t, sem, PushTopicSchema, JObj(m)).value == JObj(m)
  {
    if Load(t, sem, PushTopicSchema, JObj(m)).Success? {
      PushTopicAccepted(t, sem, m);
    }
    if PushTopicSpecValid(m) {
      PushTopicValidLoads(t, sem, m);
    }
  }

  // ---------------------------------------------------------------------
  // What a valid StreamingChannel spec is, stated without the loader
  // ---------------------------------------------------------------------

  /** A non-empty Id, a Name of at most 80 characters and a Description
      of at most 255; no other field. */
  predicate StreamingChannelFieldValid(k: string, x: Json) {
    if k == "Id" then x.JStr? && |x.s| >= 1
    else if k == "Name" then TextWithin(x, 1, 80)
    else if k == "Description" then x.JStr? && |x.s| <= 255
    else false
  }

  /** A StreamingChannel spec that the configuration accepts. */
  predicate StreamingChannelSpecValid(m: map<string, Json>) {
    && (forall k :: k in m ==> StreamingChannelFieldValid(k, m[k]))
    && StreamingChannelFieldsViolation(m.Keys).None?
  }

  lemma StreamingChannelFieldLoads(t: Table, sem: Semantics, i: nat, x: Json)
    requires i < |StreamingChannelFields|
    ensures LoadField(t, sem, StreamingChannelFields[i].1, x).Success? <==>
      StreamingChannelFieldValid(StreamingChannelFields[i].0, x)
    ensures LoadField(t, sem, StreamingChannelFields[i].1, x).Success? ==>
      LoadField(t, sem, StreamingChannelFields[i].1, x).value == x
  {
    var (k, f) := StreamingChannelFields[i];
    ScalarFieldLoads(t, sem, f, x);
    var v := f.validators[0];
    if x.JStr? {
      assert ValidatorProblem(v, x).None? <==>
        (v.min.None? || v.min.value <= |x.s|) && (v.max.None? || |x.s| <= v.max.value);
    }
  }

  lemma StreamingChannelFieldsFacts()
    ensures Declared(StreamingChannelFields) == {"Id", "Name", "Description"}
    ensures DistinctAttributes(StreamingChannelFields)
    ensures forall i :: 0 <= i < |StreamingChannelFields| ==>
      StreamingChannelFields[i].1.attribute.None? && StreamingChannelFields[i].1.missing.None?
      && !StreamingChannelFields[i].1.required
  {
    var fs := StreamingChannelFields;
    assert fs[0].0 == "Id" && fs[1].0 == "Name" && fs[2].0 == "Description";
  }

  /** The schema conditions under which StreamingChannelVerdict holds. */
  predicate StreamingChannelSchemaOf(t: Table, sem: Semantics) {
    var def := t(StreamingChannelSchema);
    && def.fields == StreamingChannelFields && def.postLoad == KeepData
    && (forall j :: 0 <= j < |def.rules| ==> def.rules[j] in {RejectUnknownFields, StreamingChannelRequiredFields})
    && StreamingChannelRequiredFields in def.rules
    && (sem.unknownAsFieldError || (!sem.rulesNeedValidFields && RejectUnknownFields in def.rules))
  }

  lemma StreamingChannelRulesPass(t: Table, sem: Semantics, m: map<string, Json>)
    requires StreamingChannelSchemaOf(t, sem) && m.Keys <= Declared(StreamingChannelFields)
    ensures RuleErrors(t(StreamingChannelSchema).rules, m, m.Keys, Declared(StreamingChannelFields)) == {} <==>
      StreamingChannelFieldsViolation(m.Keys).None?
  {
    var rules := t(StreamingChannelSchema).rules;
    var declared := Declared(StreamingChannelFields);
    RuleErrorsEmpty(rules, m, m.Keys, declared);
    var jr :| 0 <= jr < |rules| && rules[jr] == StreamingChannelRequiredFields;
    assert RuleErrorsOf(rules[jr], m, m.Keys, declared) == Report(StreamingChannelFieldsViolation(m.Keys));
  }

  /** Loading with the StreamingChannel fields and rules accepts exactly
      the specs of the reference definition, unchanged, under either
      library semantics. */
  lemma StreamingChannelVerdict(t: Table, sem: Semantics, m: map<string, Json>)
    requires StreamingChannelSchemaOf(t, sem)
    ensures Load(t, sem, StreamingChannelSchema, JObj(m)).Success? <==> StreamingChannelSpecValid(m)
    ensures Load(t, sem, StreamingChannelSchema, JObj(m)).Success? ==>
      Load(t, sem, StreamingChannelSchema, JObj(m)).value == JObj(m)
  {
    var fs := StreamingChannelFields;
    StreamingChannelFieldsFacts();
    if Load(t, sem, StreamingChannelSchema, JObj(m)).Success? {
      LoadedObjectFacts(t, sem, StreamingChannelSchema, m);
      forall i | 0 <= i < |fs| && fs[i].0 in m
        ensures LoadField(t, sem, fs[i].1, m[fs[i].0]) == Success(m[fs[i].0])
      {
        assert EntryOk(t, sem, fs[i], m);
        StreamingChannelFieldLoads(t, sem, i, m[fs[i].0]);
      }
      forall k | k in m
        ensures StreamingChannelFieldValid(k, m[k])
      {
        var i :| 0 <= i < |fs| && fs[i].0 == k;
        assert EntryOk(t, sem, fs[i], m);
        StreamingChannelFieldLoads(t, sem, i, m[k]);
      }
      UnchangedLoad(t, sem, StreamingChannelSchema, m);
      StreamingChannelRulesPass(t, sem, m);
    }
    if StreamingChannelSpecValid(m) {
      assert m.Keys <= Declared(fs);
      forall i | 0 <= i < |fs| && fs[i].0 in m
        ensures LoadField(t, sem, fs[i].1, m[fs[i].0]) == Success(m[fs[i].0])
      {
        StreamingChannelFieldLoads(t, sem, i, m[fs[i].0]);
      }
      UnchangedLoad(t, sem, StreamingChannelSchema, m);
      StreamingChannelRulesPass(t, sem, m);
    }
  }

  // ---------------------------------------------------------------------
  // Streaming resources: renamed keys, spec loaded by resource type
  // ---------------------------------------------------------------------

  /** The value constraints of the streaming resource fields: a known
      resource type name, an object as spec and a boolean durability. */
  predicate StreamingResourceFieldValid(k: string, x: Json) {
    if k == "type" then x.JStr? && x.s in RESOURCE_TYPE_NAMES
    else if k == "spec" then x.JObj?
    else k == "durable" && x.JBool?
  }

  /** A streaming resource that the configuration accepts: its type and
      spec given, and its spec valid for its type. */
  predicate StreamingResourceSpecValid(m: map<string, Json>) {
    && (forall k :: k in m ==> StreamingResourceFieldValid(k, m[k]))
    && "type" in m && "spec" in m
    && (m["type"] == JStr("PushTopic") ==> PushTopicSpecValid(m["spec"].fields))
    && (m["type"] == JStr("StreamingChannel") ==> StreamingChannelSpecValid(m["spec"].fields))
  }

  /** What a streaming resource loads to: `type` and `spec` under the
      attribute names resource_type and resource_spec, and `durable` when
      it is given. */
  function ResourceOutput(m: map<string, Json>): map<string, Json>
    requires "type" in m && "spec" in m
  {
    var base := map["resource_type" := m["type"], "resource_spec" := m["spec"]];
    if "durable" in m then base["durable" := m["durable"]] else base
  }

  lemma StreamingResourceFieldLoads(t: Table, sem: Semantics, i: nat, x: Json)
    requires i < |StreamingResourceFields|
    ensures LoadField(t, sem, StreamingResourceFields[i].1, x).Success? <==>
      StreamingResourceFieldValid(StreamingResourceFields[i].0, x)
    ensures LoadField(t, sem, StreamingResourceFields[i].1, x).Success? ==>
      LoadField(t, sem, StreamingResourceFields[i].1, x).value == x
  {
    var (k, f) := StreamingResourceFields[i];
    if i == 0 {
      assert k == "type" && f.validators == [OneOf(RESOURCE_TYPE_NAMES)];
      assert ValidatorProblem(f.validators[0], x).None? <==> x.JStr? && x.s in RESOURCE_TYPE_NAMES;
      ScalarFieldLoads(t, sem, f, x);
    } else if i == 1 {
      assert k == "spec";
      if x.JObj? {
        DictKeepsValue(t, sem, f, x.fields);
      }
    } else {
      assert k == "durable" && f.validators == [];
      ScalarFieldLoads(t, sem, f, x);
    }
  }

  lemma StreamingResourceFieldsFacts()
    ensures Declared(StreamingResourceFields) == {"type", "spec", "durable"}
    ensures DistinctAttributes(StreamingResourceFields)
    ensures var fs := StreamingResourceFields;
      && AttrOf(fs[0].0, fs[0].1) == "resource_type" && AttrOf(fs[1].0, fs[1].1) == "resource_spec"
      && AttrOf(fs[2].0, fs[2].1) == "durable"
      && fs[0].1.required && fs[1].1.required && !fs[2].1.required
      && fs[2].1.missing.None?
  {
    var fs := StreamingResourceFields;
    assert fs[0].0 == "type" && fs[1].0 == "spec" && fs[2].0 == "durable";
  }

  /** The schema conditions under which StreamingResourceVerdict holds. */
  predicate StreamingResourceSchemaOf(t: Table, sem: Semantics) {
    var def := t(StreamingResourceSchema);
    && def.fields == StreamingResourceFields && def.postLoad == LoadSpecByType
    && (forall j :: 0 <= j < |def.rules| ==> def.rules[j] == RejectUnknownFields)
    && (sem.unknownAsFieldError || (!sem.rulesNeedValidFields && RejectUnknownFields in def.rules))
    && PushTopicSchemaOf(t, sem) && StreamingChannelSchemaOf(t, sem)
  }

  /** The loaded data of a streaming resource whose fields all load,
      unchanged. */
  lemma StreamingResourceData(t: Table, sem: Semantics, m: map<string, Json>)
    requires "type" in m && "spec" in m
    requires LoadField(t, sem, StreamingResourceFields[0].1, m["type"]) == Success(m["type"])
    requires LoadField(t, sem, StreamingResourceFields[1].1, m["spec"]) == Success(m["spec"])
    requires "durable" in m ==> LoadField(t, sem, StreamingResourceFields[2].1, m["durable"]) == Success(m["durable"])
    ensures LoadedData(t, sem, StreamingResourceFields, m) == ResourceOutput(m)
  {
    var fs := StreamingResourceFields;
    assert fs[..1][..0] == [] && fs[..2][..1] == fs[..1] && fs[..2] == fs[..|fs| - 1];
    assert LoadedData(t, sem, fs[..1], m) == map["resource_type" := m["type"]];
    assert LoadedData(t, sem, fs[..2], m) == map["resource_type" := m["type"], "resource_spec" := m["spec"]];
  }

  /** The entries of a streaming resource load, and unchanged, exactly
      when the reference accepts each of its keys. */
  lemma StreamingResourceFieldsOk(t: Table, sem: Semantics, m: map<string, Json>)
    requires m.Keys <= {"type", "spec", "durable"}
    ensures FieldsOk(t, sem, StreamingResourceFields, m) <==>
      "type" in m && "spec" in m && forall k :: k in m ==> StreamingResourceFieldValid(k, m[k])
    ensures FieldsOk(t, sem, StreamingResourceFields, m) ==>
      && LoadField(t, sem, StreamingResourceFields[0].1, m["type"]) == Success(m["type"])
      && LoadField(t, sem, StreamingResourceFields[1].1, m["spec"]) == Success(m["spec"])
      && ("durable" in m ==> LoadField(t, sem, StreamingResourceFields[2].1, m["durable"]) == Success(m["durable"]))
  {
    var fs := StreamingResourceFields;
    StreamingResourceFieldsFacts();
    assert fs[0].0 == "type" && fs[1].0 == "spec" && fs[2].0 == "durable";
    if "type" in m { StreamingResourceFieldLoads(t, sem, 0, m["type"]); }
    if "spec" in m { StreamingResourceFieldLoads(t, sem, 1, m["spec"]); }
    if "durable" in m { StreamingResourceFieldLoads(t, sem, 2, m["durable"]); }
    assert FieldsOk(t, sem, fs, m) <==>
      EntryOk(t, sem, fs[0], m) && EntryOk(t, sem, fs[1], m) && EntryOk(t, sem, fs[2], m);
  }

  /** Putting the raw spec back under resource_spec changes nothing. */
  lemma ResourceOutputKeepsSpec(m: map<string, Json>)
    requires "type" in m && "spec" in m
    ensures "resource_type" in ResourceOutput(m) && ResourceOutput(m)["resource_type"] == m["type"]
    ensures ResourceOutput(m)["resource_spec" := m["spec"]] == ResourceOutput(m)
  {
  }

  /** The post-load step of a PushTopic resource: its spec is loaded with
      the PushTopic schema and kept as it is. */
  lemma PushTopicSpecLoad(t: Table, sem: Semantics, m: map<string, Json>)
    requires PushTopicSchemaOf(t, sem)
    requires "type" in m && "spec" in m && m["spec"].JObj? && m["type"] == JStr("PushTopic")
    ensures AfterLoad(t, sem, LoadSpecByType, ResourceOutput(m), m).Success? <==> PushTopicSpecValid(m["spec"].fields)
    ensures AfterLoad(t, sem, LoadSpecByType, ResourceOutput(m), m).Success? ==>
      AfterLoad(t, sem, LoadSpecByType, ResourceOutput(m), m).value == JObj(ResourceOutput(m))
  {
    ResourceOutputKeepsSpec(m);
    PushTopicVerdict(t, sem, m["spec"].fields);
  }

  /** The post-load step of a StreamingChannel resource: its spec is
      loaded with the StreamingChannel schema and kept as it is. */
  lemma StreamingChannelSpecLoad(t: Table, sem: Semantics, m: map<string, Json>)
    requires StreamingChannelSchemaOf(t, sem)
    requires "type" in m && "spec" in m && m["spec"].JObj? && m["type"] == JStr("StreamingChannel")
    ensures AfterLoad(t, sem, LoadSpecByType, ResourceOutput(m), m).Success? <==> StreamingChannelSpecValid(m["spec"].fields)
    ensures AfterLoad(t, sem, LoadSpecByType, ResourceOutput(m), m).Success? ==>
      AfterLoad(t, sem, LoadSpecByType, ResourceOutput(m), m).value == JObj(ResourceOutput(m))
  {
    ResourceOutputKeepsSpec(m);
    StreamingChannelVerdict(t, sem, m["spec"].fields);
  }

  /** The only rule of a streaming resource passes on an object of
      declared keys, whatever its loaded data. */
  lemma StreamingResourceRulesPass(t: Table, sem: Semantics, m: map<string, Json>, data: map<string, Json>)
    requires StreamingResourceSchemaOf(t, sem) && m.Keys <= Declared(StreamingResourceFields)
    ensures RuleErrors(t(StreamingResourceSchema).rules, data, m.Keys, Declared(StreamingResourceFields)) == {}
  {
    RuleErrorsEmpty(t(StreamingResourceSchema).rules, data, m.Keys, Declared(StreamingResourceFields));
  }

  /** The post-load step of a streaming resource of either type. */
  lemma StreamingResourceSpecLoad(t: Table, sem: Semantics, m: map<string, Json>)
    requires StreamingResourceSchemaOf(t, sem)
    requires "type" in m && "spec" in m && forall k :: k in m ==> StreamingResourceFieldValid(k, m[k])
    ensures AfterLoad(t, sem, LoadSpecByType, ResourceOutput(m), m).Success? <==> StreamingResourceSpecValid(m)
    ensures AfterLoad(t, sem, LoadSpecByType, ResourceOutput(m), m).Success? ==>
      AfterLoad(t, sem, LoadSpecByType, ResourceOutput(m), m).value == JObj(ResourceOutput(m))
  {
    assert StreamingResourceFieldValid("type", m["type"]) && StreamingResourceFieldValid("spec", m["spec"]);
    if m["type"] == JStr("PushTopic") {
      PushTopicSpecLoad(t, sem, m);
    } else {
      StreamingChannelSpecLoad(t, sem, m);
    }
  }

  /** A streaming resource that loads has a valid spec for its type and
      loads to its renamed keys, the spec unchanged. */
  lemma StreamingResourceAccepted(t: Table, sem: Semantics, m: map<string, Json>)
    requires StreamingResourceSchemaOf(t, sem)
    requires Load(t, sem, StreamingResourceSchema, JObj(m)).Success?
    ensures StreamingResourceSpecValid(m)
    ensures Load(t, sem, StreamingResourceSchema, JObj(m)).value == JObj(ResourceOutput(m))
  {
    StreamingResourceFieldsFacts();
    LoadedObjectFacts(t, sem, StreamingResourceSchema, m);
    StreamingResourceFieldsOk(t, sem, m);
    StreamingResourceData(t, sem, m);
    LoadedObjectValue(t, sem, StreamingResourceSchema, m);
    StreamingResourceSpecLoad(t, sem, m);
  }

  /** A streaming resource with a valid spec for its type loads to its
      renamed keys, the spec unchanged. */
  lemma StreamingResourceValidLoads(t: Table, sem: Semantics, m: map<string, Json>)
    requires StreamingResourceSchemaOf(t, sem)
    requires StreamingResourceSpecValid(m)
    ensures Load(t, sem, StreamingResourceSchema, JObj(m)) == Success(JObj(ResourceOutput(m)))
  {
    StreamingResourceFieldsFacts();
    assert m.Keys <= Declared(StreamingResourceFields);
    StreamingResourceFieldsOk(t, sem, m);
    StreamingResourceData(t, sem, m);
    StreamingResourceRulesPass(t, sem, m, ResourceOutput(m));
    LoadedObjectValue(t, sem, StreamingResourceSchema, m);
    StreamingResourceSpecLoad(t, sem, m);
  }

  /** A streaming resource loads exactly when it names a resource type,
      and its spec is valid for that type. It then loads to its renamed
      keys, with the spec unchanged. */
  lemma StreamingResourceVerdict(t: Table, sem: Semantics, m: map<string, Json>)
    requires StreamingResourceSchemaOf(t, sem)
    ensures Load(t, sem, StreamingResourceSchema, JObj(m)).Success? <==> StreamingResourceSpecValid(m)
    ensures Load(t, sem, StreamingResourceSchema, JObj(m)).Success? ==>
      Load(t, sem, StreamingResourceSchema, JObj(m)).value == JObj(ResourceOutput(m))
  {
    if Load(t, sem, StreamingResourceSchema, JObj(m)).Success? {
      StreamingResourceAccepted(t, sem, m);
    }
    if StreamingResourceSpecValid(m) {
      StreamingResourceValidLoads(t, sem, m);
    }
  }

  /** In config_schema.py, a PushTopic spec is accepted exactly when it
      meets the reference definition, and is loaded unchanged. */
  lemma PushTopicLoad(m: map<string, Json>)
    ensures Load(Schemas, Marshmallow2, PushTopicSchema, JObj(m)).Success? <==> PushTopicSpecValid(m)
    ensures Load(Schemas, Marshmallow2, PushTopicSchema, JObj(m)).Success? ==>
      Load(Schemas, Marshmallow2, PushTopicSchema, JObj(m)).value == JObj(m)
  {
    PushTopicVerdict(Schemas, Marshmallow2, m);
  }

  /** In config_schema.py, a StreamingChannel spec is accepted exactly
      when it meets the reference definition, and is loaded unchanged. */
  lemma StreamingChannelLoad(m: map<string, Json>)
    ensures Load(Schemas, Marshmallow2, StreamingChannelSchema, JObj(m)).Success? <==> StreamingChannelSpecValid(m)
    ensures Load(Schemas, Marshmallow2, StreamingChannelSchema, JObj(m)).Success? ==>
      Load(Schemas, Marshmallow2, StreamingChannelSchema, JObj(m)).value == JObj(m)
  {
    StreamingChannelVerdict(Schemas, Marshmallow2, m);
  }

  /** In config_schema.py, a streaming resource is accepted exactly when
      its type names a resource type and its spec is valid for that type;
      it loads to resource_type, resource_spec and durable. */
  lemma StreamingResourceLoad(m: map<string, Json>)
    ensures Load(Schemas, Marshmallow2, StreamingResourceSchema, JObj(m)).Success? <==> StreamingResourceSpecValid(m)
    ensures Load(Schemas, Marshmallow2, StreamingResourceSchema, JObj(m)).Success? ==>
      Load(Schemas, Marshmallow2, StreamingResourceSchema, JObj(m)).value == JObj(ResourceOutput(m))
  {
    StreamingResourceVerdict(Schemas, Marshmallow2, m);
  }

  /** Every schema of config_schema.py refuses a key that is not one of
      its fields and reports it under its name, whatever the other keys. */
  lemma UnknownKeyRejected(name: SchemaName, m: map<string, Json>, k: string)
    requires k in m && k !in Declared(Schemas(name).fields)
    ensures Load(Schemas, Marshmallow2, name, JObj(m)).Failure?
    ensures LoadError([Key(k)], UnknownField) in Load(Schemas, Marshmallow2, name, JObj(m)).error
  {
    assert Schemas(name).rules[0] == RejectUnknownFields;
    UnknownFieldRejected(Schemas, Marshmallow2, name, m, k);
  }

  /** A broker port is null, or a number whose integer part lies in
      [1, 65535]; it loads as that integer. */
  lemma BrokerPortBounds(t: Table, sem: Semantics, x: Json)
    ensures AmqpBrokerFields[1].0 == "port"
    ensures LoadField(t, sem, AmqpBrokerFields[1].1, x).Success? <==>
      x == JNull || (x.JNum? && 1 <= TruncateTowardZero(x.n) <= 65535)
    ensures LoadField(t, sem, AmqpBrokerFields[1].1, x).Success? && x != JNull ==>
      LoadField(t, sem, AmqpBrokerFields[1].1, x).value == JNum(TruncateTowardZero(x.n) as real)
  {
    var f := AmqpBrokerFields[1].1;
    if x.JNum? {
      var n := TruncateTowardZero(x.n);
      var y := JNum(n as real);
      assert f.validators == [Range(1.0, 65535.0)];
      assert ValidatorProblem(f.validators[0], y).None? <==> 1.0 <= n as real <= 65535.0;
      assert 1.0 <= n as real <= 65535.0 <==> 1 <= n <= 65535;
      ValidatorErrorsEmpty(f.validators, y);
    }
  }

  /** An exchange type is one of fanout, direct, topic and headers. */
  lemma ExchangeTypeChoices(t: Table, sem: Semantics, x: Json)
    ensures AmqpExchangeFields[1].0 == "type_name"
    ensures LoadField(t, sem, AmqpExchangeFields[1].1, x).Success? <==> x.JStr? && x.s in EXCHANGE_TYPES
  {
    var f := AmqpExchangeFields[1].1;
    assert ValidatorProblem(f.validators[0], x).None? <==> x.JStr? && x.s in EXCHANGE_TYPES;
    ScalarFieldLoads(t, sem, f, x);
  }
}
