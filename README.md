# rabbit_force, modelled in Dafny

rabbit_force forwards Salesforce Streaming API messages to AMQP brokers.
It has four parts:

- a **message source** that streams the channels of an org's streaming resources;
- a **router** that picks a route for each message with JSONPath routing rules;
- a **message sink** that publishes each message to the broker and exchange its route names;
- a **configuration** layer that validates all of the above.

Several deterministic pieces sit under the asyncio glue. This project models them and proves what the code promises about them.

| file | module | what it models |
|---|---|---|
| `common.dfy` | `Common` | `Option`, `Result` and `Outcome`; JSON values; the package's error classes; a `Journal` in which environment objects record the outside effects whose order the code fixes |
| `routing.dfy` | `Routing` | `Route`; routing conditions; the wrapped value the conditions see; first-match route selection; `MessageRouter` |
| `message_sink.dfy` | `MessageSink` | `AmqpMessageSink` (in-place header rewriting, cached channel, ordered close) and `MultiMessageSink` (dispatch by sink name) |
| `schema_load.dfy` | `SchemaLoad` | A schema loader in the style of marshmallow (see below), with the schema-level rules of both configuration modules |
| `config_schema.dfy` | `ConfigSchema` | The schemas of `rabbit_force/config_schema.py` |
| `config.dfy` | `Config` | The schemas of `rabbit_force/config.py`; choosing a file loader by suffix; the three-stage `load_config` |
| `resources.dfy` | `Resources` | The resource type registry; `StreamingResource` and its channel names; the Salesforce server as an in-memory record store; `StreamingResourceFactory` dispatch and create-or-update |
| `org.dfy` | `Org` | `SalesforceOrg` of `rabbit_force/salesforce/org.py`: the name-keyed registry and the clean-up of non-durable resources |
| `legacy.dfy` | `Legacy` | The older pair `rabbit_force/streaming_resources.py` and `rabbit_force/salesforce_org.py` |
| `salesforce_api.dfy` | `SalesforceApi` | `SalesforceApi`: error classes by status, response verification, resource paths, the base URL computed once, request building, one retry after re-authentication, and the CRUD verbs |
| `message_source.dfy` | `MessageSource` | `SalesforceOrgMessageSource` and `MultiMessageSource` |

## How the model is built

**Python state.** Where the Python code updates an object's fields, the model uses a Dafny `class` with the same fields.

- `MessageRouter.rules` and each `SalesforceOrg`'s registry are such fields.
- The registry is a sequence of names in first-insertion order plus a map from name to resource. Together they give the dict iteration order that the clean-up and the subscriptions follow.
- `AmqpMessageSink.channel` and `SalesforceApi._base_url` are such fields.
- The caller's properties dictionary is a `PropertyMap` object, so the sink's in-place writes are visible to the caller.

**Pure logic.** The validators and path functions are Dafny functions. The loops become methods with loop invariants, each proved against such a function. The loops are the clean-up, the subscriptions, and opening or closing sub-sources.

**Environment objects.** Objects outside the core are small classes that keep only what the core observes:

- the AMQP protocol, transport and channel;
- the aiohttp transport, with scripted replies;
- the authenticator, with scripted grants;
- the aiosfstream client, with scripted messages;
- the Salesforce server, a store of records by id;
- a source above the gathering source.

`Route.properties` defaults to `None` (`Routing.Route`), as in `rabbit_force/routing.py:15-28`. `RoutingCondition.IsMatching` is the predicate "the expression finds at least one value". Where `SalesforceOrgMessageSource.closed` and `pending_count` read the client's properties, the model reads the fields `closed` and `pendingCount` of `MessageSource.StreamingClient` directly. `pendingCount` is a field of the scripted client in its own right: it is not tied to the scripted messages that `received` holds.

**Configuration.** The two configuration modules declare the same schemas. The difference is how their marshmallow versions treat unknown keys and schema validators:

- `config.py` passes `unknown=RAISE`. An unknown key is an error of that key, and the `@validates_schema` rules are skipped once a field fails (`SchemaLoad.Marshmallow3`).
- `config_schema.py` refuses unknown keys with its own `check_unknown_fields` rule. Its rules run even when a field has failed (`SchemaLoad.Marshmallow2`). The model has its `load` raise `ValidationError` on any error and otherwise return the loaded dict, as the package's callers of that module expect.

The generic loader interprets a table of schemas and is parameterised by these two semantics. Every property is proved once for both semantics, then instantiated for each module's table. Both modules accept the same PushTopic specs, StreamingChannel specs and streaming resources, and load them to the same values (`Config.VariantsAgree`).

Starting from the Salesforce field limits, `ConfigSchema.PushTopicSpecValid` and `ConfigSchema.StreamingChannelSpecValid` say which specs are valid, without the loader. The `…Verdict` lemmas prove that loading accepts exactly those specs.

## Model

| member | source | states |
|---|---|---|
| `Routing.NewCondition` | rabbit_force/routing.py:34-41 | It builds a condition exactly when the expression is a string that the JSONPath parser accepts, and keeps the parsed expression. A non-string value fails with InvalidRoutingConditionError. A lexer error fails with InvalidRoutingConditionError carrying the lexer's message. The parser's own parse error is not caught and escapes as it is. |
| `Routing.Wrapped` | rabbit_force/routing.py:92-97 | Conditions are evaluated on a one-element list holding an object with exactly the keys org_name (the source name) and message (the message). |
| `Routing.FirstMatch` | rabbit_force/routing.py:103-106 | It yields the index of a matching rule with no matching rule before it. It yields nothing exactly when no rule matches. |
| `Routing.FirstMatchIsFirst` | rabbit_force/routing.py:103-106 | A matching rule with no match before it is the one the search finds, so the first match is unique. |
| `Routing.SelectRouteCases` | rabbit_force/routing.py:99-113 | The route is that of the first matching rule. It is the default route (possibly None) when no rule matches. Any other result is the route of some rule. |
| `Routing.SelectRouteAppend` | rabbit_force/routing.py:73-106 | Appending a rule never changes the route of a value that an earlier rule matches. The new rule only takes the place of the default route. |
| `Routing.MessageRouter.constructor` | rabbit_force/routing.py:62-71 | A router starts with the given default route and rules. Both default to None and the empty list. |
| `Routing.MessageRouter.AddRule` | rabbit_force/routing.py:73-78 | The rule goes after every existing rule, whose order is kept. The default route is unchanged. |
| `Routing.MessageRouter.FindRoute` | rabbit_force/routing.py:80-113 | It returns the route of the first rule, in list order, whose condition matches the wrapped message. With no match, or no rules, it returns the default route unchanged. Otherwise the result is always some rule's route. |
| `MessageSink.WithContentHeaders` | rabbit_force/sink/message_sink.py:71-74 | The published properties are the caller's keys plus content_type and content_encoding. Those two are set to application/json and utf-8, and every other key keeps its value. |
| `MessageSink.WithContentHeadersIdempotent` | rabbit_force/sink/message_sink.py:71-74 | Setting the content headers a second time changes nothing. |
| `MessageSink.AmqpMessageSink.constructor` | rabbit_force/sink/message_sink.py:43-54 | A new sink keeps its transport, protocol and serializer. It has no channel yet. |
| `MessageSink.AmqpMessageSink.GetChannel` | rabbit_force/sink/message_sink.py:56-64 | A channel is opened only when none is stored. Later calls return the stored channel and open none. |
| `MessageSink.AmqpMessageSink.ConsumeMessage` | rabbit_force/sink/message_sink.py:67-78 | The caller's properties are rewritten in place with the content headers. With no properties, only the two headers are sent. Exactly one publication is added to the one cached channel: the UTF-8 encoding of the serialized message, with the given exchange and routing key. A channel is opened on the protocol only when none was cached, and the protocol's closed flag is unchanged. |
| `MessageSink.AmqpMessageSink.Close` | rabbit_force/sink/message_sink.py:82-84 | Both are closed, the protocol before the transport. |
| `MessageSink.MultiMessageSink.constructor` | rabbit_force/sink/message_sink.py:90-101 | The sinks map is kept as given. |
| `MessageSink.MultiMessageSink.ConsumeMessage` | rabbit_force/sink/message_sink.py:105-109 | An unknown sink name raises KeyError and publishes nothing. Otherwise the sink of that name receives every argument unchanged: the caller's properties get the content headers, and the sink's channel receives exactly one publication. Its protocol opens a channel only when none was cached, and its protocol's closed flag is unchanged. No other sink can change. |
| `MessageSink.MultiMessageSink.Close` | rabbit_force/sink/message_sink.py:113-115 | Every sink in the map ends with its protocol and transport closed. |
| `SchemaLoad.UnknownErrors` | rabbit_force/config_schema.py:14-23 | There are no errors exactly when the keys are all declared fields. Otherwise each surplus key is reported under its own name. |
| `SchemaLoad.PushTopicFieldsViolation` | rabbit_force/config_schema.py:53-78 | A PushTopic spec passes exactly when it is a single key Id or Name, or two or more keys including Name, ApiVersion and Query. The empty spec is refused with its own error. |
| `SchemaLoad.ApiVersionViolation` | rabbit_force/config_schema.py:80-108 | It passes exactly when there is no ApiVersion, or when both hold: ApiVersion ≥ 29 has no NotifyForOperations, and ApiVersion ≤ 28 has none of the four NotifyForOperation flags. |
| `SchemaLoad.StreamingChannelFieldsViolation` | rabbit_force/config_schema.py:121-139 | A StreamingChannel spec passes exactly when it is a single key Id or Name, or any two or more keys. The empty spec is refused with its own error. |
| `SchemaLoad.TruncateTowardZero` | rabbit_force/config_schema.py:220-221 | An Int field keeps the integer part of a number, truncating toward zero as Python's int() does. |
| `SchemaLoad.SchemeOf` | rabbit_force/config_schema.py:189 | The scheme a URL field compares with its allowed schemes is the text before the URL's first "://": the result followed by "://" starts the URL, and no "://" starts earlier. There is no result exactly when the URL contains no "://". |
| `SchemaLoad.ValidatorErrorsEmpty` | rabbit_force/config_schema.py:34-51 | A value passes a field's validators exactly when no single validator reports a problem. |
| `SchemaLoad.RuleErrorsEmpty` | rabbit_force/config_schema.py:53-108 | The schema validators pass exactly when each of them passes. |
| `SchemaLoad.LoadVerdict` | rabbit_force/config.py:19-23 | An object loads exactly when four things hold: every declared field loads, it has no unknown key (where unknown keys are field errors), every schema rule passes, and the post-load step succeeds. |
| `SchemaLoad.UnknownFieldRejected` | rabbit_force/config_schema.py:14-23 | A key that is not a field makes loading fail, with an UnknownField error under that key. This holds in both semantics. |
| `SchemaLoad.RequiredFieldRejected` | rabbit_force/config_schema.py:145-148 | An absent required field makes loading fail, with a MissingField error under its name. |
| `SchemaLoad.InvalidFieldRejected` | rabbit_force/config_schema.py:34-51 | A present field whose value fails makes the object fail. Each of the field's errors is reported under the field's name. |
| `SchemaLoad.LoadedDataKeys` | rabbit_force/config_schema.py:145-149 | The loaded data holds exactly the attribute names of the fields that contribute a value. So type and spec load as resource_type and resource_spec. |
| `SchemaLoad.LoadedDataValue` | rabbit_force/config_schema.py:145-149 | When attribute names are distinct, each contributing field's value is what the data holds under its attribute name. |
| `SchemaLoad.DictKeepsValue` | rabbit_force/config_schema.py:148 | A Dict field without key or value fields loads any object as it is. |
| `SchemaLoad.DictKeysChecked` | rabbit_force/config.py:249-267 | A Dict field with key validators loads an object exactly when every key passes them. The object is then kept as it is. |
| `SchemaLoad.LoadedDataIsInput` | rabbit_force/config_schema.py:34-51 | The loaded data is the input map itself when three things hold: the fields keep their names, no field has a missing value, and each present value loads unchanged. |
| `SchemaLoad.ScalarFieldLoads` | rabbit_force/config_schema.py:34-51 | A String, Float or Boolean field loads exactly the values of its JSON type that pass its validators, and keeps them. |
| `SchemaLoad.LoadedObjectFacts` | rabbit_force/config_schema.py:9-23 | When an object loads, every field loaded, every key is declared and every schema rule passed. |
| `SchemaLoad.LoadedObjectValue` | rabbit_force/config_schema.py:151-172 | An object whose fields and rules pass loads to what its post-load step yields. |
| `SchemaLoad.UnchangedLoad` | rabbit_force/config_schema.py:28-108 | Take an object of declared keys with no post-load step, where every field loads unchanged. It is accepted exactly when its rules pass on the object itself, and it then loads unchanged. |
| `ConfigSchema.PushTopicFieldKnown` | rabbit_force/config_schema.py:34-51 | Only the twelve PushTopic fields have valid values. |
| `ConfigSchema.PushTopicFieldLoads` | rabbit_force/config_schema.py:34-51 | Each PushTopic field loads exactly the values within its bounds, and loads them unchanged. The bounds: Id non-empty; Name 1–25 characters; ApiVersion in [20, 42]; the NotifyForFields and NotifyForOperations choices; Description at most 400 characters; Query 1–1300 characters; booleans for the flags. |
| `ConfigSchema.PushTopicDeclared` | rabbit_force/config_schema.py:34-51 | The declared PushTopic field names are exactly the twelve Salesforce fields. |
| `ConfigSchema.PushTopicFieldsPlain` | rabbit_force/config_schema.py:34-51 | No PushTopic field is required, renamed or given a missing value. |
| `ConfigSchema.PushTopicDistinct` | rabbit_force/config_schema.py:34-51 | No two PushTopic fields load under the same key. |
| `ConfigSchema.PushTopicFieldsUnchanged` | rabbit_force/config_schema.py:34-51 | When the fields load, each present value loads unchanged and is within its bounds. |
| `ConfigSchema.PushTopicValidFieldsLoad` | rabbit_force/config_schema.py:34-51 | Values within their bounds load, unchanged. |
| `ConfigSchema.PushTopicRulesPass` | rabbit_force/config_schema.py:53-108 | On a map of declared keys, the PushTopic schema rules pass exactly when the identifier-or-definition rule and the API-version rule both hold. |
| `ConfigSchema.PushTopicAccepted` | rabbit_force/config_schema.py:28-108 | A PushTopic spec that loads is valid, and loads unchanged. |
| `ConfigSchema.PushTopicValidLoads` | rabbit_force/config_schema.py:28-108 | A valid PushTopic spec loads, unchanged. |
| `ConfigSchema.PushTopicVerdict` | rabbit_force/config_schema.py:28-108 | In either semantics, a PushTopic spec loads exactly when it is valid. It is then loaded unchanged. |
| `ConfigSchema.StreamingChannelFieldLoads` | rabbit_force/config_schema.py:117-119 | Each StreamingChannel field loads exactly the values within its bounds, and loads them unchanged. The bounds: Id non-empty; Name 1–80 characters; Description at most 255. |
| `ConfigSchema.StreamingChannelFieldsFacts` | rabbit_force/config_schema.py:117-119 | The declared names are Id, Name and Description. They are distinct, and none is required, renamed or given a missing value. |
| `ConfigSchema.StreamingChannelRulesPass` | rabbit_force/config_schema.py:121-139 | On declared keys, the StreamingChannel rules pass exactly when the identifier rule holds. |
| `ConfigSchema.StreamingChannelVerdict` | rabbit_force/config_schema.py:111-139 | In either semantics, a StreamingChannel spec loads exactly when it is valid. It is then loaded unchanged. |
| `ConfigSchema.StreamingResourceFieldLoads` | rabbit_force/config_schema.py:145-149 | type loads exactly a resource type name, spec exactly an object, durable exactly a boolean. Each loads unchanged. |
| `ConfigSchema.StreamingResourceFieldsFacts` | rabbit_force/config_schema.py:145-149 | The fields type, spec and durable load under resource_type, resource_spec and durable. type and spec are required. |
| `ConfigSchema.StreamingResourceData` | rabbit_force/config_schema.py:145-149 | When the fields load unchanged, the loaded data holds resource_type, resource_spec and, when given, durable. |
| `ConfigSchema.StreamingResourceFieldsOk` | rabbit_force/config_schema.py:145-149 | The fields of a resource with declared keys load exactly when type and spec are present and every value is within its field's bounds. They then load unchanged. |
| `ConfigSchema.ResourceOutputKeepsSpec` | rabbit_force/config_schema.py:167-169 | Writing the raw spec back under resource_spec leaves the loaded data as it was. |
| `ConfigSchema.PushTopicSpecLoad` | rabbit_force/config_schema.py:151-172 | For a PushTopic resource, the post-load step succeeds exactly when the spec is a valid PushTopic spec. It keeps the spec as given. |
| `ConfigSchema.StreamingChannelSpecLoad` | rabbit_force/config_schema.py:151-172 | For a StreamingChannel resource, the post-load step succeeds exactly when the spec is a valid StreamingChannel spec. It keeps the spec as given. |
| `ConfigSchema.StreamingResourceRulesPass` | rabbit_force/config_schema.py:9-23 | A streaming resource with declared keys passes its only schema rule. |
| `ConfigSchema.StreamingResourceSpecLoad` | rabbit_force/config_schema.py:151-172 | The spec is loaded with the schema of the resource type. The step succeeds exactly when the whole resource is valid. |
| `ConfigSchema.StreamingResourceAccepted` | rabbit_force/config_schema.py:142-172 | A resource that loads names a resource type and has a spec valid for that type. It loads to its renamed keys with the spec unchanged. |
| `ConfigSchema.StreamingResourceValidLoads` | rabbit_force/config_schema.py:142-172 | A valid resource loads to its renamed keys, with the spec unchanged. |
| `ConfigSchema.StreamingResourceVerdict` | rabbit_force/config_schema.py:142-172 | In either semantics, a resource loads exactly when three things hold: its type names a resource type, it has a spec, and the spec is valid for that type. Its output is resource_type, resource_spec and durable. |
| `ConfigSchema.PushTopicLoad` | rabbit_force/config_schema.py:28-108 | In config_schema.py, a PushTopic spec is accepted exactly when it is valid. It is loaded unchanged. |
| `ConfigSchema.StreamingChannelLoad` | rabbit_force/config_schema.py:111-139 | In config_schema.py, a StreamingChannel spec is accepted exactly when it is valid. It is loaded unchanged. |
| `ConfigSchema.StreamingResourceLoad` | rabbit_force/config_schema.py:142-172 | In config_schema.py, a streaming resource is accepted exactly when its spec is valid for its type. Its keys are renamed to resource_type and resource_spec. |
| `ConfigSchema.UnknownKeyRejected` | rabbit_force/config_schema.py:14-23 | Every schema of config_schema.py refuses a key that is not one of its fields, whatever the other keys. It reports the key under its name. |
| `ConfigSchema.BrokerPortBounds` | rabbit_force/config_schema.py:220-221 | A broker port is null, or a number whose integer part lies in [1, 65535]. It loads as that integer. |
| `ConfigSchema.ExchangeTypeChoices` | rabbit_force/config_schema.py:206-209 | An exchange type is exactly one of fanout, direct, topic and headers. |
| `Config.UnknownKeyRejected` | rabbit_force/config.py:19-23 | With unknown=RAISE, every schema refuses a key that is not one of its fields, and reports it under its name. |
| `Config.PushTopicLoad` | rabbit_force/config.py:26-107 | In config.py, a PushTopic spec is accepted exactly when it is valid. It is loaded unchanged. |
| `Config.StreamingChannelLoad` | rabbit_force/config.py:110-139 | In config.py, a StreamingChannel spec is accepted exactly when it is valid. It is loaded unchanged. |
| `Config.StreamingResourceLoad` | rabbit_force/config.py:142-172 | In config.py, a streaming resource is accepted exactly when its spec is valid for its type. It loads to its renamed keys. |
| `Config.PushTopicVariantsAgree` | rabbit_force/config.py:26-107 | The two modules give the same result for every PushTopic spec; failures may carry different errors. |
| `Config.StreamingChannelVariantsAgree` | rabbit_force/config.py:110-139 | The two modules give the same result for every StreamingChannel spec; failures may carry different errors. |
| `Config.StreamingResourceVariantsAgree` | rabbit_force/config.py:142-172 | The two modules give the same result for every streaming resource; failures may carry different errors. |
| `Config.VariantsAgree` | rabbit_force/config.py:26-172 | The two modules agree on all three kinds of streaming-resource input. |
| `Config.RoutePropertiesKeys` | rabbit_force/config.py:249-267 | Route properties are null, or an object whose keys are all among the 14 AMQP basic property names. They load unchanged. |
| `Config.MessageRouterFieldsFacts` | rabbit_force/config.py:277-285 | A router declares exactly default_route and rules, loaded under distinct keys. |
| `Config.RouterRulesDefault` | rabbit_force/config.py:277-285 | A router config without rules loads with an empty rule list under rule_specs. |
| `Config.RouterDefaultRouteRequired` | rabbit_force/config.py:277-285 | A router config without default_route is refused, with a MissingField error under that key. |
| `Config.RouterDefaultRouteNullable` | rabbit_force/config.py:278-281 | A null default route is accepted. |
| `Config.RFind` | rabbit_force/config.py:304-305 | It gives the index of the last occurrence of the character, or -1 when there is none. |
| `Config.Suffix` | rabbit_force/config.py:304-305 | A suffix is empty, or a dot followed by at least one character and no other dot. A non-empty suffix completes a non-empty stem to the name. |
| `Config.LoaderByExtension` | rabbit_force/config.py:296-319 | `stem.ext` selects the loader of the lower-cased extension: JSON for json, YAML for yml and yaml, none otherwise. This holds for the file alone or in any directory. |
| `Config.LoaderOfSuffix` | rabbit_force/config.py:303-315 | A path whose name has the suffix ".ext" gets the loader of ext, compared case-insensitively, with the dot dropped. |
| `Config.NoLoaderWithoutDot` | rabbit_force/config.py:303-319 | A path whose name has no dot, the empty path among them, has no loader. |
| `Config.NoLoaderForHiddenFile` | rabbit_force/config.py:303-319 | A name such as ".json", whose only dot comes first, has no suffix and so no loader. |
| `Config.PathNameOfFile` | rabbit_force/config.py:304 | A file name, alone or after a directory, is the path's final component. |
| `Config.SuffixOfFile` | rabbit_force/config.py:305 | The suffix of `stem.ext` is ".ext". |
| `Config.LowerAfterDot` | rabbit_force/config.py:305-307 | Lower-casing the suffix and then dropping the dot is the same as lower-casing the extension. |
| `Config.LoadConfig` | rabbit_force/config.py:322-354 | No loader means UnrecognizedFormat, before anything is read. A failed read or parse means LoadFailed, without validation. A failed validation means ValidationFailed with the schema's errors. Success means exactly that all three stages pass, and returns the validated configuration. |
| `Config.UnrecognizedBeforeReading` | rabbit_force/config.py:332-335 | For a path without a loader, the outcome does not depend on the file at all. |
| `Config.StageOfFailure` | rabbit_force/config.py:332-352 | Each stage's failure is reported as that stage's error and no other. |
| `Resources.ChannelNameOf` | rabbit_force/salesforce/resources.py:68-80 | A PushTopic's channel name is "/topic/" followed by its Name. A StreamingChannel's channel name is its Name. |
| `Resources.ChannelNamesDistinguishResources` | rabbit_force/salesforce/resources.py:68-80 | Resources of one type with different names have different channel names. |
| `Resources.TypeRegistry.constructor` | rabbit_force/salesforce/resources.py:55-80 | Once the two built-in classes are declared, the registry holds exactly PushTopic and StreamingChannel under those names. |
| `Resources.TypeRegistry.Register` | rabbit_force/salesforce/resources.py:55-60 | Declaring a class registers it under its type name and keeps every other registration. |
| `Resources.StreamingResource.constructor` | rabbit_force/salesforce/resources.py:22-33 | A resource keeps its type and definition. durable defaults to True. |
| `Resources.StreamingResource.Attribute` | rabbit_force/salesforce/resources.py:35-48 | The id, name and description accessors read the stored definition. A missing key raises KeyError. |
| `Resources.StreamingResource.ChannelName` | rabbit_force/salesforce/resources.py:52-80 | The resource's channel name is derived from its Name by its type. With no Name it raises KeyError. |
| `Resources.Merge` | rabbit_force/salesforce/resources.py:237-238 | An update replaces the given fields and keeps every other field of the record. |
| `Resources.Classify` | rabbit_force/salesforce/resources.py:145-175 | A single Name pair is a lookup by name, and a single Id pair a lookup by id. Any other single pair is a SpecificationError. Any other number of pairs is a create-or-update of the whole spec. |
| `Resources.ConfiguredPushTopicDispatches` | rabbit_force/salesforce/resources.py:145-152 | A PushTopic spec the configuration accepts never names a non-identifier alone. When it defines the topic, it has a Name. |
| `Resources.UpsertRecordCount` | rabbit_force/salesforce/resources.py:233-248 | A create-or-update never removes a record. It adds exactly one when no record of the type has that Name, and none otherwise. |
| `Resources.UpsertLeavesNamed` | rabbit_force/salesforce/resources.py:233-248 | After a create-or-update, a record with the definition's Name exists. |
| `Resources.UpsertOfNamedKeepsIds` | rabbit_force/salesforce/resources.py:233-241 | A create-or-update of a Name that a record already has creates no record. |
| `Resources.UpsertTwiceCreatesOnce` | rabbit_force/salesforce/resources.py:233-248 | Running the same create-or-update a second time creates nothing more. |
| `Resources.ResourceFactory.constructor` | rabbit_force/salesforce/resources.py:86-92 | A factory keeps its REST client and its type registry. |
| `Resources.ResourceFactory.IdByName` | rabbit_force/salesforce/resources.py:200-217 | It returns the id of a record of that type and name. It raises NotFound, naming the type and the name, exactly when there is none. |
| `Resources.ResourceFactory.CreateOrUpdate` | rabbit_force/salesforce/resources.py:219-248 | The record of that Name is updated, or else exactly one record is created. Either way the server's record is returned. A definition without a Name raises KeyError. |
| `Resources.ResourceFactory.GetResource` | rabbit_force/salesforce/resources.py:126-198 | The spec is dispatched as `Classify` says. Lookups change nothing on the server and return the record or NotFound. A definition is created or updated. |
| `Resources.ResourceFactory.CreateResource` | rabbit_force/salesforce/resources.py:94-124 | An unregistered type raises SpecificationError before the server is asked anything. Otherwise it returns a new durable resource of the registered class, with the definition the dispatch fetched. |
| `Org.NonDurable` | rabbit_force/salesforce/org.py:80-81 | The clean-up list holds only registered resources that are not durable. |
| `Org.NonDurableComplete` | rabbit_force/salesforce/org.py:80-81 | Every registered resource that is not durable is on the clean-up list. |
| `Org.NonDurableExactly` | rabbit_force/salesforce/org.py:80-81 | The clean-up list holds exactly the registered resources not marked durable. |
| `Org.DeletedIdsExactly` | rabbit_force/salesforce/org.py:76-83 | The ids a clean-up deletes are exactly the Ids of the resources it removes. The records of every other resource, the durable ones included, stay on the server. |
| `Org.SalesforceOrg.constructor` | rabbit_force/salesforce/org.py:40 | A new org has an empty registry. |
| `Org.SalesforceOrg.AddResource` | rabbit_force/salesforce/org.py:48-68 | The resource is created through the factory, with its server effect. durable is set to the argument, which defaults to True. It is stored under its name, replacing an entry of that name and keeping the others, and returned. On failure the registry is unchanged. |
| `Org.SalesforceOrg.Store` | rabbit_force/salesforce/org.py:67 | Storing under a name replaces that entry. A new name goes to the end of the iteration order, and a known name keeps its place. |
| `Org.SalesforceOrg.RemoveResource` | rabbit_force/salesforce/org.py:70-76 | It sends one delete by type name and id and awaits it. The record is deleted when the server holds it. A missing Id raises KeyError before any request. |
| `Org.SalesforceOrg.CleanupResources` | rabbit_force/salesforce/org.py:78-83 | On success, it sends deletes for exactly the non-durable resources, in registry order, and each of those records is gone. The first failure stops it after that resource's request: the records of the resources before it are gone, and the failing resource's record is not on the server. It succeeds exactly when each non-durable resource's record is on the server at its turn, once the earlier ones are deleted. In both cases the server holds exactly its earlier records minus the Ids of the resources removed, and the registry is left as it is. |
| `Org.SalesforceOrg.RemoveAll` | rabbit_force/salesforce/org.py:82-83 | Removes the listed resources in order until one fails. It succeeds exactly when each listed record is on the server at its turn. On success every listed record is gone. On failure the records before the failing one are gone and its own is not on the server. No other record changes. |
| `Org.SalesforceOrg.Close` | rabbit_force/salesforce/org.py:85-91 | Closing the org closes its REST client. |
| `Legacy.LegacyResource.constructor` | rabbit_force/streaming_resources.py:12-19 | name and resource_attributes are stored unchanged. |
| `Legacy.LegacyResource.ChannelName` | rabbit_force/streaming_resources.py:48-68 | "/topic/" followed by the name for PushTopic, the name itself for StreamingChannel. |
| `Legacy.ChannelNameAgrees` | rabbit_force/streaming_resources.py:36-68 | The older classes derive the same channel name as the newer ones. |
| `Legacy.LegacyOrg.constructor` | rabbit_force/salesforce_org.py:28-30 | A new org has an empty registry and a new SalesforceApi client of its authenticator, which has no HTTP session and no base URL yet. |
| `Legacy.LegacyOrg.AddResource` | rabbit_force/salesforce_org.py:34-54 | durable is set to the argument, which defaults to True. The resource is stored under its name, replacing an entry of that name and keeping the others, and returned. |
| `Legacy.LegacyOrg.RemoveResource` | rabbit_force/salesforce_org.py:56-62 | It reads the type name and id for a delete that is never awaited. Its REST client and HTTP transport are unchanged, so no request is sent, and only a missing Id raises. |
| `Legacy.LegacyOrg.CleanupResources` | rabbit_force/salesforce_org.py:64-69 | It calls remove_resource once per non-durable resource, in registry order, and never for a durable one. It stops at the first resource without an Id. The registry is unchanged. |
| `Legacy.LegacyOrg.RemoveAll` | rabbit_force/salesforce_org.py:68-69 | Calls remove_resource on the listed resources in order until one fails. |
| `Legacy.LegacyOrg.Close` | rabbit_force/salesforce_org.py:71-77 | Closing the org closes its REST client's HTTP session. It raises AttributeError exactly when the client never opened a session. |
| `Legacy.CloseAfterCleanupRaises` | rabbit_force/salesforce_org.py:56-77 | Take an older org whose only resource is non-durable. After its clean-up it has sent no request, so closing it raises AttributeError. |
| `Legacy.UnawaitedDeleteKeepsRecord` | rabbit_force/salesforce_org.py:62 | Take a non-durable resource whose record is on the server. The older org's clean-up sends no HTTP request through its REST client. Since only requests reach the server, the record stays there. |
| `Legacy.AwaitedDeleteRemovesRecord` | rabbit_force/salesforce/org.py:76 | The same removal, awaited as in the newer org, deletes the record. |
| `SalesforceApi.ErrorKindFor` | rabbit_force/salesforce_api.py:17-27 | The nine mapped statuses raise their own class, and every other status raises the generic SalesforceRestError. 401 is Unauthorized and 404 is NotFound. |
| `SalesforceApi.ErrorKindsDistinct` | rabbit_force/salesforce_api.py:17-27 | Distinct mapped statuses raise distinct classes, and every mapped status marks a failure. |
| `SalesforceApi.EveryKindHasStatus` | rabbit_force/salesforce_api.py:17-27 | Every specific error class is raised for some status. |
| `SalesforceApi.VerifyResponse` | rabbit_force/salesforce_api.py:95-104 | A response is refused exactly when its status is ≥ 300. It then raises its status's class with the response's JSON content, or its text when the body is not JSON. |
| `SalesforceApi.ReplyResult` | rabbit_force/salesforce_api.py:139-151 | A client error becomes NetworkError and a failed status its error class. An accepted response yields its JSON data, or None when the body is not JSON. |
| `SalesforceApi.RetryExactlyOnUnauthorized` | rabbit_force/salesforce_api.py:173-177 | A reply triggers the retry exactly when it raises SalesforceUnauthorizedError. |
| `SalesforceApi.ResourcePath` | rabbit_force/salesforce_api.py:180-193 | The path is "sobjects/", the type name and "/", followed by the record id when it is given and not empty. |
| `SalesforceApi.ResourcePathInjective` | rabbit_force/salesforce_api.py:180-193 | For type names without a slash, the path determines the type name and the id. |
| `SalesforceApi.Authenticator.Authenticate` | rabbit_force/salesforce_api.py:55-56 | Each authentication installs the next grant. |
| `SalesforceApi.SalesforceClient.constructor` | rabbit_force/salesforce_api.py:31-41 | A new client has no session and no base URL. |
| `SalesforceApi.SalesforceClient.GetHttpSession` | rabbit_force/salesforce_api.py:43-51 | A session is opened only when there is none or the last one was closed. |
| `SalesforceApi.SalesforceClient.GetBaseUrl` | rabbit_force/salesforce_api.py:53-59 | The first call authenticates once and stores the instance URL followed by "/services/data/v42.0/". Later calls return the stored URL without authenticating. |
| `SalesforceApi.SalesforceClient.Request` | rabbit_force/salesforce_api.py:106-151 | It sends exactly one request to the base URL followed by the path, with the given verb, params and JSON. When the base URL was not known yet, it authenticates once and the base URL becomes the new instance URL followed by the API path; otherwise the stored base URL is used. The Authorization header is the token type, a space and the access token. It returns the result of the reply. |
| `SalesforceApi.SalesforceClient.RequestWithRetry` | rabbit_force/salesforce_api.py:153-177 | There are at most two attempts. The first is authorized with the current credentials: those of the initial authentication when the base URL was not known yet, in which case the base URL is that authentication's instance URL followed by the API path. The second happens only after Unauthorized on the first, with exactly one re-authentication between them. It is authorized with the credentials that re-authentication installs, and its result, a second Unauthorized included, is returned. Otherwise the first result is returned. |
| `SalesforceApi.SalesforceClient.Query` | rabbit_force/salesforce_api.py:203-214 | Every request sent is a GET on "query" with the query as parameter q. |
| `SalesforceApi.SalesforceClient.Create` | rabbit_force/salesforce_api.py:216-228 | Every request sent is a POST on the type's path with the data. |
| `SalesforceApi.SalesforceClient.Update` | rabbit_force/salesforce_api.py:230-244 | Every request sent is a PATCH on the record's path with the data. |
| `SalesforceApi.SalesforceClient.Delete` | rabbit_force/salesforce_api.py:246-258 | Every request sent is a DELETE on the record's path. |
| `SalesforceApi.SalesforceClient.Get` | rabbit_force/salesforce_api.py:260-272 | Every request sent is a GET on the record's path. |
| `SalesforceApi.SalesforceClient.Close` | rabbit_force/salesforce_api.py:195-201 | It closes the session. Before any request there is no session, and closing raises AttributeError. |
| `MessageSource.ReceptionError` | rabbit_force/message_source.py:101-107 | ClientInvalidOperation becomes InvalidOperation with the same message. Any other client error becomes StreamingError. |
| `MessageSource.InOrder` | rabbit_force/message_source.py:83 | The org's resources are visited in registry order. |
| `MessageSource.FirstUnnamed` | rabbit_force/message_source.py:83-84 | The index of the first resource without a channel name. |
| `MessageSource.OrgMessageSource.constructor` | rabbit_force/message_source.py:57-65 | A source keeps its name, its org and its streaming client. |
| `MessageSource.OrgMessageSource.Open` | rabbit_force/message_source.py:79-84 | It opens the client, then subscribes once to each resource's channel in registry order. A resource without a channel name stops the subscriptions with its error. |
| `MessageSource.OrgMessageSource.SubscribeAll` | rabbit_force/message_source.py:83-84 | Subscribes to the channels in order, up to the first resource without a channel name. |
| `MessageSource.OrgMessageSource.Close` | rabbit_force/message_source.py:86-92 | It closes the client, then deletes the org's non-durable resources, then closes the org, in that order. It succeeds exactly when each of those resources' records is on the server at its turn. On success the server holds its earlier records minus exactly those resources' Ids. A failed clean-up leaves the org open, with only the records of the resources before the failing one deleted. |
| `MessageSource.OrgMessageSource.GetMessage` | rabbit_force/message_source.py:94-107 | A received message comes back paired with the source's name. A client error is raised as the package's error. The client's queue of messages moves past the one received. |
| `MessageSource.PendingIffSomeSourceHolds` | rabbit_force/message_source.py:124-131 | The sum of pending counts is positive exactly when some sub-source holds a message. |
| `MessageSource.EligibleSources` | rabbit_force/message_source.py:147-148 | The sources waited on are exactly the sub-sources that are open or still hold messages. |
| `MessageSource.NoneEligibleWhenAllDrained` | rabbit_force/message_source.py:147-148 | When every sub-source is closed and drained, none is waited on. |
| `MessageSource.MultiMessageSource.constructor` | rabbit_force/message_source.py:113-118 | A new gathering source is closed and keeps its sources. |
| `MessageSource.MultiMessageSource.HasPendingMessages` | rabbit_force/message_source.py:129-131 | Messages are pending exactly when some sub-source holds one. |
| `MessageSource.MultiMessageSource.Waited` | rabbit_force/message_source.py:145-148 | get_message waits exactly on the open sub-sources and those that still hold messages. |
| `MessageSource.MultiMessageSource.Open` | rabbit_force/message_source.py:133-137 | It opens every sub-source in order and then marks the source open. It succeeds exactly when no sub-source raises, and a raise leaves the flag as it was. |
| `MessageSource.MultiMessageSource.Close` | rabbit_force/message_source.py:139-143 | It closes every sub-source in order and then marks the source closed. It succeeds exactly when no sub-source raises, and a raise leaves the flag as it was. |

## Left out

- Asyncio orchestration is not modelled: tasks, event loops and cancellation. That includes `MultiMessageSource.get_message`'s `asyncio.wait` and cancelling of pending tasks (`rabbit_force/message_source.py:150-167`). Only the choice of sources waited on is modelled.
- `rabbit_force/app.py`, `rabbit_force/amqp_broker.py`, `rabbit_force/factories.py`, `rabbit_force/__main__.py` and `rabbit_force/salesforce/__init__.py` are not part of this model. They hold wiring, a thin wrapper over aioamqp, the command line and re-exports.
- JSONPath parsing and evaluation belong to jsonpath_ng. A condition is known only through its `find` function. The parser is a parameter of `Routing.NewCondition`, and it yields a parsed expression, a lexer error or a parse error.
- `rabbit_force/salesforce/rest_client.py` is not part of this model. The newer org's REST client is the record store, so `Org.SalesforceOrg.Close` does not model a close that raises.
- `Common.Lower`: lower-cases ASCII letters only, where `rabbit_force/config.py:305-307` uses Python's Unicode `str.lower()`. The loader chosen is the same, since no other character lower-cases to a letter of json, yaml or yml.
- `MessageSink.MultiMessageSink`: its sinks are AMQP sinks only. The Python class accepts any message sink, a nested `MultiMessageSink` included.
- Marshmallow internals are reduced to:
  - the field kinds the schemas use;
  - their null handling;
  - `Length`, `Range` and `OneOf`;
  - `required`, `attribute` and `missing`;
  - the two treatments of unknown keys and schema validators.

  Left out are the exact error messages, the type coercions the schemas do not rely on (String fields accept only strings, Float fields only numbers), and `default=`, which only affects dumping.
- URL validation checks only the scheme before "://" against the allowed schemes. The rest of the URL syntax is not checked.
- JSON serialisation and UTF-8 encoding are opaque. The serializer is a function value of the sink, and the payload records the encoding it is sent in.
- The aiohttp session is a counter of sessions opened plus an open flag. The `asyncio.sleep` after closing it is left out.
- `PasswordAuthenticator`, aiohttp, the aiosfstream client and the AMQP protocol are environment objects. They play back scripted grants, replies and messages: an authentication always succeeds, and an unscripted reply becomes a client error.
- `rabbit_force/salesforce_org.py` imports a `StreamingResourceFactory` that `rabbit_force/streaming_resources.py` does not define. `Legacy.LegacyOrg.AddResource` therefore takes the factory's result as an argument. Its resources are objects of the newer class, which have the Id, Name and durable flag the older org reads. The requests such a factory would send through the org's REST client are not modelled. `AddResource` leaves the client as it is, so a session opened by those requests has to be opened on `client` by the caller.
- The Salesforce server is modelled as a store of records by id. It issues ids as consecutive numbers, and a SOQL query is modelled as a lookup by type and Name. Upserts and lookups run against this store (`Resources.RestStore`), not through `SalesforceApi`.
- `MultiMessageSource` is modelled over sub-sources seen through the message-source interface (`MessageSource.SubSource`). Its `get_message` itself is asyncio and left out.
- The aliasing of the `rules` list handed to `MessageRouter` is not modelled. Later changes to the caller's list do not reach the model's router.
- `MessageSink.MultiMessageSink.Close`: closes every sink but does not state the order, since the sinks are a map and dict iteration order is not modelled here.
- `SalesforceApi.SalesforceClient.Query`, `Create`, `Update`, `Delete` and `Get`: state the verb, path, parameters and body of every request they send, and that there are one or two requests. The result and the retry are stated once, on `RequestWithRetry`, which each of them calls.
- `MessageSource.MultiMessageSource.Open` and `MessageSource.MultiMessageSource.Close`: on a raise they do not state which sub-sources had already been opened or closed.
- `MessageSource.OrgMessageSource.Close`: on a failed clean-up it states the requests sent and that the org is not closed, but not which resource failed.
- `Org.SalesforceOrg.CleanupResources`: on failure it states which records are gone and which request came last, but not the error raised.

## Findings

| source | as written | input that shows it | evidently intended | confidence | as-written member | corrected member |
|---|---|---|---|---|---|---|
| rabbit_force/salesforce_org.py:62 | `remove_resource` calls `self._rest_client.delete(...)` without `await`. The coroutine is created and never run, so no delete request reaches the server. | An org holding one non-durable PushTopic whose record is on the server: after `cleanup_resources` the record is still there. | Awaiting the delete, as `rabbit_force/salesforce/org.py:76` does, so that clean-up deletes every non-durable resource's record. | not executed | `Legacy.UnawaitedDeleteKeepsRecord` | `Legacy.AwaitedDeleteRemovesRecord` |
