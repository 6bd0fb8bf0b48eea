/** Streaming resources of rabbit_force/salesforce/resources.py: the
    registry of resource types, the resource objects and their channel
    names, and the factory that looks resources up on the Salesforce server
    or creates or updates them there. The server is an in-memory store of
    records. */
module Resources {
  import opened Common
  import CS = ConfigSchema

  const PUSH_TOPIC: string := "PushTopic"
  const STREAMING_CHANNEL: string := "StreamingChannel"

  /** How a resource type derives its channel name from the resource name. */
  datatype ChannelNaming = TopicChannel | NamedChannel

  /** A registered resource class: its type name and channel naming. */
  datatype ResourceType = ResourceType(typeName: string, naming: ChannelNaming)

  const PushTopicResource := ResourceType(PUSH_TOPIC, TopicChannel)
  const StreamingChannelResource := ResourceType(STREAMING_CHANNEL, NamedChannel)

  /** The channel name of a resource named `name`: "/topic/" followed by
      the name for PushTopic, the name itself for StreamingChannel. A
      PushTopic name that is not a string cannot be concatenated. */
  function ChannelNameOf(naming: ChannelNaming, name: Json): (r: Result<Json, Error>)
    ensures naming == NamedChannel ==> r == Success(name)
    ensures naming == TopicChannel ==> (r.Success? <==> name.JStr?)
    ensures naming == TopicChannel && r.Success? ==>
      r.value.JStr? && |r.value.s| == |name.s| + 7 && r.value.s[..7] == "/topic/" && r.value.s[7..] == name.s
  {
    match naming
    case NamedChannel => Success(name)
    case TopicChannel =>
      if name.JStr? then
        var c := "/topic/" + name.s;
        assert c[7..] == name.s;
        Success(JStr(c))
      else Failure(TypeError("can only concatenate str to str"))
  }

  /** Resources of one type with different names have different channel
      names. */
  lemma ChannelNamesDistinguishResources(naming: ChannelNaming, a: Json, b: Json)
    requires ChannelNameOf(naming, a).Success? && ChannelNameOf(naming, b).Success?
    requires ChannelNameOf(naming, a).value == ChannelNameOf(naming, b).value
    ensures a == b
  {
    if naming == TopicChannel {
      var ca := ChannelNameOf(naming, a).value.s;
      assert a.s == ca[7..];
    }
  }

  /** The class-level dictionary of resource types by name, which each
      subclass declaration extends. */
  class TypeRegistry {
    var types: map<string, ResourceType>

    /** The registry once both built-in resource classes are declared. */
    constructor ()
      ensures types == map[PUSH_TOPIC := PushTopicResource, STREAMING_CHANNEL := StreamingChannelResource]
    {
      types := map[];
      new;
      Register(PushTopicResource);
      Register(StreamingChannelResource);
    }

    /** Registers a class under its type name, replacing an earlier class of
        that name and keeping every other registration. */
    method Register(t: ResourceType)
      modifies this
      ensures types == old(types)[t.typeName := t]
    {
      types := types[t.typeName := t];
    }
  }

  /** A streaming resource: its class, its server-side definition, and
      whether it is kept on the server after use. */
  class StreamingResource {
    const resourceType: ResourceType
    const definition: map<string, Json>
    var durable: bool

    constructor (resourceType: ResourceType, definition: map<string, Json>, durable: bool := true)
      ensures this.resourceType == resourceType && this.definition == definition && this.durable == durable
    {
      this.resourceType := resourceType;
      this.definition := definition;
      this.durable := durable;
    }

    /** An attribute of the definition; a missing one raises KeyError. */
    function Attribute(key: string): (r: Result<Json, Error>)
      ensures r.Success? <==> key in definition
      ensures r.Success? ==> r.value == definition[key]
      ensures r.Failure? ==> r.error == KeyError(JStr(key))
    {
      if key in definition then Success(definition[key]) else Failure(KeyError(JStr(key)))
    }

    function Id(): Result<Json, Error> {
      Attribute("Id")
    }

    function Name(): Result<Json, Error> {
      Attribute("Name")
    }

    function Description(): Result<Json, Error> {
      Attribute("Description")
    }

    /** The channel the resource's messages are published on. */
    function ChannelName(): (r: Result<Json, Error>)
      ensures "Name" !in definition ==> r == Failure(KeyError(JStr("Name")))
      ensures "Name" in definition ==> r == ChannelNameOf(resourceType.naming, definition["Name"])
    {
      var name :- Name();
      ChannelNameOf(resourceType.naming, name)
    }
  }

  // ---------------------------------------------------------------------
  // The Salesforce server
  // ---------------------------------------------------------------------

  /** A server-side record: its type and its fields. */
  datatype Record = Record(typeName: string, fields: map<string, Json>)

  /** The id the server gives its n-th new record. Ids are modelled as
      numbers issued in sequence. */
  function IdOf(n: nat): Json {
    JNum(n as real)
  }

  /** A record of type `typeName` whose Name is `name`. */
  predicate NamedIn(records: map<Json, Record>, typeName: string, name: Json, id: Json) {
    id in records && records[id].typeName == typeName
    && "Name" in records[id].fields && records[id].fields["Name"] == name
  }

  /** The effect of an update: the given fields replace the record's own,
      and every other field is kept. */
  function Merge(base: map<string, Json>, changes: map<string, Json>): (r: map<string, Json>)
    ensures r.Keys == base.Keys + changes.Keys
    ensures forall k :: k in changes ==> r[k] == changes[k]
    ensures forall k :: k in base && k !in changes ==> r[k] == base[k]
  {
    map k | k in base.Keys + changes.Keys :: if k in changes then changes[k] else base[k]
  }

  /** The Salesforce server, as a store of records by id, with a journal
      of the delete requests it receives. */
  class RestStore {
    var records: map<Json, Record>
    /** How many ids the store has issued. */
    var issued: nat
    const journal: Journal

    /** Every record's id was issued earlier. */
    predicate Valid()
      reads this
    {
      forall id :: id in records ==> id.JNum? && id.n < issued as real
    }

    constructor (journal: Journal)
      ensures records == map[] && issued == 0 && this.journal == journal && Valid()
    {
      records := map[];
      issued := 0;
      this.journal := journal;
    }

    /** The ids of the records of type `typeName` named `name`. */
    method QueryByName(typeName: string, name: Json) returns (ids: seq<Json>)
      ensures forall i :: 0 <= i < |ids| ==> NamedIn(records, typeName, name, ids[i])
      ensures forall id :: NamedIn(records, typeName, name, id) ==> id in ids
    {
      ids := [];
      var todo := records.Keys;
      while todo != {}
        invariant todo <= records.Keys
        invariant forall i :: 0 <= i < |ids| ==> NamedIn(records, typeName, name, ids[i])
        invariant forall id :: NamedIn(records, typeName, name, id) && id !in todo ==> id in ids
        decreases |todo|
      {
        var id :| id in todo;
        if NamedIn(records, typeName, name, id) {
          ids := ids + [id];
        }
        todo := todo - {id};
      }
    }

    /** The record of type `typeName` with id `id`; any other id is not
        found. */
    method Get(typeName: string, id: Json) returns (r: Result<map<string, Json>, Error>)
      ensures r.Success? <==> id in records && records[id].typeName == typeName
      ensures r.Success? ==> r.value == records[id].fields
      ensures r.Failure? ==> r.error == SalesforceRestError(NotFound, Content(id))
    {
      if id in records && records[id].typeName == typeName {
        r := Success(records[id].fields);
      } else {
        r := Failure(SalesforceRestError(NotFound, Content(id)));
      }
    }

    /** Merges `changes` into the record of type `typeName` with id `id`. */
    method Update(typeName: string, id: Json, changes: map<string, Json>) returns (r: Outcome<Error>)
      requires Valid()
      modifies this
      ensures Valid() && issued == old(issued)
      ensures r.Pass? <==> old(id in records && records[id].typeName == typeName)
      ensures r.Pass? ==> records == old(records)[id := Record(typeName, Merge(old(records[id].fields), changes))]
      ensures r.Fail? ==> records == old(records) && r.error == SalesforceRestError(NotFound, Content(id))
    {
      if id in records && records[id].typeName == typeName {
        records := records[id := Record(typeName, Merge(records[id].fields, changes))];
        r := Pass;
      } else {
        r := Missing(id);
      }
    }

    /** Creates a record from `definition` under a new id. */
    method Create(typeName: string, definition: map<string, Json>) returns (id: Json)
      requires Valid()
      modifies this
      ensures Valid() && issued == old(issued) + 1
      ensures id == IdOf(old(issued)) && id !in old(records)
      ensures records == old(records)[id := Record(typeName, definition["Id" := id])]
    {
      id := IdOf(issued);
      records := records[id := Record(typeName, definition["Id" := id])];
      issued := issued + 1;
    }

    /** Deletes the record of type `typeName` with id `id`; the request is
        journalled whether or not it succeeds. */
    method Delete(typeName: string, id: Json) returns (r: Outcome<Error>)
      requires Valid()
      modifies this, journal
      ensures Valid() && issued == old(issued)
      ensures journal.events == old(journal.events) + [ResourceDeleted(typeName, id)]
      ensures r.Pass? <==> old(id in records && records[id].typeName == typeName)
      ensures r.Pass? ==> records == old(records) - {id}
      ensures r.Fail? ==> records == old(records) && r.error == SalesforceRestError(NotFound, Content(id))
    {
      journal.Record(ResourceDeleted(typeName, id));
      if id in records && records[id].typeName == typeName {
        records := records - {id};
        r := Pass;
      } else {
        r := Missing(id);
      }
    }

    /** Ends the client's session. */
    method Close()
      modifies journal
      ensures journal.events == old(journal.events) + [RestClientClosed]
    {
      journal.Record(RestClientClosed);
    }

    function Missing(id: Json): Outcome<Error> {
      Fail(SalesforceRestError(NotFound, Content(id)))
    }
  }

  // ---------------------------------------------------------------------
  // What a resource specification asks for
  // ---------------------------------------------------------------------

  /** The request a resource specification makes: a lookup by name or by
      id when it holds a single pair, an error when that pair is not an
      identifier, and a create-or-update otherwise. */
  datatype Request =
    | ByName(name: Json)
    | ById(id: Json)
    | NotIdentifier(keys: set<string>)
    | Upsert(definition: map<string, Json>)

  function Classify(spec: map<string, Json>): (r: Request)
    ensures r.Upsert? <==> |spec| != 1
    ensures r.Upsert? ==> r.definition == spec
    ensures r.ByName? <==> spec.Keys == {"Name"}
    ensures r.ByName? ==> r.name == spec["Name"]
    ensures r.ById? <==> spec.Keys == {"Id"}
    ensures r.ById? ==> r.id == spec["Id"]
    ensures r.NotIdentifier? ==> r.keys == spec.Keys && |spec| == 1 && "Name" !in spec && "Id" !in spec
  {
    if |spec| == 1 then
      if "Name" in spec then
        SingletonKeys(spec, "Name");
        ByName(spec["Name"])
      else if "Id" in spec then
        SingletonKeys(spec, "Id");
        ById(spec["Id"])
      else NotIdentifier(spec.Keys)
    else Upsert(spec)
  }

  lemma SingletonKeys(spec: map<string, Json>, k: string)
    requires |spec| == 1 && k in spec
    ensures spec.Keys == {k}
  {
    var rest := spec.Keys - {k};
    assert |spec.Keys| == |rest| + 1;
  }

  /** A PushTopic spec the configuration accepts never names a non-identifier
      alone, and when it defines the resource it has a Name. */
  lemma ConfiguredPushTopicDispatches(spec: map<string, Json>)
    requires CS.PushTopicSpecValid(spec)
    ensures !Classify(spec).NotIdentifier?
    ensures Classify(spec).Upsert? ==> "Name" in spec
  {
  }

  /** What the factory does with a specification of type `typeName`:
      `before` and `after` are the server's records, `issued` the number of
      ids issued before, and `r` the definition it yields or the error it
      raises. Lookups change nothing; a definition updates the record of
      that Name if there is one and creates a record otherwise. */
  ghost predicate Fetched(before: map<Json, Record>, issued: nat, typeName: string, spec: map<string, Json>,
                          after: map<Json, Record>, r: Result<map<string, Json>, Error>)
  {
    match Classify(spec)
    case ByName(n) =>
      && after == before
      && (if exists id :: NamedIn(before, typeName, n, id) then
            exists id :: NamedIn(before, typeName, n, id) && r == Success(before[id].fields)
          else r == Failure(SalesforceRestError(NotFound, NoRecordNamed(typeName, n))))
    case ById(i) =>
      && after == before
      && (if i in before && before[i].typeName == typeName then r == Success(before[i].fields)
          else r == Failure(SalesforceRestError(NotFound, Content(i))))
    case NotIdentifier(keys) =>
      after == before && r == Failure(SpecificationError(NotAnIdentifier(keys)))
    case Upsert(d) =>
      if "Name" !in d then after == before && r == Failure(KeyError(JStr("Name")))
      else if exists id :: NamedIn(before, typeName, d["Name"], id) then
        exists id :: NamedIn(before, typeName, d["Name"], id)
          && after == before[id := Record(typeName, Merge(before[id].fields, d))]
          && r == Success(after[id].fields)
      else
        && after == before[IdOf(issued) := Record(typeName, d["Id" := IdOf(issued)])]
        && r == Success(d["Id" := IdOf(issued)])
  }

  /** A create-or-update never removes a record, and adds one exactly when
      no record of the type has the definition's Name. */
  lemma UpsertRecordCount(before: map<Json, Record>, issued: nat, typeName: string, spec: map<string, Json>,
                          after: map<Json, Record>, r: Result<map<string, Json>, Error>)
    requires IdOf(issued) !in before
    requires Fetched(before, issued, typeName, spec, after, r) && Classify(spec).Upsert? && r.Success?
    ensures before.Keys <= after.Keys
    ensures |after| == if exists id :: NamedIn(before, typeName, spec["Name"], id) then |before| else |before| + 1
  {
    if exists id :: NamedIn(before, typeName, spec["Name"], id) {
      var id :| NamedIn(before, typeName, spec["Name"], id)
                && after == before[id := Record(typeName, Merge(before[id].fields, spec))];
      assert after.Keys == before.Keys;
    } else {
      assert after.Keys == before.Keys + {IdOf(issued)};
    }
  }

  /** After a create-or-update of a definition with a Name, a record of
      that Name exists. */
  lemma UpsertLeavesNamed(before: map<Json, Record>, issued: nat, typeName: string, spec: map<string, Json>,
                          after: map<Json, Record>, r: Result<map<string, Json>, Error>)
    requires Classify(spec).Upsert? && "Name" in spec
    requires Fetched(before, issued, typeName, spec, after, r)
    ensures exists id :: NamedIn(after, typeName, spec["Name"], id)
  {
    var name := spec["Name"];
    if exists id :: NamedIn(before, typeName, name, id) {
      var id :| NamedIn(before, typeName, name, id)
                && after == before[id := Record(typeName, Merge(before[id].fields, spec))];
      assert NamedIn(after, typeName, name, id);
    } else {
      assert NamedIn(after, typeName, name, IdOf(issued));
    }
  }

  /** A create-or-update of a definition whose Name a record already has
      creates no record. */
  lemma UpsertOfNamedKeepsIds(before: map<Json, Record>, issued: nat, typeName: string, spec: map<string, Json>,
                              after: map<Json, Record>, r: Result<map<string, Json>, Error>)
    requires Classify(spec).Upsert? && "Name" in spec
    requires exists id :: NamedIn(before, typeName, spec["Name"], id)
    requires Fetched(before, issued, typeName, spec, after, r)
    ensures after.Keys == before.Keys
  {
    var id :| NamedIn(before, typeName, spec["Name"], id)
              && after == before[id := Record(typeName, Merge(before[id].fields, spec))];
  }

  /** Creating or updating with the same definition a second time creates
      nothing more: the record the first call created or updated carries
      the definition's Name. */
  lemma UpsertTwiceCreatesOnce(r0: map<Json, Record>, issued: nat, typeName: string, spec: map<string, Json>,
                               r1: map<Json, Record>, res1: Result<map<string, Json>, Error>,
                               issued1: nat, r2: map<Json, Record>, res2: Result<map<string, Json>, Error>)
    requires Classify(spec).Upsert? && "Name" in spec
    requires Fetched(r0, issued, typeName, spec, r1, res1)
    requires Fetched(r1, issued1, typeName, spec, r2, res2)
    ensures exists id :: NamedIn(r1, typeName, spec["Name"], id)
    ensures r2.Keys == r1.Keys
  {
    UpsertLeavesNamed(r0, issued, typeName, spec, r1, res1);
    UpsertOfNamedKeepsIds(r1, issued1, typeName, spec, r2, res2);
  }

  // ---------------------------------------------------------------------
  // The factory
  // ---------------------------------------------------------------------

  /** Creates resource objects from specifications, through the server. */
  class ResourceFactory {
    const client: RestStore
    const registry: TypeRegistry

    constructor (client: RestStore, registry: TypeRegistry)
      ensures this.client == client && this.registry == registry
    {
      this.client := client;
      this.registry := registry;
    }

    /** The id of a record of type `typeName` named `name`; NotFound when
        the query finds none. */
    method IdByName(typeName: string, name: Json) returns (r: Result<Json, Error>)
      ensures r.Success? ==> NamedIn(client.records, typeName, name, r.value)
      ensures r.Failure? <==> forall id :: !NamedIn(client.records, typeName, name, id)
      ensures r.Failure? ==> r.error == SalesforceRestError(NotFound, NoRecordNamed(typeName, name))
    {
      var ids := client.QueryByName(typeName, name);
      if |ids| == 0 {
        r := Failure(SalesforceRestError(NotFound, NoRecordNamed(typeName, name)));
      } else {
        r := Success(ids[0]);
      }
    }

    /** Updates the record named as the definition, or creates one, and
        returns the server's record. */
    method CreateOrUpdate(typeName: string, definition: map<string, Json>) returns (r: Result<map<string, Json>, Error>)
      requires client.Valid() && |definition| != 1
      modifies client
      ensures client.Valid()
      ensures Fetched(old(client.records), old(client.issued), typeName, definition, client.records, r)
    {
      if "Name" !in definition {
        return Failure(KeyError(JStr("Name")));
      }
      var name := definition["Name"];
      var found := IdByName(typeName, name);
      match found
      case Success(id) =>
        var updated := client.Update(typeName, id, definition);
        r := client.Get(typeName, id);
      case Failure(e) =>
        var id := client.Create(typeName, definition);
        r := client.Get(typeName, id);
    }

    /** The definition a specification leads to: a lookup for a single
        identifier, a create-or-update for a definition. */
    method GetResource(typeName: string, spec: map<string, Json>) returns (r: Result<map<string, Json>, Error>)
      requires client.Valid()
      modifies client
      ensures client.Valid()
      ensures Fetched(old(client.records), old(client.issued), typeName, spec, client.records, r)
    {
      match Classify(spec)
      case ByName(n) =>
        var found := IdByName(typeName, n);
        if found.Failure? {
          return Failure(found.error);
        }
        r := client.Get(typeName, found.value);
      case ById(i) =>
        r := client.Get(typeName, i);
      case NotIdentifier(keys) =>
        r := Failure(SpecificationError(NotAnIdentifier(keys)));
      case Upsert(d) =>
        r := CreateOrUpdate(typeName, d);
    }

    /** A resource object of a registered type for the specification. An
        unregistered type is refused before the server is asked anything. */
    method CreateResource(typeName: string, spec: map<string, Json>) returns (r: Result<StreamingResource, Error>)
      requires client.Valid()
      modifies client
      ensures client.Valid()
      ensures typeName !in registry.types ==>
        r == Failure(SpecificationError(UnknownResourceType(typeName))) && client.records == old(client.records)
      ensures typeName in registry.types && r.Success? ==>
        && fresh(r.value) && r.value.resourceType == registry.types[typeName] && r.value.durable
        && Fetched(old(client.records), old(client.issued), typeName, spec, client.records, Success(r.value.definition))
      ensures typeName in registry.types && r.Failure? ==>
        Fetched(old(client.records), old(client.issued), typeName, spec, client.records, Failure(r.error))
    {
      if typeName !in registry.types {
        return Failure(SpecificationError(UnknownResourceType(typeName)));
      }
      var definition := GetResource(typeName, spec);
      if definition.Failure? {
        return Failure(definition.error);
      }
      var resource := new StreamingResource(registry.types[typeName], definition.value);
      r := Success(resource);
    }
  }
}
