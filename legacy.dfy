/** The older module pair rabbit_force/streaming_resources.py and
    rabbit_force/salesforce_org.py. The resource classes there carry a
    name and their attributes; the org keeps the same name-keyed registry
    as the newer org, but its removal never sends the delete request. */
module Legacy {
  import opened Common
  import opened Resources
  import Org
  import SalesforceApi

  /** A resource of the older module: a name and all its attributes. The
      classes that declare a type register themselves in the same kind of
      class-level registry as the newer ones (`TypeRegistry`). */
  class LegacyResource {
    const resourceType: ResourceType
    const name: string
    const attributes: map<string, Json>

    constructor (resourceType: ResourceType, name: string, attributes: map<string, Json>)
      ensures this.resourceType == resourceType && this.name == name && this.attributes == attributes
    {
      this.resourceType := resourceType;
      this.name := name;
      this.attributes := attributes;
    }

    /** The channel name: "/topic/" and the name for PushTopic, the name
        itself for StreamingChannel. */
    function ChannelName(): (r: string)
      ensures resourceType.naming == NamedChannel ==> r == name
      ensures resourceType.naming == TopicChannel ==> |r| == |name| + 7 && r[..7] == "/topic/" && r[7..] == name
    {
      match resourceType.naming
      case NamedChannel => name
      case TopicChannel =>
        var c := "/topic/" + name;
        assert c[7..] == name;
        c
    }
  }

  /** The older classes derive the same channel name as the newer ones for
      a resource of the same type and name. */
  lemma ChannelNameAgrees(old_: LegacyResource, new_: StreamingResource)
    requires old_.resourceType == new_.resourceType
    requires "Name" in new_.definition && new_.definition["Name"] == JStr(old_.name)
    ensures new_.ChannelName() == Success(JStr(old_.ChannelName()))
  {
    if old_.resourceType.naming == TopicChannel {
      var c := new_.ChannelName().value.s;
      assert c == old_.ChannelName() by {
        assert c[..7] == "/topic/" && c[7..] == old_.name;
        assert c == c[..7] + c[7..];
      }
    }
  }

  /** The older org. Its REST client is a `SalesforceApi` client. The
      factory it imports is not defined next to the older resource classes,
      so the model hands the factory's result to `AddResource`, and the
      resources are objects of the newer class, which have the Id, Name and
      durable flag the org reads. */
  class LegacyOrg {
    const client: SalesforceApi.SalesforceClient
    var names: seq<Json>
    var resources: map<Json, StreamingResource>
    /** The resources `RemoveResource` was called with, in order. */
    ghost var removals: seq<StreamingResource>

    predicate Valid()
      reads this
    {
      && (forall i, j :: 0 <= i < j < |names| ==> names[i] != names[j])
      && (forall i :: 0 <= i < |names| ==> names[i] in resources)
      && (forall k :: k in resources ==> k in names)
    }

    /** A new org builds its own REST client from the authenticator. */
    constructor (auth: SalesforceApi.Authenticator, http: SalesforceApi.Http)
      ensures fresh(client) && client.auth == auth && client.http == http
      ensures client.baseUrl == None && client.sessions == 0 && !client.sessionOpen && client.Valid()
      ensures names == [] && resources == map[] && removals == [] && Valid()
    {
      client := new SalesforceApi.SalesforceClient(auth, http);
      names := [];
      resources := map[];
      removals := [];
    }

    /** Sets the durability of the created resource and stores it under
        its name, replacing a resource of the same name. */
    method AddResource(created: Result<StreamingResource, Error>, durable: bool := true)
      returns (r: Result<StreamingResource, Error>)
      requires Valid()
      modifies this, if created.Success? then {created.value} else {}
      ensures Valid() && removals == old(removals)
      ensures created.Failure? ==> r == created
      ensures r.Success? ==>
        && created == r && r.value.durable == durable
        && "Name" in r.value.definition
        && resources == old(resources)[r.value.definition["Name"] := r.value]
        && names == (if r.value.definition["Name"] in old(resources) then old(names)
                     else old(names) + [r.value.definition["Name"]])
      ensures created.Success? && "Name" !in created.value.definition ==> r == Failure(KeyError(JStr("Name")))
      ensures r.Failure? ==> resources == old(resources) && names == old(names)
    {
      if created.Failure? {
        return created;
      }
      var resource := created.value;
      resource.durable := durable;
      var name := resource.Name();
      if name.Failure? {
        return Failure(name.error);
      }
      if name.value !in resources {
        names := names + [name.value];
      }
      resources := resources[name.value := resource];
      r := created;
    }

    /** Reads the resource's type name and id for a delete request that is
        never awaited, so the server is not asked anything. Only a missing
        Id is raised. */
    method RemoveResource(resource: StreamingResource) returns (r: Outcome<Error>)
      modifies this
      ensures names == old(names) && resources == old(resources)
      ensures removals == old(removals) + [resource]
      ensures unchanged(client, client.http)
      ensures r.Pass? <==> "Id" in resource.definition
      ensures r.Fail? ==> r.error == KeyError(JStr("Id"))
    {
      removals := removals + [resource];
      var id := resource.Id();
      if id.Failure? {
        return Fail(id.error);
      }
      r := Pass;
    }

    /** Calls `RemoveResource` once for each resource not marked durable,
        in registry order, until one fails. The registry is left as it is. */
    method CleanupResources() returns (r: Outcome<Error>)
      requires Valid()
      modifies this
      ensures names == old(names) && resources == old(resources)
      ensures var nd := Org.NonDurable(names, resources);
        && (r.Pass? <==> forall i :: 0 <= i < |nd| ==> "Id" in nd[i].definition)
        && (r.Pass? ==> removals == old(removals) + nd)
        && (r.Fail? ==>
              (exists k :: 0 < k <= |nd| && "Id" !in nd[k - 1].definition &&
                 removals == old(removals) + nd[..k]))
    {
      var nd := Org.NonDurable(names, resources);
      r := RemoveAll(nd);
      assert nd == Org.NonDurable(names, resources);
    }

    /** Removes the resources of `rs` in order until one fails. */
    method RemoveAll(rs: seq<StreamingResource>) returns (r: Outcome<Error>)
      modifies this
      ensures names == old(names) && resources == old(resources)
      ensures r.Pass? <==> forall i :: 0 <= i < |rs| ==> "Id" in rs[i].definition
      ensures r.Pass? ==> removals == old(removals) + rs
      ensures r.Fail? ==>
        (exists k :: 0 < k <= |rs| && "Id" !in rs[k - 1].definition &&
           removals == old(removals) + rs[..k])
    {
      var i := 0;
      while i < |rs|
        invariant 0 <= i <= |rs|
        invariant names == old(names) && resources == old(resources)
        invariant removals == old(removals) + rs[..i]
        invariant forall j :: 0 <= j < i ==> "Id" in rs[j].definition
      {
        assert rs[..i + 1] == rs[..i] + [rs[i]];
        var removed := RemoveResource(rs[i]);
        if removed.Fail? {
          return Fail(removed.error);
        }
        i := i + 1;
      }
      assert rs[..i] == rs;
      r := Pass;
    }

    /** Closes the org's REST client, which raises AttributeError when
        the client never opened an HTTP session. */
    method Close() returns (r: Outcome<Error>)
      requires client.Valid()
      modifies client
      ensures client.Valid() && client.sessions == old(client.sessions)
      ensures r.Fail? <==> old(client.sessions) == 0
      ensures r.Fail? ==> r.error == AttributeError("close")
      ensures r.Pass? ==> !client.sessionOpen
    {
      r := client.Close();
    }
  }

  /** A server holding one PushTopic record, named "t", and a resource
      object for it that is not marked durable. */
  method StoredTemporaryTopic() returns (client: RestStore, resource: StreamingResource)
    ensures fresh(client) && fresh(client.journal) && fresh(resource) && client.Valid()
    ensures !resource.durable && "Name" in resource.definition && resource.definition["Name"] == JStr("t")
    ensures Org.Stored(client.records, resource)
  {
    var journal := new Journal();
    client := new RestStore(journal);
    var id := client.Create(PUSH_TOPIC, map["Name" := JStr("t")]);
    resource := new StreamingResource(PushTopicResource, map["Id" := id, "Name" := JStr("t")], false);
  }

  /** A new older org holding `resource` alone. */
  method OrgHolding(resource: StreamingResource) returns (org: LegacyOrg)
    ensures fresh(org) && fresh(org.client) && fresh(org.client.http) && org.Valid()
    ensures org.names == [JStr("t")] && org.resources == map[JStr("t") := resource]
    ensures org.client.sessions == 0 && org.client.Valid() && org.client.http.sent == []
  {
    var auth := new SalesforceApi.Authenticator([], SalesforceApi.Credentials("", "", ""));
    var http := new SalesforceApi.Http([]);
    org := new LegacyOrg(auth, http);
    org.names := [JStr("t")];
    org.resources := map[JStr("t") := resource];
  }

  /** An org holding one non-durable PushTopic whose record is on the
      server: the older org's clean-up sends no HTTP request through its
      REST client. The record remaining in `server` follows from that
      alone, since only a request reaches the server; the evidence is the
      empty list of sent requests. */
  method UnawaitedDeleteKeepsRecord() returns (kept: bool)
    ensures kept
  {
    var server, resource := StoredTemporaryTopic();
    var org := OrgHolding(resource);
    var r := org.CleanupResources();
    kept := org.client.http.sent == [] && Org.Stored(server.records, resource);
  }

  /** An older org whose clean-up has run has never opened an HTTP
      session, so closing it raises AttributeError. */
  method CloseAfterCleanupRaises() returns (r: Outcome<Error>)
    ensures r == Fail(AttributeError("close"))
  {
    var server, resource := StoredTemporaryTopic();
    var org := OrgHolding(resource);
    var cleaned := org.CleanupResources();
    r := org.Close();
  }

  /** The newer org awaits the same delete request: removing the resource
      deletes its record, which is what lets its clean-up end with every
      temporary resource gone from the server. */
  method AwaitedDeleteRemovesRecord() returns (removed: bool)
    ensures removed
  {
    var client, resource := StoredTemporaryTopic();
    var registry := new TypeRegistry();
    var factory := new ResourceFactory(client, registry);
    var org := new Org.SalesforceOrg(factory);
    var r := org.RemoveResource(resource);
    removed := resource.definition["Id"] !in client.records;
  }
}
