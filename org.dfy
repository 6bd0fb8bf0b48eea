/** A Salesforce org of rabbit_force/salesforce/org.py: its streaming
    resources by name, in the order their names were first added, and
    the clean-up that deletes the resources not marked durable. */
module Org {
  import opened Common
  import opened Resources

  /** The delete request a resource's removal sends: none when its
      definition has no Id, since reading the id raises first. */
  function DeleteRequest(res: StreamingResource): seq<Event> {
    if "Id" in res.definition then [ResourceDeleted(res.resourceType.typeName, res.definition["Id"])] else []
  }

  /** The delete requests of removing `rs` in order. */
  function DeleteRequests(rs: seq<StreamingResource>): seq<Event> {
    if rs == [] then [] else DeleteRequests(rs[..|rs| - 1]) + DeleteRequest(rs[|rs| - 1])
  }

  /** The Ids of the resources of `rs` that have one. */
  function DeletedIds(rs: seq<StreamingResource>): set<Json> {
    if rs == [] then {}
    else
      var last := rs[|rs| - 1];
      DeletedIds(rs[..|rs| - 1]) + (if "Id" in last.definition then {last.definition["Id"]} else {})
  }

  lemma DeletedIdsStep(rs: seq<StreamingResource>, i: nat)
    requires i < |rs|
    ensures DeletedIds(rs[..i + 1]) ==
      DeletedIds(rs[..i]) + (if "Id" in rs[i].definition then {rs[i].definition["Id"]} else {})
  {
    assert rs[..i + 1][..i] == rs[..i];
  }

  /** An id is deleted exactly when some resource of `rs` has it as its
      Id, so the records of all other resources, the durable ones among
      them, stay on the server. */
  lemma {:induction false} DeletedIdsExactly(rs: seq<StreamingResource>, id: Json)
    ensures id in DeletedIds(rs) <==>
      exists j :: 0 <= j < |rs| && "Id" in rs[j].definition && rs[j].definition["Id"] == id
  {
    if rs != [] {
      var init := rs[..|rs| - 1];
      DeletedIdsExactly(init, id);
      if id in DeletedIds(init) {
        var j :| 0 <= j < |init| && "Id" in init[j].definition && init[j].definition["Id"] == id;
        assert rs[j] == init[j];
      }
      if exists j :: 0 <= j < |rs| && "Id" in rs[j].definition && rs[j].definition["Id"] == id {
        var j :| 0 <= j < |rs| && "Id" in rs[j].definition && rs[j].definition["Id"] == id;
        if j < |rs| - 1 {
          assert init[j] == rs[j];
        }
      }
    }
  }

  /** The resources of `rs` not marked durable, in the order of `order`. */
  function NonDurable(order: seq<Json>, rs: map<Json, StreamingResource>): (r: seq<StreamingResource>)
    requires forall i :: 0 <= i < |order| ==> order[i] in rs
    reads rs.Values
    ensures forall x :: x in r ==> !x.durable
    ensures forall x :: x in r ==> x in rs.Values
  {
    if order == [] then []
    else
      var rest := NonDurable(order[..|order| - 1], rs);
      var last := rs[order[|order| - 1]];
      if last.durable then rest else rest + [last]
  }

  /** Every resource registered under a name of `order` that is not
      durable is in the list. */
  lemma {:induction false} NonDurableComplete(order: seq<Json>, rs: map<Json, StreamingResource>, i: nat)
    requires forall j :: 0 <= j < |order| ==> order[j] in rs
    requires i < |order| && !rs[order[i]].durable
    ensures rs[order[i]] in NonDurable(order, rs)
  {
    var init := order[..|order| - 1];
    if i < |order| - 1 {
      assert init[i] == order[i];
      NonDurableComplete(init, rs, i);
    }
  }

  /** The resources the clean-up deletes are exactly the registered
      resources not marked durable. */
  lemma NonDurableExactly(order: seq<Json>, rs: map<Json, StreamingResource>)
    requires forall j :: 0 <= j < |order| ==> order[j] in rs
    requires forall k :: k in rs ==> k in order
    ensures forall x :: x in NonDurable(order, rs) <==> x in rs.Values && !x.durable
  {
    forall x | x in rs.Values && !x.durable
      ensures x in NonDurable(order, rs)
    {
      var k :| k in rs && rs[k] == x;
      var i :| 0 <= i < |order| && order[i] == k;
      NonDurableComplete(order, rs, i);
    }
  }

  /** The server holds the record `res` stands for: one with its Id and
      of its type. */
  predicate Stored(records: map<Json, Record>, res: StreamingResource) {
    "Id" in res.definition && res.definition["Id"] in records
    && records[res.definition["Id"]].typeName == res.resourceType.typeName
  }

  /** Every record of `small` is in `big` unchanged. */
  predicate SubMap(small: map<Json, Record>, big: map<Json, Record>) {
    small.Keys <= big.Keys && forall id :: id in small ==> small[id] == big[id]
  }

  /** Every resource of `rs` has an Id that `records` no longer holds. */
  predicate AllRemoved(records: map<Json, Record>, rs: seq<StreamingResource>) {
    forall j :: 0 <= j < |rs| ==> "Id" in rs[j].definition && rs[j].definition["Id"] !in records
  }

  /** Each resource of `rs` is on the server when its turn comes: in
      `records` once the Ids of the resources before it are deleted. */
  predicate EachStored(records: map<Json, Record>, rs: seq<StreamingResource>) {
    if rs == [] then true
    else
      var init := rs[..|rs| - 1];
      EachStored(records, init) && Stored(records - DeletedIds(init), rs[|rs| - 1])
  }

  lemma EachStoredStep(records: map<Json, Record>, rs: seq<StreamingResource>, i: nat)
    requires i < |rs|
    ensures EachStored(records, rs[..i + 1]) <==>
      EachStored(records, rs[..i]) && Stored(records - DeletedIds(rs[..i]), rs[i])
  {
    assert rs[..i + 1][..i] == rs[..i];
  }

  /** A resource that is not on the server at its turn stays a failure
      however many resources follow it. */
  lemma {:induction false} EachStoredPrefix(records: map<Json, Record>, rs: seq<StreamingResource>, k: nat)
    requires k <= |rs|
    ensures EachStored(records, rs) ==> EachStored(records, rs[..k])
  {
    if k < |rs| {
      var init := rs[..|rs| - 1];
      EachStoredPrefix(records, init, k);
      assert init[..k] == rs[..k];
    } else {
      assert rs[..k] == rs;
    }
  }

  lemma RemovedStep(before: map<Json, Record>, after: map<Json, Record>, rs: seq<StreamingResource>, i: nat)
    requires i < |rs| && AllRemoved(before, rs[..i]) && after.Keys <= before.Keys
    requires "Id" in rs[i].definition && rs[i].definition["Id"] !in after
    ensures AllRemoved(after, rs[..i + 1])
  {
    assert rs[..i + 1] == rs[..i] + [rs[i]];
  }

  lemma Associative(a: seq<Event>, b: seq<Event>, c: seq<Event>)
    ensures (a + b) + c == a + (b + c)
  {
  }

  lemma DeleteRequestsStep(rs: seq<StreamingResource>, i: nat)
    requires i < |rs|
    ensures DeleteRequests(rs[..i + 1]) == DeleteRequests(rs[..i]) + DeleteRequest(rs[i])
  {
    assert rs[..i + 1][..i] == rs[..i];
  }

  class SalesforceOrg {
    const factory: ResourceFactory
    /** The names of the resources, each once, in the order in which they
        were first added. */
    var names: seq<Json>
    /** The streaming resources by name. */
    var resources: map<Json, StreamingResource>

    /** The names list holds exactly the registry's keys, each once. */
    predicate Valid()
      reads this
    {
      && (forall i, j :: 0 <= i < j < |names| ==> names[i] != names[j])
      && (forall i :: 0 <= i < |names| ==> names[i] in resources)
      && (forall k :: k in resources ==> k in names)
    }

    /** An org without resources. */
    constructor (factory: ResourceFactory)
      ensures this.factory == factory && names == [] && resources == map[] && Valid()
    {
      this.factory := factory;
      names := [];
      resources := map[];
    }

    /** Creates the resource through the factory, sets its durability and
        stores it under its name, replacing a resource of the same name. */
    method AddResource(typeName: string, spec: map<string, Json>, durable: bool := true)
      returns (r: Result<StreamingResource, Error>)
      requires Valid() && factory.client.Valid()
      modifies this, factory.client
      ensures Valid() && factory.client.Valid()
      ensures r.Success? ==>
        && typeName in factory.registry.types
        && fresh(r.value) && r.value.durable == durable
        && r.value.resourceType == factory.registry.types[typeName]
        && "Name" in r.value.definition
        && resources == old(resources)[r.value.definition["Name"] := r.value]
        && names == (if r.value.definition["Name"] in old(resources) then old(names)
                     else old(names) + [r.value.definition["Name"]])
      ensures r.Failure? ==> resources == old(resources) && names == old(names)
      ensures typeName !in factory.registry.types ==> factory.client.records == old(factory.client.records)
      ensures r.Success? ==>
        Fetched(old(factory.client.records), old(factory.client.issued), typeName, spec,
                factory.client.records, Success(r.value.definition))
      ensures typeName in factory.registry.types ==>
        exists res :: Fetched(old(factory.client.records), old(factory.client.issued), typeName, spec,
                              factory.client.records, res)
    {
      var created := factory.CreateResource(typeName, spec);
      if created.Failure? {
        return Failure(created.error);
      }
      var resource := created.value;
      resource.durable := durable;
      var name := resource.Name();
      if name.Failure? {
        return Failure(name.error);
      }
      Store(name.value, resource);
      r := Success(resource);
    }

    /** Stores `resource` under `name`: a new name goes to the end of the
        order, a known one keeps its place. */
    method Store(name: Json, resource: StreamingResource)
      requires Valid()
      modifies this
      ensures Valid()
      ensures resources == old(resources)[name := resource]
      ensures names == if name in old(resources) then old(names) else old(names) + [name]
    {
      if name !in resources {
        names := names + [name];
      }
      resources := resources[name := resource];
    }

    /** Deletes the resource from the server, by its type name and id. */
    method RemoveResource(resource: StreamingResource) returns (r: Outcome<Error>)
      requires factory.client.Valid()
      modifies factory.client, factory.client.journal
      ensures factory.client.Valid() && factory.client.issued == old(factory.client.issued)
      ensures factory.client.journal.events == old(factory.client.journal.events) + DeleteRequest(resource)
      ensures "Id" !in resource.definition ==>
        r == Fail(KeyError(JStr("Id"))) && factory.client.records == old(factory.client.records)
      ensures "Id" in resource.definition ==>
        var id := resource.definition["Id"];
        var present := old(id in factory.client.records && factory.client.records[id].typeName == resource.resourceType.typeName);
        && (r.Pass? <==> present)
        && factory.client.records == (if present then old(factory.client.records) - {id} else old(factory.client.records))
    {
      var id := resource.Id();
      if id.Failure? {
        return Fail(id.error);
      }
      r := factory.client.Delete(resource.resourceType.typeName, id.value);
    }

    /** Deletes, in registry order, every resource not marked durable; the
        first failure stops the clean-up. The registry is left as it is. */
    method CleanupResources() returns (r: Outcome<Error>)
      requires Valid() && factory.client.Valid()
      modifies factory.client, factory.client.journal
      ensures factory.client.Valid()
      ensures SubMap(factory.client.records, old(factory.client.records))
      ensures var nd := NonDurable(names, resources);
        && (r.Pass? ==> factory.client.journal.events == old(factory.client.journal.events) + DeleteRequests(nd))
        && (r.Pass? ==> AllRemoved(factory.client.records, nd))
        && (r.Pass? ==> factory.client.records == old(factory.client.records) - DeletedIds(nd))
        && (r.Pass? <==> EachStored(old(factory.client.records), nd))
        && (r.Fail? ==>
              (exists k ::
                 && 0 < k <= |nd|
                 && factory.client.journal.events == old(factory.client.journal.events) + DeleteRequests(nd[..k])
                 && AllRemoved(factory.client.records, nd[..k - 1])
                 && factory.client.records == old(factory.client.records) - DeletedIds(nd[..k - 1])
                 && !Stored(factory.client.records, nd[k - 1])))
    {
      var nd := NonDurable(names, resources);
      r := RemoveAll(nd);
      assert nd == NonDurable(names, resources);
    }

    /** Removes the resources of `rs` in order until one fails. */
    method RemoveAll(rs: seq<StreamingResource>) returns (r: Outcome<Error>)
      requires factory.client.Valid()
      modifies factory.client, factory.client.journal
      ensures factory.client.Valid()
      ensures SubMap(factory.client.records, old(factory.client.records))
      ensures r.Pass? ==> factory.client.journal.events == old(factory.client.journal.events) + DeleteRequests(rs)
      ensures r.Pass? ==> AllRemoved(factory.client.records, rs)
      ensures r.Pass? ==> factory.client.records == old(factory.client.records) - DeletedIds(rs)
      ensures r.Pass? <==> EachStored(old(factory.client.records), rs)
      ensures r.Fail? ==>
        (exists k ::
           && 0 < k <= |rs|
           && factory.client.journal.events == old(factory.client.journal.events) + DeleteRequests(rs[..k])
           && AllRemoved(factory.client.records, rs[..k - 1])
           && factory.client.records == old(factory.client.records) - DeletedIds(rs[..k - 1])
           && !Stored(factory.client.records, rs[k - 1]))
    {
      var client := factory.client;
      var i := 0;
      while i < |rs|
        invariant 0 <= i <= |rs| && client.Valid()
        invariant client.journal.events == old(client.journal.events) + DeleteRequests(rs[..i])
        invariant AllRemoved(client.records, rs[..i])
        invariant SubMap(client.records, old(client.records))
        invariant client.records == old(client.records) - DeletedIds(rs[..i])
        invariant EachStored(old(client.records), rs[..i])
      {
        ghost var before := client.records;
        DeleteRequestsStep(rs, i);
        DeletedIdsStep(rs, i);
        EachStoredStep(old(client.records), rs, i);
        var removed := RemoveResource(rs[i]);
        Associative(old(client.journal.events), DeleteRequests(rs[..i]), DeleteRequest(rs[i]));
        if removed.Fail? {
          EachStoredPrefix(old(client.records), rs, i + 1);
          return Fail(removed.error);
        }
        RemovedStep(before, client.records, rs, i);
        i := i + 1;
      }
      assert rs[..i] == rs;
      r := Pass;
    }

    /** Closes the org's REST client. */
    method Close()
      modifies factory.client.journal
      ensures factory.client.journal.events == old(factory.client.journal.events) + [RestClientClosed]
    {
      factory.client.Close();
    }
  }
}
