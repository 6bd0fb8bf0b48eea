/** Message sources of rabbit_force/message_source.py: the source that
    streams one Salesforce org's resources, and the source that gathers
    several sources. The streaming client and the sub-sources are
    environment objects that record their effects in a journal. */
module MessageSource {
  import opened Common
  import opened Resources
  import Org

  /** The errors the streaming client raises: the invalid-operation error
      it raises once it is closed and drained, and any other of its errors. */
  datatype ClientError = ClientInvalidOperation(reason: string) | OtherClientError(reason: string)

  /** The package error a client error turns into. */
  function ReceptionError(e: ClientError): (r: Error)
    ensures e.ClientInvalidOperation? <==> r.InvalidOperation?
    ensures e.ClientInvalidOperation? ==> r == InvalidOperation(e.reason)
    ensures e.OtherClientError? ==> r == StreamingError("Message reception failure.")
  {
    match e
    case ClientInvalidOperation(reason) => InvalidOperation(reason)
    case OtherClientError(_) => StreamingError("Message reception failure.")
  }

  /** The streaming client: it starts closed, and receiving plays back
      scripted messages or errors. */
  class StreamingClient {
    var closed: bool
    var pendingCount: nat
    var received: seq<Result<Json, ClientError>>
    const journal: Journal

    constructor (journal: Journal, received: seq<Result<Json, ClientError>>)
      ensures closed && pendingCount == 0 && this.received == received && this.journal == journal
    {
      closed := true;
      pendingCount := 0;
      this.received := received;
      this.journal := journal;
    }

    method Open()
      modifies this, journal
      ensures !closed && pendingCount == old(pendingCount) && received == old(received)
      ensures journal.events == old(journal.events) + [ClientOpened]
    {
      closed := false;
      journal.Record(ClientOpened);
    }

    method Subscribe(channel: Json)
      modifies journal
      ensures journal.events == old(journal.events) + [Subscribed(channel)]
    {
      journal.Record(Subscribed(channel));
    }

    method Close()
      modifies this, journal
      ensures closed && pendingCount == old(pendingCount) && received == old(received)
      ensures journal.events == old(journal.events) + [ClientClosed]
    {
      closed := true;
      journal.Record(ClientClosed);
    }

    method Receive() returns (r: Result<Json, ClientError>)
      modifies this
      ensures closed == old(closed) && pendingCount == old(pendingCount)
      ensures old(received) == [] ==> r == Failure(ClientInvalidOperation("no more messages")) && received == []
      ensures old(received) != [] ==> r == old(received)[0] && received == old(received)[1..]
    {
      if received == [] {
        r := Failure(ClientInvalidOperation("no more messages"));
      } else {
        r := received[0];
        received := received[1..];
      }
    }
  }

  /** The org's resources in registry order. */
  function InOrder(order: seq<Json>, rs: map<Json, StreamingResource>): (r: seq<StreamingResource>)
    requires forall i :: 0 <= i < |order| ==> order[i] in rs
    ensures |r| == |order| && forall i :: 0 <= i < |order| ==> r[i] == rs[order[i]]
  {
    if order == [] then [] else InOrder(order[..|order| - 1], rs) + [rs[order[|order| - 1]]]
  }

  /** The subscriptions to the channels of `rs`, in order (a resource
      without a channel name has none). */
  function Subscriptions(rs: seq<StreamingResource>): seq<Event> {
    if rs == [] then []
    else
      var channel := rs[|rs| - 1].ChannelName();
      Subscriptions(rs[..|rs| - 1]) + (if channel.Success? then [Subscribed(channel.value)] else [])
  }

  /** The index of the first resource of `rs` without a channel name, or
      the length of `rs` when every one has one. */
  function FirstUnnamed(rs: seq<StreamingResource>): (k: nat)
    ensures k <= |rs|
    ensures forall j :: 0 <= j < k ==> rs[j].ChannelName().Success?
    ensures k < |rs| ==> rs[k].ChannelName().Failure?
  {
    if rs == [] then 0
    else if rs[0].ChannelName().Failure? then 0
    else 1 + FirstUnnamed(rs[1..])
  }

  /** A message together with the name of the source it came from. */
  datatype SourceMessage = SourceMessage(source: string, message: Json)

  /** The message source of one org: a streaming client subscribed to the
      channels of the org's resources. */
  class OrgMessageSource {
    const name: string
    const org: Org.SalesforceOrg
    const client: StreamingClient

    /** The streaming client and the org's REST client share one journal. */
    predicate Valid()
      reads this, org, org.factory.client
    {
      org.Valid() && org.factory.client.Valid() && client.journal == org.factory.client.journal
    }

    constructor (name: string, org: Org.SalesforceOrg, client: StreamingClient)
      ensures this.name == name && this.org == org && this.client == client
    {
      this.name := name;
      this.org := org;
      this.client := client;
    }

    /** Opens the client, then subscribes to the channel of each resource
        of the org in registry order; the first resource without a channel
        name stops the subscriptions with its error. */
    method Open() returns (r: Outcome<Error>)
      requires Valid()
      modifies client, client.journal
      ensures !client.closed
      ensures var rs := InOrder(org.names, org.resources);
        var k := FirstUnnamed(rs);
        && (r.Pass? <==> k == |rs|)
        && (r.Fail? ==> rs[k].ChannelName() == Failure(r.error))
        && client.journal.events == old(client.journal.events) + [ClientOpened] + Subscriptions(rs[..k])
    {
      client.Open();
      r := SubscribeAll(InOrder(org.names, org.resources));
    }

    /** Subscribes to the channels of `rs` in order, up to the first
        resource without a channel name. */
    method SubscribeAll(rs: seq<StreamingResource>) returns (r: Outcome<Error>)
      modifies client.journal
      ensures var k := FirstUnnamed(rs);
        && (r.Pass? <==> k == |rs|)
        && (r.Fail? ==> rs[k].ChannelName() == Failure(r.error))
        && client.journal.events == old(client.journal.events) + Subscriptions(rs[..k])
    {
      var k := FirstUnnamed(rs);
      var i := 0;
      while i < |rs|
        invariant 0 <= i <= k
        invariant client.journal.events == old(client.journal.events) + Subscriptions(rs[..i])
      {
        var channel := rs[i].ChannelName();
        if channel.Failure? {
          assert i == k;
          return Fail(channel.error);
        }
        assert rs[..i + 1][..i] == rs[..i];
        assert Subscriptions(rs[..i + 1]) == Subscriptions(rs[..i]) + [Subscribed(channel.value)];
        client.Subscribe(channel.value);
        i := i + 1;
      }
      assert rs[..i] == rs;
      r := Pass;
    }

    /** Closes the client, then deletes the org's non-durable resources,
        then closes the org; a failed clean-up leaves the org open. */
    method Close() returns (r: Outcome<Error>)
      requires Valid()
      modifies client, org.factory.client, client.journal
      ensures client.closed && org.factory.client.Valid()
      ensures var nd := Org.NonDurable(org.names, org.resources);
        && (r.Pass? ==>
              client.journal.events == old(client.journal.events) + [ClientClosed] + Org.DeleteRequests(nd) + [RestClientClosed])
        && (r.Pass? ==>
              org.factory.client.records == old(org.factory.client.records) - Org.DeletedIds(nd)
              && Org.AllRemoved(org.factory.client.records, nd))
        && (r.Pass? <==> Org.EachStored(old(org.factory.client.records), nd))
        && (r.Fail? ==>
              (exists k :: 0 < k <= |nd| &&
                 client.journal.events == old(client.journal.events) + [ClientClosed] + Org.DeleteRequests(nd[..k]) &&
                 org.factory.client.records == old(org.factory.client.records) - Org.DeletedIds(nd[..k - 1])))
    {
      client.Close();
      r := org.CleanupResources();
      if r.Fail? {
        return;
      }
      org.Close();
    }

    /** The next message, paired with the source's name; a client error
        becomes the package's error. */
    method GetMessage() returns (r: Result<SourceMessage, Error>)
      modifies client
      ensures client.closed == old(client.closed) && client.pendingCount == old(client.pendingCount)
      ensures client.received == if old(client.received) == [] then [] else old(client.received)[1..]
      ensures var next := if old(client.received) == [] then Failure(ClientInvalidOperation("no more messages"))
                          else old(client.received)[0];
        && (next.Success? ==> r == Success(SourceMessage(name, next.value)))
        && (next.Failure? ==> r == Failure(ReceptionError(next.error)))
    {
      var received := client.Receive();
      if received.Failure? {
        return Failure(ReceptionError(received.error));
      }
      r := Success(SourceMessage(name, received.value));
    }
  }

  /** A sub-source of the gathering source, seen through the interface
      every message source offers: whether it is closed, how many messages
      it holds, and opening and closing it (which may raise). */
  class SubSource {
    const name: string
    const openError: Option<Error>
    const closeError: Option<Error>
    var closed: bool
    var pendingCount: nat
    const journal: Journal

    constructor (name: string, journal: Journal, openError: Option<Error>, closeError: Option<Error>)
      ensures this.name == name && this.journal == journal && this.openError == openError
      ensures this.closeError == closeError && closed && pendingCount == 0
    {
      this.name := name;
      this.journal := journal;
      this.openError := openError;
      this.closeError := closeError;
      closed := true;
      pendingCount := 0;
    }

    method Open() returns (r: Outcome<Error>)
      modifies this, journal
      ensures pendingCount == old(pendingCount)
      ensures openError.None? ==> r == Pass && !closed && journal.events == old(journal.events) + [SourceOpened(name)]
      ensures openError.Some? ==> r == Fail(openError.value) && closed == old(closed) && journal.events == old(journal.events)
    {
      if openError.Some? {
        return Fail(openError.value);
      }
      closed := false;
      journal.Record(SourceOpened(name));
      r := Pass;
    }

    method Close() returns (r: Outcome<Error>)
      modifies this, journal
      ensures pendingCount == old(pendingCount)
      ensures closeError.None? ==> r == Pass && closed && journal.events == old(journal.events) + [SourceClosed(name)]
      ensures closeError.Some? ==> r == Fail(closeError.value) && closed == old(closed) && journal.events == old(journal.events)
    {
      if closeError.Some? {
        return Fail(closeError.value);
      }
      closed := true;
      journal.Record(SourceClosed(name));
      r := Pass;
    }
  }

  /** The total number of messages the sub-sources hold. */
  function TotalPending(ss: seq<SubSource>): nat
    reads set s | s in ss
  {
    if ss == [] then 0 else TotalPending(ss[..|ss| - 1]) + ss[|ss| - 1].pendingCount
  }

  /** Some messages are pending exactly when some sub-source holds one. */
  lemma {:induction false} PendingIffSomeSourceHolds(ss: seq<SubSource>)
    ensures TotalPending(ss) > 0 <==> exists i :: 0 <= i < |ss| && ss[i].pendingCount > 0
  {
    if ss != [] {
      var init := ss[..|ss| - 1];
      PendingIffSomeSourceHolds(init);
      if exists i :: 0 <= i < |init| && init[i].pendingCount > 0 {
        var i :| 0 <= i < |init| && init[i].pendingCount > 0;
        assert ss[i] == init[i];
      }
      if exists i :: 0 <= i < |ss| && ss[i].pendingCount > 0 {
        var i :| 0 <= i < |ss| && ss[i].pendingCount > 0;
        if i < |init| {
          assert init[i] == ss[i];
        }
      }
    }
  }

  /** Whether a sub-source is waited on for a message: it is open, or it
      still holds messages. */
  predicate Eligible(s: SubSource)
    reads s
  {
    !s.closed || s.pendingCount > 0
  }

  /** The sub-sources waited on, in their order. */
  function EligibleSources(ss: seq<SubSource>): (r: seq<SubSource>)
    reads set s | s in ss
    ensures forall i :: 0 <= i < |r| ==> r[i] in ss && Eligible(r[i])
    ensures forall i :: 0 <= i < |ss| && Eligible(ss[i]) ==> ss[i] in r
    ensures |r| <= |ss|
  {
    if ss == [] then []
    else
      var rest := EligibleSources(ss[..|ss| - 1]);
      var last := ss[|ss| - 1];
      assert forall i :: 0 <= i < |ss| - 1 ==> ss[..|ss| - 1][i] == ss[i];
      if Eligible(last) then rest + [last] else rest
  }

  /** Once every sub-source is closed and drained, none is waited on. */
  lemma NoneEligibleWhenAllDrained(ss: seq<SubSource>)
    requires forall i :: 0 <= i < |ss| ==> ss[i].closed && ss[i].pendingCount == 0
    ensures EligibleSources(ss) == []
  {
  }


  /** The source that gathers several sources. */
  class MultiMessageSource {
    const sources: seq<SubSource>
    var closed: bool

    constructor (sources: seq<SubSource>)
      ensures this.sources == sources && closed
    {
      this.sources := sources;
      closed := true;
    }

    /** The sum of the sub-sources' pending counts. */
    function PendingCount(): nat
      reads this, set s | s in sources
    {
      TotalPending(sources)
    }

    /** Messages are pending exactly when some sub-source holds one. */
    function HasPendingMessages(): (r: bool)
      reads this, set s | s in sources
      ensures r <==> exists i :: 0 <= i < |sources| && sources[i].pendingCount > 0
    {
      PendingIffSomeSourceHolds(sources);
      PendingCount() > 0
    }

    /** The sub-sources `GetMessage` waits on. */
    function Waited(): (r: seq<SubSource>)
      reads this, set s | s in sources
      ensures forall i :: 0 <= i < |r| ==> r[i] in sources && Eligible(r[i])
      ensures forall i :: 0 <= i < |sources| && Eligible(sources[i]) ==> sources[i] in r
    {
      EligibleSources(sources)
    }

    /** Opens every sub-source in order and then marks the source open; an
        error stops the opening and leaves the source marked as it was. */
    method Open() returns (r: Outcome<Error>)
      requires forall i :: 0 <= i < |sources| ==> sources[i].journal == sources[0].journal
      modifies this, set s | s in sources, set s | s in sources :: s.journal
      ensures r.Pass? <==> forall i :: 0 <= i < |sources| ==> sources[i].openError.None?
      ensures r.Pass? ==> !closed && forall i :: 0 <= i < |sources| ==> !sources[i].closed
      ensures r.Pass? && |sources| > 0 ==>
        sources[0].journal.events == old(sources[0].journal.events) + Opened(sources)
      ensures r.Fail? ==> closed == old(closed)
    {
      var i := 0;
      while i < |sources|
        invariant 0 <= i <= |sources| && closed == old(closed)
        invariant forall j :: 0 <= j < i ==> sources[j].openError.None? && !sources[j].closed
        invariant |sources| > 0 ==> sources[0].journal.events == old(sources[0].journal.events) + Opened(sources[..i])
      {
        var step := sources[i].Open();
        if step.Fail? {
          return Fail(step.error);
        }
        assert sources[..i + 1][..i] == sources[..i];
        i := i + 1;
      }
      assert sources[..i] == sources;
      closed := false;
      r := Pass;
    }

    /** Closes every sub-source in order and then marks the source closed;
        an error stops the closing and leaves the source marked as it was. */
    method Close() returns (r: Outcome<Error>)
      requires forall i :: 0 <= i < |sources| ==> sources[i].journal == sources[0].journal
      modifies this, set s | s in sources, set s | s in sources :: s.journal
      ensures r.Pass? <==> forall i :: 0 <= i < |sources| ==> sources[i].closeError.None?
      ensures r.Pass? ==> closed && forall i :: 0 <= i < |sources| ==> sources[i].closed
      ensures r.Pass? && |sources| > 0 ==>
        sources[0].journal.events == old(sources[0].journal.events) + Closed(sources)
      ensures r.Fail? ==> closed == old(closed)
    {
      var i := 0;
      while i < |sources|
        invariant 0 <= i <= |sources| && closed == old(closed)
        invariant forall j :: 0 <= j < i ==> sources[j].closeError.None? && sources[j].closed
        invariant |sources| > 0 ==> sources[0].journal.events == old(sources[0].journal.events) + Closed(sources[..i])
      {
        var done := sources[i].Close();
        if done.Fail? {
          return Fail(done.error);
        }
        assert sources[..i + 1][..i] == sources[..i];
        i := i + 1;
      }
      assert sources[..i] == sources;
      closed := true;
      r := Pass;
    }
  }

  function Opened(ss: seq<SubSource>): seq<Event> {
    if ss == [] then [] else Opened(ss[..|ss| - 1]) + [SourceOpened(ss[|ss| - 1].name)]
  }

  function Closed(ss: seq<SubSource>): seq<Event> {
    if ss == [] then [] else Closed(ss[..|ss| - 1]) + [SourceClosed(ss[|ss| - 1].name)]
  }
}
