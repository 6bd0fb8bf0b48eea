/** The Salesforce REST API client of rabbit_force/salesforce_api.py: the
    classification of failed responses, resource paths, the lazily built
    base URL, request building, and the single retry after
    re-authentication. The HTTP transport and the authenticator are
    environment objects that play back scripted replies and grants. */
module SalesforceApi {
  import opened Common

  /** The path of the API version the client speaks (version 42.0). */
  const API_PATH: string := "/services/data/v42.0/"

  /** HTTP statuses with their own error class. */
  const ERROR_MAP: map<int, RestErrorKind> := map[
    300 := MultipleChoices,
    304 := NotModified,
    400 := BadRequest,
    401 := Unauthorized,
    403 := Forbidden,
    404 := NotFound,
    405 := MethodNotAllowed,
    415 := UnsupportedMediaType,
    500 := InternalServerError]

  /** The error class raised for a failed response of `status`: the mapped
      class, or the generic SalesforceRestError for any other status. */
  function ErrorKindFor(status: int): (k: RestErrorKind)
    ensures k != GenericRestError <==> status in ERROR_MAP
    ensures k == Unauthorized <==> status == 401
    ensures k == NotFound <==> status == 404
  {
    if status in ERROR_MAP then ERROR_MAP[status] else GenericRestError
  }

  /** Distinct mapped statuses raise distinct error classes, and each
      mapped class is raised for a status that marks a failure. */
  lemma ErrorKindsDistinct(s1: int, s2: int)
    requires ErrorKindFor(s1) == ErrorKindFor(s2) != GenericRestError
    ensures s1 == s2 && s1 >= 300
  {
  }

  /** Every error class but the generic one is raised for some status. */
  lemma EveryKindHasStatus(k: RestErrorKind)
    requires k != GenericRestError
    ensures exists s :: ErrorKindFor(s) == k
  {
    match k
    case MultipleChoices => assert ErrorKindFor(300) == k;
    case NotModified => assert ErrorKindFor(304) == k;
    case BadRequest => assert ErrorKindFor(400) == k;
    case Unauthorized => assert ErrorKindFor(401) == k;
    case Forbidden => assert ErrorKindFor(403) == k;
    case NotFound => assert ErrorKindFor(404) == k;
    case MethodNotAllowed => assert ErrorKindFor(405) == k;
    case UnsupportedMediaType => assert ErrorKindFor(415) == k;
    case InternalServerError => assert ErrorKindFor(500) == k;
  }

  /** A response body: JSON, or text when the content type is not JSON. */
  datatype Body = JsonBody(value: Json) | TextBody(text: string)

  /** What the transport yields for a request: a client error, or a
      response with its status and body. */
  datatype Reply = ClientFailure(reason: string) | Response(status: int, body: Body)

  /** The content a failed response's error carries: its JSON, or its text. */
  function ErrorContent(body: Body): Json {
    match body
    case JsonBody(v) => v
    case TextBody(t) => JStr(t)
  }

  /** Whether a response of `status` is accepted; a failed one raises the
      error class of its status with the response's content. */
  function VerifyResponse(status: int, body: Body): (r: Outcome<Error>)
    ensures r.Fail? <==> status >= 300
    ensures r.Fail? ==> r.error == SalesforceRestError(ErrorKindFor(status), Content(ErrorContent(body)))
  {
    if status >= 300 then Fail(SalesforceRestError(ErrorKindFor(status), Content(ErrorContent(body))))
    else Pass
  }

  /** What a request returns for `reply`: a client error becomes a
      NetworkError, a failed status its error class, and an accepted
      response its JSON data, or nothing when the body is not JSON. */
  function ReplyResult(reply: Reply): (r: Result<Option<Json>, Error>)
    ensures reply.ClientFailure? ==> r == Failure(NetworkError(reply.reason))
    ensures reply.Response? ==> (r.Failure? <==> reply.status >= 300)
    ensures reply.Response? && reply.status >= 300 ==>
      r.error == SalesforceRestError(ErrorKindFor(reply.status), Content(ErrorContent(reply.body)))
    ensures reply.Response? && reply.status < 300 ==>
      r.value == (if reply.body.JsonBody? then Some(reply.body.value) else None)
  {
    match reply
    case ClientFailure(reason) => Failure(NetworkError(reason))
    case Response(status, body) =>
      var verdict := VerifyResponse(status, body);
      if verdict.Fail? then Failure(verdict.error)
      else if body.JsonBody? then Success(Some(body.value))
      else Success(None)
  }

  /** A reply that makes the client re-authenticate and send again. */
  predicate IsUnauthorized(reply: Reply) {
    reply.Response? && reply.status == 401
  }

  /** The request is retried exactly when its first reply raises the
      unauthorized error class. */
  lemma RetryExactlyOnUnauthorized(reply: Reply)
    ensures IsUnauthorized(reply) <==>
      ReplyResult(reply).Failure? && ReplyResult(reply).error.SalesforceRestError?
      && ReplyResult(reply).error.kind == Unauthorized
  {
  }

  /** The path of the resource type `resourceName`, followed by the record
      id when one is given and is not empty. */
  function ResourcePath(resourceName: string, recordId: Option<string>): (r: string)
    ensures |r| >= 10 + |resourceName| && r[..9] == "sobjects/"
    ensures r[9..9 + |resourceName|] == resourceName && r[9 + |resourceName|] == '/'
    ensures r[10 + |resourceName|..] == (if recordId.Some? then recordId.value else "")
  {
    var path := "sobjects/" + resourceName + "/";
    var r := if recordId.Some? && recordId.value != "" then path + recordId.value else path;
    assert r[..9] == "sobjects/" && r[9..9 + |resourceName|] == resourceName;
    assert r[10 + |resourceName|..] == (if recordId.Some? then recordId.value else "");
    r
  }

  /** For type names without a slash, the path determines the type name
      and the id. */
  lemma ResourcePathInjective(n1: string, i1: Option<string>, n2: string, i2: Option<string>)
    requires '/' !in n1 && '/' !in n2
    requires ResourcePath(n1, i1) == ResourcePath(n2, i2)
    ensures n1 == n2
    ensures (if i1.Some? then i1.value else "") == (if i2.Some? then i2.value else "")
  {
    var p := ResourcePath(n1, i1);
    if |n1| < |n2| {
      assert false;
    } else if |n2| < |n1| {
      assert false;
    }
    assert n1 == p[9..9 + |n1|];
  }

  /** The access grant an authentication yields. */
  datatype Credentials = Credentials(instanceUrl: string, tokenType: string, accessToken: string)

  /** The value of the Authorization header for `c`. */
  function AuthorizationHeader(c: Credentials): string {
    c.tokenType + " " + c.accessToken
  }

  /** The credentials in force after authentication number `n` when
      `current` were in force before it: the next scripted grant, or the
      same credentials once the grants are used up. */
  function Authenticated(grants: seq<Credentials>, n: nat, current: Credentials): Credentials {
    if n < |grants| then grants[n] else current
  }

  /** The authenticator: each authentication installs the next scripted
      grant, or keeps the last one when the script is used up. */
  class Authenticator {
    const grants: seq<Credentials>
    var credentials: Credentials
    var authentications: nat

    constructor (grants: seq<Credentials>, initial: Credentials)
      ensures this.grants == grants && credentials == initial && authentications == 0
    {
      this.grants := grants;
      credentials := initial;
      authentications := 0;
    }

    method Authenticate()
      modifies this
      ensures authentications == old(authentications) + 1
      ensures credentials == Authenticated(grants, old(authentications), old(credentials))
    {
      if authentications < |grants| {
        credentials := grants[authentications];
      }
      authentications := authentications + 1;
    }
  }

  /** A request as it is sent. */
  datatype HttpRequest = HttpRequest(verb: string, url: string, params: Option<map<string, string>>,
                                     json: Option<Json>, authorization: string)

  /** The transport: it records what is sent and plays back scripted
      replies; with none left it fails as a client error. */
  class Http {
    var replies: seq<Reply>
    var sent: seq<HttpRequest>

    constructor (replies: seq<Reply>)
      ensures this.replies == replies && sent == []
    {
      this.replies := replies;
      sent := [];
    }

    method Send(request: HttpRequest) returns (reply: Reply)
      modifies this
      ensures sent == old(sent) + [request]
      ensures reply == Head(old(replies)) && replies == Tail(old(replies))
    {
      sent := sent + [request];
      reply := Head(replies);
      replies := Tail(replies);
    }
  }

  function Head(replies: seq<Reply>): Reply {
    if replies == [] then ClientFailure("no reply") else replies[0]
  }

  function Tail(replies: seq<Reply>): seq<Reply> {
    if replies == [] then [] else replies[1..]
  }

  class SalesforceClient {
    const auth: Authenticator
    const http: Http
    /** The base URL, once it is known. */
    var baseUrl: Option<string>
    /** How many HTTP sessions were opened, and whether the last is open. */
    var sessions: nat
    var sessionOpen: bool

    predicate Valid()
      reads this
    {
      sessionOpen ==> sessions > 0
    }

    constructor (auth: Authenticator, http: Http)
      ensures this.auth == auth && this.http == http
      ensures baseUrl == None && sessions == 0 && !sessionOpen && Valid()
    {
      this.auth := auth;
      this.http := http;
      baseUrl := None;
      sessions := 0;
      sessionOpen := false;
    }

    /** The current session, opening a new one when there is none or the
        last one was closed. */
    method GetHttpSession()
      requires Valid()
      modifies this
      ensures sessionOpen && Valid() && baseUrl == old(baseUrl)
      ensures sessions == if old(sessionOpen) then old(sessions) else old(sessions) + 1
    {
      if !sessionOpen {
        sessions := sessions + 1;
        sessionOpen := true;
      }
    }

    /** The base URL: on the first call, authenticate and derive it from the
        instance URL; afterwards, the stored value without authenticating. */
    method GetBaseUrl() returns (url: string)
      modifies this, auth
      ensures sessions == old(sessions) && sessionOpen == old(sessionOpen)
      ensures baseUrl == Some(url)
      ensures old(baseUrl).Some? ==> url == old(baseUrl).value && unchanged(auth)
      ensures old(baseUrl).None? ==>
        auth.authentications == old(auth.authentications) + 1
        && auth.credentials == Authenticated(auth.grants, old(auth.authentications), old(auth.credentials))
        && url == auth.credentials.instanceUrl + API_PATH
    {
      if baseUrl.None? {
        auth.Authenticate();
        baseUrl := Some(auth.credentials.instanceUrl + API_PATH);
      }
      url := baseUrl.value;
    }

    /** Sends one request to the base URL followed by `path`, authorized
        with the current token, and returns the result of its reply. */
    method Request(verb: string, path: string, json: Option<Json>, params: Option<map<string, string>>)
      returns (r: Result<Option<Json>, Error>)
      requires Valid()
      modifies this, auth, http
      ensures Valid() && sessionOpen && baseUrl.Some?
      ensures old(baseUrl).Some? ==> baseUrl == old(baseUrl) && unchanged(auth)
      ensures old(baseUrl).None? ==>
        && auth.authentications == old(auth.authentications) + 1
        && auth.credentials == Authenticated(auth.grants, old(auth.authentications), old(auth.credentials))
        && baseUrl == Some(auth.credentials.instanceUrl + API_PATH)
      ensures http.sent == old(http.sent) + [HttpRequest(verb, baseUrl.value + path, params, json,
                                                         AuthorizationHeader(auth.credentials))]
      ensures http.replies == Tail(old(http.replies))
      ensures r == ReplyResult(Head(old(http.replies)))
    {
      GetHttpSession();
      var base := GetBaseUrl();
      var url := base + path;
      var header := AuthorizationHeader(auth.credentials);
      var reply := http.Send(HttpRequest(verb, url, params, json, header));
      r := ReplyResult(reply);
    }

    /** Sends the request; when its reply is unauthorized, authenticates
        once and sends it a second and last time. */
    method RequestWithRetry(verb: string, path: string, json: Option<Json>, params: Option<map<string, string>>)
      returns (r: Result<Option<Json>, Error>)
      requires Valid()
      modifies this, auth, http
      ensures Valid() && baseUrl.Some?
      ensures old(baseUrl).Some? ==> baseUrl == old(baseUrl)
      ensures var first := Head(old(http.replies));
        var initial := if old(baseUrl).None? then 1 else 0;
        // the credentials of the first attempt: those of the initial
        // authentication when the base URL was not known yet
        var before := if old(baseUrl).None? then Authenticated(auth.grants, old(auth.authentications), old(auth.credentials))
                      else old(auth.credentials);
        (old(baseUrl).None? ==> baseUrl == Some(before.instanceUrl + API_PATH)) &&
        if !IsUnauthorized(first) then
          && r == ReplyResult(first)
          && http.replies == Tail(old(http.replies))
          && auth.authentications == old(auth.authentications) + initial
          && auth.credentials == before
          && http.sent == old(http.sent) + [HttpRequest(verb, baseUrl.value + path, params, json,
                                                        AuthorizationHeader(before))]
        else
          && r == ReplyResult(Head(Tail(old(http.replies))))
          && http.replies == Tail(Tail(old(http.replies)))
          && auth.authentications == old(auth.authentications) + initial + 1
          && auth.credentials == Authenticated(auth.grants, old(auth.authentications) + initial, before)
          && |http.sent| == |old(http.sent)| + 2 && http.sent[..|old(http.sent)|] == old(http.sent)
          && http.sent[|old(http.sent)|] == HttpRequest(verb, baseUrl.value + path, params, json,
                                                        AuthorizationHeader(before))
          && http.sent[|old(http.sent)| + 1] == HttpRequest(verb, baseUrl.value + path, params, json,
                                                            AuthorizationHeader(auth.credentials))
    {
      r := Request(verb, path, json, params);
      if r.Failure? && r.error.SalesforceRestError? && r.error.kind == Unauthorized {
        RetryExactlyOnUnauthorized(Head(old(http.replies)));
        ghost var sentOnce := http.sent;
        auth.Authenticate();
        r := Request(verb, path, json, params);
        assert http.sent[..|old(http.sent)|] == sentOnce[..|old(http.sent)|];
      } else {
        RetryExactlyOnUnauthorized(Head(old(http.replies)));
      }
    }

    /** Runs a SOQL query: GET on "query" with the query as parameter q. */
    method Query(query: string) returns (r: Result<Option<Json>, Error>)
      requires Valid()
      modifies this, auth, http
      ensures Valid() && baseUrl.Some? && |old(http.sent)| < |http.sent| <= |old(http.sent)| + 2
      ensures forall i :: |old(http.sent)| <= i < |http.sent| ==>
        http.sent[i].verb == "GET" && http.sent[i].url == baseUrl.value + "query"
        && http.sent[i].params == Some(map["q" := query]) && http.sent[i].json == None
    {
      r := RequestWithRetry("GET", "query", None, Some(map["q" := query]));
    }

    /** Creates a record: POST on the type's path with the data. */
    method Create(resourceName: string, data: Json) returns (r: Result<Option<Json>, Error>)
      requires Valid()
      modifies this, auth, http
      ensures Valid() && baseUrl.Some? && |old(http.sent)| < |http.sent| <= |old(http.sent)| + 2
      ensures forall i :: |old(http.sent)| <= i < |http.sent| ==>
        http.sent[i].verb == "POST" && http.sent[i].url == baseUrl.value + ResourcePath(resourceName, None)
        && http.sent[i].params == None && http.sent[i].json == Some(data)
    {
      r := RequestWithRetry("POST", ResourcePath(resourceName, None), Some(data), None);
    }

    /** Updates a record: PATCH on the record's path with the data. */
    method Update(resourceName: string, recordId: string, data: Json) returns (r: Result<Option<Json>, Error>)
      requires Valid()
      modifies this, auth, http
      ensures Valid() && baseUrl.Some? && |old(http.sent)| < |http.sent| <= |old(http.sent)| + 2
      ensures forall i :: |old(http.sent)| <= i < |http.sent| ==>
        http.sent[i].verb == "PATCH" && http.sent[i].url == baseUrl.value + ResourcePath(resourceName, Some(recordId))
        && http.sent[i].params == None && http.sent[i].json == Some(data)
    {
      r := RequestWithRetry("PATCH", ResourcePath(resourceName, Some(recordId)), Some(data), None);
    }

    /** Deletes a record: DELETE on the record's path. */
    method Delete(resourceName: string, recordId: string) returns (r: Result<Option<Json>, Error>)
      requires Valid()
      modifies this, auth, http
      ensures Valid() && baseUrl.Some? && |old(http.sent)| < |http.sent| <= |old(http.sent)| + 2
      ensures forall i :: |old(http.sent)| <= i < |http.sent| ==>
        http.sent[i].verb == "DELETE" && http.sent[i].url == baseUrl.value + ResourcePath(resourceName, Some(recordId))
        && http.sent[i].params == None && http.sent[i].json == None
    {
      r := RequestWithRetry("DELETE", ResourcePath(resourceName, Some(recordId)), None, None);
    }

    /** Reads a record: GET on the record's path. */
    method Get(resourceName: string, recordId: string) returns (r: Result<Option<Json>, Error>)
      requires Valid()
      modifies this, auth, http
      ensures Valid() && baseUrl.Some? && |old(http.sent)| < |http.sent| <= |old(http.sent)| + 2
      ensures forall i :: |old(http.sent)| <= i < |http.sent| ==>
        http.sent[i].verb == "GET" && http.sent[i].url == baseUrl.value + ResourcePath(resourceName, Some(recordId))
        && http.sent[i].params == None && http.sent[i].json == None
    {
      r := RequestWithRetry("GET", ResourcePath(resourceName, Some(recordId)), None, None);
    }

    /** Closes the HTTP session; before any request there is none, and
        closing it raises. */
    method Close() returns (r: Outcome<Error>)
      requires Valid()
      modifies this
      ensures Valid() && sessions == old(sessions) && baseUrl == old(baseUrl)
      ensures r.Fail? <==> old(sessions) == 0
      ensures r.Fail? ==> r.error == AttributeError("close") && sessionOpen == old(sessionOpen)
      ensures r.Pass? ==> !sessionOpen
    {
      if sessions == 0 {
        return Fail(AttributeError("close"));
      }
      sessionOpen := false;
      r := Pass;
    }
  }
}
