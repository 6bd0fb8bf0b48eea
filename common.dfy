/** Values shared by every part of the model: optional values and results,
    the JSON values that messages and configurations are made of, the
    package's error kinds, and a journal in which the environment records
    the order in which outside effects happen. */
module Common {

  datatype Option<+T> = None | Some(value: T)

  /** A value or the error the Python code raises instead. */
  datatype Result<+T, +E> = Success(value: T) | Failure(error: E) {
    predicate IsFailure() { Failure? }

    function PropagateFailure<U>(): Result<U, E>
      requires Failure?
    {
      Failure(error)
    }

    function Extract(): T
      requires Success?
    {
      value
    }
  }

  /** Completion of an operation that returns nothing, or the error it raises. */
  datatype Outcome<+E> = Pass | Fail(error: E) {
    predicate IsFailure() { Fail? }

    function PropagateFailure(): Outcome<E>
      requires Fail?
    {
      this
    }
  }

  /** A JSON value: what messages, resource definitions and configuration
      files are made of. Numbers are exact reals. */
  datatype Json =
    | JNull
    | JBool(b: bool)
    | JNum(n: real)
    | JStr(s: string)
    | JArr(items: seq<Json>)
    | JObj(fields: map<string, Json>)

  /** The subclasses of SalesforceRestError, one per mapped HTTP status,
      and the generic class itself for every other status. */
  datatype RestErrorKind =
    | MultipleChoices
    | NotModified
    | BadRequest
    | Unauthorized
    | Forbidden
    | NotFound
    | MethodNotAllowed
    | UnsupportedMediaType
    | InternalServerError
    | GenericRestError

  /** What a SalesforceRestError carries: the body of the failed response,
      or, for a name lookup that finds nothing, the type and the name. */
  datatype RestErrorDetail =
    | Content(body: Json)
    | NoRecordNamed(typeName: string, name: Json)

  /** Why a resource specification is refused. */
  datatype SpecProblem =
    | UnknownResourceType(typeName: string)
    | NotAnIdentifier(keys: set<string>)

  /** The errors the modelled code raises: the package's own exception
      classes, Python's KeyError where the code indexes a missing key and
      TypeError where it concatenates a string with a value of another type,
      AttributeError where it calls a method on None, and the JSONPath
      library's own parse error, which the routing code lets through. */
  datatype Error =
    | SpecificationError(problem: SpecProblem)
    | NetworkError(reason: string)
    | SalesforceRestError(kind: RestErrorKind, detail: RestErrorDetail)
    | StreamingError(reason: string)
    | InvalidOperation(reason: string)
    | InvalidRoutingConditionError(reason: string)
    | KeyError(key: Json)
    | TypeError(reason: string)
    | AttributeError(attribute: string)
    | JsonPathParseError(reason: string)

  /** True iff the error is one that `except SalesforceNotFoundError` catches. */
  predicate IsNotFound(e: Error) {
    e.SalesforceRestError? && e.kind == NotFound
  }

  /** Outside effects whose order the source fixes. */
  datatype Event =
    | ProtocolClosed
    | TransportClosed
    | ClientOpened
    | Subscribed(channel: Json)
    | ClientClosed
    | ResourceDeleted(typeName: string, id: Json)
    | RestClientClosed
    | SourceOpened(source: string)
    | SourceClosed(source: string)

  /** The environment's record of outside effects, in the order they happen. */
  class Journal {
    var events: seq<Event>

    constructor ()
      ensures events == []
    {
      events := [];
    }

    method Record(e: Event)
      modifies this
      ensures events == old(events) + [e]
    {
      events := events + [e];
    }
  }

  /** ASCII lower-casing of one character. */
  function LowerChar(c: char): (r: char)
    ensures 'A' <= c <= 'Z' ==> r as int == c as int + 32
    ensures !('A' <= c <= 'Z') ==> r == c
  {
    if 'A' <= c <= 'Z' then (c as int + 32) as char else c
  }

  /** ASCII lower-casing of a string, character by character. */
  function Lower(s: string): (r: string)
    ensures |r| == |s|
    ensures forall i :: 0 <= i < |s| ==> r[i] == LowerChar(s[i])
  {
    if s == [] then [] else [LowerChar(s[0])] + Lower(s[1..])
  }
}
