/** Message routing: routes, JSONPath routing conditions, routing rules
    and the router that picks the route of a message. */
module Routing {
  import opened Common

  /** AMQP message properties: property name to value. */
  type Properties = map<string, Json>

  /** Routing parameters: the name of the sink (broker) that consumes the
      message, the exchange that receives it, its routing key and optional
      additional message properties (absent unless given). */
  datatype Route = Route(brokerName: string, exchangeName: string, routingKey: string,
                         properties: Option<Properties> := None)

  /** A parsed JSONPath expression, known through what it finds: the list
      of matches it yields on a value. The JSONPath language itself belongs
      to the jsonpath_ng library and is not modelled. */
  datatype JsonPath = JsonPath(find: Json -> seq<Json>)

  /** A JSONPath expression evaluated on messages. */
  datatype RoutingCondition = RoutingCondition(expression: JsonPath) {
    /** A message matches when the expression finds at least one value in it. */
    predicate IsMatching(message: Json) {
      |expression.find(message)| > 0
    }
  }

  /** What the library parser does with the text of an expression: it
      yields the parsed expression, raises a lexer error, or raises its own
      parse error for text that tokenises but does not form an expression. */
  datatype ParseOutcome =
    | Parsed(path: JsonPath)
    | LexerFailure(message: string)
    | ParserFailure(message: string)

  /** Builds a condition from the text of a JSONPath expression with the
      library parser `parse`. A value that is not a string makes the parser
      raise TypeError; that and a lexer error become
      InvalidRoutingConditionError, while the parser's own parse error is
      not caught. */
  function NewCondition(parse: string -> ParseOutcome, expression: Json): (r: Result<RoutingCondition, Error>)
    ensures r.Success? <==> expression.JStr? && parse(expression.s).Parsed?
    ensures r.Success? ==> r.value.expression == parse(expression.s).path
    ensures !expression.JStr? ==> r.Failure? && r.error.InvalidRoutingConditionError?
    ensures expression.JStr? && parse(expression.s).LexerFailure? ==>
      r == Failure(InvalidRoutingConditionError(parse(expression.s).message))
    ensures expression.JStr? && parse(expression.s).ParserFailure? ==>
      r == Failure(JsonPathParseError(parse(expression.s).message))
  {
    if !expression.JStr? then Failure(InvalidRoutingConditionError("expression is not a string"))
    else match parse(expression.s)
      case LexerFailure(message) => Failure(InvalidRoutingConditionError(message))
      case ParserFailure(message) => Failure(JsonPathParseError(message))
      case Parsed(p) => Success(RoutingCondition(p))
  }

  /** A routing rule: a condition and the route of the messages it matches. */
  datatype RoutingRule = RoutingRule(condition: RoutingCondition, route: Route)

  /** The value the conditions are evaluated on: the message and the name of
      its source, inside a one-element list so that JSONPath array filters
      can be used on it. */
  function Wrapped(sourceName: string, message: Json): (w: Json)
    ensures w.JArr? && |w.items| == 1 && w.items[0].JObj?
    ensures w.items[0].fields.Keys == {"org_name", "message"}
    ensures w.items[0].fields["org_name"] == JStr(sourceName)
    ensures w.items[0].fields["message"] == message
  {
    JArr([JObj(map["org_name" := JStr(sourceName), "message" := message])])
  }

  /** The index of the first rule whose condition matches `value`. */
  function FirstMatch(rules: seq<RoutingRule>, value: Json): (r: Option<nat>)
    ensures r.Some? ==> r.value < |rules| && rules[r.value].condition.IsMatching(value)
    ensures r.Some? ==> forall j :: 0 <= j < r.value ==> !rules[j].condition.IsMatching(value)
    ensures r.None? <==> forall j :: 0 <= j < |rules| ==> !rules[j].condition.IsMatching(value)
  {
    if rules == [] then None
    else if rules[0].condition.IsMatching(value) then Some(0)
    else match FirstMatch(rules[1..], value)
      case None => None
      case Some(i) => Some(i + 1)
  }

  /** The route of the first matching rule, or the default route when no
      rule matches. */
  function SelectRoute(rules: seq<RoutingRule>, defaultRoute: Option<Route>, value: Json): Option<Route>
  {
    match FirstMatch(rules, value)
    case Some(i) => Some(rules[i].route)
    case None => defaultRoute
  }

  /** Appending a rule never changes the route of a value that an earlier
      rule already matches; the new rule only replaces the default route. */
  lemma {:induction false} SelectRouteAppend(rules: seq<RoutingRule>, rule: RoutingRule, defaultRoute: Option<Route>, value: Json)
    ensures SelectRoute(rules + [rule], defaultRoute, value) ==
      if FirstMatch(rules, value).Some? then SelectRoute(rules, defaultRoute, value)
      else if rule.condition.IsMatching(value) then Some(rule.route)
      else defaultRoute
  {
    var all := rules + [rule];
    match FirstMatch(rules, value)
    case Some(i) =>
      assert all[i] == rules[i];
      assert forall j :: 0 <= j < i ==> all[j] == rules[j];
      FirstMatchIsFirst(all, value, i);
    case None =>
      assert forall j :: 0 <= j < |rules| ==> all[j] == rules[j];
      assert all[|rules|] == rule;
      if rule.condition.IsMatching(value) {
        FirstMatchIsFirst(all, value, |rules|);
      }
  }

  /** The first matching index is unique: an index that matches and has no
      match before it is the one FirstMatch yields. */
  lemma FirstMatchIsFirst(rules: seq<RoutingRule>, value: Json, i: nat)
    requires i < |rules| && rules[i].condition.IsMatching(value)
    requires forall j :: 0 <= j < i ==> !rules[j].condition.IsMatching(value)
    ensures FirstMatch(rules, value) == Some(i)
  {
  }

  /** The route selected for a value: that of the first matching rule,
      the default route when none matches, and otherwise always the route
      of some rule. */
  lemma SelectRouteCases(rules: seq<RoutingRule>, defaultRoute: Option<Route>, value: Json)
    ensures forall i :: 0 <= i < |rules| && rules[i].condition.IsMatching(value)
              && (forall j :: 0 <= j < i ==> !rules[j].condition.IsMatching(value))
              ==> SelectRoute(rules, defaultRoute, value) == Some(rules[i].route)
    ensures (forall i :: 0 <= i < |rules| ==> !rules[i].condition.IsMatching(value))
              ==> SelectRoute(rules, defaultRoute, value) == defaultRoute
    ensures SelectRoute(rules, defaultRoute, value) != defaultRoute ==>
              exists i :: 0 <= i < |rules| && SelectRoute(rules, defaultRoute, value) == Some(rules[i].route)
  {
    match FirstMatch(rules, value)
    case Some(k) =>
      forall i | 0 <= i < |rules| && rules[i].condition.IsMatching(value)
                 && (forall j :: 0 <= j < i ==> !rules[j].condition.IsMatching(value))
        ensures i == k
      {
        FirstMatchIsFirst(rules, value, i);
      }
    case None =>
  }

  /** Finds the route of messages from their source name and content. */
  class MessageRouter {
    var defaultRoute: Option<Route>
    /** The rules in the order they are tried. */
    var rules: seq<RoutingRule>

    /** A router without rules and without a default route unless given. */
    constructor (defaultRoute: Option<Route> := None, rules: seq<RoutingRule> := [])
      ensures this.defaultRoute == defaultRoute && this.rules == rules
    {
      this.defaultRoute := defaultRoute;
      this.rules := rules;
    }

    /** Adds a rule after every existing rule. */
    method AddRule(rule: RoutingRule)
      modifies this
      ensures rules == old(rules) + [rule]
      ensures defaultRoute == old(defaultRoute)
    {
      rules := rules + [rule];
    }

    /** The route of a message: that of the first rule whose condition
        matches the wrapped message, otherwise the default route. */
    function FindRoute(sourceName: string, message: Json): (r: Option<Route>)
      reads this
      ensures forall i :: 0 <= i < |rules| && rules[i].condition.IsMatching(Wrapped(sourceName, message))
                && (forall j :: 0 <= j < i ==> !rules[j].condition.IsMatching(Wrapped(sourceName, message)))
                ==> r == Some(rules[i].route)
      ensures (forall i :: 0 <= i < |rules| ==> !rules[i].condition.IsMatching(Wrapped(sourceName, message)))
                ==> r == defaultRoute
      ensures r != defaultRoute ==> exists i :: 0 <= i < |rules| && r == Some(rules[i].route)
    {
      var w := Wrapped(sourceName, message);
      SelectRouteCases(rules, defaultRoute, w);
      SelectRoute(rules, defaultRoute, w)
    }
  }
}
