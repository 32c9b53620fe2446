/**
  * The JsonLogic facade: the operator registry that addOperation edits, the
  * evaluator built lazily over it, and the cache of parsed rule texts that
  * apply(String, data) fills.
  *
  * A rule text is read by JsonParserString.parse and then built into a
  * node tree (JsonLogicParser.parse(String) itself is a stub that throws);
  * evaluation starts at the path "$".
  */
module JsonLogicApi {
  import opened Wrappers
  import opened JsonValues
  import opened ReaderErrors
  import opened JsonReader
  import opened ReadValue
  import opened LogicAst
  import opened Rendering
  import opened EvalErrors
  import opened Evaluator
  import opened Operations
  import JsonParser
  import EvaluatorLaws
  import ListLaws

  /** Why apply fails: the text does not read, the value does not build, or evaluation throws. */
  datatype ApplyError =
    | ReadFailed(read: ReadError)
    | BuildFailed(build: ParseError)
    | EvaluationFailed(eval: EvalError)
      /** The rule parses to Java null, which parseCache.put (a ConcurrentHashMap) refuses with a NullPointerException. */
    | NullRule

  const ROOT: Path := [Text("$")]

  /** A rule text: read (the corrected reading), converted, then built at "$". */
  function ParseRule(text: string): Result<Node, ApplyError>
  {
    match ReadComplete(text)
    case Err(e) => Err(ReadFailed(e))
    case Ok(raw) =>
      ToJsonShape(raw);
      match Build(ToJson(raw), ROOT)
      case Err(e) => Err(BuildFailed(e))
      case Ok(n) => Ok(n)
  }

  /** evaluator.evaluate(node, data, "$"). */
  function Evaluated(ctx: Context, n: Node, data: Json): Result<Json, ApplyError>
  {
    match Eval(ctx, n, data, ROOT)
    case Err(e) => Err(EvaluationFailed(e))
    case Ok(v) => Ok(v)
  }

  /**
    * apply(String json, data): the parsed rule evaluated over the data. A
    * rule that parses to null cannot enter the cache, so it fails.
    */
  function TextOutcome(ctx: Context, text: string, data: Json): Result<Json, ApplyError>
  {
    match ParseRule(text)
    case Err(e) => Err(e)
    case Ok(n) => if n == Lit(Null) then Err(NullRule) else Evaluated(ctx, n, data)
  }

  /** apply(Object expr, data): a string is rule text; any other value is built directly. */
  function ValueOutcome(ctx: Context, expr: Json, data: Json): Result<Json, ApplyError>
  {
    if expr.Str? then TextOutcome(ctx, expr.s, data)
    else match Build(expr, ROOT)
      case Err(e) => Err(BuildFailed(e))
      case Ok(n) => Evaluated(ctx, n, data)
  }

  class JsonLogic {
    /** Double.parseDouble and Double.toString of the platform. */
    const host: Host
    var expressions: map<string, Handler>
    /** The evaluator, once built: a read-only view of `expressions`. */
    var evaluator: Option<Context>
    var parseCache: map<string, Node>

    /**
      * The evaluator sees the current table, and every cached node is the
      * parse of its text; a ConcurrentHashMap holds no null node.
      */
    ghost predicate Valid()
      reads this
    {
      && (evaluator.Some? ==> evaluator.value == Context(host, expressions))
      && (forall text | text in parseCache :: ParseRule(text) == Ok(parseCache[text]))
      && (forall text | text in parseCache :: parseCache[text] != Lit(Null))
    }

    /** The constructor: the Reduce table, then every built-in operation; no evaluator yet, nothing cached. */
    constructor (host: Host)
      ensures Valid()
      ensures this.host == host && expressions == DefaultOperations
      ensures evaluator == None && parseCache == map[]
    {
      this.host := host;
      expressions := DefaultOperations;
      evaluator := None;
      parseCache := map[];
    }

    /** addOperation(key, fkt): store or replace the handler under the exact name and drop the evaluator. */
    method AddOperation(name: string, handler: Handler)
      requires Valid()
      modifies this
      ensures Valid()
      ensures expressions == old(expressions)[name := handler]
      ensures name in expressions && expressions[name] == handler
      ensures evaluator == None && parseCache == old(parseCache)
    {
      expressions := expressions[name := handler];
      evaluator := None;
    }

    /** addListOperation / addOperation(name, Function): the function receives the evaluated, unwrapped arguments. */
    method AddListOperation(name: string, fn: seq<Json> -> Result<Json, EvalError>)
      requires Valid()
      modifies this
      ensures Valid()
      ensures expressions == old(expressions)[name := ListFunction(fn)]
      ensures evaluator == None && parseCache == old(parseCache)
    {
      AddOperation(name, ListFunction(fn));
    }

    /** The evaluator, built over the current table when there is none. */
    method EnsureEvaluator() returns (ctx: Context)
      requires Valid()
      modifies this
      ensures Valid()
      ensures ctx == Context(host, expressions) && evaluator == Some(ctx)
      ensures expressions == old(expressions) && parseCache == old(parseCache)
    {
      if evaluator.None? {
        evaluator := Some(Context(host, expressions));
      }
      ctx := evaluator.value;
    }

    /**
      * apply(String json, data): the text is parsed once and cached; the
      * result is that of parsing and evaluating afresh, whatever the cache
      * held before.
      */
    method ApplyText(json: string, data: Json) returns (r: Result<Json, ApplyError>)
      requires Valid()
      modifies this
      ensures Valid()
      ensures r == TextOutcome(Context(host, expressions), json, data)
      ensures expressions == old(expressions)
      ensures forall t | t in old(parseCache) :: t in parseCache && parseCache[t] == old(parseCache)[t]
      ensures forall t | t in parseCache :: t in old(parseCache) || t == json
      ensures ParseRule(json).Ok? && ParseRule(json).value != Lit(Null) ==> json in parseCache
      ensures ParseRule(json).Ok? && ParseRule(json).value != Lit(Null) ==> evaluator == Some(Context(host, expressions))
      ensures !(ParseRule(json).Ok? && ParseRule(json).value != Lit(Null)) ==>
                evaluator == old(evaluator) && parseCache == old(parseCache)
    {
      if json !in parseCache {
        var raw := JsonParser.Parse(json);
        if raw.Err? {
          return Err(ReadFailed(raw.error));
        }
        if !Complete(raw.value) {
          return Err(ReadFailed(Unbalanced));
        }
        var node := Build(ToJson(raw.value), ROOT);
        if node.Err? {
          return Err(BuildFailed(node.error));
        }
        if node.value == Lit(Null) {
          return Err(NullRule);
        }
        parseCache := parseCache[json := node.value];
      }
      var ctx := EnsureEvaluator();
      var v := Eval(ctx, parseCache[json], data, ROOT);
      if v.Err? {
        return Err(EvaluationFailed(v.error));
      }
      return Ok(v.value);
    }

    /** apply(Object expr, data): a string goes to apply(String); any other value is built and evaluated. */
    method ApplyValue(expr: Json, data: Json) returns (r: Result<Json, ApplyError>)
      requires Valid()
      modifies this
      ensures Valid()
      ensures r == ValueOutcome(Context(host, expressions), expr, data)
      ensures expressions == old(expressions)
      ensures !expr.Str? ==> parseCache == old(parseCache) && evaluator == Some(Context(host, expressions))
      ensures expr.Str? ==>
                && (forall t | t in old(parseCache) :: t in parseCache && parseCache[t] == old(parseCache)[t])
                && (forall t | t in parseCache :: t in old(parseCache) || t == expr.s)
                && (ParseRule(expr.s).Ok? && ParseRule(expr.s).value != Lit(Null) ==>
                      expr.s in parseCache && evaluator == Some(Context(host, expressions)))
                && (!(ParseRule(expr.s).Ok? && ParseRule(expr.s).value != Lit(Null)) ==>
                      evaluator == old(evaluator) && parseCache == old(parseCache))
    {
      if expr.Str? {
        r := ApplyText(expr.s, data);
        return;
      }
      var ctx := EnsureEvaluator();
      var node := Build(expr, ROOT);
      if node.Err? {
        return Err(BuildFailed(node.error));
      }
      var v := Eval(ctx, node.value, data, ROOT);
      if v.Err? {
        return Err(EvaluationFailed(v.error));
      }
      return Ok(v.value);
    }
  }

  /**
    * Blank rule text parses to null, which the cache refuses: apply(String)
    * fails, while apply(Object) with the null value itself answers null.
    */
  lemma BlankRuleIsRefused(ctx: Context, text: string, data: Json)
    requires JavaText.IsBlank(text)
    ensures ParseRule(text) == Ok(Lit(Null))
    ensures TextOutcome(ctx, text, data) == Err(NullRule)
    ensures ValueOutcome(ctx, Null, data) == Ok(Null)
  {
    assert Read(text) == Ok(RNull);
    assert ToJson(RNull) == Null;
  }

  /** The unfinished text "[" is refused as unbalanced instead of evaluating a marker. */
  lemma UnfinishedRuleFails(ctx: Context, data: Json)
    ensures TextOutcome(ctx, "[", data) == Err(ReadFailed(Unbalanced))
  {
    ReadCompleteRejectsMarker();
  }

  /**
    * A name added to the table is dispatched to its new handler: an
    * operation whose arguments are not a single operation hands them over
    * as they are, at path "$.name".
    */
  lemma {:induction false} AddedOperationIsDispatched(host: Host, ops: map<string, Handler>, name: string, h: Handler,
                                                      args: seq<Node>, data: Json)
    requires !(|args| == 1 && args[0].Operation?)
    ensures var ctx := Context(host, ops[name := h]);
            Evaluated(ctx, Operation(name, args), data)
              == match Apply(ctx, h, args, data, KeyPath(ROOT, name))
                 case Err(e) => Err(EvaluationFailed(e))
                 case Ok(v) => Ok(v)
  {
    EvaluatorLaws.OtherArgumentsPassedAsTheyAre(Context(host, ops[name := h]), name, args, data, ROOT);
  }

  /**
    * The custom-operation scenario: register `greet` through
    * addListOperation, then apply {"greet": ["json-logic"]}.
    */
  method GreetAfterAddOperation(host: Host) returns (r: Result<Json, ApplyError>)
    ensures r == Ok(Str("Hello " + "json-logic" + "!"))
  {
    var logic := new JsonLogic(host);
    logic.AddListOperation("greet", ListLaws.Greet(host));
    var rule := Obj([("greet", Arr([Str("json-logic")]))]);
    r := logic.ApplyValue(rule, Null);
    GreetRuleBuilds();
    AddedOperationIsDispatched(host, DefaultOperations, "greet", ListFunction(ListLaws.Greet(host)), [Lit(Str("json-logic"))], Null);
    ListLaws.GreetLiteral(Context(host, DefaultOperations["greet" := ListFunction(ListLaws.Greet(host))]), KeyPath(ROOT, "greet"));
  }

  lemma GreetRuleBuilds()
    ensures Build(Obj([("greet", Arr([Str("json-logic")]))]), ROOT) == Ok(Operation("greet", [Lit(Str("json-logic"))]))
  {
    var items := [Str("json-logic")];
    assert Build(items[0], IndexPath(KeyPath(ROOT, "greet"), 0)) == Ok(Lit(Str("json-logic")));
    assert BuildItems(items, KeyPath(ROOT, "greet"), 1) == Ok([]);
    assert [Lit(Str("json-logic"))] + [] == [Lit(Str("json-logic"))];
    assert BuildItems(items, KeyPath(ROOT, "greet"), 0) == Ok([Lit(Str("json-logic"))]);
  }
}
