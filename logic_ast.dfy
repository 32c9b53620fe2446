/**
  * JsonLogicParser.parse(Object, String): the builder that turns a JSON
  * value tree into a rule tree of literals, lists, operations and
  * variables. A map must hold exactly one key; the key names the
  * operation, and the value under it is the argument list (a single
  * value is wrapped into a one-element list). The key `var` builds a
  * variable reference instead.
  */
module LogicAst {
  import opened Wrappers
  import opened JavaText
  import opened JsonValues

  /**
    * What the builder returns and the evaluator walks. `Lit` holds a value
    * the evaluator returns as it is; the builder only puts scalars there,
    * the evaluator also wraps evaluated values in it.
    */
  datatype Node =
    | Lit(value: Json)
    | ListNode(items: seq<Node>)
    | Operation(name: string, args: seq<Node>)
    | Variable(key: Node, dflt: Node)

  predicate IsScalar(v: Json)
  {
    v.Null? || v.Bool? || v.Num? || v.Str?
  }

  /**
    * A path as the engine builds it with String.format: a root text, then
    * "[i]" for a list element, ".key" for a map value or a handler, " 'op'"
    * for a nested single operation, and plain suffixes such as "!".
    */
  datatype PathPart = Text(text: string) | Index(index: int) | Member(key: string) | Quoted(op: string)

  type Path = seq<PathPart>

  function PartText(q: PathPart): string
  {
    match q
    case Text(x) => x
    case Index(i) => "[" + IntToString(i) + "]"
    case Member(k) => "." + k
    case Quoted(op) => " '" + op + "'"
  }

  /** The path string the Java code carries. */
  function PathText(p: Path): string
  {
    if p == [] then "" else PathText(p[..|p| - 1]) + PartText(p[|p| - 1])
  }

  /** String.format("%s[%d]", path, i) */
  function IndexPath(path: Path, i: int): Path
  {
    path + [Index(i)]
  }

  /** String.format("%s.%s", path, key) */
  function KeyPath(path: Path, key: string): Path
  {
    path + [Member(key)]
  }

  /** JsonLogicParseException, by the condition that raised it. */
  datatype ParseError =
    | WrongKeyCount(found: nat, path: Path)
    | NotAMap(path: Path)

  function ParseMessage(e: ParseError): string
  {
    match e
    case WrongKeyCount(n, _) => "objects must have exactly 1 key defined, found " + IntToString(n)
    case NotAMap(_) => "not an map"
  }

  /** The argument list an operation gets from the parsed value under its key. */
  function Arguments(arg: Node): (r: seq<Node>)
    ensures arg.ListNode? ==> r == arg.items
    ensures !arg.ListNode? ==> r == [arg]
  {
    if arg.ListNode? then arg.items else [arg]
  }

  /** The node a single-key map becomes once its value is parsed. */
  function OperationOf(key: string, arg: Node): (r: Node)
    ensures key == "var" ==> r.Variable?
    ensures key != "var" ==> r == Operation(key, Arguments(arg))
  {
    var arguments := Arguments(arg);
    if key == "var" then
      Variable(if |arguments| < 1 then Lit(Null) else arguments[0],
               if |arguments| > 1 then arguments[1] else Lit(Null))
    else Operation(key, arguments)
  }

  /**
    * parse(root, jsonPath) as it is evidently meant: scalars are returned
    * unchanged, lists element by element, and a map must have exactly one
    * key. (Java maps have distinct keys; the entries here are taken to be so.)
    */
  function Build(v: Json, path: Path): Result<Node, ParseError>
    decreases v
  {
    match v
    case Arr(items) =>
      (match BuildItems(items, path, 0)
       case Err(e) => Err(e)
       case Ok(nodes) => Ok(ListNode(nodes)))
    case Obj(entries) =>
      if |entries| != 1 then Err(WrongKeyCount(|entries|, path))
      else
        var key := entries[0].0;
        (match Build(entries[0].1, KeyPath(path, key))
         case Err(e) => Err(e)
         case Ok(arg) => Ok(OperationOf(key, arg)))
    case _ => Ok(Lit(v))
  }

  /** The loop of line 43: element i is parsed at path "[i]". */
  function BuildItems(items: seq<Json>, path: Path, i: nat): (r: Result<seq<Node>, ParseError>)
    requires i <= |items|
    ensures r.Ok? ==> |r.value| == |items| - i
    decreases items, |items| - i
  {
    if i == |items| then Ok([])
    else
      match Build(items[i], IndexPath(path, i))
      case Err(e) => Err(e)
      case Ok(n) =>
        match BuildItems(items, path, i + 1)
        case Err(e) => Err(e)
        case Ok(ns) => Ok([n] + ns)
  }

  /**
    * parse(root, jsonPath) as written: line 46 throws "not an map" for
    * every map, so no map is ever parsed into an operation or a variable.
    */
  function BuildAsWritten(v: Json, path: Path): Result<Node, ParseError>
    decreases v
  {
    match v
    case Arr(items) =>
      (match BuildItemsAsWritten(items, path, 0)
       case Err(e) => Err(e)
       case Ok(nodes) => Ok(ListNode(nodes)))
    case Obj(_) => Err(NotAMap(path))
    case _ => Ok(Lit(v))
  }

  function BuildItemsAsWritten(items: seq<Json>, path: Path, i: nat): (r: Result<seq<Node>, ParseError>)
    requires i <= |items|
    decreases items, |items| - i
  {
    if i == |items| then Ok([])
    else
      match BuildAsWritten(items[i], IndexPath(path, i))
      case Err(e) => Err(e)
      case Ok(n) =>
        match BuildItemsAsWritten(items, path, i + 1)
        case Err(e) => Err(e)
        case Ok(ns) => Ok([n] + ns)
  }

  // ---------------------------------------------------------------------
  // What the builder promises.
  // ---------------------------------------------------------------------

  /** null, strings, numbers and booleans come back unchanged. */
  lemma BuildScalar(v: Json, path: Path)
    requires IsScalar(v)
    ensures Build(v, path) == Ok(Lit(v))
  {
  }

  /** The parse of element k of a list at path "[k]". */
  function ItemParse(items: seq<Json>, path: Path, k: nat): Result<Node, ParseError>
    requires k < |items|
  {
    Build(items[k], IndexPath(path, k))
  }

  /** A list parses into a list of the same length whose element i is the parse of element i. */
  lemma {:induction false} BuildItemsPointwise(items: seq<Json>, path: Path, i: nat)
    requires i <= |items|
    ensures var r := BuildItems(items, path, i);
            (r.Ok? <==> forall k | i <= k < |items| :: ItemParse(items, path, k).Ok?)
            && (r.Ok? ==> forall k | i <= k < |items| :: r.value[k - i] == ItemParse(items, path, k).value)
    decreases |items| - i
  {
    if i < |items| {
      BuildItemsPointwise(items, path, i + 1);
      var r := BuildItems(items, path, i);
      var first := ItemParse(items, path, i);
      var rest := BuildItems(items, path, i + 1);
      assert first == Build(items[i], IndexPath(path, i));
      if first.Err? {
        assert r.Err?;
      } else if rest.Err? {
        assert r.Err?;
      } else {
        assert r == Ok([first.value] + rest.value);
      }
    }
  }

  lemma {:induction false} BuildList(items: seq<Json>, path: Path)
    ensures var r := Build(Arr(items), path);
            (r.Ok? <==> forall k | 0 <= k < |items| :: ItemParse(items, path, k).Ok?)
            && (r.Ok? ==> r.value.ListNode? && |r.value.items| == |items|
                          && forall k | 0 <= k < |items| :: r.value.items[k] == ItemParse(items, path, k).value)
  {
    BuildItemsPointwise(items, path, 0);
  }

  /** A map with other than one key is refused with its size, at the current path. */
  lemma BuildOneKeyRule(entries: seq<(string, Json)>, path: Path)
    requires |entries| != 1
    ensures Build(Obj(entries), path) == Err(WrongKeyCount(|entries|, path))
  {
  }

  /**
    * A single-key map: the key becomes the operation name exactly as written
    * (no case folding); a list value is the argument list, anything else is
    * wrapped into a one-element list.
    */
  lemma BuildOperation(key: string, value: Json, path: Path)
    requires key != "var" && Build(value, KeyPath(path, key)).Ok?
    ensures var arg := Build(value, KeyPath(path, key)).value;
            Build(Obj([(key, value)]), path) == Ok(Operation(key, if value.Arr? then arg.items else [arg]))
  {
  }

  /** `var`: argument 0 (or null) is the key, argument 1 (or null) the default; the rest is ignored. */
  lemma BuildVariable(value: Json, path: Path)
    requires Build(value, KeyPath(path, "var")).Ok?
    ensures var args := Arguments(Build(value, KeyPath(path, "var")).value);
            Build(Obj([("var", value)]), path)
              == Ok(Variable(if |args| == 0 then Lit(Null) else args[0], if |args| > 1 then args[1] else Lit(Null)))
  {
  }

  /** The parse of a list value is a list node and of anything else is not. */
  lemma {:induction false} BuildKeepsShape(v: Json, path: Path)
    requires Build(v, path).Ok?
    ensures Build(v, path).value.ListNode? <==> v.Arr?
  {
  }

  /** The line-46 test as written fails exactly on the values that hold a map somewhere. */
  lemma {:induction false} BuildAsWrittenRejectsMaps(v: Json, path: Path)
    ensures BuildAsWritten(v, path).Ok? <==> !HasMap(v)
    decreases v
  {
    if v.Arr? {
      BuildItemsAsWrittenRejectsMaps(v.items, path, 0);
    }
  }

  lemma {:induction false} BuildItemsAsWrittenRejectsMaps(items: seq<Json>, path: Path, i: nat)
    requires i <= |items|
    ensures BuildItemsAsWritten(items, path, i).Ok? <==> forall k | i <= k < |items| :: !HasMap(items[k])
    decreases items, |items| - i
  {
    if i < |items| {
      BuildAsWrittenRejectsMaps(items[i], IndexPath(path, i));
      BuildItemsAsWrittenRejectsMaps(items, path, i + 1);
    }
  }

  /** The smallest rule, {"var": "a"}, is refused as written and accepted once the test is corrected. */
  lemma BuildAsWrittenRefusesEveryRule()
    ensures BuildAsWritten(Obj([("var", Str("a"))]), [Text("$")]) == Err(NotAMap([Text("$")]))
    ensures Build(Obj([("var", Str("a"))]), [Text("$")]) == Ok(Variable(Lit(Str("a")), Lit(Null)))
  {
  }

  // ---------------------------------------------------------------------
  // The builder's inverse on the trees it produces.
  // ---------------------------------------------------------------------

  /** A tree the builder can produce: scalar literals and no operation named `var`. */
  predicate Canonical(n: Node)
  {
    match n
    case Lit(v) => IsScalar(v)
    case ListNode(items) => forall k | 0 <= k < |items| :: Canonical(items[k])
    case Operation(name, args) => name != "var" && forall k | 0 <= k < |args| :: Canonical(args[k])
    case Variable(k, d) => Canonical(k) && Canonical(d)
  }

  /** The JSON text a rule tree is written as: an operation is a one-key map holding its argument list. */
  function Unbuild(n: Node): (v: Json)
  {
    match n
    case Lit(v) => v
    case ListNode(items) => Arr(UnbuildItems(items))
    case Operation(name, args) => Obj([(name, Arr(UnbuildItems(args)))])
    case Variable(k, d) => Obj([("var", Arr([Unbuild(k), Unbuild(d)]))])
  }

  function UnbuildItems(ns: seq<Node>): (vs: seq<Json>)
    ensures |vs| == |ns|
    ensures forall k | 0 <= k < |ns| :: vs[k] == Unbuild(ns[k])
  {
    if ns == [] then [] else [Unbuild(ns[0])] + UnbuildItems(ns[1..])
  }

  /** Every canonical tree is the parse of its own JSON form. */
  lemma {:induction false} BuildUnbuild(n: Node, path: Path)
    requires Canonical(n)
    ensures Build(Unbuild(n), path) == Ok(n)
    decreases n, 1
  {
    match n
    case Lit(v) =>
    case ListNode(items) =>
      BuildUnbuildItems(items, path, 0);
    case Operation(name, args) =>
      var p := KeyPath(path, name);
      BuildUnbuildItems(args, p, 0);
      assert Build(Arr(UnbuildItems(args)), p) == Ok(ListNode(args));
    case Variable(k, d) =>
      var p := KeyPath(path, "var");
      BuildUnbuild(k, IndexPath(p, 0));
      BuildUnbuild(d, IndexPath(p, 1));
      BuildPair(Unbuild(k), Unbuild(d), k, d, p);
  }

  lemma BuildPair(a: Json, b: Json, x: Node, y: Node, p: Path)
    requires Build(a, IndexPath(p, 0)) == Ok(x) && Build(b, IndexPath(p, 1)) == Ok(y)
    ensures Build(Arr([a, b]), p) == Ok(ListNode([x, y]))
  {
    assert BuildItems([a, b], p, 2) == Ok([]);
    assert [y] + [] == [y];
    assert BuildItems([a, b], p, 1) == Ok([y]);
    assert [x] + [y] == [x, y];
  }

  lemma {:induction false} BuildUnbuildItems(ns: seq<Node>, path: Path, i: nat)
    requires i <= |ns| && forall k | 0 <= k < |ns| :: Canonical(ns[k])
    ensures BuildItems(UnbuildItems(ns), path, i) == Ok(ns[i..])
    decreases ns, 0, |ns| - i
  {
    if i < |ns| {
      BuildUnbuild(ns[i], IndexPath(path, i));
      BuildUnbuildItems(ns, path, i + 1);
      assert ns[i..] == [ns[i]] + ns[i + 1..];
    }
  }

  // ---------------------------------------------------------------------
  // Tree size, the measure the evaluator recurses on.
  // ---------------------------------------------------------------------

  /** The number of list, operation and variable nodes; a literal counts nothing. */
  function Size(n: Node): nat
    decreases n
  {
    match n
    case Lit(_) => 0
    case ListNode(items) => 1 + SizeSeq(items)
    case Operation(_, args) => 1 + SizeSeq(args)
    case Variable(k, d) => 1 + Size(k) + Size(d)
  }

  function SizeSeq(ns: seq<Node>): (r: nat)
    ensures forall i | 0 <= i < |ns| :: Size(ns[i]) <= r
    decreases ns
  {
    if ns == [] then 0
    else
      var rest := SizeSeq(ns[1..]);
      assert forall i | 1 <= i < |ns| :: ns[i] == ns[1..][i - 1];
      Size(ns[0]) + rest
  }

  /** Each value as a literal node: what an evaluated argument list becomes. */
  function LitAll(vs: seq<Json>): (r: seq<Node>)
    ensures |r| == |vs|
    ensures forall i | 0 <= i < |vs| :: r[i] == Lit(vs[i])
    ensures SizeSeq(r) == 0
  {
    if vs == [] then [] else [Lit(vs[0])] + LitAll(vs[1..])
  }
}
