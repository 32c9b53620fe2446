/**
  * Object.toString on the values and rule nodes the engine handles: the
  * text `cat`, `in` and `substr` work on. Double.toString and the identity
  * text of an operation object belong to the host and are parameters.
  */
module Rendering {
  import opened Wrappers
  import opened JavaText
  import opened JsonValues
  import opened LogicAst

  /**
    * What the model takes from the Java platform: Double.parseDouble,
    * Double.toString, and Object.toString of a JsonLogicOperation (a class
    * without its own toString, so its text is an identity hash).
    */
  datatype Host = Host(parse: DoubleParser, render: real -> string, operationText: Node -> string)

  /** AbstractCollection.toString / AbstractMap.toString separator. */
  const SEP: string := ", "

  /** String.valueOf(v) for a value: "null", "true", the number, the string itself, "[a, b]" or "{k=v}". */
  function ValueText(host: Host, v: Json): string
    decreases v, 1, 0
  {
    match v
    case Null => "null"
    case Bool(b) => if b then "true" else "false"
    case Num(n, Double) => host.render(n)
    case Num(n, Integral) => IntToString(Truncate(n))
    case Str(s) => s
    case Arr(items) => "[" + ItemsText(host, items) + "]"
    case Obj(_) => "{" + EntriesText(host, v, 0) + "}"
  }

  function ItemsText(host: Host, items: seq<Json>): string
    decreases items
  {
    if items == [] then ""
    else if |items| == 1 then ValueText(host, items[0])
    else ValueText(host, items[0]) + SEP + ItemsText(host, items[1..])
  }

  /** The entries of the map `m` from position i on, as "k=v" pieces. */
  function EntriesText(host: Host, m: Json, i: nat): string
    requires m.Obj? && i <= |m.entries|
    decreases m, 0, |m.entries| - i
  {
    if i == |m.entries| then ""
    else
      var piece := m.entries[i].0 + "=" + ValueText(host, m.entries[i].1);
      if i + 1 == |m.entries| then piece else piece + SEP + EntriesText(host, m, i + 1)
  }

  /**
    * String.valueOf of an unevaluated argument: a literal as its value, a
    * list element by element, a variable as its record text, an operation
    * by the host's identity text.
    */
  function NodeText(host: Host, n: Node): string
    decreases n
  {
    match n
    case Lit(v) => ValueText(host, v)
    case ListNode(items) => "[" + NodesText(host, items) + "]"
    case Operation(_, _) => host.operationText(n)
    case Variable(k, d) => "JsonLogicVariable[key=" + NodeText(host, k) + ", defaultValue=" + NodeText(host, d) + "]"
  }

  function NodesText(host: Host, items: seq<Node>): string
    decreases items
  {
    if items == [] then ""
    else if |items| == 1 then NodeText(host, items[0])
    else NodeText(host, items[0]) + SEP + NodesText(host, items[1..])
  }

  /** A literal argument renders as the value it holds, so only variables and operations differ. */
  lemma {:induction false} NodesTextOfLiterals(host: Host, vs: seq<Json>)
    ensures NodesText(host, LitAll(vs)) == ItemsText(host, vs)
  {
    if |vs| > 1 {
      assert LitAll(vs)[1..] == LitAll(vs[1..]);
      NodesTextOfLiterals(host, vs[1..]);
    }
  }
}
