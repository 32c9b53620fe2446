# JsonLogic engine, modelled in Dafny

This project models the core of a Java JsonLogic engine: rules written as JSON, evaluated against JSON data. It covers five parts:

- **The reader** (`JsonParserString`). It turns rule text into values with a value deque and a stack of element counters.
- **The builder** (`JsonLogicParser`). It turns a value into a node tree of literals, lists, variables and operations.
- **The evaluator** (`JsonLogicEvaluator`, `JsonPath`). It walks that tree over the data.
- **The operators.** These are the Reduce table, the handlers the `JsonLogic` constructor registers, and the expression classes.
- **The `JsonLogic` class itself.** It holds the operator registry, the lazily built evaluator and the cache of parsed rule texts.

JSON values are the datatype `JsonValues.Json`:

- Numbers are exact reals, tagged with the Java box they came in: `Integral` (Integer/Long) or `Double`.
- Maps keep insertion order, as the `LinkedHashMap`s of the source do.
- Java exceptions become the `Err` side of a `Result`: `ReadError`, `ParseError`, `EvalError`.
- `Double.parseDouble` and `Double.toString` are parameters, gathered in `Host`.

The evaluator is one mutually recursive group of functions:

- `Evaluator.Eval` evaluates a node.
- `Evaluator.Apply` runs a registered handler.
- One function per operator (`IfChain`, `AndOrOp`, `MapOp`, …).

The loops of the source are methods in `OperatorLoops`, `JsonParser`, `JsonNumber`, `JsonStrings`, `VarPath`, `JsonPathResolver`, `PathSegment`, `ArrayLike`, `MissingKeys` and `LooseEquality`. Each is proved equal to the function that specifies it.

The registry is the class `JsonLogicApi.JsonLogic`. Its fields are the operator map, the optional evaluator and the parse cache. `addOperation` and `apply` are methods that update them.

Where the code does something its authors evidently did not mean, the model keeps both versions:

- the code as written (`…AsWritten`, `IfThen`, `CatAsWritten`, `InAsWritten`, `ListFunctionAsWritten`);
- the corrected definition.

Lemmas exhibit the difference, and the rest of the model uses the corrected definition (see "## Findings"). `Operations.AsWrittenOperations` is the constructor's table as written. `Operations.DefaultOperations` is the corrected one, and it is what `JsonLogic`'s constructor installs.

## Reading of the source

The revision of the source modelled here does not compile as it stands. Several members it calls are missing or have other names. The model reads each one as follows:

- `ArrayLike.isList` is not defined; `ArrayLike.isArray` is (ArrayLike.java:54). It is called by Reduce, `JsonLogic`, `JsonLogicEvaluator` and the expression classes. The model reads `isList` as `isArray`: the value is a list (`Arr?`).
- `ArrayLike.equals` (EqualityExpression.java:32) is not defined. It is read as `JSON.equals`, the pairwise loose equality of two lists.
- `evaluator.scoped(x).evaluate(node, path)` and the two-argument `evaluate` (MapExpression, ReduceExpression, SubstringExpression) are not defined. They are read as `Eval` of the node over the data `x`.
- `JsonLogic.truthy` (IfExpression, LogicExpression, AllExpression, ArrayHasExpression, FilterExpression) is not defined. It is read as `JSON.truthy`.
- `apply(Object)` (JsonLogic.java:209) calls `JsonLogicParser.parse(expr, "$")`, which is private. It is read as that method.
- `MapLike.isMap` and `MapLike.asMap` (JsonLogicParser.java:46-48) are not defined in MapLike.java. They are read as `JSON.isMap` and `JSON.asMap` (JSON.java:89-94): the value is a map (`Obj?`). The parser finding below rests on this reading.
- `JsonLogicEvaluator.evaluate` (JsonLogicEvaluator.java:77-81) calls `operation.operator()` and `operation.arguments()`. `JsonLogicOperation` has `getOperator` and `getArguments`. They are read as those getters.

## Model

| member | source | states |
|---|---|---|
| JsonValues.Put | src/main/java/io/github/jamsesso/jsonlogic/ast/JsonParserString.java:82-97 | putting into an insertion-ordered map keeps its size or grows it by one |
| JsonValues.PutGet | src/main/java/io/github/jamsesso/jsonlogic/ast/JsonParserString.java:82-97 | after put(k, v), get(k) is v |
| JsonValues.PutKeys | src/main/java/io/github/jamsesso/jsonlogic/ast/JsonParserString.java:82-97 | an existing key keeps its position; a new key is appended last |
| JsonValues.PutOthers | src/main/java/io/github/jamsesso/jsonlogic/ast/JsonParserString.java:82-97 | every other key keeps its value |
| JsonValues.AsBooleanIsTruthy | src/main/java/io/github/jamsesso/jsonlogic/evaluator/JsonLogicEvaluator.java:99-118 | the evaluator's truth test equals JSON.truthy; falsy exactly for null, false, "", [] and numeric zero |
| JsonValues.Transform | src/main/java/io/github/jamsesso/jsonlogic/evaluator/JsonLogicEvaluator.java:147 | a number becomes a Double of the same value; every other value is unchanged; truthiness is kept |
| JsonValues.TransformIdempotent | src/main/java/io/github/jamsesso/jsonlogic/evaluator/JsonLogicEvaluator.java:147 | transforming twice equals transforming once |
| JsonValues.NumericOfTransform | src/main/java/io/github/jamsesso/jsonlogic/Reduce.java:18-22 | normalising a Number to a Double never changes its numeric reading; only numbers and strings have one |
| LooseEquality.LooseEqualsSymmetric | src/main/java/io/github/jamsesso/jsonlogic/ast/JSON.java:154-174 | loose equality does not depend on argument order, lists included |
| LooseEquality.NullEqualsOnlyNull | src/main/java/io/github/jamsesso/jsonlogic/ast/JSON.java:154-174 | null is loosely equal to null and to nothing else, in either position |
| LooseEquality.NumberAgainstString | src/main/java/io/github/jamsesso/jsonlogic/ast/JSON.java:146-149 | a blank string equals exactly 0; otherwise the string's parsed value must equal the number, and an unparsable string equals no number |
| LooseEquality.NumberAgainstBoolean | src/main/java/io/github/jamsesso/jsonlogic/ast/JSON.java:151 | true equals exactly 1 and false exactly 0, in either order |
| LooseEquality.NumbersByValue | src/main/java/io/github/jamsesso/jsonlogic/ast/JSON.java:154-174 | numbers compare by value, whatever their box |
| LooseEquality.ListsPairwise | src/main/java/io/github/jamsesso/jsonlogic/ast/JSON.java:119-129 | two lists are equal iff they have the same length and are element-wise loosely equal |
| LooseEquality.MapsOnlyEqualThemselves | src/main/java/io/github/jamsesso/jsonlogic/ast/JSON.java:154-174 | a map is loosely equal to no value but an equal map (the instance test is read as value equality; see "## Left out") |
| LooseEquality.TransformKeepsLooseEquality | src/main/java/io/github/jamsesso/jsonlogic/evaluator/expressions/EqualityExpression.java:14-35 | normalising a number's box changes no loose comparison |
| LooseEquality.ListEquals | src/main/java/io/github/jamsesso/jsonlogic/ast/JSON.java:119-129 | the counting loop of JSON.equals computes list equality |
| StrictEquality.StrictNoCoercion | src/main/java/io/github/jamsesso/jsonlogic/JsonLogic.java:167-174 | a number is never strictly equal to a string, a boolean or null |
| StrictEquality.StrictNumbersByValue | src/main/java/io/github/jamsesso/jsonlogic/JsonLogic.java:167-174 | two numbers are strictly equal iff their double values are |
| StrictEquality.StrictNull | src/main/java/io/github/jamsesso/jsonlogic/JsonLogic.java:167-174 | null is strictly equal to null only |
| StrictEquality.JavaEqualsImpliesLoose | src/main/java/io/github/jamsesso/jsonlogic/JsonLogic.java:173 | on values without maps, Java `equals` implies loose equality |
| StrictEquality.StrictImpliesLoose | src/main/java/io/github/jamsesso/jsonlogic/JsonLogic.java:167-174 | on values without maps, `===` implies `==` |
| StrictEquality.StrictButNotLooseForReorderedMaps | src/main/java/io/github/jamsesso/jsonlogic/JsonLogic.java:167-174 | maps break that rule: the same entries in another order are `===` but not `==` |
| ArrayLike.Normalised | src/main/java/io/github/jamsesso/jsonlogic/utils/ArrayLike.java:13-31 | a copy has the same length, each element transformed in place order |
| ArrayLike.NormalisedIdempotent | src/main/java/io/github/jamsesso/jsonlogic/utils/ArrayLike.java:13-31 | copying twice equals copying once, and no copied number is left in an integral box |
| ArrayLike.AsList | src/main/java/io/github/jamsesso/jsonlogic/utils/ArrayLike.java:13-31 | asList succeeds iff isArray holds, and then gives the specified list |
| ArrayLike.Copy | src/main/java/io/github/jamsesso/jsonlogic/utils/ArrayLike.java:13-31 | the copying loop yields the normalised elements |
| MapLike.ViewOfMap | src/main/java/io/github/jamsesso/jsonlogic/utils/MapLike.java:11-30 | the constructor accepts exactly what isEligible accepts; size, keySet and containsKey are the map's; get gives a value the map stores under that key (and values lists) or null; a refused mutation leaves every answer unchanged |
| MapLike.ContainsValueMeansStored | src/main/java/io/github/jamsesso/jsonlogic/utils/MapLike.java:20 | corrected containsValue holds iff some stored value matches |
| MapLike.ContainsValueAsWrittenIsWrong | src/main/java/io/github/jamsesso/jsonlogic/utils/MapLike.java:20 | as written, containsValue misses a stored value and reports a key as a value |
| NullableDeque.SlotRoundTrip | src/main/java/io/github/jamsesso/jsonlogic/NullableDeque.java:10-18 | pop undoes push's encoding of null, and only null is stored as the sentinel |
| NullableDeque.NullableDeque.constructor | src/main/java/io/github/jamsesso/jsonlogic/NullableDeque.java:8 | a new deque is empty |
| NullableDeque.NullableDeque.Push | src/main/java/io/github/jamsesso/jsonlogic/NullableDeque.java:10-12 | push puts the encoded element at the head |
| NullableDeque.NullableDeque.Pop | src/main/java/io/github/jamsesso/jsonlogic/NullableDeque.java:15-18 | pop removes and decodes the head; an empty deque fails and is left unchanged |
| NullableDeque.NullableDeque.Peek | src/main/java/io/github/jamsesso/jsonlogic/NullableDeque.java:5 | peek is absent on an empty deque and otherwise the raw head slot |
| NullableDeque.PushPopOrder | src/main/java/io/github/jamsesso/jsonlogic/NullableDeque.java:10-18 | last in first out, with null surviving the round trip |
| PathSegment.Sub | src/main/java/io/github/jamsesso/jsonlogic/PathSegment.java:36 | sub makes a child whose parent is the receiver |
| PathSegment.SubIndex | src/main/java/io/github/jamsesso/jsonlogic/PathSegment.java:37 | the indexed sub makes a child whose parent is the receiver |
| PathSegment.Ancestor | src/main/java/io/github/jamsesso/jsonlogic/PathSegment.java:9-20 | n steps up the parent chain lowers the depth by n |
| PathSegment.Render | src/main/java/io/github/jamsesso/jsonlogic/PathSegment.java:22-29 | every rendering starts with "$" |
| PathSegment.RenderSub | src/main/java/io/github/jamsesso/jsonlogic/PathSegment.java:24-26 | rendering a child is the parent's rendering followed by ".key" or "[i]" |
| PathSegment.AncestorStep | src/main/java/io/github/jamsesso/jsonlogic/PathSegment.java:16-20 | above depth zero, the ancestor n steps up is the parent of the ancestor one step nearer |
| PathSegment.AncestorAtDepthIsRoot | src/main/java/io/github/jamsesso/jsonlogic/PathSegment.java:9-20 | climbing the full depth reaches ROOT |
| PathSegment.BuildString | src/main/java/io/github/jamsesso/jsonlogic/PathSegment.java:6-30 | the counting and array-filling loops render the segment |
| JavaText.NatToStringDigits | src/main/java/io/github/jamsesso/jsonlogic/PathSegment.java:26 | Integer.toString of a natural number writes its own digits, with no leading zero |
| JavaText.ParseInt | src/main/java/io/github/jamsesso/jsonlogic/evaluator/JsonLogicEvaluator.java:130 | Integer.parseInt only answers values in the 32-bit range |
| JavaText.ParseIntOfIntToString | src/main/java/io/github/jamsesso/jsonlogic/evaluator/JsonLogicEvaluator.java:130 | every int written by Integer.toString reads back as itself |
| JavaText.ParseIntRejectsLetters | src/main/java/io/github/jamsesso/jsonlogic/evaluator/JsonLogicEvaluator.java:130 | a string starting with a letter is no int |
| JavaText.SplitAll | src/main/java/io/github/jamsesso/jsonlogic/evaluator/JsonLogicEvaluator.java:55 | splitting on dots gives at least one piece, and no piece contains a dot |
| JavaText.JoinSplitAll | src/main/java/io/github/jamsesso/jsonlogic/evaluator/JsonLogicEvaluator.java:55 | joining the pieces with dots gives the key back |
| JavaText.DropTrailingEmpty | src/main/java/io/github/jamsesso/jsonlogic/evaluator/JsonLogicEvaluator.java:55 | String.split drops exactly the trailing empty pieces, leaving a prefix |
| JavaText.Wrap32 | src/main/java/io/github/jamsesso/jsonlogic/evaluator/expressions/SubstringExpression.java:34 | int arithmetic keeps the low 32 bits and leaves in-range values alone |
| JavaText.DoubleToInt | src/main/java/io/github/jamsesso/jsonlogic/evaluator/expressions/SubstringExpression.java:24 | Double.intValue lands in the int range |
| JsonNumber.DigitRunEnd | src/main/java/io/github/jamsesso/jsonlogic/ast/JsonParserString.java:144-146 | the digit loop stops after a maximal run of digits |
| JsonNumber.DigitRunEndUnique | src/main/java/io/github/jamsesso/jsonlogic/ast/JsonParserString.java:144-146 | any run of digits that stops at a non-digit is that maximal run |
| JsonNumber.LexNumberComplete | src/main/java/io/github/jamsesso/jsonlogic/ast/JsonParserString.java:133-174 | every number of the JSON grammar is accepted, with the mantissa and exponent the grammar gives it |
| JsonNumber.LexNumberSound | src/main/java/io/github/jamsesso/jsonlogic/ast/JsonParserString.java:133-174 | every accepted run is a number of the JSON grammar |
| JsonNumber.RejectedRuns | src/main/java/io/github/jamsesso/jsonlogic/ast/JsonParserString.java:133-174 | "-", "01", "-a", "1.", "1e" and "1-2" are refused, each with parseNumber's own error |
| JsonNumber.AcceptedRun | src/main/java/io/github/jamsesso/jsonlogic/ast/JsonParserString.java:133-174 | "1.5e+2" is 15 times ten to the first |
| JsonNumber.AccumulateDigits | src/main/java/io/github/jamsesso/jsonlogic/ast/JsonParserString.java:144-146 | the loop `mantissa * 10 + digit` yields the digits' value and stops at the run's end |
| JsonNumber.ParseNumber | src/main/java/io/github/jamsesso/jsonlogic/ast/JsonParserString.java:133-174 | the imperative parseNumber computes the specified lexing, errors included |
| JsonNumber.ParseFraction | src/main/java/io/github/jamsesso/jsonlogic/ast/JsonParserString.java:149-157 | the fraction loop extends the mantissa and lowers the exponent per digit |
| JsonNumber.ParseExponent | src/main/java/io/github/jamsesso/jsonlogic/ast/JsonParserString.java:158-170 | the exponent loop and the end-of-run check agree with the specified lexing |
| JsonStrings.DecodeUtf16String | src/main/java/io/github/jamsesso/jsonlogic/ast/JsonParserString.java:42-64 | decoding the UTF-16 code units of any string gives the string back |
| JsonStrings.HexDigit | src/main/java/io/github/jamsesso/jsonlogic/ast/JsonParserString.java:176-181 | parseHexDigit answers -1 exactly on non-hex characters, else a digit value below 16 |
| JsonStrings.HandleEscapeChanges | src/main/java/io/github/jamsesso/jsonlogic/ast/JsonParserString.java:183-189 | only n, r, t, b, f change, and they become control characters; every other escaped character stands for itself |
| JsonStrings.Hex4Exact | src/main/java/io/github/jamsesso/jsonlogic/ast/JsonParserString.java:50-56 | a \u escape succeeds iff four hex digits follow, and its unit is their base-16 value |
| JsonStrings.ScanStringSpec | src/main/java/io/github/jamsesso/jsonlogic/ast/JsonParserString.java:42-64 | the closing index lies between the start and the end of the text |
| JsonStrings.ReadHex4 | src/main/java/io/github/jamsesso/jsonlogic/ast/JsonParserString.java:51-56 | the four-digit shifting loop computes the escape's unit |
| JsonStrings.ScanString | src/main/java/io/github/jamsesso/jsonlogic/ast/JsonParserString.java:42-64 | the string case's loop computes the specified literal, errors included |
| JsonStrings.ReadEscape | src/main/java/io/github/jamsesso/jsonlogic/ast/JsonParserString.java:46-58 | one escape advances the scan as the specification's step does |
| JsonStrings.EscapePlain | src/main/java/io/github/jamsesso/jsonlogic/ast/JsonParserString.java:42-64 | text without quotes or backslashes is written as itself |
| JsonStrings.PlainLiteral | src/main/java/io/github/jamsesso/jsonlogic/ast/JsonParserString.java:62 | a literal without backslashes reads as the exact slice up to the quote, even when unterminated |
| JsonStrings.EscapeRoundTrip | src/main/java/io/github/jamsesso/jsonlogic/ast/JsonParserString.java:42-64 | reading back an escaped string gives the string, stopping at its closing quote |
| JsonStrings.ScanEscaped | src/main/java/io/github/jamsesso/jsonlogic/ast/JsonParserString.java:42-64 | the same holds wherever the escaped string sits in the text |
| JsonReader.Init | src/main/java/io/github/jamsesso/jsonlogic/ast/JsonParserString.java:15-18 | the reader starts valid, with an empty deque and top index -1 |
| JsonReader.Unsentinel | src/main/java/io/github/jamsesso/jsonlogic/ast/JsonParserString.java:126 | the sentinel becomes null, and anything else is unchanged |
| JsonReader.Bump | src/main/java/io/github/jamsesso/jsonlogic/ast/JsonParserString.java:30 | the enclosing array's counter goes up by one; an object's -1 and every other counter are untouched |
| JsonReader.Push | src/main/java/io/github/jamsesso/jsonlogic/ast/JsonParserString.java:62-63 | a value is appended to the deque, and the state stays valid |
| JsonReader.Grow | src/main/java/io/github/jamsesso/jsonlogic/ast/JsonParserString.java:74 | Arrays.copyOf doubles the stack, keeping the counters and zero-filling the rest |
| JsonReader.Open | src/main/java/io/github/jamsesso/jsonlogic/ast/JsonParserString.java:72-81 | `{` or `[` pushes its marker and opens a counter (-1 or 0); it fails only when the top index would be negative |
| JsonReader.CloseObject | src/main/java/io/github/jamsesso/jsonlogic/ast/JsonParserString.java:82-97 | `}` lowers the top index and never grows the deque |
| JsonReader.CloseArray | src/main/java/io/github/jamsesso/jsonlogic/ast/JsonParserString.java:98-109 | `]` lowers the top index and keeps the state valid |
| JsonReader.NumberRunEnd | src/main/java/io/github/jamsesso/jsonlogic/ast/JsonParserString.java:67 | the number case takes the maximal run of number characters |
| JsonReader.Step | src/main/java/io/github/jamsesso/jsonlogic/ast/JsonParserString.java:23-122 | each turn of the main loop moves forward and keeps the state valid |
| JsonReader.Run | src/main/java/io/github/jamsesso/jsonlogic/ast/JsonParserString.java:20-123 | the main loop keeps the state valid |
| JsonReader.ReadClean | src/main/java/io/github/jamsesso/jsonlogic/ast/JsonParserString.java:13-127 | the null sentinel never appears in a result, at any depth |
| JsonReader.ElementsOfCommaed | src/main/java/io/github/jamsesso/jsonlogic/ast/JsonParserString.java:98-109 | the element loop over comma-separated values yields them all in source order |
| JsonReader.ElementsLoopShape | src/main/java/io/github/jamsesso/jsonlogic/ast/JsonParserString.java:98-109 | whatever the element loop accepts was comma-separated values |
| JsonReader.CloseArrayReads | src/main/java/io/github/jamsesso/jsonlogic/ast/JsonParserString.java:98-109 | `]` over a marker and counted, comma-separated values gives their list in source order |
| JsonReader.CloseArrayShape | src/main/java/io/github/jamsesso/jsonlogic/ast/JsonParserString.java:98-109 | every successful `]` popped an ARRAY marker and exactly the counted values |
| JsonReader.PairLoopOfMembers | src/main/java/io/github/jamsesso/jsonlogic/ast/JsonParserString.java:82-97 | the pair loop puts every member, last member first |
| JsonReader.CloseObjectReads | src/main/java/io/github/jamsesso/jsonlogic/ast/JsonParserString.java:82-97 | `}` over a marker and members gives the map the members build |
| JsonReader.CloseObjectEmpty | src/main/java/io/github/jamsesso/jsonlogic/ast/JsonParserString.java:84-95 | `{}` gives the empty map |
| JsonReader.FromLastKeys | src/main/java/io/github/jamsesso/jsonlogic/ast/JsonParserString.java:82-97 | the map holds exactly the keys of the members |
| JsonReader.FromLastFirstWins | src/main/java/io/github/jamsesso/jsonlogic/ast/JsonParserString.java:82-97 | for a repeated key, the earliest member's value remains |
| JsonReader.ReversedPairs | src/main/java/io/github/jamsesso/jsonlogic/ast/JsonParserString.java:82-97 | the members are taken from last to first, with the sentinel turned back into null |
| JsonReader.FromLastDistinct | src/main/java/io/github/jamsesso/jsonlogic/ast/JsonParserString.java:82-97 | with distinct keys, the map lists the members in reverse source order |
| JsonParser.CopyOf | src/main/java/io/github/jamsesso/jsonlogic/ast/JsonParserString.java:74 | Arrays.copyOf gives a fresh, longer array, with the old counters first and zeros after |
| JsonParser.BumpTop | src/main/java/io/github/jamsesso/jsonlogic/ast/JsonParserString.java:30 | the in-place counter update on the size array does what Bump specifies |
| JsonParser.OpenFrame | src/main/java/io/github/jamsesso/jsonlogic/ast/JsonParserString.java:72-81 | on the array, `{` and `[` do what Open specifies, and growth gives a fresh stack |
| JsonParser.PopPairs | src/main/java/io/github/jamsesso/jsonlogic/ast/JsonParserString.java:85-93 | the do-while of `}` computes the pair loop |
| JsonParser.PopElements | src/main/java/io/github/jamsesso/jsonlogic/ast/JsonParserString.java:101-105 | the for loop of `]` computes the element loop |
| JsonParser.CloseObjectFrame | src/main/java/io/github/jamsesso/jsonlogic/ast/JsonParserString.java:82-97 | on the array, `}` does what CloseObject specifies |
| JsonParser.CloseArrayFrame | src/main/java/io/github/jamsesso/jsonlogic/ast/JsonParserString.java:98-109 | on the array, `]` does what CloseArray specifies |
| JsonParser.ScanValue | src/main/java/io/github/jamsesso/jsonlogic/ast/JsonParserString.java:27-71 | literal, string and number cases push what the specified step pushes |
| JsonParser.StepAt | src/main/java/io/github/jamsesso/jsonlogic/ast/JsonParserString.java:23-122 | one turn of the switch matches the specified step, errors included |
| JsonParser.Parse | src/main/java/io/github/jamsesso/jsonlogic/ast/JsonParserString.java:13-127 | parse, with its deque and int[] size stack, computes the specified reading |
| ReadValue.ReadLeavesMarker | src/main/java/io/github/jamsesso/jsonlogic/ast/JsonParserString.java:124-126 | as written, "[" reads as the ARRAY marker itself |
| ReadValue.ReadComplete | src/main/java/io/github/jamsesso/jsonlogic/ast/JsonParserString.java:124-126 | the corrected reading is the written reading whenever that is finished; a leftover marker is Unbalanced |
| ReadValue.ReadCompleteRejectsMarker | src/main/java/io/github/jamsesso/jsonlogic/ast/JsonParserString.java:124-126 | the corrected reading refuses "[" as Unbalanced |
| ReadValue.ToJsonShape | src/main/java/io/github/jamsesso/jsonlogic/ast/JsonParserString.java:13-127 | the read value keeps its shape, order and keys, and every number is a Double |
| LogicAst.BuildScalar | src/main/java/io/github/jamsesso/jsonlogic/ast/JsonLogicParser.java:30-35 | null, strings, numbers and booleans build as literals of themselves |
| LogicAst.BuildItemsPointwise | src/main/java/io/github/jamsesso/jsonlogic/ast/JsonLogicParser.java:38-45 | the list loop succeeds iff every element builds, and element k is element k's build at "[k]" |
| LogicAst.BuildList | src/main/java/io/github/jamsesso/jsonlogic/ast/JsonLogicParser.java:38-45 | a list builds into a list node of the same length, element by element |
| LogicAst.BuildOneKeyRule | src/main/java/io/github/jamsesso/jsonlogic/ast/JsonLogicParser.java:52 | a map with other than one key is refused, with its size and path |
| LogicAst.BuildOperation | src/main/java/io/github/jamsesso/jsonlogic/ast/JsonLogicParser.java:56-67 | a one-key map becomes an operation named by the key exactly as written |
| LogicAst.BuildVariable | src/main/java/io/github/jamsesso/jsonlogic/ast/JsonLogicParser.java:61-64 | `var` takes argument 0 as key and argument 1 as default, null when absent |
| LogicAst.BuildKeepsShape | src/main/java/io/github/jamsesso/jsonlogic/ast/JsonLogicParser.java:38-45 | a value builds into a list node iff it is a list |
| LogicAst.BuildAsWrittenRejectsMaps | src/main/java/io/github/jamsesso/jsonlogic/ast/JsonLogicParser.java:46 | as written, the builder fails exactly on values holding a map somewhere |
| LogicAst.BuildAsWrittenRefusesEveryRule | src/main/java/io/github/jamsesso/jsonlogic/ast/JsonLogicParser.java:46 | as written, {"var": "a"} is refused; corrected, it is a variable |
| LogicAst.BuildUnbuild | src/main/java/io/github/jamsesso/jsonlogic/ast/JsonLogicParser.java:28-68 | every canonical node tree is the build of its own JSON form |
| Rendering.NodesTextOfLiterals | src/main/java/io/github/jamsesso/jsonlogic/JsonLogic.java:131 | literal arguments render as the values they hold |
| Evaluator.EvalValue | src/main/java/io/github/jamsesso/jsonlogic/evaluator/JsonLogicEvaluator.java:68-89 | an already evaluated value evaluates to itself unless it holds a map, which is an IllegalState |
| Evaluator.EvalItems | src/main/java/io/github/jamsesso/jsonlogic/evaluator/JsonLogicEvaluator.java:30-35 | a successful list evaluation has one value per element |
| Evaluator.MapItems | src/main/java/io/github/jamsesso/jsonlogic/evaluator/expressions/MapExpression.java:20-27 | a successful map gives one result per item |
| EvaluatorLaws.EvalItemsPointwise | src/main/java/io/github/jamsesso/jsonlogic/evaluator/JsonLogicEvaluator.java:30-35 | a list evaluates iff every element does, and element k's value is at path[k] |
| EvaluatorLaws.EvalItemsFirstError | src/main/java/io/github/jamsesso/jsonlogic/evaluator/JsonLogicEvaluator.java:30-35 | the first failing element's error is the result |
| EvaluatorLaws.ScalarsEvaluateToThemselves | src/main/java/io/github/jamsesso/jsonlogic/evaluator/JsonLogicEvaluator.java:69-72 | scalars evaluate to themselves, whatever the data |
| EvaluatorLaws.ListEvaluatesElementwise | src/main/java/io/github/jamsesso/jsonlogic/evaluator/JsonLogicEvaluator.java:73 | a list node evaluates element-wise, keeping length and order |
| EvaluatorLaws.UndefinedOperation | src/main/java/io/github/jamsesso/jsonlogic/evaluator/JsonLogicEvaluator.java:78 | an unregistered name fails with "Undefined operation", before any argument is evaluated |
| EvaluatorLaws.SingleNestedOperationUnwraps | src/main/java/io/github/jamsesso/jsonlogic/evaluator/JsonLogicEvaluator.java:80-84 | a lone nested operation is evaluated first; a list result becomes the arguments, anything else one argument |
| EvaluatorLaws.OtherArgumentsPassedAsTheyAre | src/main/java/io/github/jamsesso/jsonlogic/evaluator/JsonLogicEvaluator.java:85 | any other argument list reaches the handler unevaluated, at path ".name" |
| EvaluatorLaws.VarOverNullData | src/main/java/io/github/jamsesso/jsonlogic/evaluator/JsonLogicEvaluator.java:39 | over null data, var is its default |
| EvaluatorLaws.VarNullKey | src/main/java/io/github/jamsesso/jsonlogic/evaluator/JsonLogicEvaluator.java:41 | a null key gives the normalised data, unless the default fails |
| EvaluatorLaws.VarNumericKey | src/main/java/io/github/jamsesso/jsonlogic/evaluator/JsonLogicEvaluator.java:43-50 | a numeric key reads an in-range list element as a Double; otherwise the default |
| EvaluatorLaws.VarStringKey | src/main/java/io/github/jamsesso/jsonlogic/evaluator/JsonLogicEvaluator.java:53-63 | "" gives the data; otherwise the dotted walk decides: missing gives the default, found (null included) is the result |
| EvaluatorLaws.VarBadKey | src/main/java/io/github/jamsesso/jsonlogic/evaluator/JsonLogicEvaluator.java:64 | a boolean, list or map key is an error at the key's path |
| EvaluatorLaws.VarExamples | src/main/java/io/github/jamsesso/jsonlogic/evaluator/JsonLogicEvaluator.java:37-65 | {"var": "a.b"} over {"a": {"b": 5}} is 5.0, and a missing key gives its default |
| EvaluatorLaws.SplitOnDot | src/main/java/io/github/jamsesso/jsonlogic/evaluator/JsonLogicEvaluator.java:55 | "a.b" splits into "a" and "b" |
| EvaluatorLaws.PreEvaluateUnwraps | src/main/java/io/github/jamsesso/jsonlogic/evaluator/expressions/PreEvaluatedArgumentsExpression.java:14-18 | arguments are evaluated in order, and a single list value becomes the argument list |
| VarPath.PartialStep | src/main/java/io/github/jamsesso/jsonlogic/evaluator/JsonLogicEvaluator.java:124-145 | one segment: a list needs an int key (else NumberFormat), a map a present key, null has nothing, a scalar gives null; found values are normalised |
| VarPath.WalkLoop | src/main/java/io/github/jamsesso/jsonlogic/evaluator/JsonLogicEvaluator.java:55-62 | the reassigning loop computes the walk |
| VarPath.WalkFoundIsNormalised | src/main/java/io/github/jamsesso/jsonlogic/evaluator/JsonLogicEvaluator.java:124-145 | a value found by a non-empty walk is already normalised |
| VarPath.WalkAppend | src/main/java/io/github/jamsesso/jsonlogic/evaluator/JsonLogicEvaluator.java:53-63 | walking "a.b" is walking "a" and then "b", unless the first walk ended early |
| VarPath.WalkTwoKeys | src/main/java/io/github/jamsesso/jsonlogic/evaluator/JsonLogicEvaluator.java:53-63 | two map keys read the nested value, normalised |
| VarPath.WalkStopsAtNull | src/main/java/io/github/jamsesso/jsonlogic/evaluator/JsonLogicEvaluator.java:60 | a null met on the way is the result, not the default |
| VarPath.WalkMissingKey | src/main/java/io/github/jamsesso/jsonlogic/evaluator/JsonLogicEvaluator.java:138-142 | a segment naming nothing is missing, hence the default |
| VarPath.WalkIntoScalar | src/main/java/io/github/jamsesso/jsonlogic/evaluator/JsonLogicEvaluator.java:144 | stepping into a scalar gives null |
| VarPath.WalkListNeedsIndex | src/main/java/io/github/jamsesso/jsonlogic/evaluator/JsonLogicEvaluator.java:127-134 | a non-int segment on a list is a NumberFormatException at the key's path |
| JsonPathResolver.ResolveLoop | src/main/java/io/github/jamsesso/jsonlogic/evaluator/JsonPath.java:14-46 | the reassigning loop computes the resolution |
| JsonPathResolver.NullKeyIsIdentity | src/main/java/io/github/jamsesso/jsonlogic/evaluator/JsonPath.java:16 | a null key gives the data itself |
| JsonPathResolver.NullDataIsMissing | src/main/java/io/github/jamsesso/jsonlogic/evaluator/JsonPath.java:17 | any other key over null data is missing |
| JsonPathResolver.NumericKey | src/main/java/io/github/jamsesso/jsonlogic/evaluator/JsonPath.java:18-22 | a numeric key reads an in-range list element untouched; otherwise missing |
| JsonPathResolver.NoNormalisation | src/main/java/io/github/jamsesso/jsonlogic/evaluator/JsonPath.java:24-44 | JsonPath keeps an integral 1 where the evaluator's var gives 1.0 |
| JsonPathResolver.WalksAgree | src/main/java/io/github/jamsesso/jsonlogic/evaluator/JsonPath.java:24-44 | its walk and the evaluator's fail, miss and find in the same places, up to normalisation |
| JsonPathResolver.ResolveAgreesWithEvaluatorWalk | src/main/java/io/github/jamsesso/jsonlogic/evaluator/JsonPath.java:24-44 | with a string key both walk the same dot-separated segments |
| ValueOps.Combine | src/main/java/io/github/jamsesso/jsonlogic/Reduce.java:27-35 | a reducer step fails exactly for `/` and `%` by zero |
| ValueOps.GetSingle | src/main/java/io/github/jamsesso/jsonlogic/Reduce.java:37-44 | getSingle leaves no non-empty list, and a non-list is unchanged |
| ValueOps.UsedCount | src/main/java/io/github/jamsesso/jsonlogic/Reduce.java:49-51 | never more operands than given, nor than the maximum |
| ValueOps.StrictValues | src/main/java/io/github/jamsesso/jsonlogic/evaluator/expressions/StrictEqualityExpression.java:20-37 | strict equality fails exactly when there are not two values |
| ValueOps.CatValues | src/main/java/io/github/jamsesso/jsonlogic/JsonLogic.java:131 | cat fails exactly when some value is null |
| ArithLaws.FoldOpsSnoc | src/main/java/io/github/jamsesso/jsonlogic/Reduce.java:59-65 | the fold is strictly left to right |
| ArithLaws.FoldOpsTotal | src/main/java/io/github/jamsesso/jsonlogic/Reduce.java:27-35 | only `/` and `%` can fail |
| ArithLaws.FoldMaxIsMaximum | src/main/java/io/github/jamsesso/jsonlogic/Reduce.java:34 | max is an upper bound of every operand and is one of them |
| ArithLaws.FoldMinIsMinimum | src/main/java/io/github/jamsesso/jsonlogic/Reduce.java:33 | min is a lower bound of every operand and is one of them |
| ArithLaws.ReduceFoldIsLeftFold | src/main/java/io/github/jamsesso/jsonlogic/Reduce.java:59-65 | the operand loop is the left fold of the numeric readings |
| ArithLaws.ReduceTableIsLeftFold | src/main/java/io/github/jamsesso/jsonlogic/Reduce.java:47-67 | with numeric operands: `*` folds from 1.0, the others from the first operand |
| ArithLaws.ReduceTableTooFew | src/main/java/io/github/jamsesso/jsonlogic/Reduce.java:48-51 | no argument, or a lone argument to `/` or `%`, gives null |
| ArithLaws.ReduceUnaryMinus | src/main/java/io/github/jamsesso/jsonlogic/Reduce.java:57 | unary minus negates a number; a non-Number is a ClassCastException |
| ArithLaws.QuotientUsesFirstTwo | src/main/java/io/github/jamsesso/jsonlogic/Reduce.java:50 | `/` and `%` never look past their first two arguments |
| ArithLaws.ReduceNonNumericIsNull | src/main/java/io/github/jamsesso/jsonlogic/Reduce.java:52-65 | one non-numeric operand makes the result null |
| ArithLaws.GetSingleUnwraps | src/main/java/io/github/jamsesso/jsonlogic/Reduce.java:37-44 | getSingle follows first elements, e.g. [[3, null]] gives 3 |
| ArithLaws.MathIsLeftFold | src/main/java/io/github/jamsesso/jsonlogic/evaluator/expressions/MathExpression.java:52-69 | MathExpression left-folds the numeric operands from the first |
| ArithLaws.MathFewOperands | src/main/java/io/github/jamsesso/jsonlogic/evaluator/expressions/MathExpression.java:52-69 | no operand gives null; one operand: `-` negates, `/` gives null, others answer it |
| ArithLaws.MathFirstNotNumeric | src/main/java/io/github/jamsesso/jsonlogic/evaluator/expressions/MathExpression.java:52-69 | a non-numeric first operand is a NullPointerException |
| ArithLaws.MathLaterNotNumeric | src/main/java/io/github/jamsesso/jsonlogic/evaluator/expressions/MathExpression.java:52-69 | a later non-numeric operand gives null |
| ArithLaws.PlusAgrees | src/main/java/io/github/jamsesso/jsonlogic/evaluator/expressions/MathExpression.java:52-69 | the registered `+` and MathExpression agree on literal numbers: both sum left to right |
| Substring.SubstrFromCases | src/main/java/io/github/jamsesso/jsonlogic/evaluator/expressions/SubstringExpression.java:18-37 | two arguments: the tail from start, the last -start characters, "" further back, an error past the end |
| Substring.SubstrRangeLength | src/main/java/io/github/jamsesso/jsonlogic/evaluator/expressions/SubstringExpression.java:18-37 | a count within the string gives exactly count characters from start |
| Substring.SubstrRangeFromEnd | src/main/java/io/github/jamsesso/jsonlogic/evaluator/expressions/SubstringExpression.java:18-37 | a negative count stops that far before the end, "" once the end passes the start |
| Substring.SubstrRangeNegativeStart | src/main/java/io/github/jamsesso/jsonlogic/evaluator/expressions/SubstringExpression.java:18-37 | a start still negative after counting back is out of bounds |
| Substring.SubstrExamples | src/main/java/io/github/jamsesso/jsonlogic/evaluator/expressions/SubstringExpression.java:18-37 | "jsonlogic" at 4, at -5, at (1,3) and at (4,-2) |
| MissingKeys.FlatKeysStartWithPrefix | src/main/java/io/github/jamsesso/jsonlogic/evaluator/expressions/MissingExpression.java:69-78 | every flattened key extends its prefix |
| MissingKeys.FlatKeysExample | src/main/java/io/github/jamsesso/jsonlogic/evaluator/expressions/MissingExpression.java:69-78 | {a: {b: 1}, c: 2} flattens to a.b and c |
| MissingKeys.Unprovided | src/main/java/io/github/jamsesso/jsonlogic/evaluator/expressions/MissingExpression.java:29-60 | removing provided keys never grows the list |
| MissingKeys.DistinctFromSpec | src/main/java/io/github/jamsesso/jsonlogic/evaluator/expressions/MissingExpression.java:29-60 | the set-building loop keeps each value once up to `equals` and loses none |
| MissingKeys.ProvidedRespectsEquals | src/main/java/io/github/jamsesso/jsonlogic/evaluator/expressions/MissingExpression.java:29-60 | `equals` values agree on being provided |
| MissingKeys.UnprovidedSpec | src/main/java/io/github/jamsesso/jsonlogic/evaluator/expressions/MissingExpression.java:29-60 | removeAll keeps exactly the unprovided values, without adding duplicates |
| MissingKeys.RequiredSpec | src/main/java/io/github/jamsesso/jsonlogic/evaluator/expressions/MissingExpression.java:29-60 | exactly the unprovided requested keys, each once |
| MissingKeys.RequiredKeys | src/main/java/io/github/jamsesso/jsonlogic/evaluator/expressions/MissingExpression.java:29-60 | the imperative set building computes them |
| MissingKeys.MissingListsUnprovided | src/main/java/io/github/jamsesso/jsonlogic/evaluator/expressions/MissingExpression.java:29-60 | over a map, `missing` lists exactly the unprovided keys, once each |
| MissingKeys.MissingSomeThreshold | src/main/java/io/github/jamsesso/jsonlogic/evaluator/expressions/MissingExpression.java:29-60 | `missing_some` is [] iff enough keys are provided or none is missing; otherwise it lists the missing ones |
| MissingKeys.MissingWithoutMap | src/main/java/io/github/jamsesso/jsonlogic/evaluator/expressions/MissingExpression.java:29-60 | over non-map data nothing is provided |
| ControlLaws.IfFewArguments | src/main/java/io/github/jamsesso/jsonlogic/JsonLogic.java:99-111 | no argument gives null; one argument is the result |
| ControlLaws.IfSelectsFirstTruthy | src/main/java/io/github/jamsesso/jsonlogic/evaluator/expressions/IfExpression.java:26-59 | the branch of the first truthy condition is the result and later ones are not evaluated; only the written ifExpt also needs that condition's value to hold no map |
| ControlLaws.IfNoMatch | src/main/java/io/github/jamsesso/jsonlogic/evaluator/expressions/IfExpression.java:26-59 | with no truthy condition: null for an even count, the last argument for an odd one |
| ControlLaws.IfRechecksConditionValue | src/main/java/io/github/jamsesso/jsonlogic/JsonLogic.java:105-106 | as written, a condition {"var": ""} over map data is re-evaluated and throws |
| ControlLaws.CompareSemantics | src/main/java/io/github/jamsesso/jsonlogic/JsonLogic.java:84-97 | fewer than two arguments fail; a op b, or a op b and b op c; a non-number gives false |
| ControlLaws.CompareSkipsThird | src/main/java/io/github/jamsesso/jsonlogic/JsonLogic.java:84-97 | the third argument is not read when the first test fails |
| ControlLaws.CompareAgreesWithNumericComparison | src/main/java/io/github/jamsesso/jsonlogic/evaluator/expressions/NumericComparisonExpression.java:23-71 | when every argument evaluates, the registered comparison and NumericComparisonExpression agree |
| ControlLaws.NumericComparisonOnValues | src/main/java/io/github/jamsesso/jsonlogic/evaluator/expressions/NumericComparisonExpression.java:23-71 | on evaluated values the comparison never fails |
| ControlLaws.CompareValuesCases | src/main/java/io/github/jamsesso/jsonlogic/evaluator/expressions/NumericComparisonExpression.java:23-71 | its cases: non-numeric is false; two values a op b; three values a op b op c |
| ControlLaws.NotAndDoubleNot | src/main/java/io/github/jamsesso/jsonlogic/JsonLogic.java:113-128 | `!`/`!!` of nothing is false/true; more than one argument fails; one argument gives its negated or plain truthiness |
| ControlLaws.AndOrFirstDeciding | src/main/java/io/github/jamsesso/jsonlogic/JsonLogic.java:55-66 | evaluation stops at the first deciding value: `or` returns it, `and` returns false |
| ControlLaws.AndOrNoneDeciding | src/main/java/io/github/jamsesso/jsonlogic/JsonLogic.java:55-66 | otherwise the last value is the result; no argument fails |
| ControlLaws.AndOrAgainstLogicExpression | src/main/java/io/github/jamsesso/jsonlogic/evaluator/expressions/LogicExpression.java:26-44 | the registered `and` and LogicExpression differ only in giving false instead of the falsy value |
| ControlLaws.AndOrTruth | src/main/java/io/github/jamsesso/jsonlogic/JsonLogic.java:55-66 | `and` is truthy iff all arguments are, `or` iff one is |
| ControlLaws.AllSemantics | src/main/java/io/github/jamsesso/jsonlogic/JsonLogic.java:30-40 | null, [] and a non-list: false, false, failure; otherwise true iff every item passes |
| ControlLaws.HasSemantics | src/main/java/io/github/jamsesso/jsonlogic/JsonLogic.java:42-53 | `some`/`none`: null gives false/true, a non-list fails, otherwise whether an item passes |
| ControlLaws.NoneNegatesSome | src/main/java/io/github/jamsesso/jsonlogic/JsonLogic.java:42-53 | `none` is the negation of `some` and fails where it fails |
| ControlLaws.AllImpliesSome | src/main/java/io/github/jamsesso/jsonlogic/JsonLogic.java:30-53 | a true `all` implies a true `some` |
| ControlLaws.InAgreesWithInExpression | src/main/java/io/github/jamsesso/jsonlogic/evaluator/expressions/InExpression.java:18-28 | corrected `in` and InExpression agree |
| ControlLaws.InAsWrittenOnLiteral | src/main/java/io/github/jamsesso/jsonlogic/JsonLogic.java:73 | as written, `in` is right when the haystack is a literal string |
| ControlLaws.InSemantics | src/main/java/io/github/jamsesso/jsonlogic/JsonLogic.java:68-75 | `in`: substring test on a string (a null needle is false), `equals` membership in a list, else false |
| ControlLaws.InAsWrittenMissesComputedString | src/main/java/io/github/jamsesso/jsonlogic/JsonLogic.java:73 | as written, a string haystack from a variable is missed |
| ControlLaws.InequalityNegatesEquality | src/main/java/io/github/jamsesso/jsonlogic/JsonLogic.java:132-133 | `!=` is the negation of `==` and fails where it fails |
| ControlLaws.StrictInequalityNegates | src/main/java/io/github/jamsesso/jsonlogic/JsonLogic.java:146-147 | `!==` is the negation of `===` and fails where it fails |
| ControlLaws.EqualityArity | src/main/java/io/github/jamsesso/jsonlogic/evaluator/expressions/EqualityExpression.java:37-42 | both equalities need exactly two arguments |
| ControlLaws.OneAgainstStringOne | src/main/java/io/github/jamsesso/jsonlogic/evaluator/expressions/EqualityExpression.java:37-42 | 1 and "1" are `==` but not `===` |
| ControlLaws.CatOnValues | src/main/java/io/github/jamsesso/jsonlogic/JsonLogic.java:131 | as written, cat renders the unevaluated nodes; corrected, the evaluated values |
| ControlLaws.CatAgreesOnLiterals | src/main/java/io/github/jamsesso/jsonlogic/JsonLogic.java:131 | on literal scalars both cats agree |
| ControlLaws.CatAsWrittenRendersVariable | src/main/java/io/github/jamsesso/jsonlogic/JsonLogic.java:131 | as written, {"cat": ["Hello, ", {"var": "name"}]} renders the variable record |
| ListLaws.MapItemsPointwise | src/main/java/io/github/jamsesso/jsonlogic/evaluator/expressions/MapExpression.java:20-27 | the map loop succeeds iff every item does, with the item's result at k |
| ListLaws.MapSemantics | src/main/java/io/github/jamsesso/jsonlogic/evaluator/expressions/MapExpression.java:20-27 | map needs two arguments; a non-list gives []; else one result per item |
| ListLaws.SelectIsSubsequence | src/main/java/io/github/jamsesso/jsonlogic/evaluator/expressions/FilterExpression.java:25-46 | a filtered list is a sub-multiset, all or nothing for constant verdicts |
| ListLaws.FilterItemsSelects | src/main/java/io/github/jamsesso/jsonlogic/evaluator/expressions/FilterExpression.java:25-46 | the filter loop keeps exactly the items with truthy verdicts, in order |
| ListLaws.FilterSemantics | src/main/java/io/github/jamsesso/jsonlogic/evaluator/expressions/FilterExpression.java:25-46 | filter needs two arguments and a list; else the truthy items in order |
| ListLaws.ReduceItemsSnoc | src/main/java/io/github/jamsesso/jsonlogic/evaluator/expressions/ReduceExpression.java:21-38 | reduce folds left to right |
| ListLaws.ReduceSemantics | src/main/java/io/github/jamsesso/jsonlogic/evaluator/expressions/ReduceExpression.java:21-38 | three arguments needed; a non-list or [] gives the seed; one item gives one application |
| ListLaws.MergeFlattens | src/main/java/io/github/jamsesso/jsonlogic/JsonLogic.java:150-165 | merge gives the non-list leaves of all evaluated arguments, depth first and left to right |
| ListLaws.MergeExample | src/main/java/io/github/jamsesso/jsonlogic/JsonLogic.java:150-165 | [1, [2, [3]], 4] merges to [1, 2, 3, 4] |
| ListLaws.LiteralsEvaluate | src/main/java/io/github/jamsesso/jsonlogic/evaluator/JsonLogicEvaluator.java:69-73 | map-free literals evaluate to themselves |
| ListLaws.MissingSemantics | src/main/java/io/github/jamsesso/jsonlogic/evaluator/expressions/MissingExpression.java:29-60 | argument checks and the MissingExpression answer over evaluated arguments |
| ListLaws.SubstrErrors | src/main/java/io/github/jamsesso/jsonlogic/evaluator/expressions/SubstringExpression.java:18-37 | arity, non-numeric start and null text errors |
| ListLaws.SubstrFromStart | src/main/java/io/github/jamsesso/jsonlogic/evaluator/expressions/SubstringExpression.java:18-37 | two arguments use SubstrFrom after Double.intValue |
| ListLaws.SubstrStartCount | src/main/java/io/github/jamsesso/jsonlogic/evaluator/expressions/SubstringExpression.java:18-37 | three arguments use SubstrRange; a non-numeric count fails at path[2] |
| ListLaws.LogIsIdentity | src/main/java/io/github/jamsesso/jsonlogic/JsonLogic.java:77-82 | log answers its first argument's value; no argument fails |
| ListLaws.ListFunctionSemantics | src/main/java/io/github/jamsesso/jsonlogic/JsonLogic.java:177-195 | arguments are evaluated first; the function gets the raw nodes (as written) or the unwrapped values (corrected) |
| ListLaws.GreetLiteral | src/main/java/io/github/jamsesso/jsonlogic/JsonLogic.java:177-185 | {"greet": ["json-logic"]} gives "Hello json-logic!" with either wrapper |
| ListLaws.GreetVariable | src/main/java/io/github/jamsesso/jsonlogic/JsonLogic.java:182 | with a variable argument the written wrapper formats the variable node's record text, "Hello JsonLogicVariable[key=who, defaultValue=null]!", and the corrected one greets the value |
| OperatorLoops.EvaluateList | src/main/java/io/github/jamsesso/jsonlogic/evaluator/JsonLogicEvaluator.java:30-35 | the list loop computes the list evaluation |
| OperatorLoops.IfChainLoop | src/main/java/io/github/jamsesso/jsonlogic/JsonLogic.java:99-111 | the pairs loop computes the if chain |
| OperatorLoops.AndOrLoop | src/main/java/io/github/jamsesso/jsonlogic/JsonLogic.java:55-66 | the loop computes and/or |
| OperatorLoops.AllLoop | src/main/java/io/github/jamsesso/jsonlogic/JsonLogic.java:30-40 | the loop computes `all` |
| OperatorLoops.HasLoop | src/main/java/io/github/jamsesso/jsonlogic/JsonLogic.java:42-53 | the loop computes `some`/`none` |
| OperatorLoops.MapLoop | src/main/java/io/github/jamsesso/jsonlogic/evaluator/expressions/MapExpression.java:20-27 | the loop computes map |
| OperatorLoops.FilterLoop | src/main/java/io/github/jamsesso/jsonlogic/evaluator/expressions/FilterExpression.java:25-46 | the loop computes filter |
| OperatorLoops.ReduceLoop | src/main/java/io/github/jamsesso/jsonlogic/evaluator/expressions/ReduceExpression.java:21-38 | the loop computes reduce |
| OperatorLoops.MergeWorklist | src/main/java/io/github/jamsesso/jsonlogic/JsonLogic.java:150-165 | the worklist loop computes merge |
| OperatorLoops.GetSingleLoop | src/main/java/io/github/jamsesso/jsonlogic/Reduce.java:37-44 | the loop computes getSingle |
| OperatorLoops.ReduceOperand | src/main/java/io/github/jamsesso/jsonlogic/Reduce.java:18-24 | the getters read operands as specified |
| OperatorLoops.ReduceTableLoop | src/main/java/io/github/jamsesso/jsonlogic/Reduce.java:47-67 | the loop computes the Reduce table |
| OperatorLoops.CompareNumbers | src/main/java/io/github/jamsesso/jsonlogic/evaluator/expressions/NumericComparisonExpression.java:23-71 | the conversion loop computes the comparison |
| OperatorLoops.MathNumber | src/main/java/io/github/jamsesso/jsonlogic/evaluator/expressions/MathExpression.java:40-49 | MathExpression.number reads operands as specified |
| OperatorLoops.MathLoop | src/main/java/io/github/jamsesso/jsonlogic/evaluator/expressions/MathExpression.java:52-69 | the loop computes MathExpression |
| JsonLogicApi.JsonLogic.constructor | src/main/java/io/github/jamsesso/jsonlogic/JsonLogic.java:118-148 | the Reduce table and the built-ins, no evaluator, an empty cache |
| JsonLogicApi.JsonLogic.AddOperation | src/main/java/io/github/jamsesso/jsonlogic/JsonLogic.java:197-201 | the name maps to the new handler, the evaluator is dropped, the cache is kept |
| JsonLogicApi.JsonLogic.AddListOperation | src/main/java/io/github/jamsesso/jsonlogic/JsonLogic.java:177-195 | registers a list function under the name |
| JsonLogicApi.JsonLogic.EnsureEvaluator | src/main/java/io/github/jamsesso/jsonlogic/JsonLogic.java:214 | the evaluator is built over the current table |
| JsonLogicApi.JsonLogic.ApplyText | src/main/java/io/github/jamsesso/jsonlogic/JsonLogic.java:212-216 | the result is that of parsing and evaluating afresh; a rule that parses to null fails instead of entering the cache; only this text is cached, and old entries are kept; the evaluator is built exactly when parsing succeeds, and a failed parse changes nothing |
| JsonLogicApi.JsonLogic.ApplyValue | src/main/java/io/github/jamsesso/jsonlogic/JsonLogic.java:205-210 | a string is rule text, with apply(String)'s cache and evaluator effects; any other value builds the evaluator first, is built and evaluated at "$", and leaves the cache as it was |
| JsonLogicApi.BlankRuleIsRefused | src/main/java/io/github/jamsesso/jsonlogic/JsonLogic.java:205-216 | blank rule text parses to null, so apply(String) fails when the cache refuses the null node, while apply(Object) of null answers null |
| JsonLogicApi.UnfinishedRuleFails | src/main/java/io/github/jamsesso/jsonlogic/ast/JsonParserString.java:124-126 | the text "[" is refused as unbalanced |
| JsonLogicApi.AddedOperationIsDispatched | src/main/java/io/github/jamsesso/jsonlogic/JsonLogic.java:197-201 | an added name is dispatched to its new handler |
| JsonLogicApi.GreetAfterAddOperation | src/main/java/io/github/jamsesso/jsonlogic/JsonLogic.java:177-185 | after adding `greet`, {"greet": ["json-logic"]} gives "Hello json-logic!" |
| JsonLogicApi.GreetRuleBuilds | src/main/java/io/github/jamsesso/jsonlogic/ast/JsonLogicParser.java:56-67 | that rule builds into the `greet` operation |

The expression classes `AllExpression` and `ArrayHasExpression` behave the same as `JsonLogic.all` and `JsonLogic.has`. They share the handlers `All` and `Has`, so `ControlLaws.AllSemantics` and `ControlLaws.HasSemantics` describe them too. `InequalityExpression` and `StrictInequalityExpression` are the negations that `ControlLaws.InequalityNegatesEquality` and `ControlLaws.StrictInequalityNegates` describe.

## Left out

- Floating point. Numbers are exact reals. `Double.parseDouble` and `Double.toString` are the `Host` parameters. Rounding is not modelled, including the power-of-ten scaling at the end of `parseNumber` (JsonParserString.java:171-173).
- JsonNumber.ParseNumber: the `long` mantissa and `int` exponent are unbounded here. The wrap-around after 19 digits is not modelled.
- ValueOps.Combine: a quotient or remainder by zero is the error `NonFinite` instead of Infinity or NaN.
- JsonStrings.ScanString: a `\u` escape that leaves a lone surrogate is the error `LoneSurrogate`. Java keeps the unpaired `char`, but a Dafny string cannot hold one.
- Substring.SubstrFromCases: indices count Dafny characters, not UTF-16 code units. The two differ only above U+FFFF.
- Error positions. Reader errors carry their kind, not the line and column of their message.
- `JSON.plain` and the org.json and Gson conversions are not modelled: values are already in canonical form. `JSON.parse`'s fallback after a failed read (JSON.java:66-87) is not used by the core.
- `JsonLogicParser.parse(String)` throws "TBD" in this revision (JsonLogicParser.java:17-25). `apply(String)` is modelled as the reader followed by the builder of `parse(root, path)`, on the corrected reading.
- Reference identity. The `left == right` shortcut of `strictEquality` and the identity of the NULL sentinel and the markers are value equality here.
- LooseEquality.LooseEquals: the instance test `left == right` of `equalityValue` (JSON.java:157) is value equality here. Two distinct maps with the same entries are `==` in the model, while Java answers false unless both are the same instance. A list holding such maps differs the same way through `JSON.equals`. Without object identity the model cannot tell the two cases apart.
- JavaText.ParseInt: accepts only the ASCII digits 0-9. `Integer.parseInt` also accepts the decimal digits of other scripts, so a key such as "١" reads as 1 in Java but is no int here.
- `log` prints its value to standard output. The model keeps only the returned value.
- The diagnostic `System.out` lines of `evaluatePartialVariable` are left out.
- Concurrency. The `ConcurrentHashMap`s of `JsonLogic` are plain fields; thread interleavings are not modelled.
- Custom handlers. `addOperation(key, fkt)` takes any `Handler` of the model. An arbitrary Java lambda is modelled only as a list function (`ListFunction`/`ListFunctionAsWritten`), the form `addListOperation` and `addOperation(Function)` build.
- `JsonLogicApi.JsonLogic.ApplyText`: the cached node for a text is always the node parsing gives. The cache's effect on later calls is stated (`Valid`), but its time saving is not.
- The reduce scope is a `HashMap`. Its iteration order is taken to be "current" then "accumulator", the order those two keys hash into.
- ListLaws.ReduceSemantics: each step's scope is a fresh value `{"current": item, "accumulator": acc}`. Java puts every step into one mutable `HashMap` (ReduceExpression.java:29-35), and `{"var": ""}` returns that map itself. So a body that returns or collects the scope sees one aliased, possibly cyclic map in Java. The model sees a distinct snapshot per step. With `{"reduce": [[1, 2], {"var": ""}, 0]}`, Java answers the one context map holding itself, and the model answers nested snapshots.
- OperatorLoops.ReduceLoop: the loop is proved equal to `Evaluator.ReduceOp`, so it shares the snapshot scope above; aliasing of the context map is not modelled.
- StrictEquality.JavaEquals: all integral boxes count as one class, `Integral`. `Integer.valueOf(1).equals(Long.valueOf(1))` is false in Java, so host data mixing an Integer list and a Long list can be `===` here but not in Java. Values read from rule text are always Doubles, so the difference needs host data.
- `JsonLogicEvaluator(Collection)` and `JsonLogicExpression` wrappers other than those above are not part of this model.
- `JsonPath`'s rendering of error paths through `PathSegment` is modelled. Its use in exception messages is not.

## Findings

| source | as written | input that shows it | evidently intended | confidence | as-written member | corrected member |
|---|---|---|---|---|---|---|
| src/main/java/io/github/jamsesso/jsonlogic/ast/JsonLogicParser.java:46 | throws "not a map" when the value IS a map | `{"var": "a"}` | throw only when the value is not a map | high, not executed | LogicAst.BuildAsWrittenRefusesEveryRule | LogicAst.BuildUnbuild |
| src/main/java/io/github/jamsesso/jsonlogic/ast/JsonParserString.java:124-126 | only checks that one entry is left on the deque | `[` returns the ARRAY marker | an unfinished text is "Unbalanced" | high, not executed | ReadValue.ReadLeavesMarker | ReadValue.ReadComplete |
| src/main/java/io/github/jamsesso/jsonlogic/utils/MapLike.java:20 | containsValue calls containsKey | `{"a": 1}`: value 1 is missed, "a" is reported | test the stored values | high, not executed | MapLike.ContainsValueAsWrittenIsWrong | MapLike.ContainsValueMeansStored |
| src/main/java/io/github/jamsesso/jsonlogic/JsonLogic.java:105-106 | ifExpt evaluates the condition's value again | `{"if": [{"var": ""}, "yes", "no"]}` over `{"a": true}` throws | evaluate each condition once | medium, not executed | ControlLaws.IfRechecksConditionValue | ControlLaws.IfSelectsFirstTruthy |
| src/main/java/io/github/jamsesso/jsonlogic/JsonLogic.java:73 | `in` tests the unevaluated second argument for a string | `{"in": ["Spring", {"var": "city"}]}` over `{"city": "Springfield"}` is false | test the evaluated haystack | high, not executed | ControlLaws.InAsWrittenMissesComputedString | ControlLaws.InSemantics |
| src/main/java/io/github/jamsesso/jsonlogic/JsonLogic.java:131 | `cat` renders its unevaluated argument nodes | `{"cat": ["Hello, ", {"var": "name"}]}` over `{"name": "Bob"}` | "Hello, Bob" | high, not executed | ControlLaws.CatAsWrittenRendersVariable | ControlLaws.CatOnValues |
| src/main/java/io/github/jamsesso/jsonlogic/JsonLogic.java:182 | list functions receive the unevaluated arguments | `{"greet": [{"var": "who"}]}` over `{"who": "json-logic"}` | the evaluated argument values | high, not executed | ListLaws.GreetVariable | ListLaws.ListFunctionSemantics |
