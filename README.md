# Filter-expression compiler and session-policy builder, modelled in Dafny

A small filter language for searching logged experiment runs, and the code
that turns it into an OpenSearch-shaped boolean query:

- `parser0.py` holds the AST classes. `Condition.to_query` splits the field
  on `.`. A field of exactly two pieces `path.key` becomes a `nested` query on
  `path`. Its `bool.must` list holds a `term` on `path.key` and then the value
  test on `path.value`. Any other field gets the value test directly.
  `_build_condition` maps `=`, `!=`, `>`, `>=`, `<`, `<=` onto `term`,
  `bool.must_not term` and `range gt/gte/lt/lte`.
  `LogicalOperation.to_query` maps `AND` to `bool.must` and `OR` to
  `bool.should`, each over its two children.
- `parser.py` holds the grammar (identifiers, the field allow-list, `ASC`/`DESC`).
  It also holds `_build_ast`, which sorts parse-result groups into nodes by
  their length, the `ORDER BY` and `LIMIT` readers, and
  `parse_filter_expression`. That function packages `{query, sort, size}` and
  turns any failure into one `ValueError` naming the input.
- `policy.py` holds `S3SessionPolicyBuilder`. It appends S3 and KMS IAM
  statements to a policy document `{"Version", "Statement"}`.

Modules:

- `Wrappers`: `Option` and `Result`.
- `Json`: the dict, list and string values produced, including `Keys` and `Lookup`.
- `Strings`: `str.split('.')`, `'.'.join`, and ASCII `lower()`.
- `Query`: `parser0.py`.
- `Parser`: `parser.py`.
- `AsWritten`: the front end exactly as the code is written, used for the findings below.
- `Policy`: `policy.py`, as a class whose `statements` field the add methods extend.

The compiler has a partner, `Query.Decompile`, which reads a compiled query
back into the node it came from. `Query.CompileIffDecompile` proves that a
node compiles to a query exactly when that query reads back as the node. So
compilation is structural and loses nothing. Each condition gives one leaf or
one `nested` wrapper. Each logical node gives one `bool` node whose two
children come in their original order. Every value reaches its leaf unchanged.

Where the code as written differs from what it evidently means, the model
follows the evident meaning. The code as written is kept in `AsWritten`, and
"## Findings" lists each difference. The differences are:
- A namespaced field is three tokens inside the condition group. The model
  joins them into `ns.key`.
- The children of a logical node are built nodes.
- The `ORDER BY` reader is given the clause, not the keyword.
- The `LIMIT` reader is given the last two results `parsed[-2:]`, the
  keyword and the number, not `parsed[-1]`, which is the number itself.
- A chain of `AND`/`OR` is folded to the left.
- A number literal is digits and dots, as in `parser0.py`, so a decimal
  such as `0.9` is one literal.

AND and OR share one left-associative level in the grammar, so a chain of
three or more comparisons stays one flat group `[c1, op1, c2, op2, c3]`.
As written, `_build_ast` reads that group as a `Condition` whose field is
the group `c1`, and `to_query` then fails on `.split`
(`AsWritten.FlatChainFailsAsWritten`). The model builds it as
`(c1 op1 c2) op2 c3` (`Parser.ChainLeftFold`). No precedence between AND
and OR is modelled, because the grammar has none.

## Model

| member | source | states |
|---|---|---|
| `Strings.Split` | parser0.py:32 | `str.split('.')` always yields at least one piece |
| `Strings.JoinSplit` | parser0.py:32-34 | joining the pieces of a split with `.` gives back the field |
| `Strings.SplitPiecesDotFree` | parser0.py:32 | no piece of a split contains a dot |
| `Strings.SplitDotFree` | parser0.py:48-49 | a dot-free field is a single piece, so it is not nested |
| `Strings.SplitPair` | parser0.py:33-34 | `path + "." + key` with dot-free parts splits into exactly `[path, key]` |
| `Strings.TwoPieces` | parser0.py:33 | a field has two pieces iff it is two dot-free strings joined by one dot |
| `Strings.Lower` | parser.py:58 | `lower()` keeps the length and leaves no capital; each capital becomes the same letter in lower case, every other character is kept, and text without capitals is returned unchanged |
| `Query.BuildCondition` | parser0.py:51-60 | the operator table succeeds iff the operator is one of the six keys; otherwise the error is `KeyError(op)`; the value test reads back as exactly (field, op, value), so the value is passed through unchanged |
| `Query.DecodeTestSound` | parser0.py:52-59 | the operator table is injective: a value test read back compiles to itself |
| `Query.DecodeNestedSound` | parser0.py:35-47 | a query read back as a `nested` wrapper is exactly that wrapper |
| `Query.NestedFieldLowering` | parser0.py:31-47 | a two-piece field `path.key` compiles to `nested` on `path`; the key term is on `path.key` with value `key`; the value test targets `path.value` with the same operator and value, whatever the operator |
| `Query.FlatFieldLowering` | parser0.py:48-49 | any other field compiles to the value test on the unchanged field name, with no `nested` wrapper |
| `Query.ConditionErrors` | parser0.py:52-60 | a comparison fails exactly when the operator is outside the table, and the error names the operator |
| `Query.LogicalLowering` | parser0.py:68-80 | `AND` gives `bool.must` and `OR` gives `bool.should`; the list is exactly [left's query, right's query]; any other operator is `KeyError(op)`; the node compiles iff the operator is known and both children compile |
| `Query.DecompileToQuery` | parser0.py:31-80 | reading back a compiled node gives the node |
| `Query.ToQueryDecompile` | parser0.py:31-80 | every query the decompiler accepts is exactly the compilation of the node it returns |
| `Query.CompileIffDecompile` | parser0.py:31-80 | a node compiles to a query iff the query decompiles to the node |
| `Parser.DecimalLiteral` | parser0.py:8 | with `Word(nums + ".")`, a decimal `whole.frac` of two digit runs is one number literal |
| `Parser.IdentifierDotFree` | parser.py:6 | an identifier (a letter or `_`, then letters, digits or `_`) contains no dot |
| `Parser.FieldKind` | parser.py:11-14 | a grammatical field splits into two pieces exactly when it is `ns "." identifier`, and then the pieces are the namespace and the identifier; an allow-listed column is one piece |
| `Parser.ConditionOf` | parser.py:52 | a group is read as a condition exactly when it ends in an operator word and a value token after one or three field tokens; the field, operator and value of the result are the field tokens' text, that word and that token |
| `Parser.ConditionOfGrammar` | parser.py:18 | every grammatical condition group `field_name + op + value` is read as the condition on the field's text with that operator and value |
| `Parser.BuildAstShape` | parser.py:45-54 | a token is returned as it is; a one-element group unwraps to its element; an `AND`/`OR` chain gives a logical node on its last operator whenever it builds; every other group gives a condition or fails |
| `Parser.ChainLeftFold` | parser.py:23-28 | a chain `[e1, op1, ..., op, en]` builds as `op` over the chain without its last operator and operand and over `en`, so chains associate to the left; it builds iff both parts do |
| `Parser.ChainBuilds` | parser.py:23-28 | a chain builds iff every operand builds |
| `Parser.GrammarConditionCompiles` | parser.py:18 | every grammatical condition group builds into a condition on its field text and compiles; the result is `nested` exactly for namespaced fields |
| `Parser.GrammarLogicalCompiles` | parser.py:23-28 | two grammatical conditions joined by `AND`/`OR` build into one logical node over both, in order, and compile |
| `Parser.GrammarChainCompiles` | parser.py:23-28 | three grammatical conditions in one flat chain build as `(c1 op1 c2) op2 c3` and compile |
| `Parser.OrderByDirection` | parser.py:56-58 | a grammatical `ORDER BY` clause gives exactly one entry `{field: {"order": d}}`, where `d` is `"desc"` for `DESC` and `"asc"` for `ASC` or when the direction is omitted |
| `Parser.ParseFilterExpression` | parser.py:31-43 | the result's keys are exactly `query`, `sort`, `size`; the query decompiles to the built AST; `sort` is `None` iff there is no `ORDER BY`, and otherwise it is what the `ORDER BY` reader makes of the clause; `size` is `None` iff there is no `LIMIT`, and otherwise it is what the `LIMIT` reader makes of the last two results; it succeeds iff every stage succeeds, and any failure is one `ValueError("Invalid filter expression: " + input)` |
| `Parser.LimitReachesSize` | parser.py:60-61 | a query whose parse ends in `LIMIT n` has `size` equal to `n`, unchanged, whenever it compiles |
| `Parser.FullQueryCompiles` | parser.py:64-66 | a query of the demonstration's shape (two conditions, `ORDER BY`, `LIMIT`) compiles to the `bool` node over both conditions' queries, a one-entry sort and the limit as size |
| `AsWritten.NestedConditionFailsAsWritten` | parser0.py:26-29 | as written, every namespaced condition fails with `KeyError('.')`; the corrected model compiles it |
| `AsWritten.LogicalFailsAsWritten` | parser0.py:63-80 | as written, every `AND`/`OR` node fails, because its children are raw parse results |
| `AsWritten.FlatChainFailsAsWritten` | parser.py:49-52 | as written, a flat group of five or more elements starting with a group (a chain of three comparisons) is read as a condition on that group and fails with a TypeError |
| `AsWritten.DecimalRejectedAsWritten` | parser.py:7 | as written, a decimal `whole.frac` is no number literal, identifier or quoted string; the longest number literal at its start stops at the dot; parser0.py's rule would accept it |
| `AsWritten.OrderByFailsAsWritten` | parser.py:35 | as written, every query with `ORDER BY` fails with an `IndexError` |
| `AsWritten.NestedSortFieldAsWritten` | parser.py:57 | as written, `ORDER BY ns.key d` sorts on `ns` with direction `"."` |
| `AsWritten.LimitIgnoredAsWritten` | parser.py:36 | as written, `size` is `None` even when a `LIMIT` clause is present; were the keyword seen, `parsed[-1]` is the number and `[1]` on it is a TypeError; the corrected reader yields the number |
| `Policy.Statement` | policy.py:25-37 | the statement's keys are `Effect`, `Action`, `Resource`, and `Condition` only when conditions are given. `Effect` is the effect. `Action` and `Resource` are the normalised lists, with a lone string turned into a one-element list. `Condition` equals the argument |
| `Policy.S3SessionPolicyBuilder.Document` | policy.py:6-9 | the document's keys are `Version` and `Statement` and they hold the builder's version and statement list |
| `Policy.S3SessionPolicyBuilder.constructor` | policy.py:4-9 | a new builder has the given version and no statements |
| `Policy.S3SessionPolicyBuilder.Default` | policy.py:4 | a builder made without a version has version `2012-10-17` and no statements |
| `Policy.S3SessionPolicyBuilder.AddS3Statement` | policy.py:11-40 | the statement list grows by exactly the S3 statement, appended at the end; earlier statements and the version are unchanged; the builder itself is returned |
| `Policy.S3SessionPolicyBuilder.AddKmsStatement` | policy.py:42-71 | the same for a KMS statement, whose `Resource` is the key ARNs |
| `Policy.S3SessionPolicyBuilder.Build` | policy.py:73-77 | returns the current version and statements and changes nothing |
| `Policy.ChainedPolicy` | policy.py:93-108 | calls chained through the returned builder accumulate their statements in call order |

## Left out

- The parsing library is not modelled: tokenising, `infixNotation`, `oneOf`, `dblQuotedString` and `parseString(parseAll=True)`. The model starts from the tree of parse results (`Parser.PR`). A rejected input is `None`. The lexical rules are kept as predicates (`IsIdentifier`, `IsFieldTokens`, `Directions`).
- Number literals are opaque (`Json.Number`). The `float`/`int` conversion belongs to the parsing library. A literal is passed through unchanged.
- `to_json` (`json.dumps`), the printing demonstration blocks, and `runs.py` are left out. They are output and external I/O.
- `Strings.Lower`: lowercases ASCII letters only. Python's `lower()` also lowercases other Unicode letters, but the only argument it gets is `ASC` or `DESC`.
- `Policy.S3SessionPolicyBuilder.Build`: returns the policy as a value. In Python, `build()` returns the builder's own dict, and a statement keeps the caller's own list objects. Aliasing through those objects is not modelled.
- `Parser.ParseFilterExpression`: the real exceptions (`KeyError`, `IndexError`, `AttributeError`, ...) are collapsed. They all surface as the one `ValueError`, so the chained cause is not modelled.
- The code has none of the following, so none is modelled: `NOT`, precedence of AND over OR, case-insensitive keywords and operators, `minimum_should_match`, `filter` context, a numeric value subfield and numeric checks for range operators, the `attributes` namespace, unknown-field and missing-scope errors, scope injection, and nested sort filters. Under the grammar, an unknown field or operator cannot be parsed at all.
- `parser.py` imports neither `dblQuotedString`, `removeQuotes`, `Group` and `ParseResults` from the parsing library nor `json`, so as written the module stops with a NameError at line 8. The model takes these names to mean what they mean in `parser0.py`, which imports them.
- `Parser.ParseLimit`: its own contract only says which token it returns; what the limit means for the whole query is stated by `Parser.LimitReachesSize` and `Parser.ParseFilterExpression`.

## Findings

| source | as written | input that shows it | evidently intended | confidence | as-written member | corrected member |
|---|---|---|---|---|---|---|
| parser0.py:26-29 | `Condition` reads the field, operator and value as tokens 0, 1, 2, but a namespaced field is three tokens | `metrics.accuracy >= 0.9` gives the group `[metrics, ., accuracy, >=, 0.9]`: field `metrics`, operator `.`, so `KeyError('.')` | the field is the joined `metrics.accuracy` | high; not executed | `AsWritten.NestedConditionFailsAsWritten` | `Parser.GrammarConditionCompiles` |
| parser.py:50 | `LogicalOperation` receives the raw parse results as its children | `status = "a" AND run_id = "b"`: `left.to_query()` on a parse result fails | children built with `_build_ast` | high; not executed | `AsWritten.LogicalFailsAsWritten` | `Parser.GrammarLogicalCompiles` |
| parser.py:35 | `_parse_order_by(parsed[1])` is handed the keyword string `"ORDER BY"` | `status = "x" ORDER BY start_time DESC`: `"ORDER BY"[1][1]` is out of range | `_parse_order_by(parsed[1:])` | high; not executed | `AsWritten.OrderByFailsAsWritten` | `Parser.OrderByDirection` |
| parser.py:57 | the sort field is `order_clause[1][0]` and the direction `order_clause[1][1]` | `ORDER BY metrics.accuracy DESC` sorts on `metrics` with order `"."` | the field is all tokens but the last, the direction is the last | high; not executed | `AsWritten.NestedSortFieldAsWritten` | `Parser.OrderByDirection` |
| parser.py:36 | `"LIMIT" in parsed` on a ParseResults tests its result names, and the grammar sets none; and `_parse_limit(parsed[-1])` is handed the number, not the clause, so `limit_clause[1]` would be a TypeError even if the test saw the keyword | `status = "x" LIMIT 5` gives `size` `None` | `_parse_limit(parsed[-2:])`: the limit is the token after `LIMIT` | medium (depends on the parsing library's membership test); not executed | `AsWritten.LimitIgnoredAsWritten` | `Parser.LimitReachesSize` |
| parser.py:49-52 | only a three-element group is a `LogicalOperation`; a left-associative level of `infixNotation` yields one flat group for any number of operands | `status = "a" AND run_id = "b" AND user_id = "c"`: the five-element group becomes a `Condition` whose field is a group, and `.split` on it is a TypeError | the chain folded left, `(c1 AND c2) AND c3` | high; not executed | `AsWritten.FlatChainFailsAsWritten` | `Parser.GrammarChainCompiles` |
| parser.py:7 | `number = Word(nums)` takes digits only | `metrics.accuracy >= 0.9 ...`, the module's own demonstration query: `0` is read as the number and `.9` is left over, so `parseAll=True` rejects the query | `Word(nums + ".")`, as in parser0.py:8, so that `0.9` is one literal | high; not executed | `AsWritten.DecimalRejectedAsWritten` | `Parser.DecimalLiteral` |
