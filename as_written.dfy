/**
  The front end as the code is written, kept beside the corrected model in
  Parser so that each defect can be exhibited on a concrete input.
  Python's runtime errors are named after their exception classes.
*/
module AsWritten {
  import opened Wrappers
  import opened Json
  import opened Strings
  import opened Query
  import opened Parser

  datatype PyError = KeyError(key: Scalar) | IndexError | TypeError | AttributeError

  /** A node built by `_build_ast` as written: its parts are raw parse results, not nodes. */
  datatype RawNode =
    | RawCondition(field: PR, op: PR, value: PR)   // tokens[0], tokens[1], tokens[2]
    | RawLogical(op: PR, left: PR, right: PR)      // tokens[1], tokens[0], tokens[2]
    | RawToken(tok: Scalar)

  /** `len(parsed_expr) == 3 and parsed_expr[1] in ["AND", "OR"]`. */
  predicate IsLogicalGroup(items: seq<PR>) {
    |items| == 3 && IsLogicalToken(items[1])
  }

  /** `_build_ast` as written: `Condition` and `LogicalOperation` read their tokens by position. */
  function BuildAstAsWritten(pr: PR): Result<RawNode, PyError>
    decreases pr
  {
    match pr
    case Leaf(t) => Ok(RawToken(t))
    case Group(items) =>
      if |items| == 1 then BuildAstAsWritten(items[0])
      else if IsLogicalGroup(items) then Ok(RawLogical(items[1], items[0], items[2]))
      else if |items| < 3 then Err(IndexError)
      else Ok(RawCondition(items[0], items[1], items[2]))
  }

  /**
    Calling `.to_query()` on a raw parse result: a `str` or number has no
    such attribute; a ParseResults answers an unknown attribute with `""`,
    which is not callable.
  */
  function CallToQuery(pr: PR): PyError {
    if pr.Leaf? then AttributeError else TypeError
  }

  /** `to_query` of a node built as written. */
  function ToQueryAsWritten(n: RawNode): Result<Json, PyError> {
    match n
    case RawToken(_) => Err(AttributeError)
    case RawLogical(op, left, _) =>
      if op == Leaf(Str("AND")) || op == Leaf(Str("OR")) then Err(CallToQuery(left))
      else Err(TypeError)
    case RawCondition(field, op, value) =>
      if !IsWord(field) then Err(CallToQuery(field))
      else if !op.Leaf? then Err(TypeError)           // a ParseResults key is unhashable
      else if !value.Leaf? then Err(TypeError)        // never produced by the grammar
      else if !op.tok.Str? || op.tok.s !in ComparisonOps then Err(PyError.KeyError(op.tok))
      else Ok(ToQuery(Condition(field.tok.s, op.tok.s, value.tok)).value)
  }

  function CompileAsWritten(pr: PR): Result<Json, PyError> {
    var n :- BuildAstAsWritten(pr);
    ToQueryAsWritten(n)
  }

  /**
    As written, every namespaced condition fails: its group is
    `[ns, ".", key, op, value]`, so `Condition` takes `"."` as the operator
    and the operator table raises KeyError('.'), although every operator of
    the grammar is in the table.
  */
  lemma NestedConditionFailsAsWritten(ns: string, key: string, op: string, v: Scalar)
    requires IsFieldTokens([ns, ".", key]) && op in ComparisonOps
    ensures CompileAsWritten(ConditionGroup([ns, ".", key], op, v)) == Err(PyError.KeyError(Str(".")))
    ensures BuildAst(ConditionGroup([ns, ".", key], op, v)).Ok?
    ensures ToQuery(BuildAst(ConditionGroup([ns, ".", key], op, v)).value).Ok?
  {
    var items := Leaves([ns, ".", key]) + [Leaf(Str(op)), Leaf(v)];
    assert !IsLogicalGroup(items);
    assert "." !in ComparisonOps;
    GrammarConditionCompiles([ns, ".", key], op, v);
  }

  /**
    As written, every `AND`/`OR` node fails: its children are raw parse
    results, which have no `to_query`.
  */
  lemma LogicalFailsAsWritten(l: PR, op: string, r: PR)
    requires op in LogicalOps
    ensures CompileAsWritten(Group([l, Leaf(Str(op)), r])).Err?
  {
  }

  /**
    As written, a chain of three or more comparisons fails. `infixNotation`
    keeps one left-associative level as one flat group
    `[c1, op1, c2, op2, c3, ...]`, which is not of length three, so it is
    read as a condition whose field is the group `c1`, and `.split` on a
    ParseResults is not callable.
  */
  lemma FlatChainFailsAsWritten(items: seq<PR>)
    requires |items| >= 5 && items[0].Group?
    ensures CompileAsWritten(Group(items)) == Err(TypeError)
  {
  }

  /** Python's `x[i]` on a parse result: a character of a `str`, an element of a group. */
  function Index(pr: PR, i: nat): Result<PR, PyError> {
    match pr
    case Leaf(Str(s)) => if i < |s| then Ok(Leaf(Str([s[i]]))) else Err(IndexError)
    case Leaf(Num(_)) => Err(TypeError)
    case Group(items) => if i < |items| then Ok(items[i]) else Err(IndexError)
  }

  /** `_parse_order_by` as written: the field is `order_clause[1][0]` and the direction `order_clause[1][1]`. */
  function ParseOrderByAsWritten(clause: PR): Result<Json, PyError> {
    var g :- Index(clause, 1);
    var field :- Index(g, 0);
    var dir :- Index(g, 1);
    if !IsWord(dir) then Err(AttributeError)          // only a str has lower()
    else if !field.Leaf? then Err(TypeError)          // a ParseResults key is unhashable
    else if !field.tok.Str? then Err(TypeError)       // never produced by the grammar
    else Ok(Arr([Single(field.tok.s, Single("order", JStr(Lower(dir.tok.s))))]))
  }

  /** The `sort` entry as written: `_parse_order_by(parsed[1])`, the keyword itself. */
  function SortAsWritten(parsed: seq<PR>): Result<Json, PyError> {
    if HasOrderBy(parsed) then ParseOrderByAsWritten(parsed[1]) else Ok(Null)
  }

  /**
    As written, every query with `ORDER BY` fails: `parsed[1]` is the string
    `"ORDER BY"`, whose `[1]` is `"R"`, and `"R"[1]` is out of range.
  */
  lemma OrderByFailsAsWritten(expr: PR, fts: seq<string>, dir: Option<string>, rest: seq<PR>)
    ensures SortAsWritten([expr, OrderByKeyword, OrderGroup(fts, dir)] + rest) == Err(IndexError)
  {
    var parsed := [expr, OrderByKeyword, OrderGroup(fts, dir)] + rest;
    assert parsed[1..][0] == OrderByKeyword;
    assert Index(OrderByKeyword, 1) == Ok(Leaf(Str("R")));
  }

  /**
    Even given the clause, `_parse_order_by` as written reads a namespaced
    field `ns "." key` as the field `ns` with the direction `"."`.
  */
  lemma NestedSortFieldAsWritten(ns: string, key: string, dir: Option<string>)
    requires IsFieldTokens([ns, ".", key])
    ensures ParseOrderByAsWritten(Group([OrderByKeyword, OrderGroup([ns, ".", key], dir)])) ==
      Ok(Arr([Single(ns, Single("order", JStr(".")))]))
  {
    assert Lower(".") == ".";
  }

  /**
    The names under which the grammar stores results (`setResultsName`):
    none. A `k in parsed` test on a ParseResults consults these names, not
    the tokens.
  */
  const ResultNames: set<string> := {}

  /**
    The `size` entry as written: `_parse_limit(parsed[-1]) if "LIMIT" in parsed else None`,
    where `names` are the result names the ParseResults `parsed` carries.
  */
  function SizeAsWritten(parsed: seq<PR>, names: set<string>): Result<Json, PyError> {
    if "LIMIT" in names && |parsed| > 0 then
      var n :- Index(parsed[|parsed| - 1], 1);
      if n.Leaf? then Ok(Atom(n.tok)) else Err(TypeError)
    else Ok(Null)
  }

  /**
    As written, a `LIMIT` clause is silently dropped: `size` is always None.
    Were the membership test to see the keyword, `parsed[-1]` would be the
    number itself, and indexing a number is a TypeError.
  */
  lemma LimitIgnoredAsWritten(expr: PR, n: Number)
    ensures SizeAsWritten([expr, LimitKeyword, Leaf(Num(n))], ResultNames) == Ok(Null)
    ensures SizeAsWritten([expr, LimitKeyword, Leaf(Num(n))], {"LIMIT"}) == Err(TypeError)
    ensures ParseLimit(LimitClause([expr, LimitKeyword, Leaf(Num(n))])) == Ok(Atom(Num(n)))
  {
  }

  /** `Word(nums)`: the number literal as written accepts digits only. */
  predicate IsNumberAsWritten(s: string) {
    IsDigits(s)
  }

  /**
    As written, a decimal such as the `0.9` of the module's own demonstration
    query is no value token: it is not a number literal, an identifier or a
    quoted string. The longest number literal at its start is the whole
    part, which leaves `.frac` unparsed, so `parseAll=True` rejects the query.
  */
  lemma DecimalRejectedAsWritten(whole: string, frac: string)
    requires IsDigits(whole) && IsDigits(frac)
    ensures !IsNumberAsWritten(whole + "." + frac)
    ensures !IsIdentifier(whole + "." + frac)
    ensures (whole + "." + frac)[0] != '"'
    ensures IsNumberAsWritten(whole) && (whole + "." + frac)[|whole|] == '.' && !IsDigit('.')
    ensures IsNumberLiteral(whole + "." + frac)
  {
    var s := whole + "." + frac;
    assert s[|whole|] == '.';
    assert s[0] == whole[0];
    DecimalLiteral(whole, frac);
  }
}
