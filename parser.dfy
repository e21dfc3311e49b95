/**
  The front end: the grammar's lexical rules as predicates, the post-parse
  token tree, `_build_ast`, the `ORDER BY` and `LIMIT` readers and the
  packaging of `parse_filter_expression`. The parsing library itself is not
  modelled: its output is the `PR` tree given to these functions.
*/
module Parser {
  import opened Wrappers
  import opened Json
  import opened Strings
  import opened Query

  /** A parse result: a token, or a group of parse results. */
  datatype PR = Leaf(tok: Scalar) | Group(items: seq<PR>)

  /** What `parse_filter_expression` raises, whatever went wrong inside. */
  datatype ValueError = ValueError(message: string)

  /** Failures of the tree readers; all of them surface as one ValueError. */
  datatype Failure = MalformedCondition | MalformedClause

  const Namespaces: set<string> := {"metrics", "params", "tags"}
  const TopLevelFields: set<string> := {"status", "user_id", "experiment_id", "run_id", "start_time", "end_time"}
  const Directions: set<string> := {"ASC", "DESC"}
  const DefaultDirection: string := "ASC"
  const OrderByKeyword: PR := Leaf(Str("ORDER BY"))
  const LimitKeyword: PR := Leaf(Str("LIMIT"))
  const ErrorPrefix: string := "Invalid filter expression: "

  // ---------------------------------------------------------------------
  // Lexical rules
  // ---------------------------------------------------------------------

  /** `Word(alphas + "_", alphanums + "_")`. */
  predicate IsIdentifier(s: string) {
    && |s| > 0
    && (IsAlpha(s[0]) || s[0] == '_')
    && forall i :: 1 <= i < |s| ==> IsAlpha(s[i]) || IsDigit(s[i]) || s[i] == '_'
  }

  /** A non-empty run of decimal digits. */
  predicate IsDigits(s: string) {
    |s| > 0 && forall i :: 0 <= i < |s| ==> IsDigit(s[i])
  }

  /** A number literal `Word(nums + ".")`: digits and dots, so that a decimal such as `0.9` is one literal. */
  predicate IsNumberLiteral(s: string) {
    |s| > 0 && forall i :: 0 <= i < |s| ==> IsDigit(s[i]) || s[i] == '.'
  }

  /** A decimal `whole.frac` is one number literal. */
  lemma DecimalLiteral(whole: string, frac: string)
    requires IsDigits(whole) && IsDigits(frac)
    ensures IsNumberLiteral(whole + "." + frac)
    ensures IsNumberLiteral(whole) && IsNumberLiteral(frac)
  {
    var s := whole + "." + frac;
    forall i | 0 <= i < |s|
      ensures IsDigit(s[i]) || s[i] == '.'
    {
      if i < |whole| {
        assert s[i] == whole[i];
      } else if i > |whole| {
        assert s[i] == frac[i - |whole| - 1];
      }
    }
  }

  /** The tokens of `field_name`: `ns "." identifier`, or one allow-listed column. */
  predicate IsFieldTokens(ts: seq<string>) {
    || (|ts| == 3 && ts[0] in Namespaces && ts[1] == "." && IsIdentifier(ts[2]))
    || (|ts| == 1 && ts[0] in TopLevelFields)
  }

  /** The text of a token sequence. */
  function Concat(ts: seq<string>): string {
    if |ts| == 0 then "" else ts[0] + Concat(ts[1..])
  }

  /** A token that is a `str`. */
  predicate IsWord(pr: PR) {
    pr.Leaf? && pr.tok.Str?
  }

  function Leaves(ts: seq<string>): (prs: seq<PR>)
    ensures |prs| == |ts|
    ensures forall i :: 0 <= i < |ts| ==> prs[i] == Leaf(Str(ts[i]))
  {
    seq(|ts|, i requires 0 <= i < |ts| => Leaf(Str(ts[i])))
  }

  /** The group `Group(field_name + comparison_op + value)` for a condition. */
  function ConditionGroup(fts: seq<string>, op: string, v: Scalar): PR {
    Group(Leaves(fts) + [Leaf(Str(op)), Leaf(v)])
  }

  /** The group `Group(field_name + Optional(order_direction, default="ASC"))`. */
  function OrderGroup(fts: seq<string>, dir: Option<string>): PR {
    Group(Leaves(fts) + [Leaf(Str(if dir.Some? then dir.value else DefaultDirection))])
  }

  lemma IdentifierDotFree(s: string)
    requires IsIdentifier(s)
    ensures '.' !in s
  {
  }

  lemma ConcatField(ts: seq<string>)
    requires |ts| == 3 || |ts| == 1
    ensures |ts| == 3 ==> Concat(ts) == ts[0] + ts[1] + ts[2]
    ensures |ts| == 1 ==> Concat(ts) == ts[0]
  {
    assert Concat([]) == "";
    if |ts| == 3 {
      assert ts[1..][1..] == [ts[2]];
      assert [ts[2]][1..] == [];
    } else {
      assert ts[1..] == [];
    }
  }

  /**
    A grammatical field splits into two pieces exactly when it is namespaced,
    and then the pieces are the namespace and the identifier; an allow-listed
    column is a single piece.
  */
  lemma FieldKind(ts: seq<string>)
    requires IsFieldTokens(ts)
    ensures |ts| == 3 ==> Split(Concat(ts)) == [ts[0], ts[2]]
    ensures |ts| == 1 ==> Split(Concat(ts)) == [ts[0]]
    ensures |Split(Concat(ts))| == 2 <==> |ts| == 3
  {
    ConcatField(ts);
    if |ts| == 3 {
      IdentifierDotFree(ts[2]);
      assert '.' !in ts[0];
      SplitPair(ts[0], ts[2]);
    } else {
      assert '.' !in ts[0];
      SplitDotFree(ts[0]);
    }
  }

  // ---------------------------------------------------------------------
  // _build_ast
  // ---------------------------------------------------------------------

  /** The field text of the field tokens of a group: one word, or `ns "." key`. */
  function FieldOf(toks: seq<PR>): Option<string> {
    if |toks| == 1 && IsWord(toks[0]) then Some(toks[0].tok.s)
    else if |toks| == 3 && IsWord(toks[0]) && toks[1] == Leaf(Str(".")) && IsWord(toks[2])
    then Some(toks[0].tok.s + "." + toks[2].tok.s)
    else None
  }

  /**
    `Condition(tokens)`: field tokens, then the operator, then the value. It
    succeeds exactly when the group ends in a word and a token after one or
    three field tokens; the field is their text, the operator the word and
    the value the token.
  */
  function ConditionOf(items: seq<PR>): (r: Result<Expr, Failure>)
    ensures r.Ok? <==>
      |items| >= 3 && FieldOf(items[..|items| - 2]).Some? && IsWord(items[|items| - 2]) && items[|items| - 1].Leaf?
    ensures r.Ok? ==> r.value.Condition?
    ensures r.Ok? ==> Some(r.value.field) == FieldOf(items[..|items| - 2])
    ensures r.Ok? ==> Leaf(Str(r.value.op)) == items[|items| - 2]
    ensures r.Ok? ==> Leaf(r.value.value) == items[|items| - 1]
  {
    if |items| < 3 then Err(MalformedCondition)
    else
      var n := |items|;
      match FieldOf(items[..n - 2])
      case Some(f) =>
        if IsWord(items[n - 2]) && items[n - 1].Leaf?
        then Ok(Condition(f, items[n - 2].tok.s, items[n - 1].tok))
        else Err(MalformedCondition)
      case None => Err(MalformedCondition)
  }

  /** Every grammatical condition group is read as a condition on its field text. */
  lemma ConditionOfGrammar(fts: seq<string>, op: string, v: Scalar)
    requires IsFieldTokens(fts)
    ensures ConditionOf(Leaves(fts) + [Leaf(Str(op)), Leaf(v)]) == Ok(Condition(Concat(fts), op, v))
  {
    var items := Leaves(fts) + [Leaf(Str(op)), Leaf(v)];
    assert items[..|items| - 2] == Leaves(fts);
    ConcatField(fts);
  }

  /** The token `AND` or `OR`. */
  predicate IsLogicalToken(pr: PR) {
    pr == Leaf(Str("AND")) || pr == Leaf(Str("OR"))
  }

  /**
    One left-associative level of `infixNotation`: `[e1, op1, e2, ..., en]`
    of odd length at least three, with `AND` or `OR` at every odd position.
  */
  predicate IsLogicalChain(items: seq<PR>) {
    && |items| >= 3 && |items| % 2 == 1
    && forall i :: 0 <= i < |items| && i % 2 == 1 ==> IsLogicalToken(items[i])
  }

  /**
    `_build_ast`: a token is returned as it is, a singleton group unwraps,
    a chain of `AND`/`OR` builds into logical nodes and any other group is
    read as a condition.
  */
  function BuildAst(pr: PR): Result<Expr, Failure>
    decreases pr
  {
    match pr
    case Leaf(t) => Ok(Bare(t))
    case Group(items) =>
      if |items| == 1 then BuildAst(items[0])
      else if IsLogicalChain(items) then BuildChain(pr, |items|)
      else ConditionOf(items)
  }

  /**
    The left fold of the first `n` elements of a chain: `e1 op1 e2` first,
    then each further operator over the node built so far and the next operand.
  */
  function BuildChain(g: PR, n: nat): Result<Expr, Failure>
    requires g.Group? && IsLogicalChain(g.items) && n <= |g.items| && n % 2 == 1
    decreases g, n
  {
    if n == 1 then BuildAst(g.items[0])
    else
      var l :- BuildChain(g, n - 2);
      var r :- BuildAst(g.items[n - 1]);
      Ok(Logical(g.items[n - 2].tok.s, l, r))
  }

  /**
    A token is returned as it is; a singleton group unwraps to its element;
    a chain gives a logical node whenever it builds; every other group gives
    a condition or fails.
  */
  lemma BuildAstShape(pr: PR)
    ensures pr.Leaf? ==> BuildAst(pr) == Ok(Bare(pr.tok))
    ensures pr.Group? && |pr.items| == 1 ==> BuildAst(pr) == BuildAst(pr.items[0])
    ensures pr.Group? && |pr.items| != 1 && IsLogicalChain(pr.items) && BuildAst(pr).Ok? ==>
      BuildAst(pr).value.Logical? && BuildAst(pr).value.op == pr.items[|pr.items| - 2].tok.s
    ensures pr.Group? && |pr.items| != 1 && !IsLogicalChain(pr.items) ==>
      BuildAst(pr) == ConditionOf(pr.items) && (BuildAst(pr).Ok? ==> BuildAst(pr).value.Condition?)
  {
  }

  /** Folding the first `m` elements of a chain does not look past them. */
  lemma {:induction false} BuildChainPrefix(items: seq<PR>, k: nat, m: nat)
    requires IsLogicalChain(items) && 3 <= k <= |items| && k % 2 == 1
    requires m <= k && m % 2 == 1
    ensures IsLogicalChain(items[..k])
    ensures BuildChain(Group(items), m) == BuildChain(Group(items[..k]), m)
    decreases m
  {
    assert forall i :: 0 <= i < k ==> items[..k][i] == items[i];
    if m > 1 {
      BuildChainPrefix(items, k, m - 2);
    }
  }

  /**
    A chain `[e1, op1, ..., e(n-1), op, en]` builds left-associatively: into
    `op` over the chain without its last operator and operand (a single
    operand when that chain is `[e1]`) and over `en`, and it builds exactly
    when both of those do.
  */
  lemma ChainLeftFold(items: seq<PR>)
    requires IsLogicalChain(items)
    ensures BuildAst(Group(items)).Ok? <==>
      BuildAst(Group(items[..|items| - 2])).Ok? && BuildAst(items[|items| - 1]).Ok?
    ensures BuildAst(Group(items)).Ok? ==>
      BuildAst(Group(items)).value ==
        Logical(items[|items| - 2].tok.s, BuildAst(Group(items[..|items| - 2])).value, BuildAst(items[|items| - 1]).value)
  {
    var n := |items|;
    assert BuildAst(Group(items)) == BuildChain(Group(items), n);
    if n - 2 == 1 {
      assert BuildChain(Group(items), 1) == BuildAst(items[0]);
      assert BuildAst(Group(items[..n - 2])) == BuildAst(items[0]);
    } else {
      BuildChainPrefix(items, n - 2, n - 2);
      assert BuildAst(Group(items[..n - 2])) == BuildChain(Group(items[..n - 2]), n - 2);
    }
  }

  /** A prefix of a chain builds exactly when each of its operands builds. */
  lemma {:induction false} BuildChainOk(g: PR, n: nat)
    requires g.Group? && IsLogicalChain(g.items) && n <= |g.items| && n % 2 == 1
    ensures BuildChain(g, n).Ok? <==> forall i :: 0 <= i < n && i % 2 == 0 ==> BuildAst(g.items[i]).Ok?
    decreases n
  {
    if n > 1 {
      BuildChainOk(g, n - 2);
    }
  }

  /** A chain builds exactly when every operand does. */
  lemma ChainBuilds(items: seq<PR>)
    requires IsLogicalChain(items)
    ensures BuildAst(Group(items)).Ok? <==> forall i :: 0 <= i < |items| && i % 2 == 0 ==> BuildAst(items[i]).Ok?
  {
    BuildChainOk(Group(items), |items|);
  }

  /** Every grammatical condition builds into a condition on its field text, and compiles. */
  lemma GrammarConditionCompiles(fts: seq<string>, op: string, v: Scalar)
    requires IsFieldTokens(fts) && op in ComparisonOps
    ensures BuildAst(ConditionGroup(fts, op, v)) == Ok(Condition(Concat(fts), op, v))
    ensures ToQuery(Condition(Concat(fts), op, v)).Ok?
    ensures DecodeNested(ToQuery(Condition(Concat(fts), op, v)).value).Some? <==> |fts| == 3
  {
    var items := Leaves(fts) + [Leaf(Str(op)), Leaf(v)];
    assert items[1] != Leaf(Str("AND")) && items[1] != Leaf(Str("OR"));
    assert !IsLogicalChain(items);
    ConditionOfGrammar(fts, op, v);
    assert BuildAst(ConditionGroup(fts, op, v)) == ConditionOf(items);
    FieldKind(fts);
    if |fts| == 3 {
      ConcatField(fts);
      NestedFieldLowering(Concat(fts), fts[0], fts[2], op, v);
    } else {
      FlatFieldLowering(Concat(fts), op, v);
    }
  }

  /** Two grammatical conditions joined by `AND` or `OR` build into a logical node over both, and compile. */
  lemma GrammarLogicalCompiles(f1: seq<string>, o1: string, v1: Scalar, lop: string, f2: seq<string>, o2: string, v2: Scalar)
    requires IsFieldTokens(f1) && o1 in ComparisonOps
    requires IsFieldTokens(f2) && o2 in ComparisonOps
    requires lop in LogicalOps
    ensures BuildAst(Group([ConditionGroup(f1, o1, v1), Leaf(Str(lop)), ConditionGroup(f2, o2, v2)])) ==
      Ok(Logical(lop, Condition(Concat(f1), o1, v1), Condition(Concat(f2), o2, v2)))
    ensures ToQuery(Logical(lop, Condition(Concat(f1), o1, v1), Condition(Concat(f2), o2, v2))).Ok?
  {
    var items := [ConditionGroup(f1, o1, v1), Leaf(Str(lop)), ConditionGroup(f2, o2, v2)];
    assert IsLogicalChain(items);
    ChainLeftFold(items);
    assert items[..1] == [ConditionGroup(f1, o1, v1)];
    GrammarConditionCompiles(f1, o1, v1);
    GrammarConditionCompiles(f2, o2, v2);
  }

  /**
    Three grammatical conditions, which the grammar keeps as one flat group,
    build left-associatively: `c1 op1 c2 op2 c3` is `(c1 op1 c2) op2 c3`.
    The result compiles.
  */
  lemma GrammarChainCompiles(f1: seq<string>, o1: string, v1: Scalar, l1: string,
                             f2: seq<string>, o2: string, v2: Scalar, l2: string,
                             f3: seq<string>, o3: string, v3: Scalar)
    requires IsFieldTokens(f1) && o1 in ComparisonOps
    requires IsFieldTokens(f2) && o2 in ComparisonOps
    requires IsFieldTokens(f3) && o3 in ComparisonOps
    requires l1 in LogicalOps && l2 in LogicalOps
    ensures BuildAst(Group([ConditionGroup(f1, o1, v1), Leaf(Str(l1)), ConditionGroup(f2, o2, v2),
                            Leaf(Str(l2)), ConditionGroup(f3, o3, v3)])) ==
      Ok(Logical(l2, Logical(l1, Condition(Concat(f1), o1, v1), Condition(Concat(f2), o2, v2)),
                 Condition(Concat(f3), o3, v3)))
    ensures ToQuery(Logical(l2, Logical(l1, Condition(Concat(f1), o1, v1), Condition(Concat(f2), o2, v2)),
                            Condition(Concat(f3), o3, v3))).Ok?
  {
    var items := [ConditionGroup(f1, o1, v1), Leaf(Str(l1)), ConditionGroup(f2, o2, v2),
                  Leaf(Str(l2)), ConditionGroup(f3, o3, v3)];
    assert IsLogicalChain(items);
    ChainLeftFold(items);
    assert items[..3] == [ConditionGroup(f1, o1, v1), Leaf(Str(l1)), ConditionGroup(f2, o2, v2)];
    GrammarLogicalCompiles(f1, o1, v1, l1, f2, o2, v2);
    GrammarConditionCompiles(f3, o3, v3);
  }

  // ---------------------------------------------------------------------
  // ORDER BY and LIMIT
  // ---------------------------------------------------------------------

  /** `_parse_order_by(["ORDER BY", Group(field + [direction])])`: `[{field: {"order": direction.lower()}}]`. */
  function ParseOrderBy(clause: seq<PR>): Result<Json, Failure> {
    if |clause| < 2 || !clause[1].Group? || |clause[1].items| < 2 then Err(MalformedClause)
    else
      var g := clause[1].items;
      var dir := g[|g| - 1];
      match FieldOf(g[..|g| - 1])
      case Some(f) =>
        if IsWord(dir) then Ok(Arr([Single(f, Single("order", JStr(Lower(dir.tok.s))))]))
        else Err(MalformedClause)
      case None => Err(MalformedClause)
  }

  /**
    For a grammatical sort clause the result is one entry on the field's
    text, ordered `"asc"` or `"desc"` as the direction says, `"asc"` when
    the direction is omitted.
  */
  lemma OrderByDirection(fts: seq<string>, dir: Option<string>, rest: seq<PR>)
    requires IsFieldTokens(fts)
    requires dir.Some? ==> dir.value in Directions
    ensures ParseOrderBy([OrderByKeyword, OrderGroup(fts, dir)] + rest) ==
      Ok(Arr([Single(Concat(fts), Single("order", JStr(if dir == Some("DESC") then "desc" else "asc")))]))
  {
    var g := OrderGroup(fts, dir).items;
    assert g[..|g| - 1] == Leaves(fts);
    ConcatField(fts);
    if dir == Some("DESC") {
      assert Lower("DESC") == "desc";
    } else {
      assert Lower("ASC") == "asc";
    }
  }

  /** `_parse_limit(["LIMIT", n])`: the token after the keyword. */
  function ParseLimit(clause: seq<PR>): (r: Result<Json, Failure>)
    ensures r.Ok? <==> |clause| >= 2 && clause[1].Leaf?
    ensures r.Ok? ==> r.value == Atom(clause[1].tok)
  {
    if |clause| >= 2 && clause[1].Leaf? then Ok(Atom(clause[1].tok)) else Err(MalformedClause)
  }

  // ---------------------------------------------------------------------
  // parse_filter_expression
  // ---------------------------------------------------------------------

  predicate HasOrderBy(parsed: seq<PR>) {
    |parsed| > 1 && OrderByKeyword in parsed[1..]
  }

  predicate HasLimit(parsed: seq<PR>) {
    LimitKeyword in parsed
  }

  /** The `LIMIT` clause: the last two results (`parsed[-2:]`). */
  function LimitClause(parsed: seq<PR>): seq<PR> {
    parsed[if |parsed| >= 2 then |parsed| - 2 else 0..]
  }

  /**
    `parse_filter_expression`: `parsed` is what the grammar produced for
    `input`, or None when it rejected it. The result is `{query, sort, size}`,
    or a single ValueError naming the input for any failure on the way.
  */
  function ParseFilterExpression(input: string, parsed: Option<seq<PR>>): (r: Result<Json, ValueError>)
    ensures r.Err? ==> r.error == ValueError(ErrorPrefix + input)
    ensures r.Ok? <==>
      && parsed.Some? && |parsed.value| > 0
      && BuildAst(parsed.value[0]).Ok? && ToQuery(BuildAst(parsed.value[0]).value).Ok?
      && (HasOrderBy(parsed.value) ==> ParseOrderBy(parsed.value[1..]).Ok?)
      && (HasLimit(parsed.value) ==> ParseLimit(LimitClause(parsed.value)).Ok?)
    ensures r.Ok? ==> Keys(r.value) == ["query", "sort", "size"]
    ensures r.Ok? ==> Decompile(Lookup(r.value, "query").value) == Some(BuildAst(parsed.value[0]).value)
    ensures r.Ok? ==> (Lookup(r.value, "sort") == Some(Null) <==> !HasOrderBy(parsed.value))
    ensures r.Ok? ==> (Lookup(r.value, "size") == Some(Null) <==> !HasLimit(parsed.value))
    ensures r.Ok? && HasOrderBy(parsed.value) ==>
      Lookup(r.value, "sort") == Some(ParseOrderBy(parsed.value[1..]).value)
    ensures r.Ok? && HasLimit(parsed.value) ==>
      Lookup(r.value, "size") == Some(ParseLimit(LimitClause(parsed.value)).value)
  {
    if parsed.None? || |parsed.value| == 0 then Err(ValueError(ErrorPrefix + input))
    else
      var p := parsed.value;
      var ast := BuildAst(p[0]);
      var sort := if HasOrderBy(p) then Some(ParseOrderBy(p[1..])) else None;
      var size := if HasLimit(p) then Some(ParseLimit(LimitClause(p))) else None;
      if ast.Err? || ToQuery(ast.value).Err? || (sort.Some? && sort.value.Err?) || (size.Some? && size.value.Err?)
      then Err(ValueError(ErrorPrefix + input))
      else
        var q := ToQuery(ast.value).value;
        DecompileToQuery(ast.value);
        var s := if sort.Some? then sort.value.value else Null;
        var z := if size.Some? then size.value.value else Null;
        var result := Obj([("query", q), ("sort", s), ("size", z)]);
        assert Lookup(result, "query") == Some(q);
        assert Lookup(result, "sort") == Some(s);
        assert Lookup(Obj([("size", z)]), "size") == Some(z);
        assert Lookup(result, "size") == Some(z);
        Ok(result)
  }

  /**
    A query whose parse ends in `LIMIT n` has `n` as its size, whenever the
    rest of it compiles.
  */
  lemma LimitReachesSize(input: string, parsed: seq<PR>, n: Scalar)
    requires |parsed| >= 3 && parsed[|parsed| - 2] == LimitKeyword && parsed[|parsed| - 1] == Leaf(n)
    ensures ParseFilterExpression(input, Some(parsed)).Ok? ==>
      Lookup(ParseFilterExpression(input, Some(parsed)).value, "size") == Some(Atom(n))
  {
    assert HasLimit(parsed);
    assert LimitClause(parsed) == [LimitKeyword, Leaf(n)];
  }

  // ---------------------------------------------------------------------
  // End to end: the shape of the module's own demonstration query
  // ---------------------------------------------------------------------

  /**
    The parse of `f1 o1 v1 AND|OR f2 o2 v2 ORDER BY s [dir] LIMIT n`, the
    shape of the module's demonstration queries. (The first of them,
    `metrics.accuracy >= 0.9 AND ...`, is itself rejected by the grammar,
    whose number literals are digits only; see `AsWritten.DecimalRejectedAsWritten`.)
  */
  function FullParse(c1: seq<string>, o1: string, v1: Scalar, lop: string, c2: seq<string>, o2: string, v2: Scalar,
                     s: seq<string>, dir: Option<string>, n: Scalar): seq<PR> {
    [Group([Group([ConditionGroup(c1, o1, v1), Leaf(Str(lop)), ConditionGroup(c2, o2, v2)])]),
     OrderByKeyword, OrderGroup(s, dir), LimitKeyword, Leaf(n)]
  }

  /**
    Such a query compiles to the `bool` node over the two conditions'
    queries, a one-entry sort on the sort field and the limit as size.
  */
  lemma FullQueryCompiles(input: string, c1: seq<string>, o1: string, v1: Scalar, lop: string,
                          c2: seq<string>, o2: string, v2: Scalar, s: seq<string>, dir: Option<string>, n: Scalar)
    requires IsFieldTokens(c1) && o1 in ComparisonOps
    requires IsFieldTokens(c2) && o2 in ComparisonOps
    requires lop in LogicalOps
    requires IsFieldTokens(s) && (dir.Some? ==> dir.value in Directions)
    ensures ParseFilterExpression(input, Some(FullParse(c1, o1, v1, lop, c2, o2, v2, s, dir, n))) == Ok(Obj([
      ("query", BoolQuery(Clause(lop),
         ToQuery(Condition(Concat(c1), o1, v1)).value,
         ToQuery(Condition(Concat(c2), o2, v2)).value)),
      ("sort", Arr([Single(Concat(s), Single("order", JStr(if dir == Some("DESC") then "desc" else "asc")))])),
      ("size", Atom(n))]))
  {
    var p := FullParse(c1, o1, v1, lop, c2, o2, v2, s, dir, n);
    var g := Group([ConditionGroup(c1, o1, v1), Leaf(Str(lop)), ConditionGroup(c2, o2, v2)]);
    GrammarLogicalCompiles(c1, o1, v1, lop, c2, o2, v2);
    assert BuildAst(p[0]) == BuildAst(g);
    OrderByDirection(s, dir, [LimitKeyword, Leaf(n)]);
    assert p[1..] == [OrderByKeyword, OrderGroup(s, dir)] + [LimitKeyword, Leaf(n)];
    assert p[1..][0] == OrderByKeyword;
    assert p[3] == LimitKeyword;
    assert LimitClause(p) == [LimitKeyword, Leaf(n)];
  }
}
