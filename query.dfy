/**
  The query compiler: condition and logical nodes of the filter AST and their
  lowering to an OpenSearch-shaped boolean query (`Condition.to_query`,
  `Condition._build_condition`, `LogicalOperation.to_query`).
*/
module Query {
  import opened Wrappers
  import opened Json
  import opened Strings

  /** The six keys of the comparison operator table. */
  const ComparisonOps: set<string> := {"=", "!=", ">", ">=", "<", "<="}

  /** The two keys of the logical operator table. */
  const LogicalOps: set<string> := {"AND", "OR"}

  /**
    A node of the filter AST. `Bare` is a value that is not a node: what the
    front end hands on when it meets a token outside any group.
  */
  datatype Expr =
    | Condition(field: string, op: string, value: Scalar)
    | Logical(op: string, left: Expr, right: Expr)
    | Bare(tok: Scalar)

  datatype Error =
    | KeyError(key: string)   // an operator missing from its table
    | NotANode                // `to_query` called on something that is not a node

  /** The range bound used for a range operator. */
  function RangeBound(op: string): string
    requires op in {">", ">=", "<", "<="}
  {
    if op == ">" then "gt" else if op == ">=" then "gte" else if op == "<" then "lt" else "lte"
  }

  /** The clause of a `bool` query used for a logical operator. */
  function Clause(op: string): string
    requires op in LogicalOps
  {
    if op == "AND" then "must" else "should"
  }

  function Term(f: string, v: Scalar): Json {
    Single("term", Single(f, Atom(v)))
  }

  function NotTerm(f: string, v: Scalar): Json {
    Single("bool", Single("must_not", Term(f, v)))
  }

  function RangeTest(f: string, bound: string, v: Scalar): Json {
    Single("range", Single(f, Single(bound, Atom(v))))
  }

  /** The `nested` wrapper: a key `term` on `<path>.key`, then the value test. */
  function Nested(path: string, key: string, test: Json): Json {
    Single("nested", Obj([
      ("path", JStr(path)),
      ("query", Single("bool", Single("must", Arr([Term(path + ".key", Str(key)), test]))))]))
  }

  function BoolQuery(clause: string, l: Json, r: Json): Json {
    Single("bool", Single(clause, Arr([l, r])))
  }

  /** `_build_condition(field)`: the value test of one comparison. */
  function BuildCondition(f: string, op: string, v: Scalar): (r: Result<Json, Error>)
    ensures r.Ok? <==> op in ComparisonOps
    ensures r.Err? ==> r.error == KeyError(op)
    ensures r.Ok? ==> DecodeTest(r.value) == Some((f, op, v))
  {
    if op == "=" then Ok(Term(f, v))
    else if op == "!=" then Ok(NotTerm(f, v))
    else if op in {">", ">=", "<", "<="} then Ok(RangeTest(f, RangeBound(op), v))
    else Err(KeyError(op))
  }

  /** `to_query` of a node. */
  function ToQuery(e: Expr): Result<Json, Error> {
    match e
    case Condition(field, op, v) =>
      var parts := Split(field);
      if |parts| == 2 then
        var test :- BuildCondition(parts[0] + ".value", op, v);
        Ok(Nested(parts[0], parts[1], test))
      else
        BuildCondition(field, op, v)
    case Logical(op, l, r) =>
      if op !in LogicalOps then Err(KeyError(op))
      else
        var lq :- ToQuery(l);
        var rq :- ToQuery(r);
        Ok(BoolQuery(Clause(op), lq, rq))
    case Bare(_) => Err(NotANode)
  }

  // ---------------------------------------------------------------------
  // Decompiler: reads a compiled query back into the node it came from.
  // ---------------------------------------------------------------------

  /** The only member of a one-member dict. */
  function Only(j: Json): Option<(string, Json)> {
    if j.Obj? && |j.members| == 1 then Some(j.members[0]) else None
  }

  /** Reads `{"term": {f: v}}`. */
  function DecodeTerm(j: Json): Option<(string, Scalar)> {
    match Only(j)
    case Some((k, body)) =>
      if k != "term" then None
      else (match Only(body)
            case Some((f, val)) => if val.Atom? then Some((f, val.a)) else None
            case None => None)
    case None => None
  }

  /** The comparison operator whose range bound is b, if any. */
  function BoundOp(b: string): Option<string> {
    if b == "gt" then Some(">") else if b == "gte" then Some(">=")
    else if b == "lt" then Some("<") else if b == "lte" then Some("<=") else None
  }

  /** Reads a value test back into (field, operator, value). */
  function DecodeTest(j: Json): Option<(string, string, Scalar)> {
    match Only(j)
    case None => None
    case Some((k, body)) =>
      if k == "term" then
        (match DecodeTerm(j) case Some((f, v)) => Some((f, "=", v)) case None => None)
      else if k == "bool" then
        (match Only(body)
         case Some((c, t)) =>
           if c != "must_not" then None
           else (match DecodeTerm(t) case Some((f, v)) => Some((f, "!=", v)) case None => None)
         case None => None)
      else if k == "range" then
        (match Only(body)
         case Some((f, bounds)) =>
           (match Only(bounds)
            case Some((b, val)) =>
              (match BoundOp(b)
               case Some(op) => if val.Atom? then Some((f, op, val.a)) else None
               case None => None)
            case None => None)
         case None => None)
      else None
  }

  /** Reads a `nested` wrapper back into (path, key, value test). */
  function DecodeNested(j: Json): Option<(string, string, Json)> {
    match Only(j)
    case None => None
    case Some((k, body)) =>
      if k != "nested" || !body.Obj? || |body.members| != 2 then None
      else
        var (pk, pv) := body.members[0];
        var (qk, qv) := body.members[1];
        if pk != "path" || qk != "query" || !pv.Atom? || !pv.a.Str? then None
        else
          var path := pv.a.s;
          (match Only(qv)
           case Some((b, inner)) =>
             if b != "bool" then None
             else (match Only(inner)
                   case Some((m, list)) =>
                     if m != "must" || !list.Arr? || |list.items| != 2 then None
                     else (match DecodeTerm(list.items[0])
                           case Some((kf, kv)) =>
                             if kf == path + ".key" && kv.Str? then Some((path, kv.s, list.items[1])) else None
                           case None => None)
                   case None => None)
           case None => None)
  }

  /** The logical operator whose bool clause is c, if any. */
  function ClauseOp(c: string): Option<string> {
    if c == "must" then Some("AND") else if c == "should" then Some("OR") else None
  }

  /** Reads a compiled query back into a node; None for anything `ToQuery` cannot produce. */
  function Decompile(j: Json): Option<Expr>
    decreases j
  {
    match DecodeTest(j)
    case Some((f, op, v)) =>
      if |Split(f)| == 2 then None else Some(Condition(f, op, v))
    case None =>
      match DecodeNested(j)
      case Some((path, key, test)) =>
        (match DecodeTest(test)
         case Some((f, op, v)) =>
           if f == path + ".value" && '.' !in path && '.' !in key
           then Some(Condition(path + "." + key, op, v)) else None
         case None => None)
      case None =>
        if !j.Obj? || |j.members| != 1 then None
        else
          var (b, body) := j.members[0];
          if b != "bool" || !body.Obj? || |body.members| != 1 then None
          else
            var (c, list) := body.members[0];
            if !list.Arr? || |list.items| != 2 || ClauseOp(c).None? then None
            else
              var l :- Decompile(list.items[0]);
              var r :- Decompile(list.items[1]);
              Some(Logical(ClauseOp(c).value, l, r))
  }

  // ---------------------------------------------------------------------
  // The decompiler is an exact inverse of the compiler.
  // ---------------------------------------------------------------------

  lemma OnlySound(j: Json, k: string, body: Json)
    requires Only(j) == Some((k, body))
    ensures j == Single(k, body)
  {
    assert j.members == [(k, body)];
  }

  lemma DecodeTermSound(j: Json, f: string, v: Scalar)
    requires DecodeTerm(j) == Some((f, v))
    ensures j == Term(f, v)
  {
    var (k, body) := Only(j).value;
    OnlySound(j, k, body);
    OnlySound(body, f, Atom(v));
  }

  /** A value test read back compiles to itself: the operator table is inverted exactly. */
  lemma DecodeTestSound(j: Json, f: string, op: string, v: Scalar)
    requires DecodeTest(j) == Some((f, op, v))
    ensures BuildCondition(f, op, v) == Ok(j)
  {
    var (k, body) := Only(j).value;
    OnlySound(j, k, body);
    if k == "term" {
      DecodeTermSound(j, f, v);
    } else if k == "bool" {
      var (c, t) := Only(body).value;
      OnlySound(body, c, t);
      DecodeTermSound(t, f, v);
    } else {
      var (f', bounds) := Only(body).value;
      OnlySound(body, f', bounds);
      var (b, val) := Only(bounds).value;
      OnlySound(bounds, b, val);
      assert BoundOp(b) == Some(op);
    }
  }

  lemma DecodeNestedSound(j: Json, path: string, key: string, test: Json)
    requires DecodeNested(j) == Some((path, key, test))
    ensures j == Nested(path, key, test)
  {
    var (k, body) := Only(j).value;
    OnlySound(j, k, body);
    var qv := body.members[1].1;
    var (b, inner) := Only(qv).value;
    OnlySound(qv, b, inner);
    var (m, list) := Only(inner).value;
    OnlySound(inner, m, list);
    var kv := DecodeTerm(list.items[0]).value;
    DecodeTermSound(list.items[0], path + ".key", kv.1);
    assert kv.1 == Str(key);
    assert list.items == [Term(path + ".key", Str(key)), test];
    assert body.members[0] == ("path", JStr(path));
    assert body.members[1] == ("query", Single("bool", Single("must", list)));
    assert body.members == [body.members[0], body.members[1]];
  }

  /** Compiling a node and reading the query back gives the node. */
  lemma {:induction false} DecompileToQuery(e: Expr)
    requires ToQuery(e).Ok?
    ensures Decompile(ToQuery(e).value) == Some(e)
  {
    match e
    case Condition(field, op, v) =>
      var parts := Split(field);
      if |parts| == 2 {
        var test := BuildCondition(parts[0] + ".value", op, v).value;
        SplitPiecesDotFree(field);
        JoinSplit(field);
        assert Join(parts) == parts[0] + "." + parts[1];
        var j := Nested(parts[0], parts[1], test);
        assert DecodeTest(j) == None;
        assert DecodeNested(j) == Some((parts[0], parts[1], test));
      }
    case Logical(op, l, r) =>
      DecompileToQuery(l);
      DecompileToQuery(r);
      var j := BoolQuery(Clause(op), ToQuery(l).value, ToQuery(r).value);
      assert DecodeTest(j) == None;
      assert DecodeNested(j) == None;
  }

  /** Every query the decompiler accepts is exactly the compilation of the node it returns. */
  lemma {:induction false} ToQueryDecompile(j: Json)
    requires Decompile(j).Some?
    ensures ToQuery(Decompile(j).value) == Ok(j)
    decreases j
  {
    match DecodeTest(j)
    case Some((f, op, v)) =>
      DecodeTestSound(j, f, op, v);
    case None =>
      match DecodeNested(j)
      case Some((path, key, test)) =>
        var (f, op, v) := DecodeTest(test).value;
        DecodeTestSound(test, f, op, v);
        DecodeNestedSound(j, path, key, test);
        SplitPair(path, key);
      case None =>
        var (b, body) := j.members[0];
        var (c, list) := body.members[0];
        ToQueryDecompile(list.items[0]);
        ToQueryDecompile(list.items[1]);
        assert list.items == [list.items[0], list.items[1]];
        assert body.members == [(c, list)];
        assert j.members == [(b, body)];
        assert Clause(ClauseOp(c).value) == c;
  }

  /** Compilation and decompilation are inverse: `e` compiles to `j` exactly when `j` reads back as `e`. */
  lemma CompileIffDecompile(e: Expr, j: Json)
    ensures ToQuery(e) == Ok(j) <==> Decompile(j) == Some(e)
  {
    if ToQuery(e) == Ok(j) {
      DecompileToQuery(e);
    }
    if Decompile(j) == Some(e) {
      ToQueryDecompile(j);
    }
  }

  // ---------------------------------------------------------------------
  // The lowering rules, one lemma each.
  // ---------------------------------------------------------------------

  /**
    A field of exactly two dotted pieces `path.key` becomes a `nested` query on
    `path` whose `must` list is the key term on `path.key` followed by the value
    test, and the value test targets `path.value` whatever the operator.
  */
  lemma NestedFieldLowering(field: string, path: string, key: string, op: string, v: Scalar)
    requires Split(field) == [path, key]
    requires op in ComparisonOps
    ensures ToQuery(Condition(field, op, v)).Ok?
    ensures DecodeNested(ToQuery(Condition(field, op, v)).value).Some?
    ensures var (p, k, test) := DecodeNested(ToQuery(Condition(field, op, v)).value).value;
      p == path && k == key && DecodeTest(test) == Some((path + ".value", op, v))
  {
    var test := BuildCondition(path + ".value", op, v).value;
    assert DecodeNested(Nested(path, key, test)) == Some((path, key, test));
  }

  /** Any other field is tested directly under its unchanged name, with no `nested` wrapper. */
  lemma FlatFieldLowering(field: string, op: string, v: Scalar)
    requires |Split(field)| != 2
    requires op in ComparisonOps
    ensures ToQuery(Condition(field, op, v)).Ok?
    ensures DecodeNested(ToQuery(Condition(field, op, v)).value) == None
    ensures DecodeTest(ToQuery(Condition(field, op, v)).value) == Some((field, op, v))
  {
  }

  /** A comparison fails exactly when its operator is outside the table, and the error names it. */
  lemma ConditionErrors(field: string, op: string, v: Scalar)
    ensures ToQuery(Condition(field, op, v)).Err? <==> op !in ComparisonOps
    ensures ToQuery(Condition(field, op, v)).Err? ==> ToQuery(Condition(field, op, v)).error == KeyError(op)
  {
  }

  /**
    `AND` gives `bool.must` and `OR` gives `bool.should`, over exactly the two
    children's queries, left then right; any other operator is a KeyError.
  */
  lemma LogicalLowering(op: string, l: Expr, r: Expr)
    ensures ToQuery(Logical(op, l, r)).Ok? <==> op in LogicalOps && ToQuery(l).Ok? && ToQuery(r).Ok?
    ensures op !in LogicalOps ==> ToQuery(Logical(op, l, r)) == Err(KeyError(op))
    ensures ToQuery(Logical(op, l, r)).Ok? ==>
      var q := ToQuery(Logical(op, l, r)).value;
      Keys(q) == ["bool"] &&
      Keys(Lookup(q, "bool").value) == [if op == "AND" then "must" else "should"] &&
      Lookup(Lookup(q, "bool").value, Clause(op)) == Some(Arr([ToQuery(l).value, ToQuery(r).value]))
  {
  }
}
