/**
 * The AdaptableQL expression compiler (`buildQueryASTWherePart` in
 * server/SqlService.ts): a recursive translation of the query AST into a SQL
 * boolean expression by substituting the compiled arguments of each node into
 * a fixed template.
 *
 * The source reads the AST as untyped JSON. `args[1].split` of an IN node
 * with fewer than two arguments throws a TypeError, and that is an `Err` here.
 * A COL node whose first argument is not a string is also an `Err` here. The
 * source hands back that raw value, and throws for it only where it becomes
 * IN's list (`.split`) or CONTAINS's pattern (`?.replace`). Where a template
 * renders it (a number as its digits), or where the top-level `astPart.length`
 * test drops it, the source does not throw. Every node's arguments are
 * compiled before its operator is looked at, so an error anywhere below a node
 * is an error of the node.
 */
module Expressions {
  import opened Text
  import opened Js
  import opened Europe

  /** The query AST: JSON literals, arrays, and operator nodes `{type, args}`. */
  datatype Ast =
    | AstString(s: string)
    | AstNumber(n: int)
    | AstBoolean(b: bool)
    | AstArray(items: seq<Ast>)
    | AstNode(kind: string, args: seq<Ast>)

  /** `${args[k]}`: the k-th compiled argument, or "undefined" past the end. */
  function Arg(args: seq<string>, k: nat): (r: string)
    ensures k < |args| ==> r == args[k]
    ensures k >= |args| ==> r == "undefined"
  {
    if k < |args| then args[k] else "undefined"
  }

  /** The IN operator: one `lhs = v` per space-separated word of the compiled list, OR-ed. */
  function InSql(lhs: string, list: string): string
  {
    Join(Render(Split(list, ' '), (v: string) => lhs + " = " + v), " OR ")
  }

  /** The infix text of the two-argument operators. */
  const BinaryOperators: map<string, string> :=
    map["EQ" := " = ", "NEQ" := " != ", "GT" := " > ", "LT" := " < ", "GTE" := " >= ",
        "OR" := " OR ", "AND" := " AND "]

  /** Substitutes the compiled arguments `args` of a node of type `kind` into its template. */
  function Apply(kind: string, rawArgs: seq<Ast>, args: seq<string>): (r: Result<string>)
    ensures r.Err? <==>
      || (kind == "COL" && !(|rawArgs| > 0 && rawArgs[0].AstString?))
      || (kind == "IN" && |args| < 2)
  {
    if kind == "COL" then
      (if |rawArgs| > 0 && rawArgs[0].AstString? then Ok(rawArgs[0].s)
       else Err(TypeError("COL without a column name")))
    else if kind == "EQ" then Ok(Arg(args, 0) + " = " + Arg(args, 1))
    else if kind == "NEQ" then Ok(Arg(args, 0) + " != " + Arg(args, 1))
    else if kind == "GT" then Ok(Arg(args, 0) + " > " + Arg(args, 1))
    else if kind == "LT" then Ok(Arg(args, 0) + " < " + Arg(args, 1))
    else if kind == "GTE" then Ok(Arg(args, 0) + " >= " + Arg(args, 1))
    else if kind == "OR" then Ok(Arg(args, 0) + " OR " + Arg(args, 1))
    else if kind == "AND" then Ok(Arg(args, 0) + " AND " + Arg(args, 1))
    else if kind == "NOT" then Ok("IS NOT " + Arg(args, 0))
    else if kind == "BETWEEN" then
      Ok(Arg(args, 0) + " >= " + Arg(args, 1) + " AND " + Arg(args, 0) + " <= " + Arg(args, 2))
    else if kind == "IN" then
      (if |args| < 2 then Err(TypeError("reading 'split' of undefined")) else Ok(InSql(args[0], args[1])))
    else if kind == "IS_BLANK" then Ok(Arg(args, 0) + " IS NULL")
    else if kind == "CONTAINS" then Ok(Arg(args, 0) + " LIKE '%" + RemoveQuotes(Arg(args, 1)) + "%'")
    else if kind == "STARTS_WITH" then Ok(Arg(args, 0) + " LIKE '" + Arg(args, 1) + "%'")
    else if kind == "ENDS_WITH" then Ok(Arg(args, 0) + " LIKE '%" + Arg(args, 1) + "'")
    else if kind == "FROM_EUROPE" then Ok(FromEuropeSql())
    else Ok("")
  }

  /**
   * `buildQueryASTWherePart`. A literal always compiles, a number to text that
   * reads back as the number; an error in an argument is an error of its node.
   */
  function Compile(a: Ast): (r: Result<string>)
    ensures a.AstNumber? ==> r.Ok? && ParseInt(r.value) == a.n
    ensures a.AstString? || a.AstBoolean? ==> r.Ok? && |r.value| > 0
    ensures a.AstNode? && CompileAll(a.args).Err? ==> r.Err?
    ensures a.AstNode? && a.kind == "IN" && |a.args| < 2 ==> r.Err?
    decreases a
  {
    match a
    case AstString(s) => Ok("\"" + s + "\"")
    case AstNumber(n) => ParseIntToString(n); Ok(IntToString(n))
    case AstBoolean(b) => Ok(if b then "TRUE" else "FALSE")
    case AstArray(items) =>
      var parts :- CompileAll(items);
      Ok(Join(parts, " "))
    case AstNode(kind, rawArgs) =>
      var args :- CompileAll(rawArgs);
      Apply(kind, rawArgs, args)
  }

  /** `items.map(buildQueryASTWherePart)`, which stops at the first error. */
  function CompileAll(items: seq<Ast>): (r: Result<seq<string>>)
    ensures r.Ok? ==> |r.value| == |items|
    decreases items
  {
    if |items| == 0 then Ok([])
    else
      var first :- Compile(items[0]);
      var rest :- CompileAll(items[1..]);
      Ok([first] + rest)
  }

  /**
   * The ASTs the compiler accepts: every COL node names its column with a
   * string, and every IN node has a list argument.
   */
  predicate WellFormed(a: Ast)
    decreases a
  {
    match a
    case AstString(_) => true
    case AstNumber(_) => true
    case AstBoolean(_) => true
    case AstArray(items) => forall i :: 0 <= i < |items| ==> WellFormed(items[i])
    case AstNode(kind, args) =>
      && (forall i :: 0 <= i < |args| ==> WellFormed(args[i]))
      && (kind == "COL" ==> |args| > 0 && args[0].AstString?)
      && (kind == "IN" ==> |args| >= 2)
  }

  /** The compiler succeeds exactly on well-formed ASTs. */
  lemma {:induction false} CompileSucceedsIffWellFormed(a: Ast)
    ensures Compile(a).Ok? <==> WellFormed(a)
    decreases a
  {
    match a
    case AstString(_) =>
    case AstNumber(_) =>
    case AstBoolean(_) =>
    case AstArray(items) =>
      CompileAllSucceedsIffWellFormed(items);
    case AstNode(kind, args) =>
      CompileAllSucceedsIffWellFormed(args);
  }

  lemma {:induction false} CompileAllSucceedsIffWellFormed(items: seq<Ast>)
    ensures CompileAll(items).Ok? <==> forall i :: 0 <= i < |items| ==> WellFormed(items[i])
    decreases items
  {
    if |items| > 0 {
      CompileSucceedsIffWellFormed(items[0]);
      CompileAllSucceedsIffWellFormed(items[1..]);
      assert forall i :: 1 <= i < |items| ==> items[i] == items[1..][i - 1];
    }
  }

  /** Item i of a list that compiles compiles to the i-th result. */
  lemma {:induction false} CompileAllItems(items: seq<Ast>)
    requires CompileAll(items).Ok?
    ensures forall i :: 0 <= i < |items| ==> Compile(items[i]) == Ok(CompileAll(items).value[i])
    decreases |items|
  {
    if |items| > 0 {
      CompileAllItems(items[1..]);
      assert forall i :: 1 <= i < |items| ==> items[i] == items[1..][i - 1];
    }
  }

  /** Compiling a list that starts with an AST that compiles. */
  lemma CompileCons(x: Ast, rest: seq<Ast>, sx: string, srest: seq<string>)
    requires Compile(x) == Ok(sx) && CompileAll(rest) == Ok(srest)
    ensures CompileAll([x] + rest) == Ok([sx] + srest)
  {
    assert ([x] + rest)[1..] == rest;
  }

  lemma CompileOne(x: Ast, sx: string)
    requires Compile(x) == Ok(sx)
    ensures CompileAll([x]) == Ok([sx])
  {
    CompileCons(x, [], sx, []);
    assert [x] + [] == [x];
    assert [sx] + [] == [sx];
  }

  lemma CompileTwo(x: Ast, y: Ast, sx: string, sy: string)
    requires Compile(x) == Ok(sx) && Compile(y) == Ok(sy)
    ensures CompileAll([x, y]) == Ok([sx, sy])
  {
    CompileOne(y, sy);
    CompileCons(x, [y], sx, [sy]);
    assert [x] + [y] == [x, y];
    assert [sx] + [sy] == [sx, sy];
  }

  /** A two-argument operator puts its infix text between the compiled arguments. */
  lemma BinaryOperatorTemplate(kind: string, x: Ast, y: Ast, sx: string, sy: string)
    requires kind in BinaryOperators
    requires Compile(x) == Ok(sx) && Compile(y) == Ok(sy)
    ensures Compile(AstNode(kind, [x, y])) == Ok(sx + BinaryOperators[kind] + sy)
  {
    CompileTwo(x, y, sx, sy);
  }

  /** The literal rules: a string is double-quoted, a number is its decimal text, a boolean is TRUE or FALSE. */
  lemma LiteralTemplates(s: string, n: int, b: bool)
    ensures Compile(AstString(s)) == Ok("\"" + s + "\"")
    ensures Compile(AstNumber(n)) == Ok(IntToString(n)) && ParseInt(IntToString(n)) == n
    ensures Compile(AstBoolean(b)) == Ok(if b then "TRUE" else "FALSE")
  {
    ParseIntToString(n);
  }

  /** IS_BLANK, STARTS_WITH and ENDS_WITH: `a IS NULL`, `a LIKE 'b%'` and `a LIKE '%b'`. */
  lemma PatternTemplates(x: Ast, y: Ast, sx: string, sy: string)
    requires Compile(x) == Ok(sx) && Compile(y) == Ok(sy)
    ensures Compile(AstNode("IS_BLANK", [x])) == Ok(sx + " IS NULL")
    ensures Compile(AstNode("STARTS_WITH", [x, y])) == Ok(sx + " LIKE '" + sy + "%'")
    ensures Compile(AstNode("ENDS_WITH", [x, y])) == Ok(sx + " LIKE '%" + sy + "'")
  {
    CompileOne(x, sx);
    CompileTwo(x, y, sx, sy);
  }

  /** COL compiles to its bare column name. */
  lemma ColumnReference(name: string)
    ensures Compile(AstNode("COL", [AstString(name)])) == Ok(name)
  {
    CompileOne(AstString(name), "\"" + name + "\"");
  }

  /** NOT is the literal text `IS NOT a`, not a negation of `a`. */
  lemma NotTemplate(x: Ast, sx: string)
    requires Compile(x) == Ok(sx)
    ensures Compile(AstNode("NOT", [x])) == Ok("IS NOT " + sx)
  {
    CompileOne(x, sx);
  }

  /** BETWEEN a b c is `a >= b AND a <= c`. */
  lemma BetweenTemplate(x: Ast, lo: Ast, hi: Ast, sx: string, slo: string, shi: string)
    requires Compile(x) == Ok(sx) && Compile(lo) == Ok(slo) && Compile(hi) == Ok(shi)
    ensures Compile(AstNode("BETWEEN", [x, lo, hi])) == Ok(sx + " >= " + slo + " AND " + sx + " <= " + shi)
  {
    CompileTwo(lo, hi, slo, shi);
    CompileCons(x, [lo, hi], sx, [slo, shi]);
    assert [x] + [lo, hi] == [x, lo, hi];
  }

  /**
   * IN compares the first argument with each space-separated word of the
   * second, OR-ing the comparisons; the words, joined by spaces again, are
   * exactly the compiled second argument. Without a second argument the
   * source throws.
   */
  lemma InTemplate(x: Ast, list: Ast, sx: string, slist: string)
    requires Compile(x) == Ok(sx) && Compile(list) == Ok(slist)
    ensures var words := Split(slist, ' ');
      && Compile(AstNode("IN", [x, list])) == Ok(Join(Render(words, (v: string) => sx + " = " + v), " OR "))
      && Join(words, " ") == slist
      && forall i :: 0 <= i < |words| ==> ' ' !in words[i]
  {
    CompileTwo(x, list, sx, slist);
    JoinSplit(slist, ' ');
  }

  lemma InWithoutListFails(x: Ast)
    requires WellFormed(x)
    ensures Compile(AstNode("IN", [x])).Err?
  {
    CompileSucceedsIffWellFormed(x);
    CompileOne(x, Compile(x).value);
  }

  /** Stripping the quotes of a compiled string literal without quotes gives the literal back. */
  lemma UnquoteLiteral(s: string)
    requires forall i :: 0 <= i < |s| ==> !IsQuote(s[i])
    ensures RemoveQuotes("\"" + s + "\"") == s
  {
    var q := "\"";
    assert RemoveQuotes(q) == "" by {
      assert IsQuote(q[0]);
      assert q[1..] == "";
    }
    RemoveQuotesAppend(q + s, q);
    RemoveQuotesAppend(q, s);
    RemoveQuotesNoQuotes(s);
  }

  /**
   * CONTAINS strips every quote from its second argument, so a string literal
   * without quotes is matched as it is: `col LIKE '%s%'`.
   */
  lemma ContainsStringLiteral(col: string, s: string)
    requires forall i :: 0 <= i < |s| ==> !IsQuote(s[i])
    ensures Compile(AstNode("CONTAINS", [AstNode("COL", [AstString(col)]), AstString(s)]))
      == Ok(col + " LIKE '%" + s + "%'")
  {
    ColumnReference(col);
    CompileTwo(AstNode("COL", [AstString(col)]), AstString(s), col, "\"" + s + "\"");
    UnquoteLiteral(s);
  }

  /** Whatever the CONTAINS argument, the LIKE pattern holds no quote. */
  lemma ContainsPatternHasNoQuotes(x: Ast, y: Ast, sx: string, sy: string)
    requires Compile(x) == Ok(sx) && Compile(y) == Ok(sy)
    ensures var t := RemoveQuotes(sy);
      && Compile(AstNode("CONTAINS", [x, y])) == Ok(sx + " LIKE '%" + t + "%'")
      && forall i :: 0 <= i < |t| ==> !IsQuote(t[i])
  {
    CompileTwo(x, y, sx, sy);
  }

  /** FROM_EUROPE ignores its arguments and expands to the country OR-chain. */
  lemma FromEuropeTemplate(args: seq<Ast>)
    requires forall i :: 0 <= i < |args| ==> WellFormed(args[i])
    ensures Compile(AstNode("FROM_EUROPE", args)) == Ok(FromEuropeSql())
  {
    CompileAllSucceedsIffWellFormed(args);
  }

  /** A node of unknown type compiles to the empty condition. */
  lemma UnknownOperatorIsEmpty(kind: string, args: seq<Ast>)
    requires kind !in BinaryOperators
    requires kind !in {"COL", "NOT", "BETWEEN", "IN", "IS_BLANK", "CONTAINS", "STARTS_WITH", "ENDS_WITH", "FROM_EUROPE"}
    requires forall i :: 0 <= i < |args| ==> WellFormed(args[i])
    ensures Compile(AstNode(kind, args)) == Ok("")
  {
    CompileAllSucceedsIffWellFormed(args);
  }

  /** An array compiles to its compiled items separated by single spaces. */
  lemma ArrayTemplate(items: seq<Ast>)
    requires forall i :: 0 <= i < |items| ==> WellFormed(items[i])
    ensures CompileAll(items).Ok?
    ensures Compile(AstArray(items)) == Ok(Join(CompileAll(items).value, " "))
    ensures forall i :: 0 <= i < |items| ==> Compile(items[i]) == Ok(CompileAll(items).value[i])
  {
    CompileAllSucceedsIffWellFormed(items);
    CompileAllItems(items);
  }

  /** `EQ(COL(country), "United States")`: the column, the operator and the quoted literal. */
  lemma CountryEqualsExample()
    ensures Compile(AstNode("EQ", [AstNode("COL", [AstString("country")]), AstString("United States")]))
      == Ok("country" + " = " + ("\"" + "United States" + "\""))
  {
    ColumnReference("country");
    BinaryOperatorTemplate("EQ", AstNode("COL", [AstString("country")]), AstString("United States"),
      "country", "\"" + "United States" + "\"");
  }

  /** `GT(COL(gold), 0)`. */
  lemma GoldPositiveExample()
    ensures Compile(AstNode("GT", [AstNode("COL", [AstString("gold")]), AstNumber(0)])) == Ok("gold" + " > " + "0")
  {
    ColumnReference("gold");
    assert IntToString(0) == "0" by { assert NatToString(0) == [DigitChar(0)]; }
    BinaryOperatorTemplate("GT", AstNode("COL", [AstString("gold")]), AstNumber(0), "gold", "0");
  }

  /** `AND(EQ(COL(country), "United States"), GT(COL(gold), 0))`. */
  lemma CountryAndGoldExample()
    ensures Compile(
      AstNode("AND", [
        AstNode("EQ", [AstNode("COL", [AstString("country")]), AstString("United States")]),
        AstNode("GT", [AstNode("COL", [AstString("gold")]), AstNumber(0)])]))
      == Ok(("country" + " = " + ("\"" + "United States" + "\"")) + " AND " + ("gold" + " > " + "0"))
  {
    CountryEqualsExample();
    GoldPositiveExample();
    BinaryOperatorTemplate("AND",
      AstNode("EQ", [AstNode("COL", [AstString("country")]), AstString("United States")]),
      AstNode("GT", [AstNode("COL", [AstString("gold")]), AstNumber(0)]),
      "country" + " = " + ("\"" + "United States" + "\""), "gold" + " > " + "0");
  }
}
