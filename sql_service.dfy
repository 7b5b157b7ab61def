/**
 * `AdaptableSqlService` (server/SqlService.ts): turns a server-side grid
 * request, the AdapTable column filters and the AdaptableQL query AST into the
 * text of one SQL query, fragment by fragment:
 *
 *   SELECT ++ FROM ++ WHERE ++ GROUP BY ++ ORDER BY ++ LIMIT
 *
 * Each fragment is a specification function of the request; the class's
 * methods build the fragments the way the source does (loops that push onto
 * a list) and are proved equal to those functions. The properties the
 * service promises are lemmas about the functions.
 */
module SqlService {
  import opened Text
  import opened Js
  import opened Filters
  import opened Expressions

  /** A grid column in a request: `id`, and the optional `field` and `aggFunc`. */
  datatype ColumnVO = ColumnVO(id: string, field: Option<string>, aggFunc: Option<string>)

  /** A sort-model entry; `sortedValues` is the custom sort order AdapTable adds. */
  datatype SortItem = SortItem(colId: string, sort: string, sortedValues: Option<seq<string>>)

  /** The fields of `IServerSideGetRowsRequest` the service reads. */
  datatype GridRequest = GridRequest(
    startRow: Option<int>,
    endRow: Option<int>,
    sortModel: seq<SortItem>,
    rowGroupCols: seq<ColumnVO>,
    valueCols: seq<ColumnVO>,
    pivotCols: seq<ColumnVO>,
    groupKeys: seq<string>,
    pivotMode: bool)

  // ---------------------------------------------------------------------------
  // Grouping and SELECT

  /**
   * `isDoingGrouping`: the request asks for group rows when it groups by more
   * columns than it has keys for, i.e. it is not at the lowest level.
   */
  predicate IsDoingGrouping(r: GridRequest)
  {
    |r.rowGroupCols| > |r.groupKeys|
  }

  /** The column grouped at the requested level: `rowGroupCols[groupKeys.length]`. */
  function GroupCol(r: GridRequest): (c: ColumnVO)
    requires IsDoingGrouping(r)
    ensures c in r.rowGroupCols
  {
    r.rowGroupCols[|r.groupKeys|]
  }

  /** `aggFunc(field) as field` for one value column. */
  function AggregateColumn(vc: ColumnVO): string
  {
    OptText(vc.aggFunc) + "(" + OptText(vc.field) + ") as " + OptText(vc.field)
  }

  /** The grouped column's field, when it is a string, as `colsToSelect` starts. */
  function GroupSelectColumns(r: GridRequest): (cols: seq<string>)
    requires IsDoingGrouping(r)
  {
    if GroupCol(r).field.Some? then [GroupCol(r).field.value] else []
  }

  /** The SELECT fragment: every column at the lowest level, the group column and aggregates above it. */
  function SelectSql(r: GridRequest): (s: string)
    ensures |s| >= 7 && s[..7] == "select "
    ensures !IsDoingGrouping(r) ==> s == "select *"
  {
    if IsDoingGrouping(r) then
      "select " + Join(GroupSelectColumns(r) + Render(r.valueCols, AggregateColumn), ", ")
    else "select *"
  }

  /** The GROUP BY fragment: the grouped column's field when it is non-empty. */
  function GroupBySql(r: GridRequest): (g: string)
    ensures g != "" <==> IsDoingGrouping(r)
    ensures g != "" ==> |g| >= 10 && g[..10] == " group by "
  {
    if IsDoingGrouping(r) then
      var f := GroupCol(r).field;
      " group by " + (if f.Some? && f.value != "" then f.value else "")
    else ""
  }

  /**
   * At the lowest level a request selects every column and does not group;
   * above it, the query selects the grouped column followed by one aggregate
   * per value column, in order, and groups by that same column.
   */
  lemma GroupingFragments(r: GridRequest)
    ensures !IsDoingGrouping(r) ==> SelectSql(r) == "select *" && GroupBySql(r) == ""
    ensures IsDoingGrouping(r) && GroupCol(r).field.Some? && GroupCol(r).field.value != "" ==>
      var f := GroupCol(r).field.value;
      && SelectSql(r) == "select " + Join([f] + Render(r.valueCols, AggregateColumn), ", ")
      && GroupBySql(r) == " group by " + f
      && SelectSql(r)[..7 + |f|] == "select " + f
  {
    if IsDoingGrouping(r) && GroupCol(r).field.Some? && GroupCol(r).field.value != "" {
      var f := GroupCol(r).field.value;
      var cols := [f] + Render(r.valueCols, AggregateColumn);
      if |r.valueCols| > 0 {
        JoinAppend([f], Render(r.valueCols, AggregateColumn), ", ");
      }
      assert |Join(cols, ", ")| >= |f| && Join(cols, ", ")[..|f|] == f;
    }
  }

  /** The aggregates follow the grouped column in the order of the value columns. */
  lemma SelectListsValueColumns(r: GridRequest, vc: ColumnVO)
    requires IsDoingGrouping(r)
    ensures var more := r.(valueCols := r.valueCols + [vc]);
      SelectSql(more) == if |GroupSelectColumns(r)| == 0 && |r.valueCols| == 0
        then "select " + AggregateColumn(vc)
        else SelectSql(r) + ", " + AggregateColumn(vc)
  {
    var more := r.(valueCols := r.valueCols + [vc]);
    var aggs := Render(r.valueCols, AggregateColumn);
    var x := AggregateColumn(vc);
    assert GroupCol(more) == GroupCol(r);
    RenderAppend(r.valueCols, [vc], AggregateColumn);
    assert Render(more.valueCols, AggregateColumn) == aggs + [x];
    assert GroupSelectColumns(more) + Render(more.valueCols, AggregateColumn) == GroupSelectColumns(r) + aggs + [x];
    SelectColumnsSnoc(GroupSelectColumns(r) + aggs, x);
  }

  /** One more selected column is appended after ", ", or right after "select " when it is the first. */
  lemma SelectColumnsSnoc(cols: seq<string>, x: string)
    ensures "select " + Join(cols + [x], ", ")
      == if |cols| == 0 then "select " + x else "select " + Join(cols, ", ") + ", " + x
  {
    JoinSnoc(cols, x, ", ");
    if |cols| > 0 {
      RegroupTail("select ", Join(cols, ", "), ", ", x);
    }
  }

  // ---------------------------------------------------------------------------
  // ORDER BY

  /** The ids of the group columns down to the requested level: `slice(0, groupKeys.length + 1)`. */
  function GroupColIds(r: GridRequest): (ids: seq<string>)
    ensures |ids| == if |r.groupKeys| + 1 < |r.rowGroupCols| then |r.groupKeys| + 1 else |r.rowGroupCols|
    ensures forall i :: 0 <= i < |ids| ==> ids[i] == r.rowGroupCols[i].id
  {
    var n := if |r.groupKeys| + 1 < |r.rowGroupCols| then |r.groupKeys| + 1 else |r.rowGroupCols|;
    Render(r.rowGroupCols, (c: ColumnVO) => c.id)[..n]
  }

  /**
   * A request groups exactly when there is a row-group column for the level
   * below its group keys, which is then the last of the ORDER BY group ids.
   */
  lemma GroupingLevel(r: GridRequest)
    ensures IsDoingGrouping(r) <==> |GroupColIds(r)| == |r.groupKeys| + 1
    ensures IsDoingGrouping(r) ==> GroupColIds(r)[|r.groupKeys|] == GroupCol(r).id
  {
  }

  /** `WHEN "v" THEN 'i'` for the value at position i of a custom sort order. */
  function CaseWhen(v: string, i: nat): string
  {
    "WHEN \"" + v + "\" THEN '" + IntToString(i) + "'"
  }

  /** The WHEN branches of a custom sort order, numbered from 0, separated by spaces. */
  function CaseWhens(vs: seq<string>): string
  {
    Join(seq(|vs|, (i: int) requires 0 <= i < |vs| => CaseWhen(vs[i], i)), " ")
  }

  /** The ORDER BY part of one sort item. */
  function SortPart(item: SortItem): string
  {
    if item.sortedValues.Some? then
      "CASE " + item.colId + " " + CaseWhens(item.sortedValues.value) + " ELSE " + item.colId + " END " + item.sort
    else item.colId + " " + item.sort
  }

  /** While grouping, only sort items on the group columns in `ids` are kept. */
  predicate SortKept(grouping: bool, ids: seq<string>, item: SortItem)
  {
    !(grouping && item.colId !in ids)
  }

  /** The ORDER BY parts of the kept items, in sort-model order. */
  function SortParts(items: seq<SortItem>, grouping: bool, ids: seq<string>): (parts: seq<string>)
    ensures |parts| <= |items|
  {
    if |items| == 0 then []
    else
      var init := SortParts(items[..|items| - 1], grouping, ids);
      var last := items[|items| - 1];
      if SortKept(grouping, ids, last) then init + [SortPart(last)] else init
  }

  /** The ORDER BY fragment. */
  function OrderBySql(r: GridRequest): (o: string)
    ensures o == "" || (|o| >= 10 && o[..10] == " order by ")
    ensures |r.sortModel| == 0 ==> o == ""
  {
    var parts := SortParts(r.sortModel, IsDoingGrouping(r), GroupColIds(r));
    if |parts| > 0 then " order by " + Join(parts, ", ") else ""
  }

  /** The parts of a concatenation of sort models are the parts of each. */
  lemma {:induction false} SortPartsAppend(a: seq<SortItem>, b: seq<SortItem>, grouping: bool, ids: seq<string>)
    ensures SortParts(a + b, grouping, ids) == SortParts(a, grouping, ids) + SortParts(b, grouping, ids)
    decreases |b|
  {
    if |b| == 0 {
      assert a + b == a;
    } else {
      var b' := b[..|b| - 1];
      assert (a + b)[..|a + b| - 1] == a + b';
      assert (a + b)[|a + b| - 1] == b[|b| - 1];
      SortPartsAppend(a, b', grouping, ids);
    }
  }

  /** One sort item gives one part when it is kept and none when it is dropped. */
  lemma SortPartsSingle(x: SortItem, grouping: bool, ids: seq<string>)
    ensures SortParts([x], grouping, ids) == if SortKept(grouping, ids, x) then [SortPart(x)] else []
  {
    assert [x][..0] == [];
  }

  /** Without grouping every sort item gives exactly one part, in order. */
  lemma {:induction false} SortPartsWithoutGrouping(items: seq<SortItem>, ids: seq<string>)
    ensures SortParts(items, false, ids) == Render(items, SortPart)
  {
    if |items| > 0 {
      var init := items[..|items| - 1];
      SortPartsWithoutGrouping(init, ids);
      assert items == init + [items[|items| - 1]];
      RenderAppend(init, [items[|items| - 1]], SortPart);
    }
  }

  /** While grouping, every part comes from a kept sort item. */
  lemma {:induction false} SortPartsWhileGrouping(items: seq<SortItem>, ids: seq<string>)
    ensures forall p :: p in SortParts(items, true, ids) ==>
      exists i :: 0 <= i < |items| && items[i].colId in ids && p == SortPart(items[i])
  {
    if |items| > 0 {
      var init := items[..|items| - 1];
      SortPartsWhileGrouping(init, ids);
      forall p | p in SortParts(items, true, ids)
        ensures exists i :: 0 <= i < |items| && items[i].colId in ids && p == SortPart(items[i])
      {
        if p in SortParts(init, true, ids) {
          var i :| 0 <= i < |init| && init[i].colId in ids && p == SortPart(init[i]);
          assert items[i] == init[i];
        } else {
          assert items[|items| - 1].colId in ids && p == SortPart(items[|items| - 1]);
        }
      }
    }
  }

  /**
   * The WHEN branch of a value appended to a custom sort order is numbered
   * with its position.
   */
  lemma CaseWhensSnoc(vs: seq<string>, v: string)
    ensures CaseWhens(vs + [v]) ==
      if |vs| == 0 then CaseWhen(v, 0) else CaseWhens(vs) + " " + CaseWhen(v, |vs|)
  {
    var ws := seq(|vs|, (i: int) requires 0 <= i < |vs| => CaseWhen(vs[i], i));
    var ws' := seq(|vs + [v]|, (i: int) requires 0 <= i < |vs + [v]| => CaseWhen((vs + [v])[i], i));
    assert ws' == ws + [CaseWhen(v, |vs|)];
    JoinSnoc(ws, CaseWhen(v, |vs|), " ");
  }

  /** The WHEN branch of the first value of a custom sort order. */
  lemma CaseWhenFirstExample()
    ensures CaseWhens(["B"]) == "WHEN \"B\" THEN '0'"
  {
    assert IntToString(0) == "0" by { assert NatToString(0) == [DigitChar(0)]; }
    CaseWhensSnoc([], "B");
    assert [] + ["B"] == ["B"];
  }

  /** The WHEN branches of the custom sort order ["B", "A"]. */
  lemma CaseWhensExample()
    ensures CaseWhens(["B", "A"]) == "WHEN \"B\" THEN '0'" + " " + "WHEN \"A\" THEN '1'"
  {
    assert IntToString(1) == "1" by { assert NatToString(1) == [DigitChar(1)]; }
    CaseWhenFirstExample();
    CaseWhensSnoc(["B"], "A");
    assert ["B"] + ["A"] == ["B", "A"];
  }

  /** An example of a custom sort order: the values ["B", "A"] on `athlete`. */
  lemma CustomSortExample()
    ensures SortPart(SortItem("athlete", "asc", Some(["B", "A"])))
      == "CASE athlete " + ("WHEN \"B\" THEN '0'" + " " + "WHEN \"A\" THEN '1'") + " ELSE athlete END asc"
  {
    CaseWhensExample();
    assert "CASE " + "athlete" + " " == "CASE athlete ";
    assert " ELSE " + "athlete" + " END " + "asc" == " ELSE athlete END asc";
  }

  // ---------------------------------------------------------------------------
  // LIMIT

  /** The number of rows asked for: one more than the page size, to tell whether more rows follow. */
  function LimitCount(r: GridRequest): int
    requires r.endRow.Some?
  {
    var startRow := if r.startRow.Some? then r.startRow.value else 0;
    (r.endRow.value - startRow) + 1
  }

  /** The LIMIT fragment, with `startRow` defaulting to 0. */
  function LimitSql(r: GridRequest): (l: string)
    ensures l != "" <==> r.endRow.Some?
    ensures l != "" ==> |l| > 7 && l[..7] == " limit "
  {
    if r.endRow.None? then ""
    else
      var startRow := if r.startRow.Some? then r.startRow.value else 0;
      " limit " + IntToString(LimitCount(r)) + " offset " + IntToString(startRow)
  }

  /**
   * Without an end row there is no LIMIT; with one, the two numbers in the
   * fragment read back as one more than the page size and the start row.
   */
  lemma LimitNumbers(r: GridRequest)
    ensures r.endRow.None? <==> LimitSql(r) == ""
    ensures r.endRow.Some? ==>
      var startRow := if r.startRow.Some? then r.startRow.value else 0;
      exists count: string, offset: string ::
        && LimitSql(r) == " limit " + count + " offset " + offset
        && ParseInt(count) == r.endRow.value - startRow + 1
        && ParseInt(offset) == startRow
  {
    if r.endRow.Some? {
      var startRow := if r.startRow.Some? then r.startRow.value else 0;
      ParseIntToString(LimitCount(r));
      ParseIntToString(startRow);
      var count, offset := IntToString(LimitCount(r)), IntToString(startRow);
      assert LimitSql(r) == " limit " + count + " offset " + offset;
    }
  }

  // ---------------------------------------------------------------------------
  // WHERE

  /** The non-empty fragments of the filters, in input order. */
  function FilterWhereParts(fs: seq<ColumnFilterDef>): (parts: seq<string>)
    ensures |parts| <= |fs|
    ensures forall i :: 0 <= i < |parts| ==> parts[i] != ""
  {
    if |fs| == 0 then []
    else
      var init := FilterWhereParts(fs[..|fs| - 1]);
      var frag := FilterFragment(fs[|fs| - 1]);
      if frag != "" then init + [frag] else init
  }

  /** The parts of a concatenation of filter lists are the parts of each. */
  lemma {:induction false} FilterWherePartsAppend(a: seq<ColumnFilterDef>, b: seq<ColumnFilterDef>)
    ensures FilterWhereParts(a + b) == FilterWhereParts(a) + FilterWhereParts(b)
    decreases |b|
  {
    if |b| == 0 {
      assert a + b == a;
    } else {
      var b' := b[..|b| - 1];
      assert (a + b)[..|a + b| - 1] == a + b';
      assert (a + b)[|a + b| - 1] == b[|b| - 1];
      FilterWherePartsAppend(a, b');
    }
  }

  /** Exactly the filters that apply contribute a part, in order. */
  lemma {:induction false} FilterWherePartsCount(fs: seq<ColumnFilterDef>)
    ensures (forall i :: 0 <= i < |fs| ==> FilterApplies(fs[i])) ==> |FilterWhereParts(fs)| == |fs|
    ensures (forall i :: 0 <= i < |fs| ==> !FilterApplies(fs[i])) ==> FilterWhereParts(fs) == []
  {
    if |fs| > 0 {
      var init := fs[..|fs| - 1];
      FilterWherePartsCount(init);
      assert forall i :: 0 <= i < |init| ==> init[i] == fs[i];
    }
  }

  /**
   * A query value is used only when truthy: the empty string, 0 and `false`
   * are skipped; arrays and operator nodes are objects and always truthy.
   */
  predicate AstTruthy(a: Ast)
  {
    match a
    case AstString(s) => s != ""
    case AstNumber(n) => n != 0
    case AstBoolean(b) => b
    case AstArray(_) => true
    case AstNode(_, _) => true
  }

  /** The part the query AST adds after the filter parts: none, or its non-empty compilation. */
  function AstWhereParts(ast: Option<Ast>): (r: Result<seq<string>>)
    ensures r.Ok? ==> |r.value| <= 1 && forall i :: 0 <= i < |r.value| ==> r.value[i] != ""
    ensures r.Err? <==> ast.Some? && AstTruthy(ast.value) && Compile(ast.value).Err?
  {
    if ast.None? || !AstTruthy(ast.value) then Ok([])
    else
      var s :- Compile(ast.value);
      Ok(if s != "" then [s] else [])
  }

  /** The WHERE fragment from the parts that make it up. */
  function WhereOfParts(parts: seq<string>): string
  {
    if |parts| > 0 then " where " + Join(parts, " and ") else ""
  }

  /** `createAdaptableWhereSql`. */
  function WhereSql(filters: Option<seq<ColumnFilterDef>>, ast: Option<Ast>): (r: Result<string>)
    ensures filters.None? ==> r == Ok("")
    ensures filters.Some? ==> (r.Err? <==> AstWhereParts(ast).Err?)
  {
    if filters.None? then Ok("")
    else
      var astParts :- AstWhereParts(ast);
      Ok(WhereOfParts(FilterWhereParts(filters.value) + astParts))
  }

  /** One more part is added after " where " or after " and ". */
  lemma WhereOfPartsSnoc(parts: seq<string>, x: string)
    ensures WhereOfParts(parts + [x]) ==
      if |parts| == 0 then " where " + x else WhereOfParts(parts) + " and " + x
  {
    JoinSnoc(parts, x, " and ");
  }

  /** The filter parts of a list with one more filter. */
  lemma FilterWherePartsSnoc(fs: seq<ColumnFilterDef>, f: ColumnFilterDef)
    ensures FilterWhereParts(fs + [f]) ==
      if FilterFragment(f) != "" then FilterWhereParts(fs) + [FilterFragment(f)] else FilterWhereParts(fs)
  {
    assert (fs + [f])[..|fs|] == fs;
  }

  /**
   * A filter that does not apply leaves the WHERE fragment as it is; one that
   * applies adds its fragment, after " where " or after " and ".
   */
  lemma FilterExtendsWhere(fs: seq<ColumnFilterDef>, f: ColumnFilterDef)
    ensures var before := WhereSql(Some(fs), None).value;
      WhereSql(Some(fs + [f]), None) == Ok(
        if !FilterApplies(f) then before
        else if before == "" then " where " + FilterFragment(f)
        else before + " and " + FilterFragment(f))
  {
    var parts := FilterWhereParts(fs);
    var frag := FilterFragment(f);
    assert WhereSql(Some(fs), None) == Ok(WhereOfParts(parts + [])) by {
      assert AstWhereParts(None) == Ok([]);
    }
    assert WhereSql(Some(fs + [f]), None) == Ok(WhereOfParts(FilterWhereParts(fs + [f]) + [])) by {
      assert AstWhereParts(None) == Ok([]);
    }
    assert parts + [] == parts;
    assert FilterWhereParts(fs + [f]) + [] == FilterWhereParts(fs + [f]);
    FilterWherePartsSnoc(fs, f);
    WhereOfPartsSnoc(parts, frag);
  }

  /**
   * The AST's part comes after every filter part: a truthy AST that compiles
   * to a non-empty condition is added last, after " where " or after " and ".
   */
  lemma AstPartComesLast(fs: seq<ColumnFilterDef>, a: Ast, s: string)
    requires AstTruthy(a) && Compile(a) == Ok(s) && s != ""
    ensures var filtersOnly := WhereSql(Some(fs), None).value;
      WhereSql(Some(fs), Some(a)) == Ok(
        if filtersOnly == "" then " where " + s else filtersOnly + " and " + s)
  {
    var parts := FilterWhereParts(fs);
    assert AstWhereParts(Some(a)) == Ok([s]);
    assert WhereSql(Some(fs), Some(a)) == Ok(WhereOfParts(parts + [s]));
    assert WhereSql(Some(fs), None) == Ok(WhereOfParts(parts + [])) by {
      assert AstWhereParts(None) == Ok([]);
    }
    assert parts + [] == parts;
    WhereOfPartsSnoc(parts, s);
  }

  /** A WHERE fragment is empty, or " where " followed by non-empty conditions joined by " and ". */
  lemma WhereShape(filters: Option<seq<ColumnFilterDef>>, ast: Option<Ast>)
    requires WhereSql(filters, ast).Ok?
    ensures var w := WhereSql(filters, ast).value;
      w == "" || (|w| > 7 && w[..7] == " where ")
    ensures filters.Some? && (exists i :: 0 <= i < |filters.value| && FilterApplies(filters.value[i])) ==>
      WhereSql(filters, ast).value != ""
  {
    if filters.Some? {
      var fs := filters.value;
      var parts := FilterWhereParts(fs) + AstWhereParts(ast).value;
      assert WhereSql(filters, ast).value == WhereOfParts(parts);
      WhereOfPartsShape(parts);
      if exists i :: 0 <= i < |fs| && FilterApplies(fs[i]) {
        var i :| 0 <= i < |fs| && FilterApplies(fs[i]);
        AppliesGivesPart(fs, i);
      }
    }
  }

  /** The WHERE fragment of some parts is empty only without parts, and otherwise starts with " where ". */
  lemma WhereOfPartsShape(parts: seq<string>)
    requires forall i :: 0 <= i < |parts| ==> parts[i] != ""
    ensures WhereOfParts(parts) == "" <==> |parts| == 0
    ensures var w := WhereOfParts(parts);
      w == "" || (|w| > 7 && w[..7] == " where ")
  {
    if |parts| > 0 {
      JoinNonEmpty(parts, " and ");
      var w := WhereOfParts(parts);
      assert w == " where " + Join(parts, " and ");
      assert w[..7] == " where ";
    }
  }

  /** A filter that applies contributes a part. */
  lemma {:induction false} AppliesGivesPart(fs: seq<ColumnFilterDef>, i: nat)
    requires i < |fs| && FilterApplies(fs[i])
    ensures |FilterWhereParts(fs)| > 0
    decreases |fs|
  {
    if i < |fs| - 1 {
      var init := fs[..|fs| - 1];
      assert init[i] == fs[i];
      AppliesGivesPart(init, i);
    }
  }

  // ---------------------------------------------------------------------------
  // Whole queries

  /** ` FROM  table`, with the two spaces of the source. */
  function FromSql(tableName: string): string
  {
    " FROM  " + tableName
  }

  /** `buildSql`: SELECT, FROM, WHERE, GROUP BY, ORDER BY and LIMIT, in that order. */
  function QuerySql(tableName: string, r: GridRequest, filters: Option<seq<ColumnFilterDef>>, ast: Option<Ast>): (q: Result<string>)
    ensures q.Err? <==> WhereSql(filters, ast).Err?
  {
    var whereSql :- WhereSql(filters, ast);
    Ok(SelectSql(r) + FromSql(tableName) + whereSql + GroupBySql(r) + OrderBySql(r) + LimitSql(r))
  }

  /** `buildCountSql`: "SELECT COUNT(*)", FROM, WHERE and GROUP BY. */
  function CountSql(tableName: string, r: GridRequest, filters: Option<seq<ColumnFilterDef>>, ast: Option<Ast>): (q: Result<string>)
    ensures q.Err? <==> WhereSql(filters, ast).Err?
  {
    var whereSql :- WhereSql(filters, ast);
    Ok("SELECT COUNT(*)" + FromSql(tableName) + whereSql + GroupBySql(r))
  }

  /**
   * The count query counts the rows of the data query: past their SELECT they
   * share the same FROM, WHERE and GROUP BY text, and the count query has no
   * ORDER BY or LIMIT.
   */
  lemma CountSharesQueryConditions(tableName: string, r: GridRequest, filters: Option<seq<ColumnFilterDef>>, ast: Option<Ast>)
    ensures QuerySql(tableName, r, filters, ast).Ok? <==> CountSql(tableName, r, filters, ast).Ok?
    ensures CountSql(tableName, r, filters, ast).Ok? ==>
      var shared := FromSql(tableName) + WhereSql(filters, ast).value + GroupBySql(r);
      && CountSql(tableName, r, filters, ast).value == "SELECT COUNT(*)" + shared
      && QuerySql(tableName, r, filters, ast).value == SelectSql(r) + shared + OrderBySql(r) + LimitSql(r)
  {
    match WhereSql(filters, ast)
    case Err(_) =>
    case Ok(w) =>
      assert QuerySql(tableName, r, filters, ast)
        == Ok(SelectSql(r) + FromSql(tableName) + w + GroupBySql(r) + OrderBySql(r) + LimitSql(r));
      assert CountSql(tableName, r, filters, ast) == Ok("SELECT COUNT(*)" + FromSql(tableName) + w + GroupBySql(r));
      RegroupMiddle(SelectSql(r), FromSql(tableName), w, GroupBySql(r), OrderBySql(r), LimitSql(r));
      RegroupTail("SELECT COUNT(*)", FromSql(tableName), w, GroupBySql(r));
  }

  /** Concatenation is associative: the last three parts of four can be joined first. */
  lemma RegroupTail(a: string, b: string, c: string, d: string)
    ensures a + b + c + d == a + (b + c + d)
  {
  }

  /** Concatenation is associative: the middle three parts of six can be joined first. */
  lemma RegroupMiddle(a: string, b: string, c: string, d: string, e: string, f: string)
    ensures a + b + c + d + e + f == a + (b + c + d) + e + f
  {
  }

  // ---------------------------------------------------------------------------
  // Pivot queries

  /** `createPivotSql`: reading `.id` of a missing first row-group, pivot or value column throws. */
  function PivotSql(r: GridRequest): (q: Result<string>)
    ensures q.Err? <==> |r.rowGroupCols| == 0 || |r.pivotCols| == 0 || |r.valueCols| == 0
  {
    if |r.rowGroupCols| == 0 then Err(TypeError("reading 'id' of the first row group column"))
    else if |r.pivotCols| == 0 then Err(TypeError("reading 'id' of the first pivot column"))
    else if |r.valueCols| == 0 then Err(TypeError("reading 'id' of the first value column"))
    else
      var rg, pc, vc := r.rowGroupCols[0].id, r.pivotCols[0].id, r.valueCols[0].id;
      Ok(PivotHead(rg) + PivotColumns(pc, vc) + PivotClause(pc, vc) + "\n      " + OrderBySql(r) + ";\n    ")
  }

  /** The pivot query's SELECT up to its first column, the row-group column. */
  function PivotHead(rg: string): string
  {
    "\n      SELECT \n        " + rg
  }

  /** The pivot and value columns of the SELECT, and the FROM line. */
  function PivotColumns(pc: string, vc: string): string
  {
    ", \n        " + pc + ", " + vc + "\n      FROM olympic_winners \n      "
  }

  /** `PIVOT (SUM([value]) FOR pivot)`. */
  function PivotClause(pc: string, vc: string): string
  {
    "PIVOT (SUM([" + vc + "]) FOR " + pc + ")"
  }

  /** The first piece, the third piece and the last two pieces of a six-part concatenation, read back by slicing. */
  lemma SliceSix(a: string, b: string, c: string, d: string, e: string, f: string)
    ensures var q := a + b + c + d + e + f;
      && q[..|a|] == a
      && q[|a| + |b|..|a| + |b| + |c|] == c
      && q[|q| - |e + f|..] == e + f
  {
    var q := a + b + c + d + e + f;
    assert q == (a + b + c) + (d + (e + f));
    assert (a + b + c)[..|a|] == a;
    assert (a + b + c)[|a| + |b|..] == c;
  }

  /**
   * The pivot query selects the first row-group column first, sums the first
   * value column for each value of the first pivot column, and ends with the
   * ORDER BY fragment.
   */
  lemma PivotSqlShape(r: GridRequest)
    requires PivotSql(r).Ok?
    ensures var q, rg, pc, vc := PivotSql(r).value, r.rowGroupCols[0].id, r.pivotCols[0].id, r.valueCols[0].id;
      var head, at, tail := PivotHead(rg), |PivotHead(rg) + PivotColumns(pc, vc)|, OrderBySql(r) + ";\n    ";
      && |q| >= |head| && q[..|head|] == "\n      SELECT \n        " + rg
      && |q| >= at + |PivotClause(pc, vc)| && q[at..at + |PivotClause(pc, vc)|] == "PIVOT (SUM([" + vc + "]) FOR " + pc + ")"
      && |q| >= |tail| && q[|q| - |tail|..] == tail
  {
    var rg, pc, vc := r.rowGroupCols[0].id, r.pivotCols[0].id, r.valueCols[0].id;
    SliceSix(PivotHead(rg), PivotColumns(pc, vc), PivotClause(pc, vc), "\n      ", OrderBySql(r), ";\n    ");
  }

  /** `createPivotFieldsSql`: the distinct values of the first pivot column, in order. */
  function PivotFieldsSql(r: GridRequest): (q: Result<string>)
    ensures q.Err? <==> |r.pivotCols| == 0
  {
    if |r.pivotCols| == 0 then Err(TypeError("reading 'id' of the first pivot column"))
    else
      var pc := r.pivotCols[0].id;
      Ok(DistinctPivotValues(pc) + "\n      FROM olympic_winners \n      " + OrderByPivot(pc))
  }

  /** The pivot-field query's `SELECT DISTINCT` of the first pivot column. */
  function DistinctPivotValues(pc: string): string
  {
    "\n      SELECT \n        DISTINCT " + pc
  }

  /** The pivot-field query's closing `ORDER BY` of the first pivot column. */
  function OrderByPivot(pc: string): string
  {
    "ORDER BY " + pc + ";"
  }

  /** The pivot-field query selects the distinct values of the first pivot column, ordered by it. */
  lemma PivotFieldsSqlShape(r: GridRequest)
    requires PivotFieldsSql(r).Ok?
    ensures var q, pc := PivotFieldsSql(r).value, r.pivotCols[0].id;
      var head, tail := DistinctPivotValues(pc), OrderByPivot(pc);
      && |q| >= |head| + |tail|
      && q[..|head|] == "\n      SELECT \n        DISTINCT " + pc
      && q[|q| - |tail|..] == "ORDER BY " + pc + ";"
  {
    var pc := r.pivotCols[0].id;
    var q := PivotFieldsSql(r).value;
    var head, mid, tail := DistinctPivotValues(pc), "\n      FROM olympic_winners \n      ", OrderByPivot(pc);
    assert q == head + (mid + tail);
    assert q[..|head|] == head;
    assert q == (head + mid) + tail;
    assert q[|q| - |tail|..] == tail;
  }

  /**
   * A request the pivot query accepts also has a pivot-field query, and only
   * the first row-group, pivot and value columns matter to either.
   */
  lemma PivotQueriesAgree(r: GridRequest, r': GridRequest)
    requires PivotSql(r).Ok?
    requires |r'.rowGroupCols| > 0 && |r'.pivotCols| > 0 && |r'.valueCols| > 0
    requires r'.rowGroupCols[0].id == r.rowGroupCols[0].id && r'.pivotCols[0].id == r.pivotCols[0].id
    requires r'.valueCols[0].id == r.valueCols[0].id && OrderBySql(r') == OrderBySql(r)
    ensures PivotFieldsSql(r).Ok?
    ensures PivotSql(r') == PivotSql(r) && PivotFieldsSql(r') == PivotFieldsSql(r)
  {
  }

  /**
   * Medals per country and year: grouped by `country`, pivoted on `year`,
   * summing `gold`, sorted by country.
   */
  const MedalsByYear := GridRequest(None, None, [SortItem("country", "asc", None)],
    [ColumnVO("country", Some("country"), None)], [ColumnVO("gold", Some("gold"), Some("sum"))],
    [ColumnVO("year", Some("year"), None)], [], true)

  lemma MedalsByYearOrder()
    ensures OrderBySql(MedalsByYear) == " order by " + "country asc"
  {
    var r := MedalsByYear;
    assert GroupColIds(r) == ["country"];
    SortPartsSingle(r.sortModel[0], true, ["country"]);
    assert r.sortModel == [r.sortModel[0]];
  }

  /** The pivot query of `MedalsByYear`: `PIVOT (SUM([gold]) FOR year)`, ordered by country. */
  lemma PivotExample()
    ensures PivotSql(MedalsByYear) == Ok(
      "\n      SELECT \n        " + "country"
      + (", \n        " + "year" + ", " + "gold" + "\n      FROM olympic_winners \n      ")
      + ("PIVOT (SUM([" + "gold" + "]) FOR " + "year" + ")")
      + "\n      " + (" order by " + "country asc") + ";\n    ")
  {
    MedalsByYearOrder();
  }

  /** The pivot-field query of `MedalsByYear`: the distinct years, in order. */
  lemma PivotFieldsExample()
    ensures PivotFieldsSql(MedalsByYear) == Ok(
      ("\n      SELECT \n        DISTINCT " + "year") + "\n      FROM olympic_winners \n      " + ("ORDER BY " + "year" + ";"))
  {
  }

  // ---------------------------------------------------------------------------
  // The service

  /** The service, bound to one table name for the whole of its life. */
  class AdaptableSqlService {
    const tableName: string

    constructor (tableName: string)
      ensures this.tableName == tableName
    {
      this.tableName := tableName;
    }

    /** `buildSql`. */
    method BuildSql(request: GridRequest, filters: Option<seq<ColumnFilterDef>>, queryAst: Option<Ast>)
      returns (sql: Result<string>)
      ensures sql == QuerySql(tableName, request, filters, queryAst)
    {
      var selectSql := CreateSelectSql(request);
      var fromSql := FromSql(tableName);
      var whereSql := CreateAdaptableWhereSql(filters, queryAst);
      if whereSql.Err? {
        return Err(whereSql.error);
      }
      var limitSql := LimitSql(request);
      var orderBySql := CreateOrderBySql(request);
      var groupBySql := GroupBySql(request);
      sql := Ok(selectSql + fromSql + whereSql.value + groupBySql + orderBySql + limitSql);
    }

    /** `createPivotSql`; the filters and the query are not used. */
    method CreatePivotSql(request: GridRequest, filters: Option<seq<ColumnFilterDef>>, queryAst: Option<Ast>)
      returns (sql: Result<string>)
      ensures sql == PivotSql(request)
      ensures sql.Err? <==> |request.rowGroupCols| == 0 || |request.pivotCols| == 0 || |request.valueCols| == 0
      ensures sql.Ok? ==>
        var q, rg, pc, vc := sql.value, request.rowGroupCols[0].id, request.pivotCols[0].id, request.valueCols[0].id;
        var at, tail := |PivotHead(rg) + PivotColumns(pc, vc)|, OrderBySql(request) + ";\n    ";
        && |q| >= |PivotHead(rg)| && q[..|PivotHead(rg)|] == PivotHead(rg)
        && |q| >= at + |PivotClause(pc, vc)| && q[at..at + |PivotClause(pc, vc)|] == PivotClause(pc, vc)
        && |q| >= |tail| && q[|q| - |tail|..] == tail
    {
      sql := PivotSql(request);
      if sql.Ok? {
        PivotSqlShape(request);
      }
    }

    /** `createPivotFieldsSql`. */
    method CreatePivotFieldsSql(request: GridRequest) returns (sql: Result<string>)
      ensures sql == PivotFieldsSql(request)
      ensures sql.Err? <==> |request.pivotCols| == 0
      ensures sql.Ok? ==>
        var q, pc := sql.value, request.pivotCols[0].id;
        && |q| >= |DistinctPivotValues(pc)| + |OrderByPivot(pc)|
        && q[..|DistinctPivotValues(pc)|] == DistinctPivotValues(pc)
        && q[|q| - |OrderByPivot(pc)|..] == OrderByPivot(pc)
    {
      sql := PivotFieldsSql(request);
      if sql.Ok? {
        PivotFieldsSqlShape(request);
      }
    }

    /** `buildCountSql`. */
    method BuildCountSql(request: GridRequest, filters: Option<seq<ColumnFilterDef>>, queryAst: Option<Ast>)
      returns (sql: Result<string>)
      ensures sql == CountSql(tableName, request, filters, queryAst)
    {
      var whereSql := CreateAdaptableWhereSql(filters, queryAst);
      if whereSql.Err? {
        return Err(whereSql.error);
      }
      sql := Ok("SELECT COUNT(*)" + FromSql(tableName) + whereSql.value + GroupBySql(request));
    }

    /** `createSelectSql`: pushes the grouped column, then one aggregate per value column. */
    method CreateSelectSql(request: GridRequest) returns (sql: string)
      ensures sql == SelectSql(request)
    {
      if IsDoingGrouping(request) {
        var colsToSelect: seq<string> := [];
        var rowGroupCol := request.rowGroupCols[|request.groupKeys|];
        if rowGroupCol.field.Some? {
          colsToSelect := colsToSelect + [rowGroupCol.field.value];
        }
        var i := 0;
        while i < |request.valueCols|
          invariant 0 <= i <= |request.valueCols|
          invariant colsToSelect == GroupSelectColumns(request) + Render(request.valueCols[..i], AggregateColumn)
        {
          var valueCol := request.valueCols[i];
          assert request.valueCols[..i + 1] == request.valueCols[..i] + [valueCol];
          colsToSelect := colsToSelect + [AggregateColumn(valueCol)];
          i := i + 1;
        }
        assert request.valueCols[..i] == request.valueCols;
        return "select " + Join(colsToSelect, ", ");
      }
      return "select *";
    }

    /** `createAdaptableWhereSql`: the filter parts, then the AST part, joined by " and ". */
    method CreateAdaptableWhereSql(filters: Option<seq<ColumnFilterDef>>, queryAst: Option<Ast>)
      returns (sql: Result<string>)
      ensures sql == WhereSql(filters, queryAst)
    {
      if filters.None? {
        return Ok("");
      }
      var whereParts := BuildFilterWhereParts(filters);
      if queryAst.Some? && AstTruthy(queryAst.value) {
        var astPart := Compile(queryAst.value);
        if astPart.Err? {
          return Err(astPart.error);
        }
        if |astPart.value| > 0 {
          whereParts := whereParts + [astPart.value];
        } else {
          assert whereParts + [] == whereParts;
        }
      } else {
        assert whereParts + [] == whereParts;
      }
      if |whereParts| > 0 {
        return Ok(" where " + Join(whereParts, " and "));
      } else {
        return Ok("");
      }
    }

    /** `buildFilterWhereParts`: one pass over the filters, pushing each non-empty fragment. */
    method BuildFilterWhereParts(filters: Option<seq<ColumnFilterDef>>) returns (whereParts: seq<string>)
      ensures filters.None? ==> whereParts == []
      ensures filters.Some? ==> whereParts == FilterWhereParts(filters.value)
    {
      if filters.None? {
        return [];
      }
      var fs := filters.value;
      whereParts := [];
      var i := 0;
      while i < |fs|
        invariant 0 <= i <= |fs|
        invariant whereParts == FilterWhereParts(fs[..i])
      {
        var filter := fs[i];
        assert fs[..i + 1][..i] == fs[..i];
        var wherePart := FilterWherePart(filter);
        if wherePart != "" {
          whereParts := whereParts + [wherePart];
        }
        i := i + 1;
      }
      assert fs[..i] == fs;
    }

    /** The body of `buildFilterWhereParts`' loop: the fragment of one filter by its data type. */
    method FilterWherePart(filter: ColumnFilterDef) returns (wherePart: string)
      ensures wherePart == FilterFragment(filter)
      ensures wherePart != "" <==> FilterApplies(filter)
    {
      if IsCustomFilter(filter) {
        wherePart := CustomFilterSql(filter.columnFilter);
      } else if filter.dataType == "String" {
        wherePart := TextFilterSql(filter.columnFilter);
      } else if filter.dataType == "Number" {
        var number := NumberFilterSql(filter.columnFilter);
        wherePart := if number.Some? then number.value else "";
      } else if filter.dataType == "Date" {
        var date := DateFilterSql(filter.columnFilter);
        wherePart := if date.Some? then date.value else "";
      } else if filter.dataType == "Boolean" {
        wherePart := BooleanFilterSql(filter.columnFilter);
      } else {
        wherePart := "";
      }
    }

    /** `createOrderBySql`: one pass over the sort model, pushing the part of each kept item. */
    method CreateOrderBySql(request: GridRequest) returns (sql: string)
      ensures sql == OrderBySql(request)
    {
      var grouping := IsDoingGrouping(request);
      var groupColIds := GroupColIds(request);
      var sortParts: seq<string> := [];
      var i := 0;
      while i < |request.sortModel|
        invariant 0 <= i <= |request.sortModel|
        invariant sortParts == SortParts(request.sortModel[..i], grouping, groupColIds)
      {
        var item := request.sortModel[i];
        assert request.sortModel[..i + 1][..i] == request.sortModel[..i];
        if grouping && item.colId !in groupColIds {
          // ignored while grouping
        } else if item.sortedValues.Some? {
          sortParts := sortParts + ["CASE " + item.colId + " " + CaseWhens(item.sortedValues.value) + " ELSE " + item.colId + " END " + item.sort];
        } else {
          sortParts := sortParts + [item.colId + " " + item.sort];
        }
        i := i + 1;
      }
      assert request.sortModel[..i] == request.sortModel;
      if |sortParts| > 0 {
        return " order by " + Join(sortParts, ", ");
      } else {
        return "";
      }
    }
  }
}
