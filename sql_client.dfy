/**
 * `SqlClient` (server/SqlClient.ts): builds the SQL of a grid request with an
 * `AdaptableSqlService`, runs it, and shapes the page the grid receives. In
 * table mode the page is the query's rows with the `lastRow` sentinel and, on
 * request, the total count and the SQL text; in pivot mode it is a slice of
 * the numbered pivot rows with the pivot fields and the SQL text.
 *
 * Running a query is the parameter `db`, which maps the SQL text to the rows
 * it yields.
 */
module Client {
  import opened Js
  import opened Filters
  import opened Expressions
  import opened SqlService
  import opened ResultShaping

  /** The result a data request returns; a missing optional field is `None`. */
  datatype ResultPage = ResultPage(
    rows: seq<Row>,
    lastRow: int,
    count: Option<JsValue>,
    sql: Option<string>,
    pivotFields: Option<seq<Row>>)

  /** `count[0]["COUNT(*)"]`, which throws when the count query returns no row. */
  function CountValue(countRows: seq<Row>): Result<JsValue>
  {
    if |countRows| == 0 then Err(TypeError("reading 'COUNT(*)' of undefined"))
    else Ok(Get(countRows[0], "COUNT(*)"))
  }

  /** The `count` field of a table page: present only when asked for. */
  function CountField(tableName: string, db: Db, r: GridRequest, filters: Option<seq<ColumnFilterDef>>,
                      ast: Option<Ast>, includeCount: bool): (c: Result<Option<JsValue>>)
    ensures !includeCount ==> c == Ok(None)
    ensures includeCount && c.Ok? ==>
      && c.value.Some? && CountSql(tableName, r, filters, ast).Ok?
      && |db(CountSql(tableName, r, filters, ast).value)| > 0
      && c.value.value == Get(db(CountSql(tableName, r, filters, ast).value)[0], "COUNT(*)")
  {
    if !includeCount then Ok(None)
    else
      var countSql :- CountSql(tableName, r, filters, ast);
      var count :- CountValue(db(countSql));
      Ok(Some(count))
  }

  /** `requestData`: the page of a request in table mode. */
  function TablePage(tableName: string, db: Db, r: GridRequest, filters: Option<seq<ColumnFilterDef>>,
                     ast: Option<Ast>, includeCount: bool, includeSql: bool): (p: Result<ResultPage>)
    ensures p.Err? <==>
      || WhereSql(filters, ast).Err?
      || (includeCount && |db(CountSql(tableName, r, filters, ast).value)| == 0)
    ensures p.Ok? ==>
      var sql := QuerySql(tableName, r, filters, ast).value;
      && p.value.rows == db(sql)
      && p.value.lastRow == GetRowCount(r, Some(db(sql)))
      && (p.value.count.Some? <==> includeCount)
      && (p.value.sql.Some? <==> includeSql)
      && (includeSql ==> p.value.sql.value == sql)
      && p.value.pivotFields.None?
  {
    var sql :- QuerySql(tableName, r, filters, ast);
    var rows := db(sql);
    var count :- CountField(tableName, db, r, filters, ast, includeCount);
    Ok(ResultPage(rows, GetRowCount(r, Some(rows)), count, if includeSql then Some(sql) else None, None))
  }

  /**
   * `requestPivotData`: the page of a request in pivot mode. The filters,
   * the query and the two flags do not change it.
   */
  function PivotPage(db: Db, r: GridRequest): (p: Result<ResultPage>)
    ensures p.Err? <==> PivotSql(r).Err?
    ensures p.Ok? ==>
      var all := db(PivotSql(r).value);
      && p.value.lastRow == |all|
      && p.value.rows == JsSlice(NumberRows(all), r.startRow, r.endRow)
      && p.value.sql == Some(PivotSql(r).value)
      && p.value.pivotFields == Some(db(PivotFieldsSql(r).value))
      && p.value.count.None?
  {
    var resultsSql :- PivotSql(r);
    var results := NumberRows(db(resultsSql));
    var pivotFieldsSql := PivotFieldsSql(r).value;
    Ok(ResultPage(JsSlice(results, r.startRow, r.endRow), |results|, None, Some(resultsSql), Some(db(pivotFieldsSql))))
  }

  /**
   * In table mode the count, when asked for, comes from the count query over
   * the same FROM, WHERE and GROUP BY as the rows.
   */
  lemma TableCountMatchesQuery(tableName: string, db: Db, r: GridRequest, filters: Option<seq<ColumnFilterDef>>,
                               ast: Option<Ast>, includeSql: bool)
    requires TablePage(tableName, db, r, filters, ast, true, includeSql).Ok?
    ensures var w := WhereSql(filters, ast).value;
      var countRows := db("SELECT COUNT(*)" + FromSql(tableName) + w + GroupBySql(r));
      && |countRows| > 0
      && TablePage(tableName, db, r, filters, ast, true, includeSql).value.count == Some(Get(countRows[0], "COUNT(*)"))
      && TablePage(tableName, db, r, filters, ast, true, includeSql).value.rows
        == db(SelectSql(r) + FromSql(tableName) + w + GroupBySql(r) + OrderBySql(r) + LimitSql(r))
  {
    CountSharesQueryConditions(tableName, r, filters, ast);
  }

  /**
   * Neither client cuts the rows to the page size: when the backend returns
   * every row the LIMIT asks for, the grid receives one row more than the
   * page, and `lastRow` says that more rows follow.
   */
  lemma TablePageKeepsExtraRow(tableName: string, db: Db, r: GridRequest, filters: Option<seq<ColumnFilterDef>>,
                               ast: Option<Ast>, includeCount: bool, includeSql: bool)
    requires r.startRow.Some? && r.endRow.Some? && r.startRow.value <= r.endRow.value
    requires TablePage(tableName, db, r, filters, ast, includeCount, includeSql).Ok?
    requires |db(QuerySql(tableName, r, filters, ast).value)| == LimitCount(r)
    ensures var p := TablePage(tableName, db, r, filters, ast, includeCount, includeSql).value;
      |p.rows| == PageSize(r).value + 1 && p.lastRow == -1
  {
    LimitIsPageSizePlusOne(r);
    FullPageHasMore(r, db(QuerySql(tableName, r, filters, ast).value));
  }

  /** A request for rows 0 to 50 that the backend fills hands 51 rows to the grid. */
  lemma FiftyRowRequestGetsFiftyOne(tableName: string, db: Db, r: GridRequest, filters: Option<seq<ColumnFilterDef>>,
                                    ast: Option<Ast>, includeCount: bool, includeSql: bool)
    requires r.startRow == Some(0) && r.endRow == Some(50)
    requires TablePage(tableName, db, r, filters, ast, includeCount, includeSql).Ok?
    requires |db(QuerySql(tableName, r, filters, ast).value)| == 51
    ensures |TablePage(tableName, db, r, filters, ast, includeCount, includeSql).value.rows| == 51
  {
    TablePageKeepsExtraRow(tableName, db, r, filters, ast, includeCount, includeSql);
  }

  /** `SqlClient`: a service for one table, and the table's name and primary key. */
  class SqlClient {
    const sqlService: AdaptableSqlService
    const tableName: string
    const primaryKey: string

    constructor (primaryKey: string, tableName: string)
      ensures fresh(sqlService) && sqlService.tableName == tableName
      ensures this.tableName == tableName && this.primaryKey == primaryKey
    {
      sqlService := new AdaptableSqlService(tableName);
      this.tableName := tableName;
      this.primaryKey := primaryKey;
    }

    /** `getPermittedValues`: the column's value in each row of the distinct-values query. */
    method GetPermittedValues(db: Db, columnName: string) returns (values: seq<JsValue>)
      ensures values == ProjectColumn(db(PermittedValuesSql(columnName)), columnName)
    {
      var sql := PermittedValuesSql(columnName);
      values := ProjectColumn(db(sql), columnName);
    }

    /** `getData`: pivot mode goes to `requestPivotData`, table mode to `requestData`. */
    method GetData(db: Db, request: GridRequest, filters: Option<seq<ColumnFilterDef>>, queryAst: Option<Ast>,
                   includeCount: bool, includeSql: bool) returns (result: Result<ResultPage>)
      ensures request.pivotMode ==> result == PivotPage(db, request)
      ensures !request.pivotMode ==>
        result == TablePage(sqlService.tableName, db, request, filters, queryAst, includeCount, includeSql)
    {
      if request.pivotMode {
        result := RequestPivotData(db, request, filters, queryAst, includeCount, includeSql);
      } else {
        result := RequestData(db, request, filters, queryAst, includeCount, includeSql);
      }
    }

    /** `requestData`: builds the page, then adds `count` and `sql` when asked for. */
    method RequestData(db: Db, request: GridRequest, filters: Option<seq<ColumnFilterDef>>, queryAst: Option<Ast>,
                       includeCount: bool, includeSql: bool) returns (page: Result<ResultPage>)
      ensures page == TablePage(sqlService.tableName, db, request, filters, queryAst, includeCount, includeSql)
    {
      var sql := sqlService.BuildSql(request, filters, queryAst);
      if sql.Err? {
        return Err(sql.error);
      }
      var results := db(sql.value);
      var lastRow := GetRowCount(request, Some(results));
      var result := ResultPage(results, lastRow, None, None, None);
      if includeCount {
        var countSql := sqlService.BuildCountSql(request, filters, queryAst);
        var count := db(countSql.value);
        if |count| == 0 {
          return Err(TypeError("reading 'COUNT(*)' of undefined"));
        }
        result := result.(count := Some(Get(count[0], "COUNT(*)")));
      }
      if includeSql {
        result := result.(sql := Some(sql.value));
      }
      return Ok(result);
    }

    /** `requestPivotData`, without its cache reset and its delay. */
    method RequestPivotData(db: Db, request: GridRequest, filters: Option<seq<ColumnFilterDef>>, queryAst: Option<Ast>,
                            includeCount: bool, includeSql: bool) returns (page: Result<ResultPage>)
      ensures page == PivotPage(db, request)
    {
      var resultsSql := sqlService.CreatePivotSql(request, filters, queryAst);
      if resultsSql.Err? {
        return Err(resultsSql.error);
      }
      var results := NumberRows(db(resultsSql.value));
      var paginatedResults := JsSlice(results, request.startRow, request.endRow);
      var pivotFieldsSql := sqlService.CreatePivotFieldsSql(request);
      var pivotFields := db(pivotFieldsSql.value);
      return Ok(ResultPage(paginatedResults, |results|, None, Some(resultsSql.value), Some(pivotFields)));
    }
  }
}
