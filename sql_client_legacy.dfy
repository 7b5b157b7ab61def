/**
 * `SqlCLient` (server/SqlCLient.ts), the older client: table mode only, and
 * a page that holds just the rows and the `lastRow` sentinel. Its
 * `getRowCount` and `cutResultsToPageSize` are those of the newer client and
 * are modelled once, in ResultShaping.
 */
module LegacyClient {
  import opened Js
  import opened Filters
  import opened Expressions
  import opened SqlService
  import opened ResultShaping
  import Client

  /** `{rows, lastRow}`. */
  datatype LegacyPage = LegacyPage(rows: seq<Row>, lastRow: int)

  /** `getData`: the rows of the built query and their `lastRow`. */
  function LegacyPageOf(tableName: string, db: Db, r: GridRequest, filters: Option<seq<ColumnFilterDef>>,
                        ast: Option<Ast>): (p: Result<LegacyPage>)
    ensures p.Err? <==> WhereSql(filters, ast).Err?
    ensures p.Ok? ==>
      var rows := db(QuerySql(tableName, r, filters, ast).value);
      p.value.rows == rows && p.value.lastRow == GetRowCount(r, Some(rows))
  {
    var sql :- QuerySql(tableName, r, filters, ast);
    var results := db(sql);
    Ok(LegacyPage(results, GetRowCount(r, Some(results))))
  }

  /**
   * The older client's page is the newer client's table-mode page without
   * its optional fields: the same rows and the same `lastRow`, whatever the
   * request's pivot mode.
   */
  lemma LegacyIsTableModeWithoutExtras(tableName: string, db: Db, r: GridRequest,
                                       filters: Option<seq<ColumnFilterDef>>, ast: Option<Ast>)
    ensures var legacy, current := LegacyPageOf(tableName, db, r, filters, ast),
                                   Client.TablePage(tableName, db, r, filters, ast, false, false);
      && (legacy.Ok? <==> current.Ok?)
      && (legacy.Ok? ==>
        && current.value == Client.ResultPage(legacy.value.rows, legacy.value.lastRow, None, None, None))
  {
  }

  /** `SqlCLient`: a service for one table, and the table's name and primary key. */
  class SqlCLient {
    const sqlService: AdaptableSqlService
    const tableName: string
    const primaryKey: string

    constructor (primaryKey: string, tableName: string)
      ensures fresh(sqlService) && sqlService.tableName == tableName
      ensures this.tableName == tableName && this.primaryKey == primaryKey
    {
      sqlService := new AdaptableSqlService(tableName);
      this.tableName := tableName;
      this.primaryKey := primaryKey;
    }

    /** `getPermittedValues`, without its logging and its delay. */
    method GetPermittedValues(db: Db, columnName: string) returns (values: seq<JsValue>)
      ensures values == ProjectColumn(db(PermittedValuesSql(columnName)), columnName)
    {
      var sql := PermittedValuesSql(columnName);
      values := ProjectColumn(db(sql), columnName);
    }

    /** `getData`. */
    method GetData(db: Db, request: GridRequest, filters: Option<seq<ColumnFilterDef>>, queryAst: Option<Ast>)
      returns (page: Result<LegacyPage>)
      ensures page == LegacyPageOf(sqlService.tableName, db, request, filters, queryAst)
    {
      var sql := sqlService.BuildSql(request, filters, queryAst);
      if sql.Err? {
        return Err(sql.error);
      }
      var results := db(sql.value);
      var lastRow := GetRowCount(request, Some(results));
      return Ok(LegacyPage(results, lastRow));
    }
  }
}
