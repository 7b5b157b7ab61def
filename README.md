# AdapTable SQL service, modelled in Dafny

This project models the server side of a demo in which an AG Grid with
AdapTable asks a SQL backend for its rows. The model covers three parts:

- **The request-to-SQL compiler** (`AdaptableSqlService`). It takes a
  server-side grid request (paging, sort model, row groups, value and pivot
  columns, group keys), the AdapTable column filters and the AdaptableQL query
  AST. It turns them into the text of one SQL query:
  SELECT, FROM, WHERE, GROUP BY, ORDER BY and LIMIT, in that order. It also
  builds a count query and two pivot queries.
- **The newer client** (`SqlClient`). It runs the query and shapes the page
  the grid receives.
  - In table mode the page holds the rows and the `lastRow` sentinel. When
    asked, it also holds the total count and the SQL text.
  - In pivot mode the page is a slice of the pivot rows, each numbered with a
    synthetic id.
- **The older client** (`SqlCLient`). It is table mode only, and its page
  has just the rows and `lastRow`.

Modules:

- `Text` holds the JavaScript string operations the SQL templates are built
  from: `join`, `split` on one character, the decimal text of an integer, and
  quote stripping.
- `Js` holds JavaScript values, truthiness, template-literal text, rows, and
  TypeError as an `Err` result.
- `Europe` holds the static list of European countries.
- `Filters` holds the text, number, date, boolean and custom filter builders.
- `Expressions` holds the AdaptableQL AST compiler.
- `SqlService` holds the fragment functions and the `AdaptableSqlService`
  class.
- `ResultShaping` holds `getRowCount`, `cutResultsToPageSize`, pivot row
  numbering, `slice`, and the permitted-values projection. The two clients
  share this code.
- `Client` holds `SqlClient`.
- `LegacyClient` holds `SqlCLient`.

Running a query is modelled as a parameter `db: string -> seq<Row>` (type
`Js.Db`). What the SQL means is not modelled, only the text that is sent.

A property read on `undefined` in the source throws a TypeError. The model
returns `Err(TypeError(..))` in these cases:

- the pivot queries read `.id` of a missing first column;
- `args[1].split` is called on an IN node without a second argument;
- `count[0]["COUNT(*)"]` is read when the count query returns no rows.

A COL node whose first argument is not a string is also an `Err` here. In the
source, this `Err` has a throw behind it only in some positions. Where the raw value
becomes IN's list or CONTAINS's pattern, `.split` or `.replace` on it throws a
TypeError. Where a template renders it, or where it reaches the top-level
`astPart.length` test, the source does not throw. The `Expressions.Compile`
lines under Left out give the details.

Neither client calls `cutResultsToPageSize`. The data query fetches one row
more than the page (`LIMIT pageSize + 1`), so a table page hands back that
extra row as well: 51 rows for a 50-row request, unless the table ends first.

## Model

| member | source | states |
|---|---|---|
| SqlService.AdaptableSqlService.BuildSql | server/SqlService.ts:30-47 | The query is the SELECT, FROM (` FROM  table`), WHERE, GROUP BY, ORDER BY and LIMIT fragments in that order. It fails exactly when the WHERE fragment fails. |
| SqlService.QuerySql | server/SqlService.ts:30-47 | The data query fails exactly when its WHERE fragment fails. |
| SqlService.AdaptableSqlService.BuildCountSql | server/SqlService.ts:96-109 | The count query is `SELECT COUNT(*)`, FROM, WHERE and GROUP BY. |
| SqlService.CountSql | server/SqlService.ts:96-109 | The count query fails exactly when the WHERE fragment fails. |
| SqlService.CountSharesQueryConditions | server/SqlService.ts:30-109 | The data query and the count query succeed together. Past their SELECT they share the same FROM, WHERE and GROUP BY text, and only the data query adds ORDER BY and LIMIT. |
| SqlService.AdaptableSqlService.CreatePivotSql | server/SqlService.ts:58-76 | The pivot query fails exactly when there is no row-group, pivot or value column. Otherwise it starts with the SELECT of the first row-group column, holds `PIVOT (SUM([value]) FOR pivot)` over the first value and pivot columns, and ends with the ORDER BY fragment and `;`. It ignores the filters and the query. |
| SqlService.PivotSql | server/SqlService.ts:58-76 | The pivot query fails exactly when there is no row-group, pivot or value column. |
| SqlService.AdaptableSqlService.CreatePivotFieldsSql | server/SqlService.ts:78-86 | The pivot-field query fails exactly when there is no pivot column. Otherwise it starts with `SELECT DISTINCT` of the first pivot column and ends with `ORDER BY` that same column. |
| SqlService.PivotFieldsSql | server/SqlService.ts:78-86 | The pivot-field query fails exactly when there is no pivot column. |
| SqlService.PivotQueriesAgree | server/SqlService.ts:58-86 | A request the pivot query accepts also has a pivot-field query. Both queries depend only on the first row-group, pivot and value column ids and on the ORDER BY fragment. |
| SqlService.PivotSqlShape | server/SqlService.ts:68-75 | The pivot query text starts with `SELECT` and the first row-group column. At the end of the SELECT and FROM lines it holds `PIVOT (SUM([vc]) FOR pc)` for the first value and pivot columns, and it ends with the ORDER BY fragment and `;`. |
| SqlService.PivotFieldsSqlShape | server/SqlService.ts:81-85 | The pivot-field query text starts with `SELECT DISTINCT pc` and ends with `ORDER BY pc;`, for the first pivot column `pc`. |
| SqlService.PivotExample | server/SqlService.ts:58-76 | Grouping by country, pivoting on year and summing gold, sorted by country, gives the SELECT of country, year and gold, `PIVOT (SUM([gold]) FOR year)`, and ` order by country asc`. |
| SqlService.PivotFieldsExample | server/SqlService.ts:78-86 | For the same request, the pivot-field query selects the distinct years, ordered by year. |
| SqlService.AdaptableSqlService.CreateSelectSql | server/SqlService.ts:117-139 | The loop that pushes the grouped field and then one `aggFunc(field) as field` per value column gives the SELECT fragment. |
| SqlService.GroupCol | server/SqlService.ts:125 | The grouped column is `rowGroupCols[groupKeys.length]`, one of the row-group columns. |
| SqlService.GroupingLevel | server/SqlService.ts:584-589 | A request groups exactly when there is a row-group column for the level below its group keys. That column is then the last of the ORDER BY group ids. |
| SqlService.SelectSql | server/SqlService.ts:117-139 | The SELECT fragment always starts with `select `, and at the lowest level it is `select *`. |
| SqlService.GroupBySql | server/SqlService.ts:523-538 | The GROUP BY fragment is non-empty exactly when the request groups, and then starts with ` group by `. |
| SqlService.GroupingFragments | server/SqlService.ts:117-139 | At the lowest level, SELECT is `select *` and GROUP BY is empty. Above it, with a non-empty field `f`, SELECT lists `f` followed by one aggregate per value column, it starts with `select f`, and GROUP BY is ` group by f`. |
| SqlService.SelectListsValueColumns | server/SqlService.ts:129-135 | One more value column appends its aggregate at the end of the SELECT list, after `, ` unless the list was empty. |
| SqlService.AdaptableSqlService.CreateAdaptableWhereSql | server/SqlService.ts:149-166 | The WHERE fragment is built from the filter parts, then the AST part when the AST is truthy and compiles to non-empty text. |
| SqlService.WhereSql | server/SqlService.ts:149-166 | With no filters the fragment is empty, even when there is a query. Otherwise it fails exactly when a truthy query fails to compile. |
| SqlService.WhereShape | server/SqlService.ts:161-165 | A WHERE fragment is empty or starts with ` where `. When any filter applies, it is not empty. |
| SqlService.WhereOfPartsShape | server/SqlService.ts:161-165 | Joining non-empty parts gives the empty string only without parts, and otherwise text that starts with ` where `. |
| SqlService.AppliesGivesPart | server/SqlService.ts:179-205 | A filter that applies anywhere in the list contributes at least one part. |
| SqlService.FilterExtendsWhere | server/SqlService.ts:149-166 | A filter that does not apply leaves the WHERE fragment unchanged. A filter that applies adds its fragment at the end, after ` where ` or ` and `. |
| SqlService.AstPartComesLast | server/SqlService.ts:156-165 | The query's condition comes after every filter part, after ` where ` or ` and `. |
| SqlService.WhereOfPartsSnoc | server/SqlService.ts:161-162 | One more WHERE part goes after ` where ` when it is the first, and after ` and ` otherwise. |
| SqlService.AstWhereParts | server/SqlService.ts:156-159 | The query adds at most one non-empty part. It fails exactly when the query is present and truthy and does not compile. |
| SqlService.AdaptableSqlService.BuildFilterWhereParts | server/SqlService.ts:174-208 | The loop over the filters gives their non-empty fragments in input order. An absent list gives none. |
| SqlService.AdaptableSqlService.FilterWherePart | server/SqlService.ts:180-205 | The loop body gives the filter's fragment, dispatched on a custom definition first and then on the data type; it is non-empty exactly when the filter applies. |
| SqlService.FilterWhereParts | server/SqlService.ts:174-208 | There are no more parts than filters, and no part is empty. |
| SqlService.FilterWherePartsSnoc | server/SqlService.ts:179-205 | One more filter adds its fragment at the end exactly when the fragment is not empty. |
| SqlService.FilterWherePartsAppend | server/SqlService.ts:179-207 | The parts of two filter lists one after the other are the parts of the first list followed by those of the second. |
| SqlService.FilterWherePartsCount | server/SqlService.ts:179-207 | When every filter applies, there is one part per filter. When none applies, there are no parts. |
| SqlService.AdaptableSqlService.CreateOrderBySql | server/SqlService.ts:546-582 | The loop over the sort model gives the ORDER BY fragment. |
| SqlService.GroupColIds | server/SqlService.ts:556-558 | The ids of the first `groupKeys.length + 1` row-group columns, or of all of them when there are fewer. |
| SqlService.SortParts | server/SqlService.ts:560-574 | There are no more ORDER BY parts than sort items. |
| SqlService.OrderBySql | server/SqlService.ts:546-582 | The ORDER BY fragment is empty or starts with ` order by `, and it is empty for an empty sort model. |
| SqlService.SortPartsAppend | server/SqlService.ts:560-574 | The parts of two sort models one after the other are the parts of each, in order. |
| SqlService.SortPartsSingle | server/SqlService.ts:561-573 | A sort item gives one part when it is kept and none when it is dropped. While grouping, an item is dropped when its column is not one of the group column ids. |
| SqlService.SortPartsWithoutGrouping | server/SqlService.ts:560-574 | Without grouping, every sort item gives exactly one part, in sort-model order. |
| SqlService.SortPartsWhileGrouping | server/SqlService.ts:561-562 | While grouping, every part comes from a sort item on one of the group column ids. |
| SqlService.CaseWhensSnoc | server/SqlService.ts:567-569 | The WHEN branch of the value at position i of a custom sort order is numbered i. |
| SqlService.CaseWhensExample | server/SqlService.ts:567-569 | The sort order ["B", "A"] gives `WHEN "B" THEN '0' WHEN "A" THEN '1'`. |
| SqlService.CustomSortExample | server/SqlService.ts:563-570 | A custom sort on `athlete` is `CASE athlete WHEN ... ELSE athlete END asc`. |
| ResultShaping.LimitIsPageSizePlusOne | server/SqlService.ts:605-606 | When both bounds are given, the LIMIT count is one more than the page size the client cuts to, `endRow - startRow`. |
| SqlService.LimitNumbers | server/SqlService.ts:597-607 | Without an end row the LIMIT fragment is empty. With one, it is ` limit N offset S`, where N reads back as one more than the page size and S as the start row. |
| SqlService.LimitSql | server/SqlService.ts:597-607 | The LIMIT fragment is non-empty exactly when there is an end row, and then starts with ` limit `. |
| Filters.TextFilterSql | server/SqlService.ts:216-255 | A text filter's fragment is non-empty exactly when it applies: Values or ExcludeValues with inputs, Blanks or NonBlanks, or a single-input predicate with a truthy first input. A non-empty fragment starts with the column id. |
| Filters.NumberFilterSql | server/SqlService.ts:263-337 | The fragment is `undefined` (`None`) exactly for an unknown predicate. It is non-empty exactly when the filter applies, and then starts with the column id. |
| Filters.NumberListSql | server/SqlService.ts:268-285 | For Values, ExcludeValues, Blanks and NonBlanks the fragment is non-empty exactly for Blanks, NonBlanks or a non-empty input list, and then starts with the column id. |
| Filters.NumberCompareSql | server/SqlService.ts:286-333 | For the comparison predicates the fragment is non-empty exactly for Positive, Negative and Zero, or when every input the predicate reads is present, and then starts with the column id. |
| Filters.DateFilterSql | server/SqlService.ts:345-460 | The fragment is `undefined` exactly for an unknown predicate. It is non-empty exactly when the filter applies. LastWorkDay and NextWorkDay give the empty string. |
| Filters.DateListSql | server/SqlService.ts:371-388 | For Values, ExcludeValues, Blanks and NonBlanks the fragment is non-empty exactly for Blanks, NonBlanks or a non-empty input list. |
| Filters.RelativeDateSql | server/SqlService.ts:389-421 | Every relative-date predicate gives a non-empty fragment. |
| Filters.DateInputSql | server/SqlService.ts:422-453 | After, Before, On and NotOn give a fragment exactly when the first input is truthy; InRange needs both inputs truthy. |
| Filters.BooleanFilterSql | server/SqlService.ts:468-489 | The fragment is non-empty exactly when the filter applies, and then starts with the column id. BooleanToggle gives `= TRUE` for "checked" and `= FALSE` for "unchecked". |
| Filters.FilterFragment | server/SqlService.ts:179-205 | A filter's part is non-empty exactly when it applies. A filter whose definition is custom is dispatched on its predicate before its data type: the "superstar" predicate (server/SqlService.ts:510-515) gives the fixed `gold > 3 OR (gold + silver + bronze) > 3`, whatever the column, and any other custom predicate gives nothing. A data type other than String, Number, Date and Boolean gives nothing. |
| Filters.FilterAppliesKnownKinds | server/SqlService.ts:179-205 | Only a custom filter or a filter of type String, Number, Date or Boolean ever contributes a WHERE part. |
| Filters.CustomFragmentIgnoresColumn | server/SqlService.ts:498-501 | A filter is custom by its definition's id alone. Two custom filters with the same predicate give the same part, whatever their columns, data types and inputs. |
| Filters.EachComparisonNonEmpty | server/SqlService.ts:220-233 | A chain of comparisons on a column is non-empty exactly when there are inputs, and then starts with the column id. |
| Filters.TextValuesAppend | server/SqlService.ts:220-233 | Values (ExcludeValues) over the inputs `a + b` is the OR (AND) of the filters over `a` and over `b`. |
| Filters.TextValuesSingle | server/SqlService.ts:220-233 | One text input gives `col = "v"` (or `col != "v"`). |
| Filters.NumberValuesAppend | server/SqlService.ts:268-281 | Number Values (ExcludeValues) over `a + b` is the OR (AND) of the filters over `a` and over `b`. |
| Filters.NumberValuesSingle | server/SqlService.ts:268-281 | One number input gives `col = v` (or `col != v`), unquoted. |
| Filters.DateValuesAppend | server/SqlService.ts:371-384 | Date Values (ExcludeValues) over `a + b` is the OR (AND) of the filters over `a` and over `b`. |
| Filters.DateValuesSingle | server/SqlService.ts:371-384 | One date input compares `CAST(col AS date)` with `CAST("v" as DATE)`. |
| Filters.TextContainsExample | server/SqlService.ts:242-243 | Contains "Bob" on `athlete` is `athlete LIKE "%Bob%"`. |
| Filters.NumberBetweenExample | server/SqlService.ts:310-321 | Between 5 and 10 on `gold` is `gold >= 5 AND gold <= 10`. With one bound it is empty. |
| Expressions.CompileSucceedsIffWellFormed | server/SqlService.ts:616-687 | The compiler succeeds exactly on ASTs in which every COL names its column with a string and every IN has a list argument. |
| Expressions.Compile | server/SqlService.ts:616-687 | A string, number or boolean literal always compiles, and a number gives text that reads back as the number. A node fails when one of its arguments fails, and an IN node with fewer than two arguments fails. |
| Expressions.LiteralTemplates | server/SqlService.ts:621-628 | A string compiles to `"s"`, a number to its decimal text, a boolean to `TRUE` or `FALSE`. |
| Expressions.PatternTemplates | server/SqlService.ts:667-676 | IS_BLANK gives `a IS NULL`, STARTS_WITH gives `a LIKE 'b%'`, and ENDS_WITH gives `a LIKE '%b'`. |
| Expressions.Apply | server/SqlService.ts:637-684 | Substituting compiled arguments fails exactly for a COL without a string column name and for an IN without a second argument. |
| Expressions.CompileAllSucceedsIffWellFormed | server/SqlService.ts:630-636 | A list of ASTs compiles exactly when every item is well formed. |
| Expressions.CompileAllItems | server/SqlService.ts:630-636 | When a list compiles, item i compiles to the i-th result. |
| Expressions.CompileAll | server/SqlService.ts:631-636 | A list that compiles gives one result per item. |
| Expressions.ArrayTemplate | server/SqlService.ts:630-634 | An array compiles to its compiled items separated by single spaces. |
| Expressions.ColumnReference | server/SqlService.ts:639-641 | COL compiles to its bare column name. |
| Expressions.BinaryOperatorTemplate | server/SqlService.ts:642-655 | EQ, NEQ, GT, LT, GTE, OR and AND put their operator text between their compiled arguments. |
| Expressions.NotTemplate | server/SqlService.ts:656-657 | NOT a is the literal text `IS NOT a`. |
| Expressions.BetweenTemplate | server/SqlService.ts:658-659 | BETWEEN a b c is `a >= b AND a <= c`. |
| Expressions.InTemplate | server/SqlService.ts:660-666 | IN is the OR of `a = w` over the space-separated words w of the compiled list. Those words, joined by spaces again, are the list. |
| Expressions.InWithoutListFails | server/SqlService.ts:660-662 | IN without a second argument throws. |
| Expressions.ContainsPatternHasNoQuotes | server/SqlService.ts:669-672 | The LIKE pattern of CONTAINS contains no quote, whatever the argument. |
| Expressions.ContainsStringLiteral | server/SqlService.ts:669-672 | CONTAINS on a string without quotes is `col LIKE '%s%'`. |
| Expressions.UnquoteLiteral | server/SqlService.ts:669-672 | Stripping the quotes of a compiled quote-free string literal gives back the string. |
| Expressions.FromEuropeTemplate | server/SqlService.ts:677-683 | FROM_EUROPE expands to the OR-chain of `country = "X"` over the European countries. |
| Expressions.UnknownOperatorIsEmpty | server/SqlService.ts:686 | A node of unknown type compiles to the empty condition. |
| Expressions.CountryEqualsExample | server/SqlService.ts:642-643 | `EQ(COL(country), "United States")` is `country = "United States"`. |
| Expressions.GoldPositiveExample | server/SqlService.ts:646-647 | `GT(COL(gold), 0)` is `gold > 0`. |
| Expressions.CountryAndGoldExample | server/SqlService.ts:654-655 | The AND of the two examples above is `country = "United States" AND gold > 0`. |
| Europe.CountryComparisons | server/data/countriesInEurope.ts:1-46 | There is one comparison `country = "X"` per listed country, 44 in all, in list order. |
| Europe.FromEuropeSql | server/SqlService.ts:677-683 | The FROM_EUROPE condition starts with the comparison for the first listed country followed by ` OR `. |
| Text.ParseIntToString | server/SqlService.ts:624-625 | The decimal text of a number reads back as that number. |
| Text.IntToStringInjective | server/SqlClient.ts:160 | Different indexes get different id texts. |
| Text.JoinSplit | server/SqlService.ts:661-662 | Splitting on a character and joining with it again gives back the string. |
| Text.SplitJoin | server/SqlService.ts:661-662 | Splitting the join of parts free of the separator gives back the parts. |
| Text.Split | server/SqlService.ts:661-662 | A split always has at least one piece, and no piece contains the separator. |
| Text.RemoveQuotes | server/SqlService.ts:671 | Stripping quotes leaves no quote, keeps only characters of the input, and never lengthens it. |
| Text.RemoveQuotesIdempotent | server/SqlService.ts:671 | Stripping quotes twice is the same as stripping them once. |
| Js.ToText | server/SqlService.ts:239-249 | A template literal inserts a string as it is and a number as decimal text that reads back as the number. Other values insert non-empty text. |
| ResultShaping.GetRowCount | server/SqlClient.ts:192-198 | `lastRow` is 0 for no rows. It is `startRow + rows` when that does not pass `endRow`, and -1 otherwise or when a bound is missing. So it is always -1, 0, or in (`startRow`, `endRow`]. |
| ResultShaping.FullPageHasMore | server/SqlClient.ts:196-197 | When the backend returns all `endRow - startRow + 1` over-fetched rows, `lastRow` is -1. |
| ResultShaping.ShortPageIsLast | server/SqlClient.ts:196-197 | A page shorter than the page size ends at `startRow + rows`, at or before `endRow`. |
| ResultShaping.CutResultsToPageSize | server/SqlClient.ts:207-214 | When the array is longer than `endRow - startRow`, that many rows are spliced into a new array that is returned, and the array keeps the rest in order. Otherwise the same array is returned and left unchanged. |
| ResultShaping.Cut | server/SqlClient.ts:208-210 | The returned rows followed by the remaining rows are the original rows. The returned part has the page size, and a negative page size returns nothing. |
| ResultShaping.CutLeavesExtraRow | server/SqlClient.ts:207-214 | Cutting the over-fetched rows leaves exactly the one extra row behind. |
| ResultShaping.PageSize | server/SqlClient.ts:208 | The page size is defined exactly when both bounds are, and `startRow + pageSize == endRow`. |
| ResultShaping.SpliceCount | server/SqlClient.ts:210 | `splice` removes the requested count when it is in range, and none for a negative count. |
| ResultShaping.NumberRows | server/SqlClient.ts:157-162 | Every pivot row keeps all its other fields and gets `id` equal to the text of its index. |
| ResultShaping.NumberedIdsUnique | server/SqlClient.ts:156-162 | No two pivot rows share an id. |
| ResultShaping.JsSlice | server/SqlClient.ts:163 | With bounds in range, `slice` is the rows from `startRow` up to `endRow`. Crossed bounds give nothing, and the result is a run of consecutive rows. |
| ResultShaping.SliceIndex | server/SqlClient.ts:163 | A missing bound takes its default, and a bound in range is kept. |
| ResultShaping.PivotPageIds | server/SqlClient.ts:157-163 | A page of numbered pivot rows has `endRow - startRow` rows with consecutive ids from `startRow`, each keeping every other field of its pivot row. |
| ResultShaping.ProjectColumn | server/SqlClient.ts:34 | The permitted values have one value per row, the i-th being `row_i[columnName]`. |
| ResultShaping.PermittedValuesSql | server/SqlClient.ts:33 | The permitted-values query is `SELECT DISTINCT `, then the column name, which reads back by slicing, then ` FROM olympic_winners`. |
| Client.SqlClient.GetPermittedValues | server/SqlClient.ts:32-36 | The permitted values are the column's values in the rows of `SELECT DISTINCT col FROM olympic_winners`. |
| Client.SqlClient.GetData | server/SqlClient.ts:48-72 | Pivot mode gives the pivot page and table mode the table page. |
| Client.SqlClient.RequestData | server/SqlClient.ts:84-120 | Building the page and then setting `count` and `sql` gives the table page. |
| Client.TablePage | server/SqlClient.ts:84-120 | `rows` is the query's result and `lastRow` its row count. `count` is present exactly when asked for, and `sql`, when present, is the built query. It fails exactly when the WHERE fails or a requested count query returns no rows. |
| Client.CountField | server/SqlClient.ts:105-113 | There is no count unless asked for. When asked, it is the `COUNT(*)` of the first row of the count query. |
| Client.TableCountMatchesQuery | server/SqlClient.ts:91-113 | The count comes from the count query over the same FROM, WHERE and GROUP BY text as the rows. |
| Client.TablePageKeepsExtraRow | server/SqlClient.ts:91-103 | When the backend returns every row the LIMIT asks for, the table page holds one row more than the page size, and `lastRow` is -1. |
| Client.FiftyRowRequestGetsFiftyOne | server/SqlClient.ts:91-103 | A filled request for rows 0 to 50 hands 51 rows to the grid. |
| Client.SqlClient.RequestPivotData | server/SqlClient.ts:133-183 | Building the pivot page gives `PivotPage`. |
| Client.PivotPage | server/SqlClient.ts:151-178 | `lastRow` is the number of pivot rows. `rows` is the slice of the numbered rows. `sql` and `pivotFields` are always present and `count` never is. It fails exactly when the pivot query does. |
| LegacyClient.SqlCLient.GetData | server/SqlCLient.ts:27-41 | The legacy page is the built query's rows and their `lastRow`. |
| LegacyClient.LegacyPageOf | server/SqlCLient.ts:27-41 | The legacy page fails exactly when the WHERE fragment does. Otherwise it holds the query's rows and their row count. |
| LegacyClient.LegacyIsTableModeWithoutExtras | server/SqlCLient.ts:27-49 | The legacy page equals the newer client's table page without count or SQL: the same rows and `lastRow`. The legacy `getRowCount` and `cutResultsToPageSize` are the same code, modelled once in `ResultShaping`. |
| LegacyClient.SqlCLient.GetPermittedValues | server/SqlCLient.ts:16-25 | The legacy permitted values are the same projection of the distinct-values query. |

## Left out

- Query execution (`alasql`) is the parameter `db`. SQL semantics, the
  AlaSQL dialect, and what the date and REGEXP fragments mean are not
  modelled.
- The AlaSQL pivot-cache reset and its logging, and the one-second and
  two-second `setTimeout` delays, are not modelled (server/SqlClient.ts:142-149
  and 180, server/SqlCLient.ts:19-24). These are foreign calls and timing.
  Promises and `await` are read as plain values.
- HTTP routing, data import, the client UI, the client data sources and export
  are not part of this model.
- Numbers are integers. Fractional and NaN inputs to the number filters, and
  their template text, are not modelled.
- Js.ToText, Text.IntToString, Text.ParseIntToString, SqlService.LimitSql,
  SqlService.LimitNumbers, SqlService.LimitCount: the model's integers are
  unbounded, and their text is always plain decimal digits. JavaScript numbers
  are doubles. At magnitude 1e21 and above, their text is in exponent form
  (`1e+21`), which does not read back through `ParseInt`. Above 2^53, the
  arithmetic (`endRow - startRow + 1`) and the parse lose precision. The
  round-trip and the LIMIT numbers are therefore promised only for what the
  model computes, not for doubles of that size.
- A request's `sortModel`, `rowGroupCols`, `valueCols`, `pivotCols` and
  `groupKeys` are always present lists. The source's `?? []` defaults and its
  `if (sortModel)` guard are therefore not reachable as absent values.
- A column's `field` and `aggFunc` are strings or absent. Non-string values,
  which the source's `typeof` check and template text would handle, are not
  modelled.
- Expressions.Compile: a COL node whose first argument is not a string is an
  `Err` here. The source returns that raw value (server/SqlService.ts:639-641),
  and whether it then throws depends on where the value goes.
  - As IN's list argument, `.split` is called on it, and for a number, a
    boolean or an array that throws a TypeError (server/SqlService.ts:661-662).
  - As CONTAINS's pattern argument, `?.replace` is called on it. `?.` guards
    only `null` and `undefined`, so a number, a boolean or an array throws
    (server/SqlService.ts:671).
  - In every other template, the text renders the value, so a number shows as
    its digits and a missing argument as `undefined`.
  - At the top level, `astPart.length` of a number or a boolean is
    `undefined`, so no WHERE part is pushed (server/SqlService.ts:158). A COL
    node with no arguments returns `undefined`, and reading its `.length`
    there throws.
  Only the throwing positions match the model's `Err`. The rendered and
  dropped positions do not.
- Expressions.Compile: the AST has no JSON `null` and no operator node without
  `args`. In the source both throw a TypeError: `queryAST?.args.map` on a
  node without `args` (server/SqlService.ts:636) and `queryAST.type` on `null`
  (server/SqlService.ts:638).
- Expressions.Compile: the `typeof queryAST === undefined` test (always false
  in JavaScript) has no counterpart. An absent query is never compiled,
  because the caller first tests the query for truthiness.
- ResultShaping.GetRowCount: a missing `startRow` gives -1 (the source adds
  `undefined`, which gives NaN). The LIMIT fragment defaults the same field to
  0, so `FullPageHasMore` and `CutLeavesExtraRow` state the over-fetch
  relation only where both readings agree.
- ResultShaping.CutResultsToPageSize: a missing bound makes the page size NaN,
  so nothing is cut. An array is modelled as a `RowArray` object with a
  sequence of rows; the model does not cover aliases of that array held
  elsewhere.
- Client.TablePage: `count[0]["COUNT(*)"] as number` is read as the value of
  the field, whatever its type, because the cast has no run-time effect.
- Injection safety is not modelled.
