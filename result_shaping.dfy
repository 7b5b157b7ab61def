/**
 * What the SQL clients do with the rows a query returns, shared by
 * `SqlClient` (server/SqlClient.ts) and its older twin `SqlCLient`
 * (server/SqlCLient.ts), whose `getRowCount` and `cutResultsToPageSize` are
 * the same code: the `lastRow` sentinel of a page, the in-place truncation of
 * a result array to the page size, the synthetic ids and the slice of the
 * pivot rows, and the projection of the distinct values of a column.
 */
module ResultShaping {
  import opened Text
  import opened Js
  import opened SqlService

  // ---------------------------------------------------------------------------
  // The lastRow sentinel

  /**
   * `getRowCount`: 0 for no rows; the index after the last row when the page
   * ends before `endRow`, which tells the grid that this is the last page;
   * -1, "more rows may follow", otherwise. A missing `startRow` or `endRow`
   * makes the comparison one with NaN, which is false, so the count is -1.
   */
  function GetRowCount(r: GridRequest, results: Option<seq<Row>>): (n: int)
    ensures n == -1 || n == 0 || (r.startRow.Some? && r.endRow.Some? && r.startRow.value < n <= r.endRow.value)
    ensures results.None? || |results.value| == 0 ==> n == 0
    ensures results.Some? && |results.value| > 0 ==>
      if r.startRow.Some? && r.endRow.Some? && r.startRow.value + |results.value| <= r.endRow.value
      then n - r.startRow.value == |results.value| && n <= r.endRow.value
      else n == -1
  {
    if results.None? || |results.value| == 0 then 0
    else if r.startRow.Some? && r.endRow.Some? && r.startRow.value + |results.value| <= r.endRow.value then
      r.startRow.value + |results.value|
    else -1
  }

  /**
   * The LIMIT of the query asks for one row more than the page: when the
   * backend returns all of them, the page is not the last one.
   */
  lemma FullPageHasMore(r: GridRequest, rows: seq<Row>)
    requires r.endRow.Some? && |rows| == LimitCount(r) && |rows| > 0
    ensures GetRowCount(r, Some(rows)) == -1
  {
  }

  /** A page shorter than the page size is the last one and ends at `startRow + |rows|`. */
  lemma ShortPageIsLast(r: GridRequest, rows: seq<Row>)
    requires r.startRow.Some? && r.endRow.Some?
    requires 0 < |rows| <= r.endRow.value - r.startRow.value
    ensures GetRowCount(r, Some(rows)) == r.startRow.value + |rows|
    ensures GetRowCount(r, Some(rows)) <= r.endRow.value
  {
  }

  // ---------------------------------------------------------------------------
  // Cutting a result array to the page size

  /** A JavaScript array of rows, which `splice` changes in place. */
  class RowArray {
    var items: seq<Row>

    constructor (items: seq<Row>)
      ensures this.items == items
    {
      this.items := items;
    }
  }

  /** `endRow! - startRow!`; NaN, here `None`, when either is missing. */
  function PageSize(r: GridRequest): (ps: Option<int>)
    ensures ps.Some? <==> r.startRow.Some? && r.endRow.Some?
    ensures ps.Some? ==> r.startRow.value + ps.value == r.endRow.value
  {
    if r.startRow.Some? && r.endRow.Some? then Some(r.endRow.value - r.startRow.value) else None
  }

  /**
   * The LIMIT of the data query asks for one row more than the page the
   * client cuts: `pageSize + 1` in `createLimitSql`, `endRow - startRow` in
   * `cutResultsToPageSize`.
   */
  lemma LimitIsPageSizePlusOne(r: GridRequest)
    requires r.startRow.Some? && r.endRow.Some?
    ensures LimitCount(r) == PageSize(r).value + 1
  {
  }

  /** The number of elements `splice(0, deleteCount)` removes: a negative count removes none. */
  function SpliceCount(deleteCount: int, length: nat): (n: nat)
    ensures n <= length
    ensures 0 <= deleteCount <= length ==> n == deleteCount
    ensures deleteCount < 0 ==> n == 0
  {
    if deleteCount < 0 then 0 else if deleteCount > length then length else deleteCount
  }

  /** Whether `cutResultsToPageSize` splices: the array exists and is longer than the page size. */
  predicate CutsPage(r: GridRequest, rows: Option<seq<Row>>)
  {
    rows.Some? && PageSize(r).Some? && |rows.value| > PageSize(r).value
  }

  /** What a splice returns, and what it leaves in the array. */
  function Cut(r: GridRequest, rows: seq<Row>): (pr: (seq<Row>, seq<Row>))
    requires CutsPage(r, Some(rows))
    ensures pr.0 + pr.1 == rows
    ensures PageSize(r).value >= 0 ==> |pr.0| == PageSize(r).value && |pr.1| > 0
    ensures PageSize(r).value < 0 ==> pr.0 == [] && pr.1 == rows
  {
    var n := SpliceCount(PageSize(r).value, |rows|);
    (rows[..n], rows[n..])
  }

  /** After the over-fetch of `LimitCount` rows, the cut leaves just the one extra row behind. */
  lemma CutLeavesExtraRow(r: GridRequest, rows: seq<Row>)
    requires r.startRow.Some? && r.endRow.Some? && r.startRow.value <= r.endRow.value
    requires |rows| == LimitCount(r)
    ensures CutsPage(r, Some(rows))
    ensures |Cut(r, rows).1| == 1 && Cut(r, rows).1[0] == rows[|rows| - 1]
  {
  }

  /**
   * `cutResultsToPageSize`: when the array is longer than the page, the first
   * page-size rows are spliced out of it into a new array that is returned,
   * and the array keeps the rest; otherwise the same array is returned as it is.
   */
  method CutResultsToPageSize(request: GridRequest, results: RowArray?) returns (page: RowArray?)
    modifies results
    ensures results != null && CutsPage(request, Some(old(results.items))) ==>
      && page != null && fresh(page)
      && page.items == Cut(request, old(results.items)).0
      && results.items == Cut(request, old(results.items)).1
    ensures results == null ==> page == null
    ensures results != null && !CutsPage(request, Some(old(results.items))) ==>
      page == results && results.items == old(results.items)
  {
    var pageSize := PageSize(request);
    if results != null && pageSize.Some? && |results.items| > pageSize.value {
      var n := SpliceCount(pageSize.value, |results.items|);
      page := new RowArray(results.items[..n]);
      results.items := results.items[n..];
    } else {
      page := results;
    }
  }

  // ---------------------------------------------------------------------------
  // Pivot rows

  /** The synthetic id of the pivot row at `index`: the decimal text of the index. */
  function RowId(index: nat): JsValue
  {
    Str(IntToString(index))
  }

  /** `{...item, id: `${index}`}` for every row: each keeps its fields and gets its index as id. */
  function NumberRows(rows: seq<Row>): (r: seq<Row>)
    ensures |r| == |rows|
    ensures forall i :: 0 <= i < |r| ==> "id" in r[i] && r[i]["id"] == RowId(i)
    ensures forall i, k :: 0 <= i < |r| && k != "id" ==> (k in r[i] <==> k in rows[i])
    ensures forall i, k :: 0 <= i < |r| && k != "id" && k in rows[i] ==> r[i][k] == rows[i][k]
  {
    seq(|rows|, (i: int) requires 0 <= i < |rows| => rows[i]["id" := RowId(i)])
  }

  /** No two numbered rows share an id. */
  lemma NumberedIdsUnique(rows: seq<Row>, i: nat, j: nat)
    requires i < |rows| && j < |rows| && i != j
    ensures NumberRows(rows)[i]["id"] != NumberRows(rows)[j]["id"]
  {
    IntToStringInjective(i, j);
  }

  /** Where `slice` starts or ends for an index argument: negative counts from the end; both clamp. */
  function SliceIndex(k: Option<int>, length: nat, absent: nat): (n: nat)
    requires absent <= length
    ensures n <= length
    ensures k.Some? && 0 <= k.value <= length ==> n == k.value
    ensures k.None? ==> n == absent
  {
    if k.None? then absent
    else if k.value < 0 then (if length + k.value < 0 then 0 else length + k.value)
    else if k.value > length then length
    else k.value
  }

  /** `rows.slice(start, end)`: the rows between the two positions, none when they cross. */
  function JsSlice<T>(rows: seq<T>, start: Option<int>, end: Option<int>): (r: seq<T>)
    ensures |r| <= |rows|
    ensures start.Some? && end.Some? && 0 <= start.value <= end.value <= |rows| ==>
      r == rows[start.value..end.value]
    ensures start.Some? && end.Some? && 0 <= end.value <= start.value ==> r == []
    ensures forall i :: 0 <= i < |r| ==>
      SliceIndex(start, |rows|, 0) + i < |rows| && r[i] == rows[SliceIndex(start, |rows|, 0) + i]
  {
    var a, b := SliceIndex(start, |rows|, 0), SliceIndex(end, |rows|, |rows|);
    if a < b then rows[a..b] else []
  }

  /**
   * A page of numbered pivot rows is a run of consecutive ids starting at
   * `startRow`, each row keeping all the fields of its pivot row.
   */
  lemma PivotPageIds(rows: seq<Row>, startRow: int, endRow: int)
    requires 0 <= startRow <= endRow <= |rows|
    ensures var page := JsSlice(NumberRows(rows), Some(startRow), Some(endRow));
      && |page| == endRow - startRow
      && forall i :: 0 <= i < |page| ==>
        && page[i]["id"] == RowId(startRow + i)
        && forall k :: k != "id" && k in rows[startRow + i] ==> k in page[i] && page[i][k] == rows[startRow + i][k]
  {
    var numbered := NumberRows(rows);
    var page := JsSlice(numbered, Some(startRow), Some(endRow));
    assert page == numbered[startRow..endRow];
    forall i | 0 <= i < |page|
      ensures page[i]["id"] == RowId(startRow + i)
      ensures forall k :: k != "id" && k in rows[startRow + i] ==> k in page[i] && page[i][k] == rows[startRow + i][k]
    {
      assert page[i] == numbered[startRow + i];
    }
  }

  // ---------------------------------------------------------------------------
  // Permitted values

  /** The query for the distinct values of a column. */
  function PermittedValuesSql(columnName: string): (q: string)
    ensures |q| == 16 + |columnName| + 21
    ensures q[..16] == "SELECT DISTINCT " && q[16..|q| - 21] == columnName && q[|q| - 21..] == " FROM olympic_winners"
  {
    "SELECT DISTINCT " + columnName + " FROM olympic_winners"
  }

  /** `results.map((result) => result[columnName])`. */
  function ProjectColumn(rows: seq<Row>, columnName: string): (values: seq<JsValue>)
    ensures |values| == |rows|
    ensures forall i :: 0 <= i < |rows| ==> values[i] == Get(rows[i], columnName)
  {
    seq(|rows|, (i: int) requires 0 <= i < |rows| => Get(rows[i], columnName))
  }
}
