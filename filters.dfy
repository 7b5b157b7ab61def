/**
 * Per-type translation of one AdapTable column filter into a SQL boolean
 * fragment (server/SqlService.ts, the create...FilterSql builders).
 *
 * Every builder dispatches on the predicate id. A predicate whose required
 * input is missing, and a text or boolean predicate id the builder does not
 * know, give the empty fragment; the number and date builders give
 * `undefined` (here `None`) for an unknown id. The caller drops both.
 */
module Filters {
  import opened Text
  import opened Js

  /** `columnFilter.Predicate`: the predicate id and its (possibly absent) inputs. */
  datatype FilterPredicate = FilterPredicate(predicateId: string, inputs: Option<seq<JsValue>>)

  /** `columnFilter`: the column the filter is on and its predicate. */
  datatype ColumnFilter = ColumnFilter(columnId: string, filterPredicate: FilterPredicate)

  /** `filterDef.predicate`, which is only read to recognise custom predicates. */
  datatype PredicateDef = PredicateDef(id: string)

  /** One entry of the request's filter list. */
  datatype ColumnFilterDef = ColumnFilterDef(dataType: string, predicateDef: PredicateDef, columnFilter: ColumnFilter)

  /** `columnFilter.Predicate.Inputs ?? []`. */
  function Inputs(cf: ColumnFilter): seq<JsValue>
  {
    match cf.filterPredicate.inputs
    case None => []
    case Some(xs) => xs
  }

  /** `inputs[k]`. */
  function Input(cf: ColumnFilter, k: nat): JsValue
  {
    At(Inputs(cf), k)
  }

  /** The same filter with its inputs replaced. */
  function WithInputs(cf: ColumnFilter, xs: seq<JsValue>): (r: ColumnFilter)
    ensures r.columnId == cf.columnId && r.filterPredicate.predicateId == cf.filterPredicate.predicateId
    ensures Inputs(r) == xs
  {
    cf.(filterPredicate := cf.filterPredicate.(inputs := Some(xs)))
  }

  /** `x !== undefined && x !== ""`, the number builder's test for a present input. */
  predicate Present(v: JsValue)
  {
    v != Undefined && v != Str("")
  }

  // ---------------------------------------------------------------------------
  // Text

  const TextSingleInputIds: set<string> :=
    {"Is", "IsNot", "Contains", "NotContains", "StartsWith", "EndsWith", "Regex"}

  /** When the text builder contributes a non-empty fragment. */
  predicate TextFilterApplies(cf: ColumnFilter)
  {
    var id := cf.filterPredicate.predicateId;
    || id == "Blanks" || id == "NonBlanks"
    || ((id == "Values" || id == "ExcludeValues") && |Inputs(cf)| > 0)
    || (id in TextSingleInputIds && Truthy(Input(cf, 0)))
  }

  /** `col op "v"`: a comparison of the column with a double-quoted input. */
  function TextComparison(col: string, op: string, v: JsValue): (r: string)
    ensures |r| > |col| && r[..|col|] == col
  {
    col + op + "\"" + ToText(v) + "\""
  }

  /** `createAdaptableTextFilterSql`. */
  function TextFilterSql(cf: ColumnFilter): (r: string)
    ensures r != "" <==> TextFilterApplies(cf)
    ensures r != "" ==> |r| > |cf.columnId| && r[..|cf.columnId|] == cf.columnId
  {
    var col := cf.columnId;
    var inputs := Inputs(cf);
    var in0 := Input(cf, 0);
    var id := cf.filterPredicate.predicateId;
    if id == "Values" then
      EachComparisonNonEmpty(inputs, v => TextComparison(col, " = ", v), " OR ", col);
      Join(Render(inputs, v => TextComparison(col, " = ", v)), " OR ")
    else if id == "ExcludeValues" then
      EachComparisonNonEmpty(inputs, v => TextComparison(col, " != ", v), " AND ", col);
      Join(Render(inputs, v => TextComparison(col, " != ", v)), " AND ")
    else if id == "Blanks" then col + " IS NULL"
    else if id == "NonBlanks" then col + " IS NOT NULL"
    else if id == "Is" then (if Truthy(in0) then TextComparison(col, " = ", in0) else "")
    else if id == "IsNot" then (if Truthy(in0) then TextComparison(col, " != ", in0) else "")
    else if id == "Contains" then (if Truthy(in0) then col + " LIKE \"%" + ToText(in0) + "%\"" else "")
    else if id == "NotContains" then (if Truthy(in0) then col + " NOT LIKE \"%" + ToText(in0) + "%\"" else "")
    else if id == "StartsWith" then (if Truthy(in0) then col + " LIKE \"" + ToText(in0) + "%\"" else "")
    else if id == "EndsWith" then (if Truthy(in0) then col + " LIKE \"%" + ToText(in0) + "\"" else "")
    else if id == "Regex" then (if Truthy(in0) then col + " REGEXP '" + ToText(in0) + "'" else "")
    else ""
  }

  /**
   * A join of comparisons that each start with the column and are longer than
   * it is empty exactly when there are no inputs, and otherwise starts with
   * the column too.
   */
  lemma EachComparisonNonEmpty(inputs: seq<JsValue>, f: JsValue -> string, sep: string, col: string)
    requires forall v :: |f(v)| > |col| && f(v)[..|col|] == col
    ensures var r := Join(Render(inputs, f), sep);
      && (r != "" <==> |inputs| > 0)
      && (r != "" ==> |r| > |col| && r[..|col|] == col)
  {
    var parts := Render(inputs, f);
    if |inputs| > 0 {
      var r := Join(parts, sep);
      assert |parts| == 1 || r == parts[0] + sep + Join(parts[1..], sep);
      assert r[..|col|] == parts[0][..|col|];
    }
  }

  // ---------------------------------------------------------------------------
  // Number

  /** The value-list and blank predicates of the number builder. */
  const NumberListIds: set<string> := {"Values", "ExcludeValues", "Blanks", "NonBlanks"}

  /** The comparison predicates of the number builder. */
  const NumberCompareIds: set<string> :=
    {"GreaterThan", "LessThan", "Positive", "Negative", "Zero", "Equals", "NotEquals", "Between", "NotBetween"}

  /** Every predicate id the number builder's switch has a case for. */
  const NumberPredicateIds: set<string> := NumberListIds + NumberCompareIds

  /** When the number builder contributes a non-empty fragment. */
  predicate NumberFilterApplies(cf: ColumnFilter)
  {
    var id := cf.filterPredicate.predicateId;
    || id in {"Blanks", "NonBlanks", "Positive", "Negative", "Zero"}
    || ((id == "Values" || id == "ExcludeValues") && |Inputs(cf)| > 0)
    || (id in {"GreaterThan", "LessThan", "Equals", "NotEquals"} && Present(Input(cf, 0)))
    || ((id == "Between" || id == "NotBetween") && Present(Input(cf, 0)) && Present(Input(cf, 1)))
  }

  /** `col op v`: a comparison of the column with an unquoted input. */
  function NumberComparison(col: string, op: string, v: JsValue): (r: string)
    requires op != ""
    ensures |r| > |col| && r[..|col|] == col
  {
    col + op + ToText(v)
  }

  /**
   * `createAdaptableNumberFilterSql`; `None` is the `undefined` an unknown id
   * falls through to. The cases of its switch are taken in two groups: the
   * value lists and blanks, and the comparisons.
   */
  function NumberFilterSql(cf: ColumnFilter): (r: Option<string>)
    ensures r.None? <==> cf.filterPredicate.predicateId !in NumberPredicateIds
    ensures (r.Some? && r.value != "") <==> NumberFilterApplies(cf)
    ensures r.Some? && r.value != "" ==> |r.value| > |cf.columnId| && r.value[..|cf.columnId|] == cf.columnId
  {
    var id := cf.filterPredicate.predicateId;
    if id in NumberListIds then Some(NumberListSql(cf))
    else if id in NumberCompareIds then Some(NumberCompareSql(cf))
    else None
  }

  /** The Values, ExcludeValues, Blanks and NonBlanks cases of the number builder. */
  function NumberListSql(cf: ColumnFilter): (r: string)
    ensures var id := cf.filterPredicate.predicateId;
      id in NumberListIds ==>
        (r != "" <==> id == "Blanks" || id == "NonBlanks" || |Inputs(cf)| > 0)
    ensures r != "" ==> |r| > |cf.columnId| && r[..|cf.columnId|] == cf.columnId
  {
    var col := cf.columnId;
    var inputs := Inputs(cf);
    var id := cf.filterPredicate.predicateId;
    if id == "Values" then
      EachComparisonNonEmpty(inputs, v => NumberComparison(col, " = ", v), " OR ", col);
      Join(Render(inputs, v => NumberComparison(col, " = ", v)), " OR ")
    else if id == "ExcludeValues" then
      EachComparisonNonEmpty(inputs, v => NumberComparison(col, " != ", v), " AND ", col);
      Join(Render(inputs, v => NumberComparison(col, " != ", v)), " AND ")
    else if id == "Blanks" then col + " IS NULL"
    else if id == "NonBlanks" then col + " IS NOT NULL"
    else ""
  }

  /** The comparison cases of the number builder. */
  function NumberCompareSql(cf: ColumnFilter): (r: string)
    ensures var id := cf.filterPredicate.predicateId;
      id in NumberCompareIds ==>
        (r != "" <==>
          || id in {"Positive", "Negative", "Zero"}
          || (id in {"GreaterThan", "LessThan", "Equals", "NotEquals"} && Present(Input(cf, 0)))
          || ((id == "Between" || id == "NotBetween") && Present(Input(cf, 0)) && Present(Input(cf, 1))))
    ensures r != "" ==> |r| > |cf.columnId| && r[..|cf.columnId|] == cf.columnId
  {
    var col := cf.columnId;
    var in0 := Input(cf, 0);
    var in1 := Input(cf, 1);
    var id := cf.filterPredicate.predicateId;
    if id == "GreaterThan" then (if Present(in0) then col + " > " + ToText(in0) else "")
    else if id == "LessThan" then (if Present(in0) then col + " < " + ToText(in0) else "")
    else if id == "Positive" then col + " > 0"
    else if id == "Negative" then col + " < 0"
    else if id == "Zero" then col + " = 0"
    else if id == "Equals" then (if Present(in0) then NumberComparison(col, " = ", in0) else "")
    else if id == "NotEquals" then (if Present(in0) then NumberComparison(col, " != ", in0) else "")
    else if id == "Between" then
      (if !Present(in0) || !Present(in1) then ""
       else col + " >= " + ToText(in0) + " AND " + col + " <= " + ToText(in1))
    else if id == "NotBetween" then
      (if !Present(in0) || !Present(in1) then ""
       else col + " < " + ToText(in0) + " OR " + col + " > " + ToText(in1))
    else ""
  }

  // ---------------------------------------------------------------------------
  // Date

  /** The value-list and blank predicates of the date builder. */
  const DateListIds: set<string> := {"Values", "ExcludeValues", "Blanks", "NonBlanks"}

  /** The relative predicates, computed against the backend's current date. */
  const RelativeDateIds: set<string> :=
    {"Today", "Yesterday", "Tomorrow", "ThisWeek", "ThisMonth", "ThisQuarter", "ThisYear", "InPast", "InFuture"}

  /** The predicates that compare the column with the filter's inputs. */
  const DateInputIds: set<string> := {"After", "Before", "On", "NotOn", "InRange"}

  /** Every predicate id the date builder's switch has a case for. */
  const DatePredicateIds: set<string> :=
    DateListIds + RelativeDateIds + DateInputIds + {"LastWorkDay", "NextWorkDay"}

  /** When the date builder contributes a non-empty fragment. */
  predicate DateFilterApplies(cf: ColumnFilter)
  {
    var id := cf.filterPredicate.predicateId;
    || id == "Blanks" || id == "NonBlanks" || id in RelativeDateIds
    || ((id == "Values" || id == "ExcludeValues") && |Inputs(cf)| > 0)
    || (id in {"After", "Before", "On", "NotOn"} && Truthy(Input(cf, 0)))
    || (id == "InRange" && Truthy(Input(cf, 0)) && Truthy(Input(cf, 1)))
  }

  /** The column with its time of day dropped. */
  function DateOnly(col: string): string
  {
    "CAST(" + col + " AS date)"
  }

  function DateLiteral(v: JsValue): string
  {
    "CAST(\"" + ToText(v) + "\" as DATE)"
  }

  /** `CAST(col AS date) op CAST("v" as DATE)`. */
  function DateComparison(col: string, op: string, v: JsValue): (r: string)
    ensures |r| > 5 && r[..5] == "CAST("
  {
    DateOnly(col) + op + DateLiteral(v)
  }

  const TodaySql := "CAST(GETDATE() AS date)"
  const TomorrowSql := "DATEADD(day, 1, " + TodaySql + ")"
  const YesterdaySql := "DATEADD(day, -1, " + TodaySql + ")"
  const ThisMondaySql := "CAST(DATEADD(day, -WEEKDAY(" + TodaySql + ") + 1, " + TodaySql + ") AS date)"
  const ThisSundaySql := "CAST(DATEADD(day, 7, " + ThisMondaySql + ") AS date)"

  /** Line breaks and indentation of the source's multi-line templates. */
  const Nl6 := "\n      "
  const Nl8 := "\n        "
  const Nl10 := "\n          "

  function IsSameDaySql(d1: string, d2: string): string
  {
    Nl8 + "DAY(" + d1 + ") = DAY(" + d2 + ") AND"
    + Nl8 + "MONTH(" + d1 + ") = MONTH(" + d2 + ") AND"
    + Nl8 + "YEAR(" + d1 + ") = YEAR(" + d2 + ")"
    + Nl6
  }

  function QuarterSql(d: string): string
  {
    Nl8 + "CEILING((MONTH(" + d + ") * 4) / 12)" + Nl6
  }

  /** A one-line condition in the date builder's indented template. */
  function DateBlock(line: string): string
  {
    Nl10 + line + Nl8
  }

  /** A two-line conjunction in the date builder's indented template. */
  function DateBlock2(line1: string, line2: string): string
  {
    Nl10 + line1 + " AND" + Nl10 + line2 + Nl8
  }

  /**
   * `createAdaptableDateFilterSql`; `None` is the `undefined` an unknown id
   * falls through to. The cases of its switch are taken in three groups: the
   * value lists and blanks, the relative dates, and the comparisons with inputs.
   */
  function DateFilterSql(cf: ColumnFilter): (r: Option<string>)
    ensures r.None? <==> cf.filterPredicate.predicateId !in DatePredicateIds
    ensures (r.Some? && r.value != "") <==> DateFilterApplies(cf)
    ensures cf.filterPredicate.predicateId in {"LastWorkDay", "NextWorkDay"} ==> r == Some("")
  {
    var id := cf.filterPredicate.predicateId;
    if id in DateListIds then Some(DateListSql(cf))
    else if id in RelativeDateIds then Some(RelativeDateSql(id, cf.columnId))
    else if id in DateInputIds then Some(DateInputSql(cf))
    else if id == "LastWorkDay" || id == "NextWorkDay" then Some("")
    else None
  }

  /** The Values, ExcludeValues, Blanks and NonBlanks cases of the date builder. */
  function DateListSql(cf: ColumnFilter): (r: string)
    ensures var id := cf.filterPredicate.predicateId;
      id in DateListIds ==>
        (r != "" <==> id == "Blanks" || id == "NonBlanks" || |Inputs(cf)| > 0)
  {
    var col := cf.columnId;
    var inputs := Inputs(cf);
    var id := cf.filterPredicate.predicateId;
    if id == "Values" then
      EachComparisonNonEmpty(inputs, v => DateComparison(col, " = ", v), " OR ", "CAST(");
      Join(Render(inputs, v => DateComparison(col, " = ", v)), " OR ")
    else if id == "ExcludeValues" then
      EachComparisonNonEmpty(inputs, v => DateComparison(col, " != ", v), " AND ", "CAST(");
      Join(Render(inputs, v => DateComparison(col, " != ", v)), " AND ")
    else if id == "Blanks" then col + " IS NULL OR " + col + " = ''"
    else if id == "NonBlanks" then col + " IS NOT NULL AND " + col + " != ''"
    else ""
  }

  /** The cases of the date builder for dates relative to the backend's current date. */
  function RelativeDateSql(id: string, col: string): (r: string)
    ensures id in RelativeDateIds ==> r != ""
  {
    var day := DateOnly(col);
    if id == "Today" then IsSameDaySql(col, TodaySql)
    else if id == "Yesterday" then IsSameDaySql(day, YesterdaySql)
    else if id == "Tomorrow" then IsSameDaySql(col, TomorrowSql)
    else if id == "ThisWeek" then DateBlock2(day + " >= " + ThisMondaySql, day + " < " + ThisSundaySql)
    else if id == "ThisMonth" then
      DateBlock2("YEAR(" + day + ") = YEAR(" + TodaySql + ")", "MONTH(" + day + ") = MONTH(" + TodaySql + ")")
    else if id == "ThisQuarter" then
      DateBlock2(QuarterSql(day) + " = " + QuarterSql(TodaySql), "YEAR(" + day + ") = YEAR(" + TodaySql + ")")
    else if id == "ThisYear" then DateBlock("YEAR(" + day + ") = YEAR(" + TodaySql + ")")
    else if id == "InPast" then "  " + DateBlock(day + " < " + TodaySql)
    else if id == "InFuture" then DateBlock(day + " > " + TodaySql)
    else ""
  }

  /** The cases of the date builder that compare with the filter's inputs. */
  function DateInputSql(cf: ColumnFilter): (r: string)
    ensures var id := cf.filterPredicate.predicateId;
      id in DateInputIds ==>
        (r != "" <==> Truthy(Input(cf, 0)) && (id == "InRange" ==> Truthy(Input(cf, 1))))
  {
    var col := cf.columnId;
    var day := DateOnly(col);
    var in0 := Input(cf, 0);
    var in1 := Input(cf, 1);
    var id := cf.filterPredicate.predicateId;
    if id == "After" then (if Truthy(in0) then DateBlock(day + " > " + DateLiteral(in0)) else "")
    else if id == "Before" then (if Truthy(in0) then DateBlock(day + " < " + DateLiteral(in0)) else "")
    else if id == "On" then (if Truthy(in0) then DateBlock(DateComparison(col, " = ", in0)) else "")
    else if id == "NotOn" then (if Truthy(in0) then DateBlock(DateComparison(col, " != ", in0)) else "")
    else if id == "InRange" then
      (if Truthy(in0) && Truthy(in1)
       then DateBlock2(day + " > " + DateLiteral(in0), day + " < " + DateLiteral(in1))
       else "")
    else ""
  }

  // ---------------------------------------------------------------------------
  // Boolean

  /** When the boolean builder contributes a non-empty fragment. */
  predicate BooleanFilterApplies(cf: ColumnFilter)
  {
    var id := cf.filterPredicate.predicateId;
    || id in {"True", "False", "Blanks", "NonBlanks"}
    || (id == "BooleanToggle" && (Input(cf, 0) == Str("checked") || Input(cf, 0) == Str("unchecked")))
  }

  /** `createAdaptableBooleanFilterSql`. */
  function BooleanFilterSql(cf: ColumnFilter): (r: string)
    ensures r != "" <==> BooleanFilterApplies(cf)
    ensures r != "" ==> |r| > |cf.columnId| && r[..|cf.columnId|] == cf.columnId
    ensures cf.filterPredicate.predicateId == "BooleanToggle" && Input(cf, 0) == Str("checked")
      ==> r == cf.columnId + " = TRUE"
    ensures cf.filterPredicate.predicateId == "BooleanToggle" && Input(cf, 0) == Str("unchecked")
      ==> r == cf.columnId + " = FALSE"
  {
    var col := cf.columnId;
    var in0 := Input(cf, 0);
    var id := cf.filterPredicate.predicateId;
    if id == "True" then col + " = TRUE"
    else if id == "False" then col + " = FALSE"
    else if id == "Blanks" then col + " IS NULL"
    else if id == "NonBlanks" then col + " IS NOT NULL"
    else if id == "BooleanToggle" then
      (if in0 == Str("unchecked") then col + " = FALSE"
       else if in0 == Str("checked") then col + " = TRUE"
       else "")
    else ""
  }

  // ---------------------------------------------------------------------------
  // The custom "superstar" predicate and the dispatch

  const SuperstarSql := "gold > 3 OR (gold + silver + bronze) > 3"

  /** `isCustomAdaptableFilter`: reads `filterDef.predicate.id`, not the column filter's predicate. */
  predicate IsCustomFilter(f: ColumnFilterDef)
  {
    f.predicateDef.id in ["superstar"]
  }

  /** `createAdaptableCustomFilterSql`: the fixed fragment, whatever the column. */
  function CustomFilterSql(cf: ColumnFilter): string
  {
    if cf.filterPredicate.predicateId == "superstar" then SuperstarSql else ""
  }

  /** When one filter of the list contributes a WHERE part. */
  predicate FilterApplies(f: ColumnFilterDef)
  {
    if IsCustomFilter(f) then f.columnFilter.filterPredicate.predicateId == "superstar"
    else if f.dataType == "String" then TextFilterApplies(f.columnFilter)
    else if f.dataType == "Number" then NumberFilterApplies(f.columnFilter)
    else if f.dataType == "Date" then DateFilterApplies(f.columnFilter)
    else if f.dataType == "Boolean" then BooleanFilterApplies(f.columnFilter)
    else false
  }

  /** Only a custom filter or one of the four known data types ever contributes a part. */
  lemma FilterAppliesKnownKinds(f: ColumnFilterDef)
    ensures FilterApplies(f) ==> IsCustomFilter(f) || f.dataType in {"String", "Number", "Date", "Boolean"}
  {
  }

  /**
   * Whether a filter is custom depends on its definition's id alone, and two
   * custom filters with the same predicate give the same part, whatever their
   * columns, data types and inputs.
   */
  lemma CustomFragmentIgnoresColumn(f: ColumnFilterDef, g: ColumnFilterDef)
    requires f.predicateDef.id == "superstar" && g.predicateDef.id == "superstar"
    requires f.columnFilter.filterPredicate.predicateId == g.columnFilter.filterPredicate.predicateId
    ensures IsCustomFilter(f) && IsCustomFilter(g)
    ensures FilterFragment(f) == FilterFragment(g)
  {
    assert f.predicateDef.id in ["superstar"];
    assert g.predicateDef.id in ["superstar"];
  }

  /**
   * The WHERE part one filter contributes in `buildFilterWhereParts`, or ""
   * when it contributes none (an empty fragment or `undefined`).
   */
  function FilterFragment(f: ColumnFilterDef): (r: string)
    ensures r != "" <==> FilterApplies(f)
    ensures IsCustomFilter(f) && f.columnFilter.filterPredicate.predicateId == "superstar" ==> r == SuperstarSql
    ensures !IsCustomFilter(f) && f.dataType !in {"String", "Number", "Date", "Boolean"} ==> r == ""
  {
    var cf := f.columnFilter;
    if IsCustomFilter(f) then CustomFilterSql(cf)
    else if f.dataType == "String" then TextFilterSql(cf)
    else if f.dataType == "Number" then
      (match NumberFilterSql(cf) case Some(s) => s case None => "")
    else if f.dataType == "Date" then
      (match DateFilterSql(cf) case Some(s) => s case None => "")
    else if f.dataType == "Boolean" then BooleanFilterSql(cf)
    else ""
  }

  // ---------------------------------------------------------------------------
  // Values and ExcludeValues: one comparison per input

  /** The separator of the Values (" OR ") and ExcludeValues (" AND ") chains. */
  function ValuesSeparator(id: string): string
  {
    if id == "Values" then " OR " else " AND "
  }

  /** The general fact behind the three lemmas below. */
  lemma RenderJoinAppend(a: seq<JsValue>, b: seq<JsValue>, f: JsValue -> string, sep: string)
    requires |a| > 0 && |b| > 0
    ensures Join(Render(a + b, f), sep) == Join(Render(a, f), sep) + sep + Join(Render(b, f), sep)
  {
    RenderAppend(a, b, f);
    JoinAppend(Render(a, f), Render(b, f), sep);
  }

  /**
   * A text Values (ExcludeValues) filter over the inputs `a + b` is the OR
   * (AND) of the filters over `a` and over `b`, and a single input gives a
   * single double-quoted comparison.
   */
  lemma TextValuesAppend(cf: ColumnFilter, a: seq<JsValue>, b: seq<JsValue>)
    requires cf.filterPredicate.predicateId in {"Values", "ExcludeValues"}
    requires |a| > 0 && |b| > 0
    ensures var id := cf.filterPredicate.predicateId;
      TextFilterSql(WithInputs(cf, a + b))
        == TextFilterSql(WithInputs(cf, a)) + ValuesSeparator(id) + TextFilterSql(WithInputs(cf, b))
  {
    var col := cf.columnId;
    if cf.filterPredicate.predicateId == "Values" {
      RenderJoinAppend(a, b, v => TextComparison(col, " = ", v), " OR ");
    } else {
      RenderJoinAppend(a, b, v => TextComparison(col, " != ", v), " AND ");
    }
  }

  lemma TextValuesSingle(cf: ColumnFilter, v: JsValue)
    ensures cf.filterPredicate.predicateId == "Values" ==>
      TextFilterSql(WithInputs(cf, [v])) == cf.columnId + " = " + "\"" + ToText(v) + "\""
    ensures cf.filterPredicate.predicateId == "ExcludeValues" ==>
      TextFilterSql(WithInputs(cf, [v])) == cf.columnId + " != " + "\"" + ToText(v) + "\""
  {
  }

  /** Number Values (ExcludeValues) likewise, with the inputs unquoted. */
  lemma NumberValuesAppend(cf: ColumnFilter, a: seq<JsValue>, b: seq<JsValue>)
    requires cf.filterPredicate.predicateId in {"Values", "ExcludeValues"}
    requires |a| > 0 && |b| > 0
    ensures var id := cf.filterPredicate.predicateId;
      NumberFilterSql(WithInputs(cf, a + b)).value
        == NumberFilterSql(WithInputs(cf, a)).value + ValuesSeparator(id) + NumberFilterSql(WithInputs(cf, b)).value
  {
    var col := cf.columnId;
    if cf.filterPredicate.predicateId == "Values" {
      RenderJoinAppend(a, b, v => NumberComparison(col, " = ", v), " OR ");
    } else {
      RenderJoinAppend(a, b, v => NumberComparison(col, " != ", v), " AND ");
    }
  }

  lemma NumberValuesSingle(cf: ColumnFilter, v: JsValue)
    ensures cf.filterPredicate.predicateId == "Values" ==>
      NumberFilterSql(WithInputs(cf, [v])) == Some(cf.columnId + " = " + ToText(v))
    ensures cf.filterPredicate.predicateId == "ExcludeValues" ==>
      NumberFilterSql(WithInputs(cf, [v])) == Some(cf.columnId + " != " + ToText(v))
  {
  }

  /** Date Values (ExcludeValues) likewise, comparing the column's date with a cast literal. */
  lemma DateValuesAppend(cf: ColumnFilter, a: seq<JsValue>, b: seq<JsValue>)
    requires cf.filterPredicate.predicateId in {"Values", "ExcludeValues"}
    requires |a| > 0 && |b| > 0
    ensures var id := cf.filterPredicate.predicateId;
      DateFilterSql(WithInputs(cf, a + b)).value
        == DateFilterSql(WithInputs(cf, a)).value + ValuesSeparator(id) + DateFilterSql(WithInputs(cf, b)).value
  {
    var col := cf.columnId;
    if cf.filterPredicate.predicateId == "Values" {
      RenderJoinAppend(a, b, v => DateComparison(col, " = ", v), " OR ");
    } else {
      RenderJoinAppend(a, b, v => DateComparison(col, " != ", v), " AND ");
    }
  }

  /** A single date input gives `CAST(col AS date) = CAST("input" as DATE)` (`!=` for ExcludeValues). */
  lemma DateValuesSingle(cf: ColumnFilter, v: JsValue)
    ensures cf.filterPredicate.predicateId == "Values" ==>
      DateFilterSql(WithInputs(cf, [v]))
        == Some(DateComparison(cf.columnId, " = ", v))
    ensures cf.filterPredicate.predicateId == "ExcludeValues" ==>
      DateFilterSql(WithInputs(cf, [v]))
        == Some(DateComparison(cf.columnId, " != ", v))
  {
    assert Render([v], w => DateComparison(cf.columnId, " = ", w)) == [DateComparison(cf.columnId, " = ", v)];
    assert Render([v], w => DateComparison(cf.columnId, " != ", w)) == [DateComparison(cf.columnId, " != ", v)];
  }

  // ---------------------------------------------------------------------------
  // Worked examples

  /** Text Contains "Bob" on `athlete`. */
  lemma TextContainsExample()
    ensures TextFilterSql(ColumnFilter("athlete", FilterPredicate("Contains", Some([Str("Bob")]))))
      == "athlete LIKE \"%Bob%\""
  {
  }

  /** Number Between 5 and 10 on `gold`, and Between with only one bound. */
  lemma NumberBetweenExample()
    ensures NumberFilterSql(ColumnFilter("gold", FilterPredicate("Between", Some([Num(5), Num(10)]))))
      == Some("gold" + " >= " + "5" + " AND " + "gold" + " <= " + "10")
    ensures NumberFilterSql(ColumnFilter("gold", FilterPredicate("Between", Some([Num(5)])))) == Some("")
  {
    assert IntToString(5) == "5" by { assert NatToString(5) == [DigitChar(5)]; }
    assert IntToString(10) == "10" by {
      assert NatToString(1) == "1";
      assert NatToString(10) == NatToString(1) + [DigitChar(0)];
    }
  }
}
