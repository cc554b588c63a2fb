/** influxpy/compiler.py: the InfluxQL text of a query for one measurement class. The
    compiler holds nothing but its model, so each step is a function of the class's
    registry, its `measurement`, the lookup tables and the query's attributes. */
module Compiler {
  import opened Results
  import opened Text
  import opened Values
  import opened Fields
  import opened Lookups
  import opened Aggregates
  import opened Dicts
  import opened Queries
  import opened Schemas

  // ----- FROM -----

  /** The downsampled-table key a non-duration resolution hashes and compares like: an int or
      a str equal to a duration's magnitude finds that duration's entry. */
  function KeyLike(v: Value): Option<Magnitude> {
    match v
    case Int(i) => Some(Whole(i))
    case Str(s) => Some(Literal(s))
    case _ => None
  }

  /** `get_table_for_time`. When the entry found is keyed by a duration and the resolution is not
      one, the dict calls `BaseDuration.__eq__` with it, which reads its missing `.value`. */
  function TableForTime(schema: Schema, measurement: Option<string>, q: QueryState): Result<Option<string>> {
    if q.destination.None? && q.canUseAggregatedMeasurement then
      match q.resolution
      case Span(d) =>
        Ok(if d.value in schema.aggregatedMeasurements then Some(schema.aggregatedMeasurements[d.value]) else measurement)
      case Plain(v) =>
        if KeyLike(v).Some? && KeyLike(v).value in schema.aggregatedMeasurements then Err(AttributeMissing("value"))
        else Ok(measurement)
    else Ok(measurement)
  }

  /** The base measurement is used whenever there is a destination or downsampling is not allowed;
      otherwise a duration resolution picks its downsampled table, if one is declared. */
  lemma TableChoice(schema: Schema, measurement: Option<string>, q: QueryState)
    ensures q.destination.Some? || !q.canUseAggregatedMeasurement ==> TableForTime(schema, measurement, q) == Ok(measurement)
    ensures q.destination.None? && q.canUseAggregatedMeasurement && q.resolution.Span? ==>
      TableForTime(schema, measurement, q).Ok?
      && (q.resolution.duration.value in schema.aggregatedMeasurements ==>
            TableForTime(schema, measurement, q).value == Some(schema.aggregatedMeasurements[q.resolution.duration.value]))
      && (q.resolution.duration.value !in schema.aggregatedMeasurements ==>
            TableForTime(schema, measurement, q).value == measurement)
    ensures q.resolution == NO_RESOLUTION ==> TableForTime(schema, measurement, q) == Ok(measurement)
  {
  }

  /** An int or str resolution never selects a downsampled table: it raises AttributeError on
      `.value` exactly when it compares equal to a declared duration's magnitude, and otherwise
      gives the base measurement. */
  lemma PlainResolutionTable(schema: Schema, measurement: Option<string>, q: QueryState)
    requires q.destination.None? && q.canUseAggregatedMeasurement && q.resolution.Plain?
    ensures TableForTime(schema, measurement, q).Err? <==>
      exists m :: m in schema.aggregatedMeasurements && KeyLike(q.resolution.value) == Some(m)
    ensures TableForTime(schema, measurement, q).Err? ==> TableForTime(schema, measurement, q).error == AttributeMissing("value")
    ensures TableForTime(schema, measurement, q).Ok? ==> TableForTime(schema, measurement, q).value == measurement
  {
    var key := KeyLike(q.resolution.value);
    if key.Some? && key.value in schema.aggregatedMeasurements {
      assert key == Some(key.value);
    }
  }

  /** Durations of different units but equal magnitude choose the same table. */
  lemma TableIgnoresUnit(schema: Schema, measurement: Option<string>, q: QueryState, m: Magnitude, u1: Unit, u2: Unit)
    ensures TableForTime(schema, measurement, q.(resolution := Span(Duration(m, u1))))
         == TableForTime(schema, measurement, q.(resolution := Span(Duration(m, u2))))
  {
  }

  /** The downsampled tables of a class whose `Meta` declares one-day, one-hour and one-minute
      tables (in that order): every one-unit resolution, days included, selects the minute table. */
  lemma OneUnitSelectsLastTable(schema: Schema, measurement: Option<string>, q: QueryState, u: Unit)
    requires schema.aggregatedMeasurements == DurationKeyed([(Duration(Whole(1), Days), "counter_day"),
                                                             (Duration(Whole(1), Hours), "counter_hour"),
                                                             (Duration(Whole(1), Minutes), "counter_minute")])
    requires q.destination.None? && q.canUseAggregatedMeasurement
    requires q.resolution == Span(Duration(Whole(1), u))
    ensures TableForTime(schema, measurement, q) == Ok(Some("counter_minute"))
  {
    SameMagnitudeKeysCollapse("counter_day", "counter_hour", "counter_minute");
  }

  // ----- GROUP BY and SELECT -----

  /** The `time(…)` bucket: a duration renders through `as_iql`, any other truthy value through `str`. */
  function TimeBucket(r: Resolution): Result<seq<string>> {
    match r
    case Span(d) =>
      var text :- DurationIql(d);
      Ok(["time(" + text + ")"])
    case Plain(v) => Ok(if Truthy(v) then ["time(" + ToStr(v) + ")"] else [])
  }

  /** `compile_group_by`. */
  function CompileGroupBy(q: QueryState): Result<seq<string>> {
    var bucket :- TimeBucket(q.resolution);
    Ok(bucket + q.groupBy)
  }

  /** The GROUP BY list is the time bucket, present exactly for a truthy resolution, followed by the
      group-by names in order. */
  lemma GroupByOrder(q: QueryState)
    ensures q.resolution.Plain? ==> CompileGroupBy(q).Ok?
    ensures CompileGroupBy(q).Ok? ==>
      var parts := CompileGroupBy(q).value;
      var present := q.resolution.Span? || Truthy(q.resolution.value);
      |parts| == (if present then 1 else 0) + |q.groupBy|
      && parts[|parts| - |q.groupBy|..] == q.groupBy
      && (present ==> parts[0][..5] == "time(")
    ensures q.resolution.Span? ==>
      (CompileGroupBy(q).Ok? <==> IntValue(q.resolution.duration.value).Some?)
  {
  }

  /** The bucket leading the GROUP BY list: `time(<as_iql>)` for a duration, `time(<str>)` for any
      other truthy resolution. */
  lemma GroupByBucket(q: QueryState)
    ensures q.resolution.Span? && CompileGroupBy(q).Ok? ==>
      CompileGroupBy(q).value[0] == "time(" + DurationIql(q.resolution.duration).value + ")"
    ensures q.resolution.Plain? && Truthy(q.resolution.value) ==>
      CompileGroupBy(q).value[0] == "time(" + ToStr(q.resolution.value) + ")"
  {
    match q.resolution
    case Span(d) =>
      if CompileGroupBy(q).Ok? {
        assert TimeBucket(q.resolution) == Ok(["time(" + DurationIql(d).value + ")"]);
      }
    case Plain(v) =>
      if Truthy(v) {
        assert TimeBucket(q.resolution) == Ok(["time(" + ToStr(v) + ")"]);
      }
  }

  /** The text inside a duration's bucket reads back as the duration's integer and unit. */
  lemma GroupByBucketReadsBack(q: QueryState)
    requires q.resolution.Span? && CompileGroupBy(q).Ok?
    ensures var bucket := CompileGroupBy(q).value[0];
      |bucket| >= 6 && bucket[..5] == "time(" && bucket[|bucket| - 1] == ')'
      && ParseDurationLiteral(bucket[5..|bucket| - 1])
         == Some((IntValue(q.resolution.duration.value).value, q.resolution.duration.unit))
  {
    var d := q.resolution.duration;
    var text := DurationIql(d).value;
    var bucket := CompileGroupBy(q).value[0];
    assert bucket == "time(" + text + ")";
    assert |text| >= 1 && bucket[5..|bucket| - 1] == text;
    DurationIqlRoundTrip(d);
  }

  /** `compile_selected_fields`: the annotations' renderings in order. */
  function SelectedFields(annotations: seq<Aggregate>): (parts: seq<string>)
    ensures |parts| == |annotations|
    ensures forall i :: 0 <= i < |annotations| ==> parts[i] == AsIql(annotations[i])
    decreases |annotations|
  {
    if annotations == [] then [] else [AsIql(annotations[0])] + SelectedFields(annotations[1..])
  }

  // ----- WHERE -----

  /** The split of a filter keyword into a field name and a lookup name: a keyword without `__`
      means `equals`; with it, the split must give exactly two names. */
  function ParseKey(key: string): Result<(string, string)> {
    if Contains(key, "__") then
      var parts := Split(key, "__");
      if |parts| == 2 then Ok((parts[0], parts[1])) else Err(UnpackMismatch(|parts|))
    else Ok((key, "equals"))
  }

  /** A bare keyword is an equality test on the field of that name. */
  lemma ParseBareKey(key: string)
    requires !Contains(key, "__")
    ensures ParseKey(key) == Ok((key, "equals"))
  {
  }

  /** `field__lookup` parses back into its two names when the field name holds no `__` and does
      not end in `_`, and the lookup name holds no `__`. */
  lemma ParseKeyRoundTrip(field: string, lookup: string)
    requires !Contains(field, "__") && !Contains(lookup, "__")
    requires field == [] || field[|field| - 1] != '_'
    ensures ParseKey(field + "__" + lookup) == Ok((field, lookup))
  {
    SplitPrefixed(field, lookup);
    assert Split(lookup, "__") == [lookup];
  }

  /** A keyword with `__` that parses is exactly its two names joined by `__`. */
  lemma ParseKeyInverse(key: string)
    requires Contains(key, "__") && ParseKey(key).Ok?
    ensures key == ParseKey(key).value.0 + "__" + ParseKey(key).value.1
  {
    var parts := Split(key, "__");
    JoinSplit(key, "__");
    assert parts == [parts[0]] + [parts[1]];
    JoinCons(parts[0], [parts[1]], "__");
  }

  /** More than one `__` fails the two-name unpacking. */
  lemma ParseKeyTooManyNames(a: string, b: string, c: string)
    requires !Contains(a, "__") && !Contains(b, "__") && !Contains(c, "__")
    requires a == [] || a[|a| - 1] != '_'
    requires b == [] || b[|b| - 1] != '_'
    ensures ParseKey(a + "__" + b + "__" + c).Err?
  {
    ParseKeyRoundTrip(b, c);
    var s := a + "__" + (b + "__" + c);
    assert s == a + "__" + b + "__" + c;
    var rest := b + "__" + c;
    assert Contains(rest, "__");
    SplitPrefixed(a, rest);
    assert |Split(rest, "__")| == 2 by {
      assert ParseKey(rest).Ok?;
    }
  }

  /** Splitting `a__rest`, with `a` free of `__` and not ending in `_`, gives `a` and then the pieces of `rest`. */
  lemma SplitPrefixed(a: string, rest: string)
    requires !Contains(a, "__")
    requires a == [] || a[|a| - 1] != '_'
    ensures Contains(a + "__" + rest, "__")
    ensures Split(a + "__" + rest, "__") == [a] + Split(rest, "__")
  {
    var s := a + "__" + rest;
    assert OccursAt(s, "__", |a|) by {
      assert s[|a|..|a| + 2] == "__";
    }
    forall j | 0 <= j < |a|
      ensures !OccursAt(s, "__", j)
    {
      if j + 2 <= |a| {
        assert a[j..j + 2] == s[j..j + 2];
        assert !OccursAt(a, "__", j);
      } else {
        assert s[j] == a[|a| - 1];
        assert s[j..j + 2][0] == s[j];
      }
    }
    assert Find(s, "__").value == |a|;
    assert s[..|a|] == a;
    assert s[|a| + 2..] == rest;
  }

  /** Text without an underscore holds no `__`. */
  lemma NoUnderscore(t: string)
    requires forall i :: 0 <= i < |t| ==> t[i] != '_'
    ensures !Contains(t, "__")
  {
    forall i | 0 <= i && i + 2 <= |t|
      ensures !OccursAt(t, "__", i)
    {
      assert t[i..i + 2][0] == t[i];
    }
  }

  /** One filter's predicate: parse the keyword, find the field in `all_fields`, resolve the lookup
      on it and render the right-hand side. */
  function FilterIql(schema: Schema, tables: ClassTables<LookupOp>, key: string, rhs: Value): Result<Option<string>> {
    var names :- ParseKey(key);
    if names.0 !in schema.allFields then Err(FieldDoesNotExist(names.0))
    else
      var op :- GetLookup(tables, schema.allFields[names.0], names.1);
      LookupIql(op, schema.allFields[names.0], rhs)
  }

  /** With the builtin lookups: an unknown field name is refused, and a plain field has no lookups. */
  lemma FilterFailures(schema: Schema, key: string, rhs: Value)
    requires ParseKey(key).Ok?
    ensures var name := ParseKey(key).value.0;
      (name !in schema.allFields ==> FilterIql(schema, BUILTIN_TABLES, key, rhs) == Err(FieldDoesNotExist(name)))
      && (name in schema.allFields && schema.allFields[name].cls == PlainField ==>
            FilterIql(schema, BUILTIN_TABLES, key, rhs) == Err(AttributeMissing("get_lookup")))
  {
    var name := ParseKey(key).value.0;
    if name in schema.allFields && schema.allFields[name].cls == PlainField {
      PlainFieldHasNoLookups(schema.allFields[name], ParseKey(key).value.1);
    }
  }

  /** A bare keyword on a tag renders `<tag> = '<value>'`. */
  lemma EqualityOnTag(schema: Schema, key: string, rhs: Value)
    requires !Contains(key, "__")
    requires key in schema.allFields && schema.allFields[key].cls == Tag
    requires DbValue(schema.allFields[key], rhs).Ok? && !DbValue(schema.allFields[key], rhs).value.Pair?
    ensures FilterIql(schema, BUILTIN_TABLES, key, rhs) == Ok(Some(Predicate(schema.allFields[key], "=", ToStr(rhs))))
  {
    var f := schema.allFields[key];
    ParseBareKey(key);
    BuiltinResolution();
    assert GetLookup(BUILTIN_TABLES, f, "equals") == Ok(Equal);
    assert FilterIql(schema, BUILTIN_TABLES, key, rhs) == LookupIql(Equal, f, rhs);
    ComparisonShape(Equal, f, rhs);
    DbValuePassesThrough(f, rhs);
    assert Equal.Operator() == Some("=");
  }

  /** The renderings of the filters in their order; the first raised exception stops the loop. */
  function FilterIqls(schema: Schema, tables: ClassTables<LookupOp>, filters: Filters): (r: Result<seq<Option<string>>>)
    ensures r.Ok? ==> |r.value| == |filters|
    ensures r.Ok? ==> forall i :: 0 <= i < |filters| ==> FilterIql(schema, tables, filters[i].0, filters[i].1) == Ok(r.value[i])
    decreases |filters|
  {
    if filters == [] then Ok([])
    else
      var first :- FilterIql(schema, tables, filters[0].0, filters[0].1);
      var rest :- FilterIqls(schema, tables, filters[1..]);
      Ok([first] + rest)
  }

  /** The filters render when each does, and otherwise fail with the first failure. */
  lemma {:induction false} FilterIqlsFirstFailure(schema: Schema, tables: ClassTables<LookupOp>, filters: Filters, i: nat)
    requires i < |filters| && FilterIql(schema, tables, filters[i].0, filters[i].1).Err?
    requires forall j :: 0 <= j < i ==> FilterIql(schema, tables, filters[j].0, filters[j].1).Ok?
    ensures FilterIqls(schema, tables, filters) == Err(FilterIql(schema, tables, filters[i].0, filters[i].1).error)
    decreases i
  {
    if i > 0 {
      FilterIqlsFirstFailure(schema, tables, filters[1..], i - 1);
    }
  }

  /** The texts of a list of optional texts, if none is missing (what `str.join` accepts). */
  function AllText(parts: seq<Option<string>>): (r: Option<seq<string>>)
    ensures r.Some? <==> forall i :: 0 <= i < |parts| ==> parts[i].Some?
    ensures r.Some? ==> |r.value| == |parts| && forall i :: 0 <= i < |parts| ==> r.value[i] == parts[i].value
    decreases |parts|
  {
    if parts == [] then Some([])
    else if parts[0].None? then None
    else match AllText(parts[1..])
      case None => None
      case Some(rest) => Some([parts[0].value] + rest)
  }

  /** `sep.join(parts)` on a list that may hold None, which raises TypeError. */
  function JoinText(parts: seq<Option<string>>, sep: string): Result<string> {
    match AllText(parts)
    case None => Err(TypeMismatch)
    case Some(texts) => Ok(Join(texts, sep))
  }

  /** The predicates of the WHERE clause, failing as `compile_where` does. */
  function WhereTexts(schema: Schema, tables: ClassTables<LookupOp>, filters: Filters): Result<seq<string>> {
    var renderings :- FilterIqls(schema, tables, filters);
    match AllText(renderings)
    case None => Err(TypeMismatch)
    case Some(texts) => Ok(texts)
  }

  /** `compile_where`: the predicates joined by AND. */
  function CompileWhere(schema: Schema, tables: ClassTables<LookupOp>, filters: Filters): Result<string> {
    var renderings :- FilterIqls(schema, tables, filters);
    JoinText(renderings, " AND ")
  }

  /** Every rendered predicate is non-empty text. */
  lemma FilterIqlNonEmpty(schema: Schema, tables: ClassTables<LookupOp>, key: string, rhs: Value)
    ensures FilterIql(schema, tables, key, rhs).Ok? && FilterIql(schema, tables, key, rhs).value.Some? ==>
      |FilterIql(schema, tables, key, rhs).value.value| > 0
  {
  }

  /** There is one predicate per filter, in filter order, and the WHERE body is empty exactly when
      there are no filters. */
  lemma WhereShape(schema: Schema, tables: ClassTables<LookupOp>, filters: Filters)
    ensures WhereTexts(schema, tables, filters).Ok? ==>
      var ts := WhereTexts(schema, tables, filters).value;
      |ts| == |filters|
      && (forall i :: 0 <= i < |filters| ==> FilterIql(schema, tables, filters[i].0, filters[i].1) == Ok(Some(ts[i])))
      && CompileWhere(schema, tables, filters) == Ok(Join(ts, " AND "))
      && (Join(ts, " AND ") == "" <==> filters == [])
    ensures WhereTexts(schema, tables, filters).Err? ==>
      CompileWhere(schema, tables, filters) == Err(WhereTexts(schema, tables, filters).error)
  {
    if WhereTexts(schema, tables, filters).Ok? {
      var ts := WhereTexts(schema, tables, filters).value;
      if filters != [] {
        FilterIqlNonEmpty(schema, tables, filters[0].0, filters[0].1);
        JoinLength(ts, " AND ");
      }
    }
  }

  /** The WHERE body `compile_where` produces is the planned predicates joined by AND. */
  lemma WhereJoin(schema: Schema, tables: ClassTables<LookupOp>, filters: Filters)
    requires WhereTexts(schema, tables, filters).Ok?
    ensures CompileWhere(schema, tables, filters) == Ok(Join(WhereTexts(schema, tables, filters).value, " AND "))
    ensures Join(WhereTexts(schema, tables, filters).value, " AND ") == "" <==> filters == []
  {
    WhereShape(schema, tables, filters);
  }

  lemma TimeBetweenKey()
    ensures ParseKey("time__between") == Ok(("time", "between"))
  {
    var field, lookup := "time", "between";
    assert field + "__" + lookup == "time__between";
    NoUnderscore(field);
    NoUnderscore(lookup);
    ParseKeyRoundTrip(field, lookup);
  }

  /** A `<name>__between` filter on the time field resolves the `between` lookup, which renders
      None for anything but a pair. */
  lemma BetweenWithoutPairIsNone(schema: Schema, key: string, name: string, rhs: Value)
    requires ParseKey(key) == Ok((name, "between"))
    requires name in schema.allFields && schema.allFields[name].cls == TimeField
    requires !rhs.Pair?
    ensures FilterIql(schema, BUILTIN_TABLES, key, rhs) == Ok(None)
  {
    var f := schema.allFields[name];
    BuiltinResolution();
    assert GetLookup(BUILTIN_TABLES, f, "between") == Ok(Between);
    BetweenIsRange(f, rhs);
  }

  /** `between` on the time field with anything but a pair renders None, so the join fails. */
  lemma BetweenWithoutPairFails(schema: Schema, key: string, name: string, rhs: Value)
    requires ParseKey(key) == Ok((name, "between"))
    requires name in schema.allFields && schema.allFields[name].cls == TimeField
    requires !rhs.Pair?
    ensures CompileWhere(schema, BUILTIN_TABLES, [(key, rhs)]) == Err(TypeMismatch)
  {
    BetweenWithoutPairIsNone(schema, key, name, rhs);
    var filters: Filters := [(key, rhs)];
    assert filters[0].0 == key && filters[0].1 == rhs;
    assert FilterIqls(schema, BUILTIN_TABLES, filters[1..]) == Ok([]);
    var none: seq<Option<string>> := [None];
    assert none + [] == none;
  }

  // ----- the statement -----

  /** `quote`: text in double quotes, anything else through `str`. The compiler never calls it. */
  function Quote(v: Value): string {
    match v
    case Str(s) => "\"" + s + "\""
    case _ => ToStr(v)
  }

  /** `single_quote`: `str(value)` in single quotes. The compiler never calls it. */
  function SingleQuote(v: Value): string {
    "'" + ToStr(v) + "'"
  }

  /** Quoting wraps text without changing it; other values are shown as `str` shows them. */
  lemma QuoteWraps(v: Value)
    ensures v.Str? ==>
      (|Quote(v)| == |v.s| + 2 && Quote(v)[1..|Quote(v)| - 1] == v.s
       && Quote(v)[0] == '"' && Quote(v)[|Quote(v)| - 1] == '"')
    ensures !v.Str? ==> Quote(v) == ToStr(v)
    ensures SingleQuote(v)[1..|SingleQuote(v)| - 1] == ToStr(v)
  {
  }

  /** A comparison predicate is the unquoted field name, the operator and the single-quoted value. */
  lemma PredicateQuotesValueOnly(f: Field, operator: string, v: Value)
    ensures Predicate(f, operator, ToStr(v)) == f.name + " " + operator + " " + SingleQuote(v)
  {
  }

  /** `get_query_parts`. The steps run as the source orders them: SELECT items, WHERE,
      GROUP BY, then the table. */
  function GetQueryParts(schema: Schema, tables: ClassTables<LookupOp>, measurement: Option<string>, q: QueryState)
    : Result<seq<Option<string>>>
  {
    var selected := SelectedFields(q.annotations);
    var where :- CompileWhere(schema, tables, q.filters);
    var groupBy :- CompileGroupBy(q);
    var table :- TableForTime(schema, measurement, q);
    Ok([Some("SELECT"), Some(if selected == [] then "*" else Join(selected, ", "))]
       + (if q.destination.Some? && q.destination.value != "" then [Some("INTO"), q.destination] else [])
       + [Some("FROM"), table]
       + (if where != "" then [Some("WHERE"), Some(where)] else [])
       + (if groupBy != [] then
            [Some("GROUP BY"), Some(Join(groupBy, ", "))]
            + (if q.fill != Nothing then [Some("fill(" + ToStr(q.fill) + ")")] else [])
          else []))
  }

  /** `compile`: the parts joined by single spaces. */
  function Compile(schema: Schema, tables: ClassTables<LookupOp>, measurement: Option<string>, q: QueryState): Result<string> {
    var parts :- GetQueryParts(schema, tables, measurement, q);
    JoinText(parts, " ")
  }

  /** The clauses of a SELECT statement. */
  datatype Clauses = Clauses(
    select: seq<string>,
    into: Option<string>,
    from: string,
    where: seq<string>,
    groupBy: seq<string>,
    fill: Option<Value>)

  /** The SELECT list, `*` when nothing is selected. */
  function SelectText(c: Clauses): string {
    if c.select == [] then "*" else Join(c.select, ", ")
  }

  function IntoText(c: Clauses): string {
    if c.into.Some? then " INTO " + c.into.value else ""
  }

  function WhereText(c: Clauses): string {
    if c.where == [] then "" else " WHERE " + Join(c.where, " AND ")
  }

  /** GROUP BY with its list, then fill; nothing at all without a list. */
  function GroupByText(c: Clauses): string {
    if c.groupBy == [] then ""
    else " GROUP BY " + Join(c.groupBy, ", ") + (if c.fill.Some? then " fill(" + ToStr(c.fill.value) + ")" else "")
  }

  /** The statement text, clause after clause. */
  function Render(c: Clauses): string {
    "SELECT " + SelectText(c) + IntoText(c) + " FROM " + c.from + WhereText(c) + GroupByText(c)
  }

  /** The clauses a query asks for, read off its attributes: INTO for a non-empty destination,
      WHERE for each filter, GROUP BY for a truthy resolution or group-by names, fill unless None;
      a missing table raises TypeError. */
  function Plan(schema: Schema, tables: ClassTables<LookupOp>, measurement: Option<string>, q: QueryState): Result<Clauses> {
    var where :- WhereTexts(schema, tables, q.filters);
    var bucket :- TimeBucket(q.resolution);
    var table :- TableForTime(schema, measurement, q);
    if table.None? then Err(TypeMismatch)
    else Ok(Clauses(
      SelectedFields(q.annotations),
      if q.destination.Some? && q.destination.value != "" then q.destination else None,
      table.value,
      where,
      bucket + q.groupBy,
      if q.fill == Nothing then None else Some(q.fill)))
  }

  /** The planned clauses have the promised contents: one predicate per filter, one SELECT item
      per annotation, the bucket then the group-by names. */
  lemma PlanContents(schema: Schema, tables: ClassTables<LookupOp>, measurement: Option<string>, q: QueryState)
    ensures Plan(schema, tables, measurement, q).Ok? ==>
      var c := Plan(schema, tables, measurement, q).value;
      |c.where| == |q.filters| && |c.select| == |q.annotations|
      && (c.into.Some? <==> q.destination.Some? && q.destination.value != "")
      && c.groupBy == CompileGroupBy(q).value
      && (c.fill.Some? <==> q.fill != Nothing)
      && Some(c.from) == TableForTime(schema, measurement, q).value
  {
    WhereShape(schema, tables, q.filters);
  }

  /** The words of the statement: those of each clause in order, an absent clause giving none. */
  function Words(c: Clauses): seq<string> {
    ["SELECT", SelectText(c)] + IntoWords(c) + ["FROM", c.from] + WhereWords(c) + GroupByWords(c)
  }

  function IntoWords(c: Clauses): seq<string> {
    if c.into.Some? then ["INTO", c.into.value] else []
  }

  function WhereWords(c: Clauses): seq<string> {
    if c.where == [] then [] else ["WHERE", Join(c.where, " AND ")]
  }

  function GroupByWords(c: Clauses): seq<string> {
    if c.groupBy == [] then []
    else ["GROUP BY", Join(c.groupBy, ", ")] + (if c.fill.Some? then ["fill(" + ToStr(c.fill.value) + ")"] else [])
  }

  /** A group's words joined by spaces, behind a leading space; nothing for an empty group. */
  function Spaced(group: seq<string>): string {
    if group == [] then "" else " " + Join(group, " ")
  }

  /** Joining a head and a further group of words is joining the head and appending the group spaced. */
  lemma JoinAppend(head: seq<string>, g: seq<string>)
    requires |head| >= 1
    ensures Join(head + g, " ") == Join(head, " ") + Spaced(g)
  {
    if g == [] {
      assert head + g == head;
    } else {
      JoinConcat(head, g, " ");
    }
  }

  lemma SpacedPair(a: string, b: string)
    ensures Spaced([a, b]) == " " + a + " " + b
  {
    JoinCons(a, [b], " ");
  }

  lemma SpacedTriple(a: string, b: string, d: string)
    ensures Spaced([a, b, d]) == " " + a + " " + b + " " + d
  {
    JoinCons(a, [b, d], " ");
    JoinCons(b, [d], " ");
    assert [b, d][1..] == [d];
  }

  lemma SpacedGroupWords(g: string, fill: Option<string>)
    ensures Spaced(["GROUP BY", g] + (if fill.Some? then ["fill(" + fill.value + ")"] else []))
      == " GROUP BY " + g + (if fill.Some? then " fill(" + fill.value + ")" else "")
  {
    assert " " + "GROUP BY" + " " == " GROUP BY ";
    if fill.Some? {
      var f := "fill(" + fill.value + ")";
      assert ["GROUP BY", g] + [f] == ["GROUP BY", g, f];
      SpacedTriple("GROUP BY", g, f);
      assert " " + f == " fill(" + fill.value + ")";
    } else {
      assert ["GROUP BY", g] + [] == ["GROUP BY", g];
      SpacedPair("GROUP BY", g);
    }
  }

  lemma SpacedGroupBy(c: Clauses)
    ensures Spaced(GroupByWords(c)) == GroupByText(c)
  {
    if c.groupBy != [] {
      var fill := if c.fill.Some? then Some(ToStr(c.fill.value)) else None;
      SpacedGroupWords(Join(c.groupBy, ", "), fill);
    }
  }

  lemma SpacedIntoWhere(c: Clauses)
    ensures Spaced(IntoWords(c)) == IntoText(c)
    ensures Spaced(WhereWords(c)) == WhereText(c)
  {
    if c.into.Some? {
      SpacedPair("INTO", c.into.value);
      assert " " + "INTO" + " " == " INTO ";
    }
    if c.where != [] {
      SpacedPair("WHERE", Join(c.where, " AND "));
      assert " " + "WHERE" + " " == " WHERE ";
    }
  }

  lemma SpacedHead(c: Clauses)
    ensures Join(["SELECT", SelectText(c)], " ") == "SELECT " + SelectText(c)
    ensures Spaced(["FROM", c.from]) == " FROM " + c.from
  {
    JoinCons("SELECT", [SelectText(c)], " ");
    assert "SELECT" + " " == "SELECT ";
    SpacedPair("FROM", c.from);
    assert " " + "FROM" + " " == " FROM ";
  }

  /** The statement text is the words of its clauses joined by single spaces. */
  lemma RenderIsJoinedWords(c: Clauses)
    ensures Join(Words(c), " ") == Render(c)
  {
    var w0, w1, w2, w3, w4 := ["SELECT", SelectText(c)], IntoWords(c), ["FROM", c.from], WhereWords(c), GroupByWords(c);
    JoinAppend(w0 + w1 + w2 + w3, w4);
    JoinAppend(w0 + w1 + w2, w3);
    JoinAppend(w0 + w1, w2);
    JoinAppend(w0, w1);
    SpacedHead(c);
    SpacedIntoWhere(c);
    SpacedGroupBy(c);
    var x := "SELECT " + SelectText(c) + IntoText(c);
    assert x + (" FROM " + c.from) == x + " FROM " + c.from;
  }

  /** The optional texts of a list of texts. */
  function Somes(ts: seq<string>): (r: seq<Option<string>>)
    ensures |r| == |ts| && forall i :: 0 <= i < |ts| ==> r[i] == Some(ts[i])
  {
    seq(|ts|, i requires 0 <= i < |ts| => Some(ts[i]))
  }

  lemma SomesConcat(a: seq<string>, b: seq<string>)
    ensures Somes(a + b) == Somes(a) + Somes(b)
  {
  }

  lemma AllTextSomes(ts: seq<string>)
    ensures AllText(Somes(ts)) == Some(ts)
  {
    assert AllText(Somes(ts)).value == ts;
  }

  lemma SomesPair(a: string, b: string)
    ensures Somes([a, b]) == [Some(a), Some(b)]
  {
  }

  /** The optional texts of the GROUP BY words: the list, then fill when there is one. */
  lemma SomesGroupBy(c: Clauses)
    ensures Somes(GroupByWords(c))
      == if c.groupBy != [] then
           [Some("GROUP BY"), Some(Join(c.groupBy, ", "))]
           + (if c.fill.Some? then [Some("fill(" + ToStr(c.fill.value) + ")")] else [])
         else []
  {
    if c.groupBy != [] {
      var head := ["GROUP BY", Join(c.groupBy, ", ")];
      var fill := if c.fill.Some? then ["fill(" + ToStr(c.fill.value) + ")"] else [];
      SomesConcat(head, fill);
      SomesPair(head[0], head[1]);
    }
  }

  /** The optional texts of the statement's words, clause by clause. */
  lemma SomesWords(c: Clauses)
    ensures Somes(Words(c))
      == [Some("SELECT"), Some(SelectText(c))]
         + (if c.into.Some? then [Some("INTO"), c.into] else [])
         + [Some("FROM"), Some(c.from)]
         + (if c.where != [] then [Some("WHERE"), Some(Join(c.where, " AND "))] else [])
         + Somes(GroupByWords(c))
  {
    var w0, w1, w2, w3, w4 := ["SELECT", SelectText(c)], IntoWords(c), ["FROM", c.from], WhereWords(c), GroupByWords(c);
    SomesConcat(w0 + w1 + w2 + w3, w4);
    SomesConcat(w0 + w1 + w2, w3);
    SomesConcat(w0 + w1, w2);
    SomesConcat(w0, w1);
    SomesPair(w0[0], w0[1]);
    SomesPair(w2[0], w2[1]);
    if c.into.Some? {
      SomesPair("INTO", c.into.value);
    }
    if c.where != [] {
      SomesPair("WHERE", Join(c.where, " AND "));
    }
  }

  /** Each planned clause is read off the query: what `compile_where`, `compile_group_by` and
      `get_table_for_time` return, the destination when non-empty and fill unless None. */
  lemma PlanFields(schema: Schema, tables: ClassTables<LookupOp>, measurement: Option<string>, q: QueryState)
    requires Plan(schema, tables, measurement, q).Ok?
    ensures var c := Plan(schema, tables, measurement, q).value;
      c.select == SelectedFields(q.annotations)
      && c.into == (if q.destination.Some? && q.destination.value != "" then q.destination else None)
      && TableForTime(schema, measurement, q) == Ok(Some(c.from))
      && CompileWhere(schema, tables, q.filters) == Ok(Join(c.where, " AND "))
      && (Join(c.where, " AND ") == "" <==> c.where == [])
      && CompileGroupBy(q) == Ok(c.groupBy)
      && c.fill == (if q.fill == Nothing then None else Some(q.fill))
  {
    WhereJoin(schema, tables, q.filters);
    WhereShape(schema, tables, q.filters);
  }

  /** When the table is known, the parts `get_query_parts` builds are the words of the planned clauses. */
  lemma PartsAreWords(schema: Schema, tables: ClassTables<LookupOp>, measurement: Option<string>, q: QueryState)
    requires Plan(schema, tables, measurement, q).Ok?
    ensures GetQueryParts(schema, tables, measurement, q) == Ok(Somes(Words(Plan(schema, tables, measurement, q).value)))
  {
    var c := Plan(schema, tables, measurement, q).value;
    PlanFields(schema, tables, measurement, q);
    SomesWords(c);
    SomesGroupBy(c);
  }

  /** `compile` renders exactly the planned clauses, and fails exactly as planning does. */
  lemma CompileIsRenderedPlan(schema: Schema, tables: ClassTables<LookupOp>, measurement: Option<string>, q: QueryState)
    ensures Compile(schema, tables, measurement, q).Ok? <==> Plan(schema, tables, measurement, q).Ok?
    ensures Compile(schema, tables, measurement, q).Ok? ==>
      Compile(schema, tables, measurement, q).value == Render(Plan(schema, tables, measurement, q).value)
    ensures Compile(schema, tables, measurement, q).Err? ==>
      Compile(schema, tables, measurement, q).error == Plan(schema, tables, measurement, q).error
  {
    if Plan(schema, tables, measurement, q).Ok? {
      var c := Plan(schema, tables, measurement, q).value;
      PartsAreWords(schema, tables, measurement, q);
      AllTextSomes(Words(c));
      RenderIsJoinedWords(c);
    } else {
      CompileFailsAsPlan(schema, tables, measurement, q);
    }
  }

  /** When planning fails, `compile` raises the same error: the first failing step's, or TypeError
      for a missing table, whose None part the join refuses. */
  lemma CompileFailsAsPlan(schema: Schema, tables: ClassTables<LookupOp>, measurement: Option<string>, q: QueryState)
    requires Plan(schema, tables, measurement, q).Err?
    ensures Compile(schema, tables, measurement, q) == Err(Plan(schema, tables, measurement, q).error)
  {
    WhereShape(schema, tables, q.filters);
    if GetQueryParts(schema, tables, measurement, q).Ok? {
      var parts := GetQueryParts(schema, tables, measurement, q).value;
      var into: seq<Option<string>> := if q.destination.Some? && q.destination.value != "" then [Some("INTO"), q.destination] else [];
      assert TableForTime(schema, measurement, q).value.None?;
      assert parts[3 + |into|] == None;
    }
  }

  /** The clause order is fixed, a fill value of 0 is still emitted after a GROUP BY, and no fill is
      emitted without one. */
  lemma FillOnlyAfterGroupBy(c: Clauses)
    ensures c.groupBy == [] ==> Render(c) == Render(c.(fill := None))
    ensures c.groupBy != [] && c.fill == Some(Int(0)) ==>
      Render(c) == Render(c.(fill := None)) + " fill(0)"
  {
    if c.groupBy != [] && c.fill == Some(Int(0)) {
      var base := "SELECT " + SelectText(c) + IntoText(c) + " FROM " + c.from + WhereText(c);
      var g := " GROUP BY " + Join(c.groupBy, ", ");
      assert ToStr(Int(0)) == "0" by {
        assert IntToString(0) == "0";
      }
      assert " fill(" + "0" + ")" == " fill(0)";
      assert GroupByText(c.(fill := None)) == g by {
        assert g + "" == g;
      }
      AppendTwo(base, g, " fill(0)");
    }
  }
}
