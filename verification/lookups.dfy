/** influxpy/lookups.py: the builtin comparison lookups, each rendering one WHERE
    predicate, and the registration of lookups on field classes (fields.py). */
module Lookups {
  import opened Results
  import opened Text
  import opened Values
  import opened Fields

  /** The lookup classes; a lookup object is one of these bound to a field. */
  datatype LookupOp = Equal | GreaterThan | GreaterThanOrEqual | LessThan | LessThanOrEqual | Between {
    /** The class attribute `lookup_name`, its default registration key. */
    function LookupName(): string {
      match this
      case Equal => "equals"
      case GreaterThan => "gt"
      case GreaterThanOrEqual => "gte"
      case LessThan => "lt"
      case LessThanOrEqual => "lte"
      case Between => "between"
    }

    /** The class attribute `operator`; `between` has none and renders through two other lookups. */
    function Operator(): Option<string> {
      match this
      case Equal => Some("=")
      case GreaterThan => Some(">")
      case GreaterThanOrEqual => Some(">=")
      case LessThan => Some("<")
      case LessThanOrEqual => Some("<=")
      case Between => None
    }
  }

  /** One WHERE predicate: `<field name> <operator> '<text>'`, the name unquoted. */
  function Predicate(f: Field, operator: string, text: string): string {
    f.name + " " + operator + " '" + text + "'"
  }

  /** `BuiltinLookup.as_iql(rhs)` with a given operator: the right-hand side goes through the
      field's `db_value` and is quoted with `%s`, which refuses a tuple. */
  function BuiltinIql(f: Field, operator: string, rhs: Value): (r: Result<string>)
    ensures DbValue(f, rhs).Err? ==> r == Err(DbValue(f, rhs).error)
  {
    var v :- DbValue(f, rhs);
    if v.Pair? then Err(TypeMismatch)
    else Ok(Predicate(f, operator, ToStr(v)))
  }

  /** `lookup.as_iql(rhs)` for the lookup `op` bound to `f`. `between` on anything but a
      2-tuple returns `None`. */
  function LookupIql(op: LookupOp, f: Field, rhs: Value): Result<Option<string>> {
    match op.Operator()
    case Some(operator) =>
      var text :- BuiltinIql(f, operator, rhs);
      Ok(Some(text))
    case None =>
      if rhs.Pair? then
        var low :- BuiltinIql(f, GreaterThanOrEqual.Operator().value, rhs.first);
        var high :- BuiltinIql(f, LessThanOrEqual.Operator().value, rhs.second);
        Ok(Some(low + " AND " + high))
      else Ok(None)
  }

  /** A comparison lookup renders `<field name> <operator> '<db_value(rhs)>'`; the text before
      the opening quote is fixed by the field and the operator, the text inside by `str(db_value(rhs))`. */
  lemma ComparisonShape(op: LookupOp, f: Field, rhs: Value)
    requires op != Between
    ensures DbValue(f, rhs).Err? ==> LookupIql(op, f, rhs) == Err(DbValue(f, rhs).error)
    ensures DbValue(f, rhs).Ok? && DbValue(f, rhs).value.Pair? ==> LookupIql(op, f, rhs) == Err(TypeMismatch)
    ensures DbValue(f, rhs).Ok? && !DbValue(f, rhs).value.Pair? ==>
      LookupIql(op, f, rhs) == Ok(Some(Predicate(f, op.Operator().value, ToStr(DbValue(f, rhs).value))))
  {
  }

  /** `between` on a pair is the `gte` predicate on its first item and the `lte` predicate on
      its second, joined by AND; on anything else it renders nothing. */
  lemma BetweenIsRange(f: Field, rhs: Value)
    ensures !rhs.Pair? ==> LookupIql(Between, f, rhs) == Ok(None)
    ensures rhs.Pair? && LookupIql(GreaterThanOrEqual, f, rhs.first).Ok? && LookupIql(LessThanOrEqual, f, rhs.second).Ok? ==>
      LookupIql(Between, f, rhs) == Ok(Some(LookupIql(GreaterThanOrEqual, f, rhs.first).value.value + " AND "
                                             + LookupIql(LessThanOrEqual, f, rhs.second).value.value))
    ensures rhs.Pair? && LookupIql(GreaterThanOrEqual, f, rhs.first).Err? ==>
      LookupIql(Between, f, rhs) == Err(LookupIql(GreaterThanOrEqual, f, rhs.first).error)
  {
    if rhs.Pair? {
      BetweenOnPair(f, rhs.first, rhs.second);
    }
  }

  lemma BetweenOnPair(f: Field, low: Value, high: Value)
    ensures LookupIql(GreaterThanOrEqual, f, low).Ok? && LookupIql(LessThanOrEqual, f, high).Ok? ==>
      LookupIql(Between, f, Pair(low, high)) == Ok(Some(LookupIql(GreaterThanOrEqual, f, low).value.value + " AND "
                                                         + LookupIql(LessThanOrEqual, f, high).value.value))
    ensures LookupIql(GreaterThanOrEqual, f, low).Err? ==>
      LookupIql(Between, f, Pair(low, high)) == Err(LookupIql(GreaterThanOrEqual, f, low).error)
  {
    var lowText := BuiltinIql(f, ">=", low);
    var highText := BuiltinIql(f, "<=", high);
    assert LookupIql(GreaterThanOrEqual, f, low) == if lowText.Ok? then Ok(Some(lowText.value)) else Err(lowText.error);
    assert LookupIql(LessThanOrEqual, f, high) == if highText.Ok? then Ok(Some(highText.value)) else Err(highText.error);
  }

  /** On the time field, `between` of two datetimes is the closed range between their RFC 3339 texts. */
  lemma TimeRange(f: Field, t0: Timestamp, t1: Timestamp)
    requires f.cls == TimeField
    ensures LookupIql(Between, f, Pair(Date(t0), Date(t1)))
      == Ok(Some(Predicate(f, ">=", Rfc3339(t0)) + " AND " + Predicate(f, "<=", Rfc3339(t1))))
  {
  }

  /** The lookup tables as they stand once lookups.py is imported: the five comparisons on
      InfluxLookupField and `between` on InfluxTimeField, each under its `lookup_name`. */
  const BUILTIN_TABLES: ClassTables<LookupOp> := map[
    LookupField := map["equals" := Equal, "gt" := GreaterThan, "gte" := GreaterThanOrEqual,
                       "lt" := LessThan, "lte" := LessThanOrEqual],
    TimeField := map["between" := Between]]

  /** The names a tag (or any lookup field other than the time field) resolves. */
  const COMPARISON_NAMES: set<string> := {"equals", "gt", "gte", "lt", "lte"}

  /** A tag resolves exactly the five comparisons, each to the lookup of that name. */
  lemma TagLookups(f: Field, name: string)
    requires f.cls == Tag || f.cls == LookupField
    ensures GetLookup(BUILTIN_TABLES, f, name).Ok? <==> name in COMPARISON_NAMES
    ensures GetLookup(BUILTIN_TABLES, f, name).Ok? ==> GetLookup(BUILTIN_TABLES, f, name).value.LookupName() == name
  {
    BuiltinResolution();
    ComparisonTable(name);
  }

  /** The time field resolves the five comparisons and `between`. */
  lemma TimeFieldLookups(f: Field, name: string)
    requires f.cls == TimeField
    ensures GetLookup(BUILTIN_TABLES, f, name).Ok? <==> name in COMPARISON_NAMES + {"between"}
    ensures GetLookup(BUILTIN_TABLES, f, name).Ok? ==> GetLookup(BUILTIN_TABLES, f, name).value.LookupName() == name
  {
    BuiltinResolution();
    ComparisonTable(name);
    var own := BUILTIN_TABLES[TimeField];
    assert name in own <==> name == "between";
  }

  /** The comparison table holds the five comparison names, each under its own `lookup_name`. */
  lemma ComparisonTable(name: string)
    ensures name in BUILTIN_TABLES[LookupField] <==> name in COMPARISON_NAMES
    ensures name in BUILTIN_TABLES[LookupField] ==> BUILTIN_TABLES[LookupField][name].LookupName() == name
  {
  }

  /** What the builtin tables merge to along each class's bases. */
  lemma BuiltinResolution()
    ensures GetLookups(BUILTIN_TABLES, Tag) == BUILTIN_TABLES[LookupField]
    ensures GetLookups(BUILTIN_TABLES, LookupField) == BUILTIN_TABLES[LookupField]
    ensures GetLookups(BUILTIN_TABLES, TimeField) == BUILTIN_TABLES[LookupField] + BUILTIN_TABLES[TimeField]
  {
    var t := BUILTIN_TABLES[LookupField];
    assert TablesAlong(BUILTIN_TABLES, Mro(Tag)) == [map[], t, map[]];
    assert TablesAlong(BUILTIN_TABLES, Mro(LookupField)) == [t, map[]];
    assert TablesAlong(BUILTIN_TABLES, Mro(TimeField)) == [BUILTIN_TABLES[TimeField], t, map[]];
    MergedOfThree(map[], t);
    MergedOfThree(BUILTIN_TABLES[TimeField], t);
    MergedOfTwo(t);
  }

  /** A plain field (and the bare base class) has no `get_lookup` at all. */
  lemma PlainFieldHasNoLookups(f: Field, name: string)
    requires f.cls == PlainField || f.cls == BaseField
    ensures GetLookup(BUILTIN_TABLES, f, name) == Err(AttributeMissing("get_lookup"))
  {
  }

  /** The class-level `class_lookups` dicts of the field classes. */
  class LookupRegistry {
    var classLookups: ClassTables<LookupOp>

    /** No class has registered anything yet. */
    constructor ()
      ensures classLookups == map[]
    {
      classLookups := map[];
    }

    /** `cls.register_lookup(lookup, lookup_name)`: stores the lookup in the class's own table
        (creating it if absent) under the given name or, failing that, its `lookup_name`. */
    method RegisterLookup(c: FieldClass, lookup: LookupOp, lookupName: Option<string>)
      requires HasLookups(c)
      modifies this
      ensures var name := if lookupName.Some? then lookupName.value else lookup.LookupName();
        classLookups == old(classLookups)[c := OwnTable(old(classLookups), c)[name := lookup]]
    {
      var name := if lookupName.Some? then lookupName.value else lookup.LookupName();
      var own := if c in classLookups then classLookups[c] else map[];
      classLookups := classLookups[c := own[name := lookup]];
    }

    /** `cls.get_lookups()` over the current tables. */
    function Lookups(c: FieldClass): map<string, LookupOp>
      reads this
    {
      GetLookups(classLookups, c)
    }
  }

  /** Registering on a class changes no other class's own table, and the registering class then
      resolves the name to the new lookup. */
  lemma RegistrationIsLocal(tables: ClassTables<LookupOp>, c: FieldClass, name: string, lookup: LookupOp, other: FieldClass)
    requires other != c
    ensures OwnTable(tables[c := OwnTable(tables, c)[name := lookup]], other) == OwnTable(tables, other)
    ensures GetLookups(tables[c := OwnTable(tables, c)[name := lookup]], c)[name] == lookup
  {
    OwnTableWins(tables[c := OwnTable(tables, c)[name := lookup]], c, name);
  }

  /** Registering on the only class with a table extends that table. */
  lemma RegisterOnSingle(c: FieldClass, t: map<string, LookupOp>, name: string, lookup: LookupOp)
    ensures map[c := t][c := OwnTable(map[c := t], c)[name := lookup]] == map[c := t[name := lookup]]
  {
  }

  /** The decorator registrations of lookups.py on `LookupField`, in source order, into an empty registry. */
  method RegisterComparisons(registry: LookupRegistry)
    requires registry.classLookups == map[]
    modifies registry
    ensures registry.classLookups == map[LookupField := BUILTIN_TABLES[LookupField]]
  {
    registry.RegisterLookup(LookupField, Equal, None);
    ghost var t: map<string, LookupOp> := map["equals" := Equal];
    assert registry.classLookups == map[LookupField := t];
    RegisterOnSingle(LookupField, t, "gt", GreaterThan);
    registry.RegisterLookup(LookupField, GreaterThan, None);
    t := t["gt" := GreaterThan];
    RegisterOnSingle(LookupField, t, "gte", GreaterThanOrEqual);
    registry.RegisterLookup(LookupField, GreaterThanOrEqual, None);
    t := t["gte" := GreaterThanOrEqual];
    RegisterOnSingle(LookupField, t, "lt", LessThan);
    registry.RegisterLookup(LookupField, LessThan, None);
    t := t["lt" := LessThan];
    RegisterOnSingle(LookupField, t, "lte", LessThanOrEqual);
    registry.RegisterLookup(LookupField, LessThanOrEqual, None);
    t := t["lte" := LessThanOrEqual];
    assert t == BUILTIN_TABLES[LookupField];
  }

  /** The import-time registrations of lookups.py, in the order the decorators run. */
  method RegisterBuiltins() returns (registry: LookupRegistry)
    ensures fresh(registry)
    ensures registry.classLookups == BUILTIN_TABLES
  {
    registry := new LookupRegistry();
    RegisterComparisons(registry);
    registry.RegisterLookup(TimeField, Between, None);
    assert OwnTable(map[LookupField := BUILTIN_TABLES[LookupField]], TimeField) == map[];
  }
}
