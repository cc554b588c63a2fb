# influxpy query construction, modelled in Dafny

influxpy lets a program declare InfluxDB measurements as Python classes. Each class lists its tags,
its fields and an optional `Meta` naming downsampled tables. A chain of query-set calls on the class
(`filter`, `group_by`, `resolution`, `annotate`, `into`, `fill`, `use_downsampled`) is then turned
into InfluxQL text. This project models that query-construction half of the library and proves what
it promises:

- durations render as `<int><unit>`, and compare and hash by magnitude alone;
- field descriptors convert values with `db_value`;
- lookups are registered on descriptor classes and resolved along the class hierarchy;
- aggregates render as `func(field)` or as raw text, with an optional alias;
- the `Options` registry is seeded from the parent class and then filled by the class body;
- the query record is deep-copied by every builder call, so the receiver never changes;
- the compiler turns a query into `SELECT … [INTO …] FROM … [WHERE …] [GROUP BY … [fill(…)]]`;
- a model instance validates its keywords and hands its tags and fields to the writer;
- a continuous query wraps a compiled query set.

One module per source file:

| module | file | source |
|---|---|---|
| `Results` | results.dfy | `Option`, `Result` and one `Error` variant per exception the code raises |
| `Text` | text.dfy | `str.join`, `str.split`, `in`, `str(int)`, `int(str)`, zero padding and `str` ordering |
| `Values` | values.dfy | the dynamically typed values: int, str, datetime, None, 2-tuple |
| `Fields` | fields.dfy | influxpy/fields.py |
| `Lookups` | lookups.dfy | influxpy/lookups.py and the lookup registration of influxpy/fields.py |
| `Aggregates` | aggregates.dfy | influxpy/aggregates.py |
| `Dicts` | dicts.dfy | insertion-ordered `dict`/`OrderedDict` assignment and `update` |
| `Queries` | query.dfy | influxpy/query.py |
| `Schemas` | schemas.dfy | `Options` and the metaclass of influxpy/model.py |
| `Compiler` | compiler.dfy | influxpy/compiler.py |
| `QuerySets` | queryset.dfy | influxpy/queryset.py |
| `Models` | models.dfy | instances and continuous queries of influxpy/model.py |
| `Scenarios` | scenarios.dfy | the query of tests/test_queryset.py, carried out on the model |

Code that changes objects step by step is written as classes with `modifies` and `old`:

- `Options` with `add_field`, `add_tag` and `set_time`;
- the lookup registry;
- `InfluxQuery` and its deep copy;
- `InfluxQuerySet`, each builder a method that returns a fresh clone;
- a model instance (`Point`);
- the loops of `merge_dicts`, `get_tags_and_fields` and `dict_values`.

Code that only computes is written as functions, with lemmas relating them: rendering, table choice,
key parsing and the compiler.

The compiler object holds only its model class. It is folded into functions that take that class's
registry (`Schema`), its `measurement` and the lookup tables as parameters.

Where the repository's tests expect something the code does not do, the model follows the code:

- The code never quotes identifiers. Predicates are `organization = '7'` and the GROUP BY list is
  `time(1d), organization, project`, where tests/test_queryset.py:25 expects double quotes
  (`Scenarios.CpuQueryText`).
- `get_table_for_time` returns the base measurement whenever a destination is set. A continuous query
  with `into(...)` therefore reads `FROM counter` where tests/test_model.py:187 expects
  `FROM counter_minute` (`Compiler.TableChoice`).
- tests/test_model.py:6 imports `InfluxSeries`, which influxpy/queryset.py does not define. It is not
  part of this model.

Behaviour of the code as written that the model keeps:

- `InfluxBaseField.__init__` sets `self.name = null`, a boolean, until `contribute_to_class` assigns
  the attribute name. The model only holds registered descriptors, which carry their names.
- `get_lookup` formats its error message with `self.__name__`, which a descriptor instance lacks, so a
  missing lookup raises AttributeError rather than the intended RuntimeError (`Fields.GetLookup`).
- A filter on a plain `InfluxField` fails because that class has no `get_lookup` at all.
- `Between.as_iql` returns None for anything but a 2-tuple. `' AND '.join` then raises TypeError
  (`Compiler.BetweenWithoutPairFails`).
- `Days(1) == Hours(1) == Minutes(1)`. A `Meta` that maps all three therefore holds one entry, the
  last table (`Fields.SameMagnitudeKeysCollapse`, `Compiler.OneUnitSelectsLastTable`).
- `set_time` registers the time descriptor under the key `time`, whatever its attribute name.
- `fill(0)` is emitted after a GROUP BY. `fill(None)` means no fill.
- A duration object is always truthy, so a duration resolution always adds a `time(…)` bucket.
- In `InfluxMeasurement.__init__` the check that a keyword is bound to a field descriptor cannot fail,
  because `all_fields` only ever holds descriptors.

## Model

| member | source | states |
|---|---|---|
| Fields.DurationIql | influxpy/fields.py:114-118 | rendering fails exactly when `int(value)` fails, with the "Durations must be integers" error |
| Fields.DurationIqlRoundTrip | influxpy/fields.py:114-140 | a rendered duration reads back as `int(value)` followed by the duration's own unit letter |
| Fields.EqualityIgnoresUnit | influxpy/fields.py:120-124 | durations of equal magnitude and different units are equal although they render differently |
| Fields.SameMagnitudeKeysCollapse | influxpy/fields.py:120-124 | a dict keyed by `Days(1)`, `Hours(1)`, `Minutes(1)` holds one key, mapped to the last table |
| Fields.Rfc3339RoundTrip | influxpy/fields.py:93-101 | the time text is 20 characters and parses back to the same date and time |
| Fields.Mro | influxpy/fields.py:60 | the resolution order of a descriptor class starts with the class itself |
| Fields.DbValuePassesThrough | influxpy/fields.py:27-30 | a non-time descriptor returns its argument unchanged, and fails exactly on None for a non-nullable field, naming the field |
| Fields.TimeDbValueRoundTrip | influxpy/fields.py:95-101 | the time descriptor accepts exactly datetimes and yields text that reads back as the same instant |
| Fields.MergeDicts | influxpy/fields.py:47-55 | the `merged.update` loop over the reversed list computes the merge in which the earliest dict wins |
| Fields.MergedKeys | influxpy/fields.py:47-55 | a key is merged exactly when some dict has it |
| Fields.MergedPrefersEarlier | influxpy/fields.py:47-55 | the merged value of a key is the one from the first dict that has it |
| Fields.TablesAlong | influxpy/fields.py:60 | one own lookup table per class of the resolution order, in that order |
| Fields.OwnTableWins | influxpy/fields.py:57-61 | a class's own registration overrides its bases' registration of the same name |
| Fields.ResolvesAlongHierarchy | influxpy/fields.py:57-61 | a name resolves exactly when the class or one of its bases registered it |
| Fields.GetLookup | influxpy/fields.py:72-83 | succeeds exactly for a lookup-capable class whose merged tables hold the name, with that lookup; otherwise AttributeError, on `get_lookup` for a class without lookups and on `__name__` for a missing name |
| Lookups.BuiltinIql | influxpy/lookups.py:15-18 | a `db_value` failure on the right-hand side is the rendering's failure |
| Lookups.ComparisonShape | influxpy/lookups.py:15-48 | a comparison renders `<name> <operator> '<str(db_value(rhs))>'`; a tuple value fails with TypeError; a `db_value` failure propagates |
| Lookups.BetweenIsRange | influxpy/lookups.py:55-64 | `between` on a pair is the `>=` predicate on its first item AND the `<=` predicate on its second; on anything else it renders None |
| Lookups.TimeRange | influxpy/lookups.py:55-64 | on the time field, `between` of two datetimes is the closed range between their RFC 3339 texts |
| Lookups.BuiltinResolution | influxpy/fields.py:59-61 | with the builtin tables a tag and the lookup field resolve the comparison table, and the time field resolves that table merged with its own `between` |
| Lookups.ComparisonTable | influxpy/lookups.py:21-48 | the comparison table holds exactly the five comparison names, each under its own `lookup_name` |
| Lookups.TagLookups | influxpy/lookups.py:21-48 | a tag resolves exactly the five comparison names, each to the lookup of that name |
| Lookups.TimeFieldLookups | influxpy/lookups.py:51-53 | the time field resolves the five comparisons and `between` |
| Lookups.PlainFieldHasNoLookups | influxpy/fields.py:39-42 | a plain field has no `get_lookup` |
| Lookups.LookupRegistry.constructor | influxpy/fields.py:67-68 | no class holds a `class_lookups` table before registration |
| Lookups.LookupRegistry.RegisterLookup | influxpy/fields.py:63-70 | the lookup is stored in the class's own table, created if absent, under the given name or else its `lookup_name`; no other table changes |
| Lookups.RegistrationIsLocal | influxpy/fields.py:63-70 | registering on one class leaves every other class's table as it was, and the class then resolves the name to the new lookup |
| Lookups.RegisterComparisons | influxpy/lookups.py:21-48 | the five comparison decorators, in order, fill the lookup field's table with exactly the builtin comparisons |
| Lookups.RegisterBuiltins | influxpy/lookups.py:21-53 | the six decorator registrations produce the builtin tables |
| Aggregates.AliasSuffix | influxpy/aggregates.py:8-15 | an unnamed aggregate renders its part alone; a named one appends ` AS "<name>"` |
| Aggregates.Renderings | influxpy/aggregates.py:21-48 | `Sum(m)` renders `sum(m)`, `Mean(m)` renders `mean(m)`, `Raw(t)` renders `t` |
| Aggregates.SameIgnoresConstruction | influxpy/aggregates.py:17-18 | equality compares texts only: `Sum(m) == Raw('sum(m)')` |
| Aggregates.SameAliasIff | influxpy/aggregates.py:17-18 | two aliases of one expression are equal exactly when the aliases are equal |
| Aggregates.AliasMatters | influxpy/aggregates.py:17-18 | a named aggregate never equals the unnamed one with the same expression |
| Dicts.PutGet | influxpy/queryset.py:122-123 | after `d[k] = v`, `k` maps to `v` and every other key keeps its value |
| Dicts.PutKeys | influxpy/queryset.py:122-123 | `d[k] = v` keeps the key order and appends a new key last |
| Dicts.PutDistinct | influxpy/queryset.py:122-123 | `d[k] = v` keeps keys distinct |
| Dicts.UpdateKeys | influxpy/queryset.py:40 | `update` keeps the existing keys in place and appends the new ones in the argument's order |
| Dicts.UpdateGet | influxpy/queryset.py:40 | after `update` a key holds the argument's value if it has one, else its old value |
| Dicts.UpdateDistinct | influxpy/queryset.py:40 | `update` keeps keys distinct |
| Queries.InfluxQuery.constructor | influxpy/query.py:6-13 | a new query holds no resolution, destination or fill, empty lists and filters, and the downsampling flag off |
| Queries.InfluxQuery.DeepCopy | influxpy/query.py:15-19 | the copy is a new object whose attributes equal the original's |
| Queries.ChangeCopy | tests/test_query.py:24-43 | appending to the copy's group-by and annotations and setting a filter on it leaves the original unchanged |
| Schemas.Options.constructor | influxpy/model.py:10-24 | the new registry holds the parent's three maps, or empty ones, and the class's own downsampled tables |
| Schemas.Options.AddField | influxpy/model.py:26-28 | registers in `fields` and `all_fields` under the field's name; `tags` and the tables unchanged |
| Schemas.Options.AddTag | influxpy/model.py:30-32 | registers in `tags` and `all_fields` under the tag's name; `fields` and the tables unchanged |
| Schemas.Options.SetTime | influxpy/model.py:34-35 | registers under `time` in `all_fields` only |
| Schemas.MetaAggregated | influxpy/model.py:21-24 | reading `Meta` fails exactly when it lacks `aggregated_measurements` |
| Schemas.RegisterAllKeeps | influxpy/model.py:59-63 | a name the body does not declare keeps its tag, field and `all_fields` entries (`time` unless a time field is declared) |
| Schemas.RegisterAllRegisters | influxpy/model.py:59-63 | a tag or field declared last under its name is registered under that name in its own map and in `all_fields` |
| Schemas.AggregatedNotInherited | influxpy/model.py:16-24 | the downsampled tables come from the class's own `Meta`, whatever the parent registry |
| Schemas.AggregatedKept | influxpy/model.py:59-63 | registering descriptors never changes the downsampled tables |
| Schemas.RegisterAllCovered | influxpy/model.py:26-35 | every registered tag and field stays in `all_fields` |
| Schemas.RegisterAllWellNamed | influxpy/model.py:26-35 | tags and fields stay under their own names with their own kinds |
| Schemas.BuildSchemaInvariant | influxpy/model.py:38-67 | a class built under a covered, well-named registry is covered and well named |
| Schemas.TagShadowsInheritedField | influxpy/model.py:16-19 | a parent's field redeclared as a tag stays in `fields` and is added to `tags` |
| Schemas.MeasurementClass.constructor | influxpy/model.py:50-57 | the class holds its name, its `measurement` and its registry |
| Schemas.DefineMeasurement | influxpy/model.py:38-67 | the new class has a fresh registry equal to the built schema, its name and its `measurement`, and fails exactly when building fails; it modifies no existing object, so the parent's registry is unchanged |
| Schemas.RootSchema | influxpy/model.py:76-80 | the root class registers only the time field, under `time` |
| Compiler.TableChoice | influxpy/compiler.py:9-15 | the base measurement whenever there is a destination or downsampling is off; otherwise a duration resolution picks its declared table, else the base |
| Compiler.PlainResolutionTable | influxpy/compiler.py:9-15 | an int or str resolution never selects a downsampled table: it raises AttributeError on `value` exactly when it equals a declared duration's magnitude, and otherwise gives the base measurement |
| Compiler.TableIgnoresUnit | influxpy/compiler.py:12-13 | durations of equal magnitude and different units choose the same table |
| Compiler.OneUnitSelectsLastTable | influxpy/compiler.py:9-15 | with tables declared for one day, hour and minute, every one-unit resolution reads the minute table |
| Compiler.GroupByOrder | influxpy/compiler.py:17-31 | the GROUP BY list holds a `time(…)` bucket exactly for a truthy resolution, followed by the group-by names in order; only a duration can fail, and exactly when its magnitude is not an integer |
| Compiler.GroupByBucket | influxpy/compiler.py:20-26 | the bucket is `time(<as_iql()>)` for a duration and `time(<str(value)>)` for any other truthy resolution |
| Compiler.GroupByBucketReadsBack | influxpy/compiler.py:20-26 | the text inside a duration's bucket reads back as the duration's integer magnitude and its own unit |
| Compiler.SelectedFields | influxpy/compiler.py:33-38 | one rendering per annotation, in order |
| Compiler.ParseBareKey | influxpy/compiler.py:59-63 | a keyword without `__` is an `equals` test on that field |
| Compiler.ParseKeyRoundTrip | influxpy/compiler.py:59-60 | `field__lookup` parses back into its two names |
| Compiler.ParseKeyInverse | influxpy/compiler.py:59-60 | a keyword with `__` that parses is its two names joined by `__` |
| Compiler.ParseKeyTooManyNames | influxpy/compiler.py:59-60 | two `__` separators fail the two-name unpacking |
| Compiler.SplitPrefixed | influxpy/compiler.py:60 | splitting `a__rest` gives `a` and then the pieces of `rest` |
| Compiler.FilterFailures | influxpy/compiler.py:65-70 | an unknown field name raises "does not exist", and a plain field fails for want of `get_lookup` |
| Compiler.EqualityOnTag | influxpy/compiler.py:59-72 | a bare keyword on a tag renders `<tag> = '<value>'` |
| Compiler.FilterIqls | influxpy/compiler.py:54-72 | one rendering per filter, in filter order, each that filter's rendering |
| Compiler.FilterIqlsFirstFailure | influxpy/compiler.py:54-72 | the loop fails with the first failing filter's error |
| Compiler.AllText | influxpy/compiler.py:74 | the join accepts the renderings exactly when none is None, keeping them in order |
| Compiler.FilterIqlNonEmpty | influxpy/compiler.py:70-72 | every rendered predicate is non-empty |
| Compiler.WhereShape | influxpy/compiler.py:54-74 | one predicate per filter in filter order, and an empty WHERE body exactly when there are no filters |
| Compiler.WhereJoin | influxpy/compiler.py:51-74 | `compile_where` yields the planned predicates joined by AND, empty exactly when there are no filters |
| Compiler.TimeBetweenKey | influxpy/compiler.py:59-60 | `time__between` parses into `time` and `between` |
| Compiler.BetweenWithoutPairIsNone | influxpy/compiler.py:59-72 | a `between` filter on the time field with a non-pair renders None |
| Compiler.BetweenWithoutPairFails | influxpy/compiler.py:71-74 | such a filter makes `compile_where` raise TypeError |
| Compiler.QuoteWraps | influxpy/compiler.py:40-49 | `quote` wraps text in double quotes and shows anything else through `str`; `single_quote` wraps `str(value)` in single quotes |
| Compiler.PredicateQuotesValueOnly | influxpy/lookups.py:15-18 | a predicate is the unquoted field name, the operator and the single-quoted value |
| Compiler.PlanContents | influxpy/compiler.py:76-108 | the planned statement has one predicate per filter, one SELECT item per annotation, INTO exactly for a truthy destination, the GROUP BY list, fill exactly when not None, and the chosen table |
| Compiler.RenderIsJoinedWords | influxpy/compiler.py:85-111 | the statement text is the clause words joined by single spaces |
| Compiler.PlanFields | influxpy/compiler.py:76-108 | each planned clause is what `compile_where`, `compile_group_by` and `get_table_for_time` return, INTO the destination when non-empty, fill the query's fill unless None |
| Compiler.PartsAreWords | influxpy/compiler.py:76-108 | the parts `get_query_parts` builds are the words of the planned clauses, in clause order |
| Compiler.CompileIsRenderedPlan | influxpy/compiler.py:76-111 | `compile` succeeds exactly when planning does and then yields the rendered plan; otherwise it fails with the same error |
| Compiler.CompileFailsAsPlan | influxpy/compiler.py:76-111 | when planning fails, `compile` raises the same error, TypeError for a missing table |
| Compiler.FillOnlyAfterGroupBy | influxpy/compiler.py:103-107 | fill is dropped without a GROUP BY list and `fill(0)` is emitted after one |
| QuerySets.InsertSorted | influxpy/queryset.py:39 | inserting keeps the entries sorted by key |
| QuerySets.InsertContents | influxpy/queryset.py:39 | inserting adds exactly the entry and its key |
| QuerySets.SortByKeyProperties | influxpy/queryset.py:39 | `sorted(kwargs.items())` is ascending by key, a permutation of the items, with the same keys |
| QuerySets.SortByKeyLookup | influxpy/queryset.py:39 | sorting keeps names distinct and each name's value |
| QuerySets.InsertDistinctLookup | influxpy/queryset.py:39 | inserting a new name keeps names distinct and adds that name's value |
| QuerySets.FilterEffect | influxpy/queryset.py:33-41 | after `filter`, each keyword holds its new value and every other filter its old one; old keys keep their places, new ones follow in ascending order |
| QuerySets.FilterOrderAcrossCalls | influxpy/queryset.py:33-41 | names are sorted within one call but keep call order across calls |
| QuerySets.Named | influxpy/queryset.py:91-93 | one annotation per keyword |
| QuerySets.NamedRendering | influxpy/queryset.py:91-93 | a keyword annotation renders its part and ` AS "<keyword>"`, whatever name it had |
| QuerySets.AnnotateSelects | influxpy/queryset.py:82-95 | the SELECT list is the old items, then the positional aggregates, then the keyword aggregates under their keywords |
| QuerySets.QuerySet.constructor | influxpy/queryset.py:14-17 | a new query set holds a fresh default query bound to its class |
| QuerySets.QuerySet.Clone | influxpy/queryset.py:126-131 | a new query set on the same class with a fresh query equal to the original |
| QuerySets.QuerySet.Filter | influxpy/queryset.py:33-41 | a fresh clone whose filters are the sorted keywords merged in; the receiver's query unchanged |
| QuerySets.QuerySet.GroupBy | influxpy/queryset.py:43-51 | a fresh clone with the names appended; the receiver's query unchanged |
| QuerySets.QuerySet.Into | influxpy/queryset.py:53-61 | a fresh clone with the destination set; the receiver's query unchanged |
| QuerySets.QuerySet.SetResolution | influxpy/queryset.py:63-71 | a fresh clone with the resolution set; the receiver's query unchanged |
| QuerySets.QuerySet.Fill | influxpy/queryset.py:73-80 | a fresh clone with the fill set; the receiver's query unchanged |
| QuerySets.QuerySet.Annotate | influxpy/queryset.py:82-95 | a fresh clone with the positional aggregates and then the named keyword aggregates appended; the receiver's query unchanged |
| QuerySets.QuerySet.UseDownsampled | influxpy/queryset.py:97-104 | a fresh clone with downsampling allowed; the receiver's query unchanged |
| QuerySets.IndexOf | influxpy/queryset.py:118-119 | the first position holding the item, or ValueError when it is absent |
| QuerySets.PutAllKeys | influxpy/queryset.py:121-123 | after the assignments a key is present exactly when it was or some assignment used it |
| QuerySets.PutAllLast | influxpy/queryset.py:121-123 | the last assignment to a key decides its value |
| QuerySets.PutAllUntouched | influxpy/queryset.py:121-123 | a key no assignment uses keeps its value |
| QuerySets.RowPairs | influxpy/queryset.py:121-122 | one (time cell, field cell) pair per row, in row order |
| QuerySets.RowsAreAssignments | influxpy/queryset.py:120-122 | the inner loop fails exactly when a row is too short, and otherwise performs the row assignments in order |
| QuerySets.EntryPairs | influxpy/queryset.py:117-123 | one (primary tag value, series dict) pair per series, in order |
| QuerySets.SeriesAreAssignments | influxpy/queryset.py:116-124 | the outer loop fails with the first failing series' error, and otherwise performs the series assignments in order, so a later series with the same tag value wins |
| QuerySets.DictValues | influxpy/queryset.py:116-124 | the double loop computes the reshaped dict, or the first error |
| Models.Assignments | influxpy/model.py:87-94 | one attribute assignment per keyword: its value under the registered field's name |
| Models.BindFromAssigns | influxpy/model.py:87-94 | with every keyword registered, the keyword loop makes the assignments in keyword order |
| Models.BindFromStopsAt | influxpy/model.py:87-90 | the keyword loop fails on the first keyword missing from `all_fields`, naming it |
| Models.BindSucceeds | influxpy/model.py:82-94 | a point can be built exactly when the class has a measurement and every keyword is registered |
| Models.BindStores | influxpy/model.py:87-94 | each keyword's value sits under its field's name unless a later keyword targets that name, and only such names are set |
| Models.FirstUnknown | influxpy/model.py:87-90 | below an unknown keyword there is a first unknown one |
| Models.ConvertAll | influxpy/model.py:101-110 | one entry per registered name, each the converted attribute |
| Models.Point.constructor | influxpy/model.py:82 | a new point has no attributes set |
| Models.Point.GetTagsAndFields | influxpy/model.py:96-110 | succeeds exactly when every field and tag converts, yielding one entry per registered tag and per field; otherwise fails with a failing field's error, else a failing tag's |
| Models.ConvertEach | influxpy/model.py:104-108 | the conversion loop yields every converted entry, or the error of one failing entry |
| Models.NewPoint | influxpy/model.py:82-94 | construction fails exactly as binding does, and otherwise the new point holds the bound attributes |
| Models.NewContinuousQuery | influxpy/model.py:133-143 | the query set is compiled at construction, which fails exactly when compiling does |
| Models.CqIqlShape | influxpy/model.py:145-163 | the text is `CREATE CONTINUOUS QUERY "<name>" ON <source> RESAMPLE EVERY <every> [FOR <for>] BEGIN <query> END`, failing exactly when a duration is not an integer |
| Models.CqWords | influxpy/model.py:146-161 | the words of a continuous query, with or without a FOR window, joined by single spaces |
| Models.WindowAndTail | influxpy/model.py:155-161 | the optional FOR window and the BEGIN … END tail, spaced |
| Models.HeadWords | influxpy/model.py:146-153 | the header words joined by spaces |
| Scenarios.RegisterTwo | influxpy/model.py:59-63 | a two-descriptor body contributes the first and then the second |
| Scenarios.CpuSchema | tests/test_queryset.py:8-12 | the test class registers the inherited time field and its two tags |
| Scenarios.TwoTagWhere | influxpy/compiler.py:54-74 | two equality filters on tags render one predicate each, in order |
| Scenarios.TwoTagPlan | influxpy/compiler.py:76-111 | two tag filters, a duration resolution and group-by names compile to the rendered statement on the base table |
| Scenarios.CpuPlan | tests/test_queryset.py:16-25 | the test query compiles to the rendering of its planned clauses |
| Scenarios.CpuLiterals | influxpy/fields.py:114-116 | the test's predicates and `Days(1)` render as `organization = '7'`, `project = '9'` and `1d` |
| Scenarios.RenderTwoThree | influxpy/compiler.py:85-111 | a statement with two predicates and three GROUP BY entries reads as the clauses in order |
| Scenarios.CpuQueryText | tests/test_queryset.py:16-25 | the test query compiles to `SELECT * FROM cpu WHERE organization = '7' AND project = '9' GROUP BY time(1d), organization, project` |
| Scenarios.FilterTwoFresh | influxpy/queryset.py:39-40 | two keywords already in order become the first two filters |
| Scenarios.CpuBuilderCalls | tests/test_queryset.py:16-25 | the test's chain of builder calls yields that text |

## Left out

- influxpy/client.py is not part of this model. Neither are the network-backed methods that use it:
  `_fetch_results`, `__iter__`, `InfluxMeasurement.save` and `ContinuousQuery.save`. `dict_values` is
  modelled on a given list of series, and the fetch is left out.
- The metaclass machinery (`__new__`, `add_to_class`, `setattr` on the class) becomes an explicit
  schema-building function and the `DefineMeasurement` method. Attributes of a class body that are
  not descriptors are not modelled.
- Multiple inheritance between measurement classes is not modelled: a class has at most one parent.
- `functools.lru_cache` on `get_lookups` is not modelled. The cache only matters when lookups are
  registered after a first resolution, which the library does not do.
- Floating-point and boolean filter values, and other Python types, are left out. Values are int,
  str, datetime, None and 2-tuples.
- `int()` on text accepts only an optional sign and decimal digits. Surrounding whitespace and
  underscores are not modelled.
- `repr` of a str inside a tuple is modelled as single quotes around the text, without escaping.
- `strftime` is modelled with zero-padded components. Years below 1000 and time zones are not
  modelled.
- Hash collisions and `__hash__` of non-integer duration values are not modelled: dict keys compare
  by the duration's raw value.
- Descriptor names that clash with class attributes such as `measurement` or `series` are not
  modelled.
- `annotate` sets `name` on the aggregate objects the caller passed in, so the caller's objects
  change too. Aggregates are values here, so that aliasing is not captured.
- Models.Point.GetTagsAndFields: when several entries fail, the model returns one failing field's
  error (or one failing tag's) without fixing which one, because Python's choice depends on the
  dict's insertion order, which the registry maps here do not keep.
- QuerySets.DictValues: the result is a map, so the insertion order of Python's result dict is not
  modelled.
- `InfluxBaseField.from_db_value` is never called by the library and is left out.
