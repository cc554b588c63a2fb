/** influxpy/model.py, instance side: a measurement point built from keyword arguments, the tags
    and fields it hands to the writer, and continuous queries over a query set. */
module Models {
  import opened Results
  import opened Text
  import opened Values
  import opened Fields
  import opened Dicts
  import opened Schemas
  import opened Compiler
  import opened QuerySets

  // ----- InfluxMeasurement.__init__ -----

  /** The attribute assignments `__init__` makes from the keywords, the keys all known: each value
      under the name of the field registered for its keyword. */
  function Assignments(allFields: map<string, Field>, kwargs: Entries<Value>): (r: seq<(string, Value)>)
    requires forall i :: 0 <= i < |kwargs| ==> kwargs[i].0 in allFields
    ensures |r| == |kwargs|
    ensures forall i :: 0 <= i < |kwargs| ==> r[i] == (allFields[kwargs[i].0].name, kwargs[i].1)
  {
    seq(|kwargs|, i requires 0 <= i < |kwargs| => (allFields[kwargs[i].0].name, kwargs[i].1))
  }

  /** The keyword loop of `__init__` from given attributes on: an unknown keyword raises. */
  function BindFrom(acc: map<string, Value>, allFields: map<string, Field>, kwargs: Entries<Value>): Result<map<string, Value>>
    decreases |kwargs|
  {
    if kwargs == [] then Ok(acc)
    else if kwargs[0].0 !in allFields then Err(UnknownKeyword(kwargs[0].0))
    else BindFrom(acc[allFields[kwargs[0].0].name := kwargs[0].1], allFields, kwargs[1..])
  }

  /** The attributes `__init__` sets on a new point of a class with registry `schema`. */
  function Bind(schema: Schema, measurement: Option<string>, kwargs: Entries<Value>): Result<map<string, Value>> {
    if measurement.None? then Err(MeasurementIsNone)
    else BindFrom(map[], schema.allFields, kwargs)
  }

  /** With every keyword in `all_fields`, the keyword loop makes the assignments in keyword order. */
  lemma {:induction false} BindFromAssigns(acc: map<string, Value>, allFields: map<string, Field>, kwargs: Entries<Value>)
    requires forall i :: 0 <= i < |kwargs| ==> kwargs[i].0 in allFields
    ensures BindFrom(acc, allFields, kwargs) == Ok(PutAll(acc, Assignments(allFields, kwargs)))
    decreases |kwargs|
  {
    if kwargs != [] {
      var rest := kwargs[1..];
      BindFromAssigns(acc[allFields[kwargs[0].0].name := kwargs[0].1], allFields, rest);
      assert Assignments(allFields, kwargs)[1..] == Assignments(allFields, rest);
    }
  }

  /** The keyword loop fails on the first keyword missing from `all_fields`, naming it. */
  lemma {:induction false} BindFromStopsAt(acc: map<string, Value>, allFields: map<string, Field>, kwargs: Entries<Value>, i: nat)
    requires i < |kwargs| && kwargs[i].0 !in allFields
    requires forall j :: 0 <= j < i ==> kwargs[j].0 in allFields
    ensures BindFrom(acc, allFields, kwargs) == Err(UnknownKeyword(kwargs[i].0))
    decreases i
  {
    if i > 0 {
      var rest := kwargs[1..];
      assert kwargs[0].0 in allFields;
      assert forall j :: 0 <= j < i - 1 ==> rest[j] == kwargs[j + 1];
      BindFromStopsAt(acc[allFields[kwargs[0].0].name := kwargs[0].1], allFields, rest, i - 1);
    }
  }

  /** A point can be built exactly when the class has a measurement and every keyword is a
      registered key. */
  lemma BindSucceeds(schema: Schema, measurement: Option<string>, kwargs: Entries<Value>)
    ensures Bind(schema, measurement, kwargs).Ok?
      <==> measurement.Some? && forall j :: 0 <= j < |kwargs| ==> kwargs[j].0 in schema.allFields
  {
    if measurement.Some? {
      if forall j :: 0 <= j < |kwargs| ==> kwargs[j].0 in schema.allFields {
        BindFromAssigns(map[], schema.allFields, kwargs);
      } else {
        var u :| 0 <= u < |kwargs| && kwargs[u].0 !in schema.allFields;
        FirstUnknown(schema.allFields, kwargs, u);
        var f :| 0 <= f <= u && kwargs[f].0 !in schema.allFields && forall j :: 0 <= j < f ==> kwargs[j].0 in schema.allFields;
        BindFromStopsAt(map[], schema.allFields, kwargs, f);
      }
    }
  }

  /** Built from registered keywords, each keyword's value sits under its field's name unless a later keyword targets
      the same name, and only such names are set. */
  lemma BindStores(schema: Schema, measurement: Option<string>, kwargs: Entries<Value>, i: nat, n: string)
    requires i < |kwargs|
    requires measurement.Some? && forall j :: 0 <= j < |kwargs| ==> kwargs[j].0 in schema.allFields
    ensures Bind(schema, measurement, kwargs).Ok?
    ensures var attrs := Bind(schema, measurement, kwargs).value;
      var target := schema.allFields[kwargs[i].0].name;
      (forall j :: i < j < |kwargs| ==> schema.allFields[kwargs[j].0].name != target) ==>
        target in attrs && attrs[target] == kwargs[i].1
    ensures n in Bind(schema, measurement, kwargs).value <==>
      exists j :: 0 <= j < |kwargs| && schema.allFields[kwargs[j].0].name == n
  {
    BindSucceeds(schema, measurement, kwargs);
    BindFromAssigns(map[], schema.allFields, kwargs);
    var a := Assignments(schema.allFields, kwargs);
    var target := schema.allFields[kwargs[i].0].name;
    if forall j :: i < j < |kwargs| ==> schema.allFields[kwargs[j].0].name != target {
      PutAllLast(map[], a, i);
    }
    PutAllKeys(map[], a, n);
  }

  /** Below an unknown keyword there is a first unknown one. */
  lemma {:induction false} FirstUnknown(allFields: map<string, Field>, kwargs: Entries<Value>, i: nat)
    requires i < |kwargs| && kwargs[i].0 !in allFields
    ensures exists f :: 0 <= f <= i && kwargs[f].0 !in allFields && forall j :: 0 <= j < f ==> kwargs[j].0 in allFields
    decreases i
  {
    if exists j :: 0 <= j < i && kwargs[j].0 !in allFields {
      var j :| 0 <= j < i && kwargs[j].0 !in allFields;
      FirstUnknown(allFields, kwargs, j);
    }
  }

  /** What `get_tags_and_fields` reads for one registered field: the instance attribute of the
      field's name, which is missing unless a keyword set it, through the field's `db_value`. */
  function EntryValue(f: Field, attributes: map<string, Value>): Result<Value> {
    if f.name !in attributes then Err(AttributeMissing(f.name)) else DbValue(f, attributes[f.name])
  }

  predicate AllConvert(m: map<string, Field>, attributes: map<string, Value>) {
    forall k :: k in m ==> EntryValue(m[k], attributes).Ok?
  }

  /** The dict `get_tags_and_fields` builds for one registry map when every entry converts. */
  function ConvertAll(m: map<string, Field>, attributes: map<string, Value>): (r: map<string, Value>)
    requires AllConvert(m, attributes)
    ensures r.Keys == m.Keys
    ensures forall k :: k in m ==> r[k] == EntryValue(m[k], attributes).value
  {
    map k | k in m :: EntryValue(m[k], attributes).value
  }

  /** A point of a measurement class: the attributes `__init__` set on it. */
  class Point {
    const model: MeasurementClass
    var attributes: map<string, Value>

    constructor (model: MeasurementClass)
      ensures this.model == model && attributes == map[]
    {
      this.model := model;
      attributes := map[];
    }

    /** `get_tags_and_fields()`: every registered field and then every tag read and converted; the
        first failure raises. Dict order is not modelled, so the failure raised is one of the
        failing fields' if any field fails, and otherwise one of the failing tags'. */
    method GetTagsAndFields() returns (r: Result<(map<string, Value>, map<string, Value>)>)
      ensures r.Ok? <==> AllConvert(model.meta.fields, attributes) && AllConvert(model.meta.tags, attributes)
      ensures r.Ok? ==> r.value == (ConvertAll(model.meta.tags, attributes), ConvertAll(model.meta.fields, attributes))
      ensures r.Err? && !AllConvert(model.meta.fields, attributes) ==>
        exists k :: k in model.meta.fields && EntryValue(model.meta.fields[k], attributes) == Err(r.error)
      ensures r.Err? && AllConvert(model.meta.fields, attributes) ==>
        exists k :: k in model.meta.tags && EntryValue(model.meta.tags[k], attributes) == Err(r.error)
    {
      var fields :- ConvertEach(model.meta.fields, attributes);
      var tags :- ConvertEach(model.meta.tags, attributes);
      r := Ok((tags, fields));
    }
  }

  /** One of the conversion loops of `get_tags_and_fields`, over the entries in some order. */
  method ConvertEach(m: map<string, Field>, attributes: map<string, Value>) returns (r: Result<map<string, Value>>)
    ensures r.Ok? <==> AllConvert(m, attributes)
    ensures r.Ok? ==> r.value == ConvertAll(m, attributes)
    ensures r.Err? ==> exists k :: k in m && EntryValue(m[k], attributes) == Err(r.error)
  {
    var out: map<string, Value> := map[];
    var remaining := m.Keys;
    while remaining != {}
      invariant remaining <= m.Keys
      invariant out.Keys == m.Keys - remaining
      invariant forall k :: k in out ==> EntryValue(m[k], attributes) == Ok(out[k])
      decreases remaining
    {
      var k :| k in remaining;
      var v := EntryValue(m[k], attributes);
      if v.Err? {
        assert k in m && EntryValue(m[k], attributes) == Err(v.error);
        return Err(v.error);
      }
      out := out[k := v.value];
      remaining := remaining - {k};
    }
    ConvertedAll(m, attributes, out);
    r := Ok(out);
  }

  /** A dict holding every registered entry's converted value is what the loop builds. */
  lemma ConvertedAll(m: map<string, Field>, attributes: map<string, Value>, out: map<string, Value>)
    requires out.Keys == m.Keys
    requires forall k :: k in out ==> EntryValue(m[k], attributes) == Ok(out[k])
    ensures AllConvert(m, attributes) && out == ConvertAll(m, attributes)
  {
    assert AllConvert(m, attributes);
  }

  /** `InfluxMeasurement(**kwargs)`: refused without a measurement, then each keyword stored under
      its field's name. */
  method NewPoint(model: MeasurementClass, kwargs: Entries<Value>) returns (r: Result<Point>)
    ensures r.Ok? <==> Bind(model.meta.Snapshot(), model.measurement, kwargs).Ok?
    ensures r.Err? ==> r.error == Bind(model.meta.Snapshot(), model.measurement, kwargs).error
    ensures r.Ok? ==> fresh(r.value) && r.value.model == model
    ensures r.Ok? ==> r.value.attributes == Bind(model.meta.Snapshot(), model.measurement, kwargs).value
  {
    if model.measurement.None? {
      return Err(MeasurementIsNone);
    }
    var p := new Point(model);
    var allFields := model.meta.allFields;
    for i := 0 to |kwargs|
      invariant BindFrom(p.attributes, allFields, kwargs[i..]) == BindFrom(map[], allFields, kwargs)
    {
      var (key, value) := kwargs[i];
      assert kwargs[i..][0] == (key, value) && kwargs[i..][1..] == kwargs[i + 1..];
      if key !in allFields {
        return Err(UnknownKeyword(key));
      }
      p.attributes := p.attributes[allFields[key].name := value];
    }
    assert kwargs[|kwargs|..] == [];
    r := Ok(p);
  }

  // ----- ContinuousQuery -----

  /** A continuous query: the text of its query set, compiled when it was made, and its settings. */
  datatype ContinuousQuery = ContinuousQuery(
    query: string,
    name: string,
    source: string,
    resampleEvery: Duration,
    resampleFor: Option<Duration>)

  /** `ContinuousQuery(queryset, name, source, resample_every, resample_for)`: the query set is
      compiled here, once; a query set that does not compile raises here. */
  function NewContinuousQuery(qs: QuerySet, name: string, source: string, every: Duration, resampleFor: Option<Duration>)
    : (r: Result<ContinuousQuery>)
    reads qs, qs.query, qs.model.meta
    ensures r.Ok? <==> qs.IqlQuery().Ok?
    ensures r.Err? ==> r.error == qs.IqlQuery().error
    ensures r.Ok? ==> r.value.query == qs.IqlQuery().value
  {
    var text :- qs.IqlQuery();
    Ok(ContinuousQuery(text, name, source, every, resampleFor))
  }

  /** `iql_query()` of a continuous query: the words joined by spaces, with `FOR` and the window
      only when `resample_for` is given (a duration object is always truthy). */
  function CqIql(cq: ContinuousQuery): Result<string> {
    var every :- DurationIql(cq.resampleEvery);
    var window :- if cq.resampleFor.Some? then
                    var w :- DurationIql(cq.resampleFor.value); Ok(["FOR", w])
                  else Ok([]);
    Ok(Join(["CREATE CONTINUOUS QUERY", "\"" + cq.name + "\"", "ON", cq.source, "RESAMPLE EVERY", every]
            + window + ["BEGIN", cq.query, "END"], " "))
  }

  /** The continuous query text reads `CREATE CONTINUOUS QUERY "<name>" ON <source> RESAMPLE EVERY
      <every> [FOR <for>] BEGIN <query> END`, and fails exactly when a duration is not an integer. */
  lemma CqIqlShape(cq: ContinuousQuery)
    ensures CqIql(cq).Ok? <==>
      DurationIql(cq.resampleEvery).Ok? && (cq.resampleFor.Some? ==> DurationIql(cq.resampleFor.value).Ok?)
    ensures CqIql(cq).Ok? ==>
      CqIql(cq).value == "CREATE CONTINUOUS QUERY \"" + cq.name + "\" ON " + cq.source
                         + " RESAMPLE EVERY " + DurationIql(cq.resampleEvery).value
                         + (if cq.resampleFor.Some? then " FOR " + DurationIql(cq.resampleFor.value).value else "")
                         + " BEGIN " + cq.query + " END"
  {
    if CqIql(cq).Ok? {
      var every := DurationIql(cq.resampleEvery).value;
      var window: seq<string> := if cq.resampleFor.Some? then ["FOR", DurationIql(cq.resampleFor.value).value] else [];
      assert CqIql(cq).value
        == Join(["CREATE CONTINUOUS QUERY", "\"" + cq.name + "\"", "ON", cq.source, "RESAMPLE EVERY", every]
                + window + ["BEGIN", cq.query, "END"], " ");
      CqWords(cq.name, cq.source, every, window, cq.query);
    }
  }

  /** The words of a continuous query joined by spaces. */
  lemma CqWords(name: string, source: string, every: string, window: seq<string>, query: string)
    requires |window| == 0 || (|window| == 2 && window[0] == "FOR")
    ensures Join(["CREATE CONTINUOUS QUERY", "\"" + name + "\"", "ON", source, "RESAMPLE EVERY", every]
                 + window + ["BEGIN", query, "END"], " ")
      == "CREATE CONTINUOUS QUERY \"" + name + "\" ON " + source + " RESAMPLE EVERY " + every
         + (if window == [] then "" else " FOR " + window[1]) + " BEGIN " + query + " END"
  {
    var head := ["CREATE CONTINUOUS QUERY", "\"" + name + "\"", "ON", source, "RESAMPLE EVERY", every];
    var tail := ["BEGIN", query, "END"];
    JoinAppend(head + window, tail);
    JoinAppend(head, window);
    HeadWords(name, source, every);
    WindowAndTail(window, query);
    AppendThree(Join(head, " ") + Spaced(window), " BEGIN ", query, " END");
  }

  lemma WindowAndTail(window: seq<string>, query: string)
    requires |window| == 0 || (|window| == 2 && window[0] == "FOR")
    ensures Spaced(window) == if window == [] then "" else " FOR " + window[1]
    ensures Spaced(["BEGIN", query, "END"]) == " BEGIN " + query + " END"
  {
    if window != [] {
      assert window == ["FOR", window[1]];
      SpacedPair("FOR", window[1]);
      assert " " + "FOR" + " " == " FOR ";
    }
    SpacedTriple("BEGIN", query, "END");
    assert " " + "BEGIN" + " " == " BEGIN ";
    assert " " + "END" == " END";
  }

  /** Six words joined: each followed by the separator, the last alone. */
  lemma JoinSix(a: string, b: string, c: string, d: string, e: string, f: string, sep: string)
    ensures Join([a, b, c, d, e, f], sep) == a + sep + b + sep + c + sep + d + sep + e + sep + f
  {
    JoinCons(a, [b, c, d, e, f], sep);
    JoinCons(b, [c, d, e, f], sep);
    JoinCons(c, [d, e, f], sep);
    JoinCons(d, [e, f], sep);
    JoinCons(e, [f], sep);
    assert [b, c, d, e, f][1..] == [c, d, e, f];
    assert [c, d, e, f][1..] == [d, e, f];
    assert [d, e, f][1..] == [e, f];
    assert [e, f][1..] == [f];
  }

  lemma HeadWords(name: string, source: string, every: string)
    ensures Join(["CREATE CONTINUOUS QUERY", "\"" + name + "\"", "ON", source, "RESAMPLE EVERY", every], " ")
      == "CREATE CONTINUOUS QUERY \"" + name + "\" ON " + source + " RESAMPLE EVERY " + every
  {
    JoinSix("CREATE CONTINUOUS QUERY", "\"" + name + "\"", "ON", source, "RESAMPLE EVERY", every, " ");
    assert "CREATE CONTINUOUS QUERY" + " " + "\"" == "CREATE CONTINUOUS QUERY \"";
    assert "\"" + " " + "ON" + " " == "\" ON ";
    assert " " + "RESAMPLE EVERY" + " " == " RESAMPLE EVERY ";
  }
}
