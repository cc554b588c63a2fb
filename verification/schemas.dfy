/** influxpy/model.py, class side: the `Options` registry of tags, fields and downsampled
    tables that each measurement class carries, and the metaclass step that builds it from
    the parent class's registry and the class body. */
module Schemas {
  import opened Results
  import opened Values
  import opened Fields

  /** The contents of an `Options` object at one moment. */
  datatype Schema = Schema(
    tags: map<string, Field>,
    fields: map<string, Field>,
    allFields: map<string, Field>,
    aggregatedMeasurements: map<Magnitude, string>)

  /** Every tag and every field is also registered in `all_fields`. */
  predicate Covered(s: Schema) {
    (forall k :: k in s.tags ==> k in s.allFields) && (forall k :: k in s.fields ==> k in s.allFields)
  }

  /** Tags and fields sit under their own names and have their own kinds. */
  predicate WellNamed(s: Schema) {
    (forall k :: k in s.tags ==> s.tags[k].name == k && s.tags[k].cls == Tag)
    && (forall k :: k in s.fields ==> s.fields[k].name == k && s.fields[k].cls == PlainField)
  }

  class Options {
    var tags: map<string, Field>
    var fields: map<string, Field>
    var allFields: map<string, Field>
    var aggregatedMeasurements: map<Magnitude, string>

    function Snapshot(): Schema
      reads this
    {
      Schema(tags, fields, allFields, aggregatedMeasurements)
    }

    /** `Options(meta, base_meta)` once `meta`'s `aggregated_measurements` has been read: copies of
        the parent registry's three maps (empty without a parent) and the class's own tables. */
    constructor (aggregated: map<Magnitude, string>, base: Options?)
      ensures Snapshot() == Seed(if base == null then None else Some(base.Snapshot()), aggregated)
    {
      if base == null {
        tags, fields, allFields := map[], map[], map[];
      } else {
        tags, fields, allFields := base.tags, base.fields, base.allFields;
      }
      aggregatedMeasurements := aggregated;
    }

    /** `add_field`: registers in `fields` and `all_fields` under the field's name. */
    method AddField(f: Field)
      modifies this
      ensures fields == old(fields)[f.name := f] && allFields == old(allFields)[f.name := f]
      ensures tags == old(tags) && aggregatedMeasurements == old(aggregatedMeasurements)
    {
      allFields := allFields[f.name := f];
      fields := fields[f.name := f];
    }

    /** `add_tag`: registers in `tags` and `all_fields` under the tag's name. */
    method AddTag(f: Field)
      modifies this
      ensures tags == old(tags)[f.name := f] && allFields == old(allFields)[f.name := f]
      ensures fields == old(fields) && aggregatedMeasurements == old(aggregatedMeasurements)
    {
      allFields := allFields[f.name := f];
      tags := tags[f.name := f];
    }

    /** `set_time`: registers under the key `time` in `all_fields` only, whatever the field's name. */
    method SetTime(f: Field)
      modifies this
      ensures allFields == old(allFields)["time" := f]
      ensures tags == old(tags) && fields == old(fields) && aggregatedMeasurements == old(aggregatedMeasurements)
    {
      allFields := allFields["time" := f];
    }
  }

  /** A new registry: the parent's maps, or empty ones, and the class's own downsampled tables. */
  function Seed(base: Option<Schema>, aggregated: map<Magnitude, string>): Schema {
    match base
    case None => Schema(map[], map[], map[], aggregated)
    case Some(p) => Schema(p.tags, p.fields, p.allFields, aggregated)
  }

  /** A descriptor as written in a class body: its class and its constructor arguments. */
  datatype FieldDecl = FieldDecl(cls: FieldClass, nullable: bool, default: Value)

  /** The `Meta` inner class, when the body has one, and its `aggregated_measurements` attribute. */
  datatype MetaDecl = NoMeta | Meta(aggregatedMeasurements: Option<map<Magnitude, string>>)

  /** The `measurement` class attribute: declared in the body, or taken from the parent. */
  datatype MeasurementDecl = Inherited | Declared(table: Option<string>)

  /** A measurement class statement: its name, its `measurement`, its `Meta` and its descriptors in body order. */
  datatype ModelDecl = ModelDecl(name: string, measurement: MeasurementDecl, meta: MetaDecl, attrs: seq<(string, FieldDecl)>)

  /** The part of `Options.__init__` that reads the `Meta` class: a `Meta` without
      `aggregated_measurements` raises AttributeError. */
  function MetaAggregated(m: MetaDecl): (r: Result<map<Magnitude, string>>)
    ensures r.Err? <==> m == Meta(None)
  {
    match m
    case NoMeta => Ok(map[])
    case Meta(None) => Err(AttributeMissing("aggregated_measurements"))
    case Meta(Some(aggregated)) => Ok(aggregated)
  }

  /** `contribute_to_class(cls, name)`: the descriptor takes its attribute name and then a plain
      field, a tag or the time field registers itself; the bare base and lookup classes do not. */
  function Contribute(s: Schema, name: string, d: FieldDecl): Schema {
    var f := Field(name, d.cls, d.nullable, d.default);
    match d.cls
    case PlainField => s.(fields := s.fields[name := f], allFields := s.allFields[name := f])
    case Tag => s.(tags := s.tags[name := f], allFields := s.allFields[name := f])
    case TimeField => s.(allFields := s.allFields["time" := f])
    case _ => s
  }

  /** The descriptors of a class body contributed in order. */
  function RegisterAll(s: Schema, attrs: seq<(string, FieldDecl)>): Schema
    decreases |attrs|
  {
    if attrs == [] then s
    else Contribute(RegisterAll(s, attrs[..|attrs| - 1]), attrs[|attrs| - 1].0, attrs[|attrs| - 1].1)
  }

  /** The registry the metaclass gives a class declared under a parent with registry `parent`. */
  function BuildSchema(parent: Option<Schema>, decl: ModelDecl): Result<Schema> {
    var aggregated :- MetaAggregated(decl.meta);
    Ok(RegisterAll(Seed(parent, aggregated), decl.attrs))
  }

  function Names(attrs: seq<(string, FieldDecl)>): set<string> {
    set i | 0 <= i < |attrs| :: attrs[i].0
  }

  predicate HasTimeDecl(attrs: seq<(string, FieldDecl)>) {
    exists i :: 0 <= i < |attrs| && attrs[i].1.cls == TimeField
  }

  /** What a class body does not redeclare keeps the entry it had: tags and fields by name, and
      `all_fields` too unless the key is `time` and the body declares a time field. */
  lemma {:induction false} RegisterAllKeeps(s: Schema, attrs: seq<(string, FieldDecl)>, k: string)
    requires k !in Names(attrs)
    ensures var r := RegisterAll(s, attrs);
      (k in r.tags <==> k in s.tags) && (k in s.tags ==> r.tags[k] == s.tags[k])
      && (k in r.fields <==> k in s.fields) && (k in s.fields ==> r.fields[k] == s.fields[k])
      && (k != "time" || !HasTimeDecl(attrs) ==>
            (k in r.allFields <==> k in s.allFields) && (k in s.allFields ==> r.allFields[k] == s.allFields[k]))
      && r.aggregatedMeasurements == s.aggregatedMeasurements
    decreases |attrs|
  {
    if attrs != [] {
      var init := attrs[..|attrs| - 1];
      assert Names(init) <= Names(attrs) by {
        forall n | n in Names(init) ensures n in Names(attrs) {
          var i :| 0 <= i < |init| && init[i].0 == n;
          assert attrs[i].0 == n;
        }
      }
      assert attrs[|attrs| - 1].0 in Names(attrs);
      if HasTimeDecl(init) {
        var i :| 0 <= i < |init| && init[i].1.cls == TimeField;
        assert attrs[i].1.cls == TimeField;
      }
      RegisterAllKeeps(s, init, k);
    }
  }

  /** A tag or plain field declared in the body is registered under its own name, in its own map
      and in `all_fields`, when no later declaration reuses the name (or, for the name `time`,
      declares a time field). */
  lemma {:induction false} RegisterAllRegisters(s: Schema, attrs: seq<(string, FieldDecl)>, i: nat)
    requires i < |attrs|
    requires forall j :: i < j < |attrs| ==> attrs[j].0 != attrs[i].0
    requires attrs[i].0 == "time" ==> forall j :: i < j < |attrs| ==> attrs[j].1.cls != TimeField
    ensures var r := RegisterAll(s, attrs);
      var (n, d) := attrs[i];
      var f := Field(n, d.cls, d.nullable, d.default);
      (d.cls == Tag ==> n in r.tags && r.tags[n] == f && n in r.allFields && r.allFields[n] == f)
      && (d.cls == PlainField ==> n in r.fields && r.fields[n] == f && n in r.allFields && r.allFields[n] == f)
    decreases |attrs|
  {
    var init := attrs[..|attrs| - 1];
    if i < |attrs| - 1 {
      RegisterAllRegisters(s, init, i);
      var last := attrs[|attrs| - 1];
      assert RegisterAll(s, attrs) == Contribute(RegisterAll(s, init), last.0, last.1);
      assert last.0 != attrs[i].0;
    }
  }

  /** The downsampled tables come from the class's own `Meta` and never from the parent. */
  lemma AggregatedNotInherited(p1: Option<Schema>, p2: Option<Schema>, decl: ModelDecl)
    ensures BuildSchema(p1, decl).Ok? <==> BuildSchema(p2, decl).Ok?
    ensures BuildSchema(p1, decl).Ok? ==>
      BuildSchema(p1, decl).value.aggregatedMeasurements == MetaAggregated(decl.meta).value
      && BuildSchema(p2, decl).value.aggregatedMeasurements == MetaAggregated(decl.meta).value
  {
    if BuildSchema(p1, decl).Ok? {
      var agg := MetaAggregated(decl.meta).value;
      RegisterAllKeeps(Seed(p1, agg), [], "");
      AggregatedKept(Seed(p1, agg), decl.attrs);
      AggregatedKept(Seed(p2, agg), decl.attrs);
    }
  }

  lemma {:induction false} AggregatedKept(s: Schema, attrs: seq<(string, FieldDecl)>)
    ensures RegisterAll(s, attrs).aggregatedMeasurements == s.aggregatedMeasurements
    decreases |attrs|
  {
    if attrs != [] {
      AggregatedKept(s, attrs[..|attrs| - 1]);
    }
  }

  /** Registration keeps every tag and field in `all_fields`. */
  lemma {:induction false} RegisterAllCovered(s: Schema, attrs: seq<(string, FieldDecl)>)
    requires Covered(s)
    ensures Covered(RegisterAll(s, attrs))
    decreases |attrs|
  {
    if attrs != [] {
      RegisterAllCovered(s, attrs[..|attrs| - 1]);
    }
  }

  /** Registration keeps tags and fields under their own names. */
  lemma {:induction false} RegisterAllWellNamed(s: Schema, attrs: seq<(string, FieldDecl)>)
    requires WellNamed(s)
    ensures WellNamed(RegisterAll(s, attrs))
    decreases |attrs|
  {
    if attrs != [] {
      RegisterAllWellNamed(s, attrs[..|attrs| - 1]);
    }
  }

  /** A class built under a covered, well-named parent registry (or none) is covered and well named. */
  lemma BuildSchemaInvariant(parent: Option<Schema>, decl: ModelDecl)
    requires parent.Some? ==> Covered(parent.value) && WellNamed(parent.value)
    ensures BuildSchema(parent, decl).Ok? ==> Covered(BuildSchema(parent, decl).value) && WellNamed(BuildSchema(parent, decl).value)
  {
    if BuildSchema(parent, decl).Ok? {
      var seed := Seed(parent, MetaAggregated(decl.meta).value);
      RegisterAllCovered(seed, decl.attrs);
      RegisterAllWellNamed(seed, decl.attrs);
    }
  }

  /** Redeclaring a parent's field as a tag leaves it in both `fields` and `tags`: the maps the
      parent registry hands down are never pruned. */
  lemma TagShadowsInheritedField(parent: Schema, decl: ModelDecl, n: string)
    requires n in parent.fields
    requires decl.attrs == [(n, FieldDecl(Tag, false, Nothing))]
    requires decl.meta != Meta(None)
    ensures var s := BuildSchema(Some(parent), decl).value;
      n in s.fields && n in s.tags && s.fields[n] == parent.fields[n] && s.allFields[n] == s.tags[n]
  {
    var seed := Seed(Some(parent), MetaAggregated(decl.meta).value);
    assert decl.attrs[..0] == [];
    assert RegisterAll(seed, decl.attrs) == Contribute(RegisterAll(seed, []), n, FieldDecl(Tag, false, Nothing));
    assert BuildSchema(Some(parent), decl) == Ok(RegisterAll(seed, decl.attrs));
  }

  /** A measurement class: its name, its `measurement` attribute and its registry. */
  class MeasurementClass {
    const name: string
    const measurement: Option<string>
    const meta: Options

    constructor (name: string, measurement: Option<string>, meta: Options)
      ensures this.name == name && this.measurement == measurement && this.meta == meta
    {
      this.name := name;
      this.measurement := measurement;
      this.meta := meta;
    }
  }

  /** The registry of the parent class, if any. */
  function ParentSchema(parent: MeasurementClass?): Option<Schema>
    reads parent, if parent == null then {} else {parent.meta}
  {
    if parent == null then None else Some(parent.meta.Snapshot())
  }

  /** The `measurement` the new class ends up with. */
  function MeasurementOf(decl: ModelDecl, parent: MeasurementClass?): Option<string>
    reads parent
  {
    match decl.measurement
    case Declared(m) => m
    case Inherited => if parent == null then None else parent.measurement
  }

  /** `InfluxMeasurementBase.__new__`: a fresh registry seeded from the parent's, then each
      descriptor of the body contributed in order. The parent's registry is left as it was. */
  method DefineMeasurement(decl: ModelDecl, parent: MeasurementClass?) returns (r: Result<MeasurementClass>)
    ensures r.Ok? <==> BuildSchema(ParentSchema(parent), decl).Ok?
    ensures r.Err? ==> r.error == BuildSchema(ParentSchema(parent), decl).error
    ensures r.Ok? ==> fresh(r.value) && fresh(r.value.meta)
    ensures r.Ok? ==> r.value.meta.Snapshot() == BuildSchema(ParentSchema(parent), decl).value
    ensures r.Ok? ==> r.value.name == decl.name && r.value.measurement == MeasurementOf(decl, parent)
  {
    var aggregated :- MetaAggregated(decl.meta);
    var meta := new Options(aggregated, if parent == null then null else parent.meta);
    var seed := Seed(ParentSchema(parent), aggregated);
    var i := 0;
    while i < |decl.attrs|
      invariant 0 <= i <= |decl.attrs|
      invariant meta.Snapshot() == RegisterAll(seed, decl.attrs[..i])
    {
      var (name, d) := decl.attrs[i];
      var f := Field(name, d.cls, d.nullable, d.default);
      match d.cls {
        case PlainField => meta.AddField(f);
        case Tag => meta.AddTag(f);
        case TimeField => meta.SetTime(f);
        case _ =>
      }
      assert decl.attrs[..i + 1][..i] == decl.attrs[..i];
      i := i + 1;
    }
    assert decl.attrs[..i] == decl.attrs;
    var cls := new MeasurementClass(decl.name, MeasurementOf(decl, parent), meta);
    r := Ok(cls);
  }

  /** The body of `InfluxMeasurement`: `measurement = None` and a time field named `time`. */
  const ROOT_DECL: ModelDecl := ModelDecl("InfluxMeasurement", Declared(None), NoMeta,
                                          [("time", FieldDecl(TimeField, false, Nothing))])

  /** The root registry holds the time field under `time` and nothing else. */
  lemma RootSchema()
    ensures BuildSchema(None, ROOT_DECL)
      == Ok(Schema(map[], map[], map["time" := Field("time", TimeField, false, Nothing)], map[]))
  {
    assert ROOT_DECL.attrs[..0] == [];
  }
}
