/** influxpy/fields.py: durations, field descriptors and the per-class lookup
    tables that are merged along a descriptor class's hierarchy. */
module Fields {
  import opened Results
  import opened Text
  import opened Values

  // ----- durations -----

  /** The unit letter of each BaseDuration subclass. */
  datatype Unit = Seconds | Minutes | Hours | Days {
    function Letter(): char {
      match this
      case Seconds => 's'
      case Minutes => 'm'
      case Hours => 'h'
      case Days => 'd'
    }
  }

  /** What a duration was constructed with. `__eq__` and `__hash__` look at this and at nothing else. */
  datatype Magnitude = Whole(n: int) | Literal(text: string)

  datatype Duration = Duration(value: Magnitude, unit: Unit)

  /** `int(self.value)`; `None` where `int()` raises ValueError. */
  function IntValue(m: Magnitude): Option<int> {
    match m
    case Whole(n) => Some(n)
    case Literal(s) => ParseInt(s)
  }

  /** `BaseDuration.as_iql`: the integer followed by the unit letter. */
  function DurationIql(d: Duration): (r: Result<string>)
    ensures r.Err? <==> IntValue(d.value).None?
    ensures r.Err? ==> r.error == DurationNotInteger
  {
    match IntValue(d.value)
    case None => Err(DurationNotInteger)
    case Some(n) => Ok(IntToString(n) + [d.unit.Letter()])
  }

  function UnitOf(c: char): Option<Unit> {
    if c == 's' then Some(Seconds)
    else if c == 'm' then Some(Minutes)
    else if c == 'h' then Some(Hours)
    else if c == 'd' then Some(Days)
    else None
  }

  /** Reads a duration literal `<int><unit>` back into its integer and unit. */
  function ParseDurationLiteral(s: string): Option<(int, Unit)> {
    if |s| < 2 then None
    else match (ParseInt(s[..|s| - 1]), UnitOf(s[|s| - 1]))
      case (Some(n), Some(u)) => Some((n, u))
      case _ => None
  }

  /** A rendered duration reads back as `int(value)` and the duration's own unit. */
  lemma DurationIqlRoundTrip(d: Duration)
    ensures DurationIql(d).Ok? ==> ParseDurationLiteral(DurationIql(d).value) == Some((IntValue(d.value).value, d.unit))
  {
    if DurationIql(d).Ok? {
      var n := IntValue(d.value).value;
      var s := DurationIql(d).value;
      ParseIntToString(n);
      assert s[..|s| - 1] == IntToString(n);
    }
  }

  /** `BaseDuration.__eq__` (and, through `__hash__`, dictionary keying). */
  predicate SameDuration(a: Duration, b: Duration) {
    a.value == b.value
  }

  /** Equality ignores the unit, although the renderings differ: `Days(1) == Minutes(1)`. */
  lemma EqualityIgnoresUnit(n: int, u1: Unit, u2: Unit)
    requires u1 != u2
    ensures SameDuration(Duration(Whole(n), u1), Duration(Whole(n), u2))
    ensures DurationIql(Duration(Whole(n), u1)) != DurationIql(Duration(Whole(n), u2))
  {
    var s1 := DurationIql(Duration(Whole(n), u1)).value;
    var s2 := DurationIql(Duration(Whole(n), u2)).value;
    assert s1[|s1| - 1] == u1.Letter();
    assert s2[|s2| - 1] == u2.Letter();
  }

  /** A dict literal `{Duration: table, …}`: keys hash and compare by magnitude, later entries overwrite. */
  function DurationKeyed(entries: seq<(Duration, string)>): (m: map<Magnitude, string>)
    decreases |entries|
  {
    if entries == [] then map[]
    else DurationKeyed(entries[..|entries| - 1])[entries[|entries| - 1].0.value := entries[|entries| - 1].1]
  }

  /** `{Days(1): 'counter_day', Hours(1): 'counter_hour', Minutes(1): 'counter_minute'}`
      holds one entry, the last table. */
  lemma SameMagnitudeKeysCollapse(a: string, b: string, c: string)
    ensures DurationKeyed([(Duration(Whole(1), Days), a), (Duration(Whole(1), Hours), b), (Duration(Whole(1), Minutes), c)])
      == map[Whole(1) := c]
  {
    var e := [(Duration(Whole(1), Days), a), (Duration(Whole(1), Hours), b), (Duration(Whole(1), Minutes), c)];
    assert e[..2][..1][..0] == [];
    assert DurationKeyed(e[..2][..1]) == map[Whole(1) := a];
    assert DurationKeyed(e[..2]) == map[Whole(1) := a][Whole(1) := b];
    assert DurationKeyed(e) == map[Whole(1) := a][Whole(1) := b][Whole(1) := c];
    assert map[Whole(1) := a][Whole(1) := b][Whole(1) := c] == map[Whole(1) := c];
  }

  // ----- timestamps -----

  /** `InfluxTimeField.db_value`'s text: strftime('%Y-%m-%dT%H:%M:%S') + 'Z'. */
  function Rfc3339(t: Timestamp): string {
    DateText(t, 'T') + "Z"
  }

  /** Reads `YYYY-MM-DDTHH:MM:SSZ` back into a timestamp. */
  function ParseRfc3339(s: string): Option<Timestamp> {
    if |s| != 20 || s[4] != '-' || s[7] != '-' || s[10] != 'T' || s[13] != ':' || s[16] != ':' || s[19] != 'Z' then None
    else match (ParseDigits(s[..4]), ParseDigits(s[5..7]), ParseDigits(s[8..10]),
                ParseDigits(s[11..13]), ParseDigits(s[14..16]), ParseDigits(s[17..19]))
      case (Some(y), Some(mo), Some(d), Some(h), Some(mi), Some(se)) =>
        var t := DateTime(y, mo, d, h, mi, se);
        if t.Valid() then Some(t) else None
      case _ => None
  }

  lemma PadComponent(n: nat, width: nat)
    requires 1 <= width && n < Pow10(width)
    ensures |Pad(n, width)| == width && ParseDigits(Pad(n, width)) == Some(n)
  {
    PadLength(n, width);
    ParsePad(n, width);
  }

  /** Where the separators and the components of `YYYY-MM-DDTHH:MM:SSZ` sit. */
  lemma TimestampLayout(y: string, mo: string, d: string, h: string, mi: string, se: string)
    requires |y| == 4 && |mo| == 2 && |d| == 2 && |h| == 2 && |mi| == 2 && |se| == 2
    ensures var s := y + "-" + mo + "-" + d + "T" + h + ":" + mi + ":" + se + "Z";
      |s| == 20 && s[4] == '-' && s[7] == '-' && s[10] == 'T' && s[13] == ':' && s[16] == ':' && s[19] == 'Z'
      && s[..4] == y && s[5..7] == mo && s[8..10] == d && s[11..13] == h && s[14..16] == mi && s[17..19] == se
  {
    var s := y + "-" + mo + "-" + d + "T" + h + ":" + mi + ":" + se + "Z";
    assert s[..4] == y;
    assert s[5..7] == mo;
    assert s[8..10] == d;
    assert s[11..13] == h;
    assert s[14..16] == mi;
    assert s[17..19] == se;
  }

  /** The time field's text reads back as the same timestamp. */
  lemma Rfc3339RoundTrip(t: Timestamp)
    ensures |Rfc3339(t)| == 20
    ensures ParseRfc3339(Rfc3339(t)) == Some(t)
  {
    assert Pow10(2) == 100;
    assert Pow10(4) == 10000;
    var y, mo, d := Pad(t.year, 4), Pad(t.month, 2), Pad(t.day, 2);
    var h, mi, se := Pad(t.hour, 2), Pad(t.minute, 2), Pad(t.second, 2);
    PadComponent(t.year, 4);
    PadComponent(t.month, 2);
    PadComponent(t.day, 2);
    PadComponent(t.hour, 2);
    PadComponent(t.minute, 2);
    PadComponent(t.second, 2);
    TimestampLayout(y, mo, d, h, mi, se);
    assert Rfc3339(t) == y + "-" + mo + "-" + d + "T" + h + ":" + mi + ":" + se + "Z";
  }

  // ----- field descriptors -----

  /** The descriptor classes: InfluxBaseField, InfluxField, InfluxLookupField, InfluxTag, InfluxTimeField. */
  datatype FieldClass = BaseField | PlainField | LookupField | Tag | TimeField

  /** `inspect.getmro(cls)` without `object`, which has no lookup table: the class first, then its bases. */
  function Mro(c: FieldClass): (r: seq<FieldClass>)
    ensures |r| >= 1 && r[0] == c
  {
    match c
    case BaseField => [BaseField]
    case PlainField => [PlainField, BaseField]
    case LookupField => [LookupField, BaseField]
    case Tag => [Tag, LookupField, BaseField]
    case TimeField => [TimeField, LookupField, BaseField]
  }

  /** Only InfluxLookupField and its subclasses define `get_lookups` and `get_lookup`. */
  predicate HasLookups(c: FieldClass) {
    LookupField in Mro(c)
  }

  /** A descriptor once its owning class has given it its attribute name. */
  datatype Field = Field(name: string, cls: FieldClass, nullable: bool, default: Value)

  /** `field.db_value(value)`: the time field formats a datetime (and has no null check);
      every other descriptor passes the value through unless it is a forbidden None. */
  function DbValue(f: Field, v: Value): Result<Value> {
    if f.cls == TimeField then
      if v.Date? then Ok(Str(Rfc3339(v.t))) else Err(AttributeMissing("strftime"))
    else if v == Nothing && !f.nullable then Err(FieldMandatory(f.name))
    else Ok(v)
  }

  /** A non-time descriptor returns its argument unchanged, and refuses exactly a None on a non-nullable field. */
  lemma DbValuePassesThrough(f: Field, v: Value)
    requires f.cls != TimeField
    ensures DbValue(f, v).Ok? <==> (v != Nothing || f.nullable)
    ensures DbValue(f, v).Ok? ==> DbValue(f, v).value == v
    ensures DbValue(f, v).Err? ==> DbValue(f, v).error == FieldMandatory(f.name)
  {
  }

  /** The time descriptor accepts exactly datetimes and yields text that reads back as the same instant. */
  lemma TimeDbValueRoundTrip(f: Field, v: Value)
    requires f.cls == TimeField
    ensures DbValue(f, v).Ok? <==> v.Date?
    ensures DbValue(f, v).Ok? ==> DbValue(f, v).value.Str? && ParseRfc3339(DbValue(f, v).value.s) == Some(v.t)
  {
    if v.Date? {
      Rfc3339RoundTrip(v.t);
    }
  }

  // ----- lookup tables -----

  /** `InfluxLookupField.merge_dicts`: on a key present in several dicts the earliest dict wins. */
  function Merged<L>(dicts: seq<map<string, L>>): map<string, L>
    decreases |dicts|
  {
    if dicts == [] then map[] else Merged(dicts[1..]) + dicts[0]
  }

  lemma MergedOfTwo<L>(t: map<string, L>)
    ensures Merged([t, map[]]) == t
  {
    var empty: map<string, L> := map[];
    assert [t, empty][1..] == [empty] && [empty][1..] == [];
    assert Merged([empty]) == empty;
  }

  lemma MergedOfThree<L>(a: map<string, L>, t: map<string, L>)
    ensures Merged([a, t, map[]]) == t + a
  {
    assert [a, t, map[]][1..] == [t, map[]];
    MergedOfTwo(t);
  }

  /** The loop of `merge_dicts`: `merged.update(d)` for `d` in `reversed(dicts)`. */
  method MergeDicts<L>(dicts: seq<map<string, L>>) returns (merged: map<string, L>)
    ensures merged == Merged(dicts)
  {
    merged := map[];
    var i := |dicts|;
    while i > 0
      invariant 0 <= i <= |dicts|
      invariant merged == Merged(dicts[i..])
    {
      i := i - 1;
      assert dicts[i..][1..] == dicts[i + 1..];
      merged := merged + dicts[i];
    }
    assert dicts[0..] == dicts;
  }

  /** A key is merged exactly when some dict has it. */
  lemma {:induction false} MergedKeys<L>(dicts: seq<map<string, L>>, k: string)
    ensures k in Merged(dicts) <==> exists i :: 0 <= i < |dicts| && k in dicts[i]
    decreases |dicts|
  {
    if dicts != [] {
      MergedKeys(dicts[1..], k);
      if k in Merged(dicts[1..]) {
        var i :| 0 <= i < |dicts[1..]| && k in dicts[1..][i];
        assert k in dicts[i + 1];
      }
      if exists i :: 0 <= i < |dicts| && k in dicts[i] {
        var i :| 0 <= i < |dicts| && k in dicts[i];
        if i > 0 {
          assert k in dicts[1..][i - 1];
        }
      }
    }
  }

  /** The value merged for a key comes from the first dict that has it. */
  lemma {:induction false} MergedPrefersEarlier<L>(dicts: seq<map<string, L>>, k: string, i: nat)
    requires i < |dicts| && k in dicts[i]
    requires forall j :: 0 <= j < i ==> k !in dicts[j]
    ensures k in Merged(dicts) && Merged(dicts)[k] == dicts[i][k]
    decreases i
  {
    if i > 0 {
      MergedPrefersEarlier(dicts[1..], k, i - 1);
    }
  }

  /** The `class_lookups` dict of every field class that has one. */
  type ClassTables<L> = map<FieldClass, map<string, L>>

  /** `cls.__dict__.get('class_lookups', {})`. */
  function OwnTable<L>(tables: ClassTables<L>, c: FieldClass): map<string, L> {
    if c in tables then tables[c] else map[]
  }

  function TablesAlong<L>(tables: ClassTables<L>, classes: seq<FieldClass>): (r: seq<map<string, L>>)
    ensures |r| == |classes|
    ensures forall i :: 0 <= i < |classes| ==> r[i] == OwnTable(tables, classes[i])
    decreases |classes|
  {
    if classes == [] then [] else [OwnTable(tables, classes[0])] + TablesAlong(tables, classes[1..])
  }

  /** `InfluxLookupField.get_lookups`: the tables along the class hierarchy, merged subclass first. */
  function GetLookups<L>(tables: ClassTables<L>, c: FieldClass): map<string, L> {
    Merged(TablesAlong(tables, Mro(c)))
  }

  /** A class's own registration overrides anything its bases register under the same name. */
  lemma OwnTableWins<L>(tables: ClassTables<L>, c: FieldClass, name: string)
    requires name in OwnTable(tables, c)
    ensures name in GetLookups(tables, c) && GetLookups(tables, c)[name] == OwnTable(tables, c)[name]
  {
    MergedPrefersEarlier(TablesAlong(tables, Mro(c)), name, 0);
  }

  /** A name resolves for a class exactly when the class or one of its bases registered it. */
  lemma ResolvesAlongHierarchy<L>(tables: ClassTables<L>, c: FieldClass, name: string)
    ensures name in GetLookups(tables, c) <==> exists b :: b in Mro(c) && name in OwnTable(tables, b)
  {
    var ts := TablesAlong(tables, Mro(c));
    MergedKeys(ts, name);
    if exists b :: b in Mro(c) && name in OwnTable(tables, b) {
      var b :| b in Mro(c) && name in OwnTable(tables, b);
      var i :| 0 <= i < |Mro(c)| && Mro(c)[i] == b;
      assert name in ts[i];
    }
  }

  /** `field.get_lookup(name)`. A descriptor class without lookups has no such method, and a
      miss raises while formatting its message, because a descriptor has no `__name__`. */
  function GetLookup<L>(tables: ClassTables<L>, f: Field, name: string): (r: Result<L>)
    ensures r.Ok? <==> HasLookups(f.cls) && name in GetLookups(tables, f.cls)
    ensures r.Ok? ==> r.value == GetLookups(tables, f.cls)[name]
    ensures r.Err? ==> r.error == AttributeMissing(if HasLookups(f.cls) then "__name__" else "get_lookup")
  {
    if !HasLookups(f.cls) then Err(AttributeMissing("get_lookup"))
    else if name in GetLookups(tables, f.cls) then Ok(GetLookups(tables, f.cls)[name])
    else Err(AttributeMissing("__name__"))
  }
}
