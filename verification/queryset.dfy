/** influxpy/queryset.py: the lazy query set each measurement class carries as `series`.
    Every builder call deep-copies the query into a new query set, changes the copy and
    returns it; `dict_values` reshapes fetched series into nested dicts. */
module QuerySets {
  import opened Results
  import opened Text
  import opened Values
  import opened Fields
  import opened Lookups
  import opened Aggregates
  import opened Dicts
  import opened Queries
  import opened Schemas
  import opened Compiler

  // ----- sorting the keywords of one `filter` call -----

  /** Entries in ascending key order under `<=` on str. */
  predicate SortedByKey<V>(d: Entries<V>) {
    forall i :: 0 < i < |d| ==> AtMost(d[i - 1].0, d[i].0)
  }

  /** One entry placed before the first entry whose key is not below its own. */
  function InsertByKey<V>(e: (string, V), d: Entries<V>): Entries<V>
    decreases |d|
  {
    if d == [] || AtMost(e.0, d[0].0) then [e] + d else [d[0]] + InsertByKey(e, d[1..])
  }

  /** `sorted(kwargs.items(), key=lambda t: t[0])`. */
  function SortByKey<V>(d: Entries<V>): Entries<V>
    decreases |d|
  {
    if d == [] then [] else InsertByKey(d[0], SortByKey(d[1..]))
  }

  /** A list with a given first entry has distinct keys when that key is new and the rest are distinct. */
  lemma DistinctCons<V>(x: (string, V), r: Entries<V>)
    ensures DistinctKeys([x] + r) <==> x.0 !in Keys(r) && DistinctKeys(r)
  {
    var d := [x] + r;
    assert d[1..] == r;
    if x.0 !in Keys(r) && DistinctKeys(r) {
      forall i, j | 0 <= i < j < |d|
        ensures d[i].0 != d[j].0
      {
        if i == 0 {
          assert Keys(r)[j - 1] == r[j - 1].0;
        } else {
          assert d[i] == r[i - 1] && d[j] == r[j - 1];
        }
      }
    }
    if DistinctKeys(d) {
      forall i, j | 0 <= i < j < |r|
        ensures r[i].0 != r[j].0
      {
        assert d[i + 1] == r[i] && d[j + 1] == r[j];
      }
      forall j | 0 <= j < |r|
        ensures Keys(r)[j] != x.0
      {
        assert d[0] == x && d[j + 1] == r[j];
        assert d[0].0 != d[j + 1].0;
      }
    }
  }

  /** Inserting keeps the list sorted and puts the entry or the old first entry first. */
  lemma {:induction false} InsertSorted<V>(e: (string, V), d: Entries<V>)
    requires SortedByKey(d)
    ensures SortedByKey(InsertByKey(e, d))
    ensures InsertByKey(e, d)[0] == e || InsertByKey(e, d)[0] == d[0]
    decreases |d|
  {
    if d != [] && !AtMost(e.0, d[0].0) {
      var rest := d[1..];
      assert SortedByKey(rest) by {
        forall i | 0 < i < |rest|
          ensures AtMost(rest[i - 1].0, rest[i].0)
        {
          assert rest[i - 1] == d[i] && rest[i] == d[i + 1];
        }
      }
      InsertSorted(e, rest);
      var t := InsertByKey(e, rest);
      var r := [d[0]] + t;
      assert InsertByKey(e, d) == r;
      AtMostTotal(e.0, d[0].0);
      forall i | 0 < i < |r|
        ensures AtMost(r[i - 1].0, r[i].0)
      {
        if i == 1 {
          if t[0] != e {
            assert t[0] == d[1];
          }
        } else {
          assert r[i - 1] == t[i - 2] && r[i] == t[i - 1];
        }
      }
    }
  }

  /** Inserting adds exactly the entry, and its key to the keys. */
  lemma {:induction false} InsertContents<V>(e: (string, V), d: Entries<V>)
    ensures multiset(InsertByKey(e, d)) == multiset(d) + multiset{e}
    ensures forall k :: k in Keys(InsertByKey(e, d)) <==> k == e.0 || k in Keys(d)
    decreases |d|
  {
    var r := InsertByKey(e, d);
    if d == [] || AtMost(e.0, d[0].0) {
      assert r == [e] + d;
      assert Keys(r) == [e.0] + Keys(d);
    } else {
      InsertContents(e, d[1..]);
      var t := InsertByKey(e, d[1..]);
      assert r == [d[0]] + t;
      assert d == [d[0]] + d[1..];
      assert Keys(r) == [d[0].0] + Keys(t);
      assert Keys(d) == [d[0].0] + Keys(d[1..]);
    }
  }

  /** The sorted keywords are in ascending key order, are a permutation of the keywords, and
      have the same keys. */
  lemma {:induction false} SortByKeyProperties<V>(d: Entries<V>)
    ensures var r := SortByKey(d);
      SortedByKey(r)
      && multiset(r) == multiset(d)
      && |r| == |d|
      && (forall k :: k in Keys(r) <==> k in Keys(d))
    decreases |d|
  {
    if d != [] {
      SortByKeyProperties(d[1..]);
      InsertSorted(d[0], SortByKey(d[1..]));
      InsertContents(d[0], SortByKey(d[1..]));
      assert d == [d[0]] + d[1..];
      assert Keys(d) == [d[0].0] + Keys(d[1..]);
    }
  }

  /** Keyword arguments have distinct names, and so do the sorted ones; each name keeps its value. */
  lemma {:induction false} SortByKeyLookup<V>(d: Entries<V>, k: string)
    requires DistinctKeys(d)
    ensures DistinctKeys(SortByKey(d))
    ensures Get(SortByKey(d), k) == Get(d, k)
    decreases |d|
  {
    if d != [] {
      var x, rest := d[0], d[1..];
      assert d == [x] + rest;
      DistinctCons(x, rest);
      SortByKeyLookup(rest, k);
      SortByKeyProperties(rest);
      InsertDistinctLookup(x, SortByKey(rest), k);
    }
  }

  lemma {:induction false} InsertDistinctLookup<V>(x: (string, V), d: Entries<V>, k: string)
    requires DistinctKeys(d) && x.0 !in Keys(d)
    ensures DistinctKeys(InsertByKey(x, d))
    ensures Get(InsertByKey(x, d), k) == if k == x.0 then Some(x.1) else Get(d, k)
    decreases |d|
  {
    if d == [] || AtMost(x.0, d[0].0) {
      DistinctCons(x, d);
      GetCons(x, d, k);
    } else {
      var y, rest := d[0], d[1..];
      assert d == [y] + rest;
      DistinctCons(y, rest);
      KeysCons(y, rest);
      InsertDistinctLookup(x, rest, k);
      var t := InsertByKey(x, rest);
      assert y.0 !in Keys(t) by {
        InsertContents(x, rest);
      }
      DistinctCons(y, t);
      assert InsertByKey(x, d) == [y] + t;
      GetCons(y, t, k);
      GetCons(y, rest, k);
    }
  }

  /** What one `filter` call makes of the existing filters. */
  function Filtered(filters: Filters, kwargs: Entries<Value>): Filters {
    Update(filters, SortByKey(kwargs))
  }

  /** After `filter(**kwargs)` every keyword holds its new value and every other filter its old
      one; the existing filters keep their places and the new names follow, ascending. */
  lemma FilterEffect(filters: Filters, kwargs: Entries<Value>, k: string)
    requires DistinctKeys(kwargs)
    ensures Get(Filtered(filters, kwargs), k) == if Get(kwargs, k).Some? then Get(kwargs, k) else Get(filters, k)
    ensures Keys(Filtered(filters, kwargs)) == Keys(filters) + Unseen(Keys(filters), Keys(SortByKey(kwargs)))
    ensures SortedByKey(SortByKey(kwargs)) && multiset(SortByKey(kwargs)) == multiset(kwargs)
    ensures DistinctKeys(filters) ==> DistinctKeys(Filtered(filters, kwargs))
  {
    SortByKeyLookup(kwargs, k);
    SortByKeyProperties(kwargs);
    UpdateGet(filters, SortByKey(kwargs), k);
    UpdateKeys(filters, SortByKey(kwargs));
    if DistinctKeys(filters) {
      UpdateDistinct(filters, SortByKey(kwargs));
    }
  }

  /** The keywords of one call are ordered by name, but separate calls keep call order: `b` then
      `a` in two calls puts `b` first, where one call with both puts `a` first. */
  lemma FilterOrderAcrossCalls(v: Value, w: Value)
    ensures Keys(Filtered(Filtered([], [("b", v)]), [("a", w)])) == ["b", "a"]
    ensures Keys(Filtered([], [("b", v), ("a", w)])) == ["a", "b"]
  {
    assert AtMost("a", "b");
    assert !AtMost("b", "a");
    var b: Filters := [("b", v)];
    var a: Filters := [("a", w)];
    assert SortByKey(a) == a;
    assert SortByKey(b) == b;
    assert Update([], b) == b;
    assert Put(b, "a", w) == b + a;
    assert Update(b, a) == b + a;
    assert Keys(b + a) == ["b", "a"];
    var ba: Filters := [("b", v), ("a", w)];
    assert ba[1..] == a;
    assert InsertByKey(("b", v), a) == a + b;
    assert SortByKey(ba) == a + b;
    assert Put([], "a", w) == a;
    assert Put(a, "b", v) == a + b;
    assert Update([], a + b) == Update(a, b);
    assert Keys(a + b) == ["a", "b"];
  }

  /** The annotations `annotate` appends for its keywords: each aggregate named after its keyword. */
  function Named(kwargs: Entries<Aggregate>): (r: seq<Aggregate>)
    ensures |r| == |kwargs|
  {
    seq(|kwargs|, i requires 0 <= i < |kwargs| => kwargs[i].1.(name := Some(kwargs[i].0)))
  }

  /** A keyword annotation renders its part followed by ` AS "<keyword>"`, whatever name it had. */
  lemma NamedRendering(kwargs: Entries<Aggregate>, i: nat)
    requires i < |kwargs|
    ensures AsIql(Named(kwargs)[i]) == AsIqlPart(kwargs[i].1) + " AS \"" + kwargs[i].0 + "\""
  {
    AliasSuffix(Named(kwargs)[i]);
  }

  /** After `annotate(*args, **kwargs)` the SELECT list is the old one, then the positional
      aggregates' renderings, then the keyword aggregates' renderings under their keywords. */
  lemma AnnotateSelects(old_: seq<Aggregate>, args: seq<Aggregate>, kwargs: Entries<Aggregate>)
    ensures var s := SelectedFields(old_ + args + Named(kwargs));
      |s| == |old_| + |args| + |kwargs|
      && s[..|old_|] == SelectedFields(old_)
      && (forall i :: 0 <= i < |args| ==> s[|old_| + i] == AsIql(args[i]))
      && (forall i :: 0 <= i < |kwargs| ==>
            s[|old_| + |args| + i] == AsIqlPart(kwargs[i].1) + " AS \"" + kwargs[i].0 + "\"")
  {
    var all := old_ + args + Named(kwargs);
    var s := SelectedFields(all);
    assert s[..|old_|] == SelectedFields(old_) by {
      forall i | 0 <= i < |old_|
        ensures s[..|old_|][i] == SelectedFields(old_)[i]
      {
        assert all[i] == old_[i];
      }
    }
    forall i | 0 <= i < |args|
      ensures s[|old_| + i] == AsIql(args[i])
    {
      assert all[|old_| + i] == args[i];
    }
    forall i | 0 <= i < |kwargs|
      ensures s[|old_| + |args| + i] == AsIqlPart(kwargs[i].1) + " AS \"" + kwargs[i].0 + "\""
    {
      assert all[|old_| + |args| + i] == Named(kwargs)[i];
      NamedRendering(kwargs, i);
    }
  }

  // ----- the query set -----

  class QuerySet {
    var query: InfluxQuery
    const model: MeasurementClass

    /** `InfluxQuerySet()` followed by `contribute_to_class(model, 'series')`: a default query bound
        to the class (whose registry and `measurement` the compiler reads). */
    constructor (model: MeasurementClass)
      ensures this.model == model && fresh(query) && query.State() == DEFAULT_QUERY
    {
      this.model := model;
      query := new InfluxQuery();
    }

    /** `iql_query()`: the compiled text of the current query for the bound class. */
    function IqlQuery(): Result<string>
      reads this, query, model.meta
    {
      Compile(model.meta.Snapshot(), BUILTIN_TABLES, model.measurement, query.State())
    }

    /** `clone()`: a new query set sharing the class, holding a deep copy of the query. */
    method Clone() returns (c: QuerySet)
      ensures fresh(c) && fresh(c.query) && c.model == model
      ensures c.query.State() == query.State()
    {
      c := new QuerySet(model);
      c.query := query.DeepCopy();
    }

    /** `filter(**kwargs)`: the keywords, sorted by name, merged into the copy's filters. */
    method Filter(kwargs: Entries<Value>) returns (c: QuerySet)
      ensures fresh(c) && fresh(c.query) && c.model == model
      ensures c.query.State() == query.State().(filters := Filtered(query.filters, kwargs))
      ensures unchanged(query)
    {
      c := Clone();
      c.query.filters := Update(c.query.filters, SortByKey(kwargs));
    }

    /** `group_by(*args)`: the names appended after the existing ones. */
    method GroupBy(args: seq<string>) returns (c: QuerySet)
      ensures fresh(c) && fresh(c.query) && c.model == model
      ensures c.query.State() == query.State().(groupBy := query.groupBy + args)
      ensures unchanged(query)
    {
      c := Clone();
      c.query.groupBy := c.query.groupBy + args;
    }

    /** `into(destination)`. */
    method Into(destination: string) returns (c: QuerySet)
      ensures fresh(c) && fresh(c.query) && c.model == model
      ensures c.query.State() == query.State().(destination := Some(destination))
      ensures unchanged(query)
    {
      c := Clone();
      c.query.destination := Some(destination);
    }

    /** `resolution(resolution)`. */
    method SetResolution(resolution: Resolution) returns (c: QuerySet)
      ensures fresh(c) && fresh(c.query) && c.model == model
      ensures c.query.State() == query.State().(resolution := resolution)
      ensures unchanged(query)
    {
      c := Clone();
      c.query.resolution := resolution;
    }

    /** `fill(value)`. */
    method Fill(value: Value) returns (c: QuerySet)
      ensures fresh(c) && fresh(c.query) && c.model == model
      ensures c.query.State() == query.State().(fill := value)
      ensures unchanged(query)
    {
      c := Clone();
      c.query.fill := value;
    }

    /** `annotate(*args, **kwargs)`: the positional aggregates appended in order, then each keyword
        aggregate, named after its keyword. */
    method Annotate(args: seq<Aggregate>, kwargs: Entries<Aggregate>) returns (c: QuerySet)
      ensures fresh(c) && fresh(c.query) && c.model == model
      ensures c.query.State() == query.State().(annotations := query.annotations + args + Named(kwargs))
      ensures unchanged(query)
    {
      c := Clone();
      var q := c.query;
      for i := 0 to |args|
        invariant c.query == q
        invariant q.State() == query.State().(annotations := query.annotations + args[..i])
      {
        q.annotations := q.annotations + [args[i]];
        assert args[..i + 1] == args[..i] + [args[i]];
      }
      assert args[..|args|] == args;
      for i := 0 to |kwargs|
        invariant c.query == q
        invariant q.State() == query.State().(annotations := query.annotations + args + Named(kwargs)[..i])
      {
        var (name, annotation) := kwargs[i];
        q.annotations := q.annotations + [annotation.(name := Some(name))];
        assert Named(kwargs)[..i + 1] == Named(kwargs)[..i] + [Named(kwargs)[i]];
      }
      assert Named(kwargs)[..|kwargs|] == Named(kwargs);
    }

    /** `use_downsampled()`: the copy may read a downsampled table. */
    method UseDownsampled() returns (c: QuerySet)
      ensures fresh(c) && fresh(c.query) && c.model == model
      ensures c.query.State() == query.State().(canUseAggregatedMeasurement := true)
      ensures unchanged(query)
    {
      c := Clone();
      c.query.canUseAggregatedMeasurement := true;
    }
  }

  // ----- dict_values -----

  /** One fetched series: its column names, its `tags` entry if it has one, and its rows. */
  datatype Series = Series(columns: seq<string>, tags: Option<map<string, Value>>, values: seq<seq<Value>>)

  /** `xs.index(x)`: the first position of `x`, or ValueError. */
  function IndexOf(xs: seq<string>, x: string): (r: Result<nat>)
    ensures r.Ok? ==> r.value < |xs| && xs[r.value] == x && forall j :: 0 <= j < r.value ==> xs[j] != x
    ensures r.Err? ==> x !in xs && r.error == NotInList(x)
    decreases |xs|
  {
    if xs == [] then Err(NotInList(x))
    else if xs[0] == x then Ok(0)
    else
      var i :- IndexOf(xs[1..], x);
      Ok(i + 1)
  }

  /** Python dict assignments `d[k] = v` in order, starting from `acc`. */
  function PutAll<K(==), V>(acc: map<K, V>, es: seq<(K, V)>): map<K, V>
    decreases |es|
  {
    if es == [] then acc else PutAll(acc[es[0].0 := es[0].1], es[1..])
  }

  /** After the assignments a key is present exactly when it was or when some assignment used it. */
  lemma {:induction false} PutAllKeys<K, V>(acc: map<K, V>, es: seq<(K, V)>, k: K)
    ensures k in PutAll(acc, es) <==> k in acc || exists i :: 0 <= i < |es| && es[i].0 == k
    decreases |es|
  {
    if es != [] {
      PutAllKeys(acc[es[0].0 := es[0].1], es[1..], k);
      if exists i :: 0 <= i < |es[1..]| && es[1..][i].0 == k {
        var i :| 0 <= i < |es[1..]| && es[1..][i].0 == k;
        assert es[i + 1].0 == k;
      }
      if exists i :: 0 <= i < |es| && es[i].0 == k {
        var i :| 0 <= i < |es| && es[i].0 == k;
        if i > 0 {
          assert es[1..][i - 1].0 == k;
        }
      }
    }
  }

  /** The last assignment to a key decides its value. */
  lemma {:induction false} PutAllLast<K, V>(acc: map<K, V>, es: seq<(K, V)>, i: nat)
    requires i < |es|
    requires forall j :: i < j < |es| ==> es[j].0 != es[i].0
    ensures es[i].0 in PutAll(acc, es) && PutAll(acc, es)[es[i].0] == es[i].1
    decreases |es|
  {
    if i == 0 {
      PutAllUntouched(acc[es[0].0 := es[0].1], es[1..], es[0].0);
    } else {
      PutAllLast(acc[es[0].0 := es[0].1], es[1..], i - 1);
    }
  }

  /** A key no assignment uses keeps what it had. */
  lemma {:induction false} PutAllUntouched<K, V>(acc: map<K, V>, es: seq<(K, V)>, k: K)
    requires k in acc
    requires forall j :: 0 <= j < |es| ==> es[j].0 != k
    ensures k in PutAll(acc, es) && PutAll(acc, es)[k] == acc[k]
    decreases |es|
  {
    if es != [] {
      PutAllUntouched(acc[es[0].0 := es[0].1], es[1..], k);
    }
  }

  /** Every row has both cells. */
  predicate AllLong(rows: seq<seq<Value>>, timeIndex: nat, fieldIndex: nat) {
    forall i :: 0 <= i < |rows| ==> timeIndex < |rows[i]| && fieldIndex < |rows[i]|
  }

  /** The assignments of the inner loop: time cell to field cell, row by row. */
  function RowPairs(rows: seq<seq<Value>>, timeIndex: nat, fieldIndex: nat): (r: seq<(Value, Value)>)
    requires AllLong(rows, timeIndex, fieldIndex)
    ensures |r| == |rows| && forall i :: 0 <= i < |rows| ==> r[i] == (rows[i][timeIndex], rows[i][fieldIndex])
  {
    seq(|rows|, i requires 0 <= i < |rows| => (rows[i][timeIndex], rows[i][fieldIndex]))
  }

  /** The inner loop from a given dict on: each row's time cell mapped to its field cell, a row too
      short for either index raising IndexError. */
  function RowsFrom(acc: map<Value, Value>, rows: seq<seq<Value>>, timeIndex: nat, fieldIndex: nat): Result<map<Value, Value>>
    decreases |rows|
  {
    if rows == [] then Ok(acc)
    else if fieldIndex < |rows[0]| && timeIndex < |rows[0]| then
      RowsFrom(acc[rows[0][timeIndex] := rows[0][fieldIndex]], rows[1..], timeIndex, fieldIndex)
    else Err(IndexOutOfRange)
  }

  /** The inner loop fails exactly when some row is too short, and otherwise performs the row
      assignments in order, so the last row with a given time decides its value. */
  lemma {:induction false} RowsAreAssignments(acc: map<Value, Value>, rows: seq<seq<Value>>, timeIndex: nat, fieldIndex: nat)
    ensures RowsFrom(acc, rows, timeIndex, fieldIndex)
      == if AllLong(rows, timeIndex, fieldIndex) then Ok(PutAll(acc, RowPairs(rows, timeIndex, fieldIndex))) else Err(IndexOutOfRange)
    decreases |rows|
  {
    if rows != [] {
      var rest := rows[1..];
      assert forall i :: 0 < i < |rows| ==> rows[i] == rest[i - 1];
      if fieldIndex < |rows[0]| && timeIndex < |rows[0]| {
        RowsAreAssignments(acc[rows[0][timeIndex] := rows[0][fieldIndex]], rest, timeIndex, fieldIndex);
        if AllLong(rows, timeIndex, fieldIndex) {
          assert RowPairs(rows, timeIndex, fieldIndex)[1..] == RowPairs(rest, timeIndex, fieldIndex);
        }
      }
    }
  }

  /** One series' entry of the result: its primary tag value and its time-to-field dict. */
  function SeriesEntry(s: Series, primaryTag: string, primaryField: string): Result<(Value, map<Value, Value>)> {
    var fieldIndex :- IndexOf(s.columns, primaryField);
    var timeIndex :- IndexOf(s.columns, "time");
    var rows :- RowsFrom(map[], s.values, timeIndex, fieldIndex);
    if s.tags.None? then Err(KeyMissing("tags"))
    else if primaryTag !in s.tags.value then Err(KeyMissing(primaryTag))
    else Ok((s.tags.value[primaryTag], rows))
  }

  /** The outer loop from a given dict on. */
  function SeriesFrom(acc: map<Value, map<Value, Value>>, series: seq<Series>, primaryTag: string, primaryField: string)
    : Result<map<Value, map<Value, Value>>>
    decreases |series|
  {
    if series == [] then Ok(acc)
    else
      var entry :- SeriesEntry(series[0], primaryTag, primaryField);
      SeriesFrom(acc[entry.0 := entry.1], series[1..], primaryTag, primaryField)
  }

  predicate AllEntries(series: seq<Series>, primaryTag: string, primaryField: string) {
    forall i :: 0 <= i < |series| ==> SeriesEntry(series[i], primaryTag, primaryField).Ok?
  }

  /** The assignments of the outer loop: primary tag value to the series' dict, series by series. */
  function EntryPairs(series: seq<Series>, primaryTag: string, primaryField: string): (r: seq<(Value, map<Value, Value>)>)
    requires AllEntries(series, primaryTag, primaryField)
    ensures |r| == |series| && forall i :: 0 <= i < |series| ==> r[i] == SeriesEntry(series[i], primaryTag, primaryField).value
  {
    seq(|series|, i requires 0 <= i < |series| => SeriesEntry(series[i], primaryTag, primaryField).value)
  }

  /** The outer loop fails with the first failing series' error, and otherwise performs the series
      assignments in order, so the last series with a given primary tag value decides its dict. */
  lemma {:induction false} SeriesAreAssignments(acc: map<Value, map<Value, Value>>, series: seq<Series>, primaryTag: string, primaryField: string)
    ensures AllEntries(series, primaryTag, primaryField) ==>
      SeriesFrom(acc, series, primaryTag, primaryField) == Ok(PutAll(acc, EntryPairs(series, primaryTag, primaryField)))
    ensures forall i :: (0 <= i < |series| && SeriesEntry(series[i], primaryTag, primaryField).Err?
                          && forall j :: 0 <= j < i ==> SeriesEntry(series[j], primaryTag, primaryField).Ok?) ==>
      SeriesFrom(acc, series, primaryTag, primaryField) == Err(SeriesEntry(series[i], primaryTag, primaryField).error)
    decreases |series|
  {
    if series != [] {
      var rest := series[1..];
      assert forall i :: 0 < i < |series| ==> series[i] == rest[i - 1];
      var e := SeriesEntry(series[0], primaryTag, primaryField);
      if e.Ok? {
        SeriesAreAssignments(acc[e.value.0 := e.value.1], rest, primaryTag, primaryField);
        if AllEntries(series, primaryTag, primaryField) {
          assert EntryPairs(series, primaryTag, primaryField)[1..] == EntryPairs(rest, primaryTag, primaryField);
        }
        forall i | 0 <= i < |series| && SeriesEntry(series[i], primaryTag, primaryField).Err?
            && (forall j :: 0 <= j < i ==> SeriesEntry(series[j], primaryTag, primaryField).Ok?)
          ensures SeriesFrom(acc, series, primaryTag, primaryField) == Err(SeriesEntry(series[i], primaryTag, primaryField).error)
        {
          assert i > 0;
          assert forall j :: 0 <= j < i - 1 ==> SeriesEntry(rest[j], primaryTag, primaryField).Ok?;
        }
      }
    }
  }

  /** The reshaping loop of `dict_values` over the fetched series. */
  method DictValues(series: seq<Series>, primaryTag: string, primaryField: string) returns (r: Result<map<Value, map<Value, Value>>>)
    ensures r == SeriesFrom(map[], series, primaryTag, primaryField)
  {
    var results: map<Value, map<Value, Value>> := map[];
    var i := 0;
    while i < |series|
      invariant 0 <= i <= |series|
      invariant SeriesFrom(results, series[i..], primaryTag, primaryField) == SeriesFrom(map[], series, primaryTag, primaryField)
    {
      var s := series[i];
      assert series[i..][0] == s && series[i..][1..] == series[i + 1..];
      var fieldIndex := IndexOf(s.columns, primaryField);
      if fieldIndex.Err? {
        return Err(fieldIndex.error);
      }
      var timeIndex := IndexOf(s.columns, "time");
      if timeIndex.Err? {
        return Err(timeIndex.error);
      }
      var serieResults: map<Value, Value> := map[];
      var j := 0;
      while j < |s.values|
        invariant 0 <= j <= |s.values|
        invariant RowsFrom(serieResults, s.values[j..], timeIndex.value, fieldIndex.value)
               == RowsFrom(map[], s.values, timeIndex.value, fieldIndex.value)
      {
        var value := s.values[j];
        assert s.values[j..][0] == value && s.values[j..][1..] == s.values[j + 1..];
        if fieldIndex.value >= |value| || timeIndex.value >= |value| {
          return Err(IndexOutOfRange);
        }
        serieResults := serieResults[value[timeIndex.value] := value[fieldIndex.value]];
        j := j + 1;
      }
      if s.tags.None? {
        return Err(KeyMissing("tags"));
      }
      if primaryTag !in s.tags.value {
        return Err(KeyMissing(primaryTag));
      }
      results := results[s.tags.value[primaryTag] := serieResults];
      i := i + 1;
    }
    r := Ok(results);
  }
}
