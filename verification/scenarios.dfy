/** The query-building examples of the repository's tests, carried out on the model: the text
    the code produces for them. */
module Scenarios {
  import opened Results
  import opened Text
  import opened Values
  import opened Fields
  import opened Lookups
  import opened Aggregates
  import opened Dicts
  import opened Queries
  import opened Schemas
  import opened Compiler
  import opened QuerySets
  import opened Models

  const TAG: FieldDecl := FieldDecl(Tag, false, Nothing)

  /** `class TestModel(InfluxMeasurement)` with `measurement = 'cpu'` and two tags. */
  const CPU_DECL: ModelDecl := ModelDecl("TestModel", Declared(Some("cpu")), NoMeta,
                                         [("organization", TAG), ("project", TAG)])

  const TIME_FIELD: Field := Field("time", TimeField, false, Nothing)
  const ORGANIZATION: Field := Field("organization", Tag, false, Nothing)
  const PROJECT: Field := Field("project", Tag, false, Nothing)

  const CPU_SCHEMA: Schema := Schema(
    map["organization" := ORGANIZATION, "project" := PROJECT],
    map[],
    map["time" := TIME_FIELD, "organization" := ORGANIZATION, "project" := PROJECT],
    map[])

  /** Registering a two-descriptor body contributes the first and then the second. */
  lemma RegisterTwo(s: Schema, a: (string, FieldDecl), b: (string, FieldDecl))
    ensures RegisterAll(s, [a, b]) == Contribute(Contribute(s, a.0, a.1), b.0, b.1)
  {
    var attrs := [a, b];
    assert attrs[..|attrs| - 1] == [a];
    assert RegisterAll(s, [a]) == Contribute(s, a.0, a.1) by {
      assert [a][..0] == [];
    }
  }

  /** The registry of the test class: the inherited time field and the two tags. */
  lemma CpuSchema()
    ensures BuildSchema(Some(BuildSchema(None, ROOT_DECL).value), CPU_DECL) == Ok(CPU_SCHEMA)
  {
    RootSchema();
    RegisterTwo(BuildSchema(None, ROOT_DECL).value, ("organization", TAG), ("project", TAG));
  }

  /** Two filters that each render make a two-item rendering list. */
  lemma FilterIqlsTwo(schema: Schema, tables: ClassTables<LookupOp>, e1: (string, Value), e2: (string, Value))
    requires FilterIql(schema, tables, e1.0, e1.1).Ok? && FilterIql(schema, tables, e2.0, e2.1).Ok?
    ensures FilterIqls(schema, tables, [e1, e2])
      == Ok([FilterIql(schema, tables, e1.0, e1.1).value, FilterIql(schema, tables, e2.0, e2.1).value])
  {
    var r2 := FilterIql(schema, tables, e2.0, e2.1).value;
    assert [e1, e2][1..] == [e2] && [e2][1..] == [];
    assert FilterIqls(schema, tables, [e2]) == Ok([r2]) by {
      assert [r2] + [] == [r2];
    }
    var r1 := FilterIql(schema, tables, e1.0, e1.1).value;
    assert [r1] + [r2] == [r1, r2];
  }

  lemma AllTextTwo(a: string, b: string)
    ensures AllText([Some(a), Some(b)]) == Some([a, b])
  {
    var parts := [Some(a), Some(b)];
    assert parts[1..] == [Some(b)] && [Some(b)][1..] == [];
    assert AllText([Some(b)]) == Some([b]) by {
      assert [b] + [] == [b];
    }
    assert [a] + [b] == [a, b];
  }

  /** Two equality filters on tags render one predicate each, in order. */
  lemma TwoTagWhere(schema: Schema, a: string, va: Value, b: string, vb: Value)
    requires !Contains(a, "__") && !Contains(b, "__")
    requires a in schema.allFields && schema.allFields[a].cls == Tag
    requires b in schema.allFields && schema.allFields[b].cls == Tag
    requires va.Int? && vb.Int?
    ensures WhereTexts(schema, BUILTIN_TABLES, [(a, va), (b, vb)])
      == Ok([Predicate(schema.allFields[a], "=", ToStr(va)), Predicate(schema.allFields[b], "=", ToStr(vb))])
  {
    EqualityOnTag(schema, a, va);
    EqualityOnTag(schema, b, vb);
    FilterIqlsTwo(schema, BUILTIN_TABLES, (a, va), (b, vb));
    AllTextTwo(Predicate(schema.allFields[a], "=", ToStr(va)), Predicate(schema.allFields[b], "=", ToStr(vb)));
  }

  /** A query with two tag filters, a duration resolution and group-by names plans a statement
      on the base table: the two predicates, then the time bucket and the names. */
  lemma TwoTagPlan(schema: Schema, m: string, a: string, va: Value, b: string, vb: Value, d: Duration, names: seq<string>)
    requires forall i :: 0 <= i < |a| ==> a[i] != '_'
    requires forall i :: 0 <= i < |b| ==> b[i] != '_'
    requires a in schema.allFields && schema.allFields[a].cls == Tag
    requires b in schema.allFields && schema.allFields[b].cls == Tag
    requires va.Int? && vb.Int? && DurationIql(d).Ok?
    ensures Compile(schema, BUILTIN_TABLES, Some(m),
                    DEFAULT_QUERY.(filters := [(a, va), (b, vb)], groupBy := names, resolution := Span(d)))
      == Ok(Render(Clauses([], None, m,
                           [Predicate(schema.allFields[a], "=", ToStr(va)), Predicate(schema.allFields[b], "=", ToStr(vb))],
                           ["time(" + DurationIql(d).value + ")"] + names, None)))
  {
    var q := DEFAULT_QUERY.(filters := [(a, va), (b, vb)], groupBy := names, resolution := Span(d));
    NoUnderscore(a);
    NoUnderscore(b);
    TwoTagWhere(schema, a, va, b, vb);
    CompileIsRenderedPlan(schema, BUILTIN_TABLES, Some(m), q);
  }

  const CPU_QUERY: QueryState :=
    DEFAULT_QUERY.(filters := [("organization", Int(7)), ("project", Int(9))],
                   groupBy := ["organization", "project"],
                   resolution := Span(Duration(Whole(1), Days)))

  lemma CpuPlan()
    ensures Compile(CPU_SCHEMA, BUILTIN_TABLES, Some("cpu"), CPU_QUERY)
      == Ok(Render(Clauses([], None, "cpu", [Predicate(ORGANIZATION, "=", ToStr(Int(7))), Predicate(PROJECT, "=", ToStr(Int(9)))],
                           ["time(" + DurationIql(Duration(Whole(1), Days)).value + ")", "organization", "project"], None)))
  {
    TwoTagPlan(CPU_SCHEMA, "cpu", "organization", Int(7), "project", Int(9), Duration(Whole(1), Days), ["organization", "project"]);
  }

  lemma CpuLiterals()
    ensures Predicate(ORGANIZATION, "=", ToStr(Int(7))) == "organization = '7'"
    ensures Predicate(PROJECT, "=", ToStr(Int(9))) == "project = '9'"
    ensures DurationIql(Duration(Whole(1), Days)) == Ok("1d")
    ensures "time(" + DurationIql(Duration(Whole(1), Days)).value + ")" == "time(1d)"
  {
    assert IntValue(Whole(1)) == Some(1) && Days.Letter() == 'd';
    assert IntToString(1) == "1";
    assert "1" + ['d'] == "1d";
  }

  /** A statement selecting everything, with two predicates and three GROUP BY entries. */
  lemma RenderTwoThree(m: string, p1: string, p2: string, g1: string, g2: string, g3: string)
    ensures Render(Clauses([], None, m, [p1, p2], [g1, g2, g3], None))
      == "SELECT * FROM " + m + " WHERE " + (p1 + " AND " + p2) + " GROUP BY " + (g1 + ", " + (g2 + ", " + g3))
  {
    var c := Clauses([], None, m, [p1, p2], [g1, g2, g3], None);
    var w, g := p1 + " AND " + p2, g1 + ", " + (g2 + ", " + g3);
    JoinCons(p1, [p2], " AND ");
    JoinCons(g1, [g2, g3], ", ");
    JoinCons(g2, [g3], ", ");
    assert [g2, g3][1..] == [g3];
    assert WhereText(c) == " WHERE " + w;
    assert GroupByText(c) == " GROUP BY " + g by {
      assert " GROUP BY " + g + "" == " GROUP BY " + g;
    }
    assert "SELECT " + "*" + "" + " FROM " == "SELECT * FROM ";
    var x := "SELECT * FROM " + m;
    AppendTwo(x, " WHERE ", w);
    AppendTwo(x + " WHERE " + w, " GROUP BY ", g);
  }

  /** `test_queryset`: the filters, the bucket and the group-by names come out unquoted, in the
      order the builder calls gave them. */
  lemma CpuQueryText()
    ensures Compile(CPU_SCHEMA, BUILTIN_TABLES, Some("cpu"), CPU_QUERY)
      == Ok("SELECT * FROM " + "cpu" + " WHERE " + ("organization = '7'" + " AND " + "project = '9'")
            + " GROUP BY " + ("time(1d)" + ", " + ("organization" + ", " + "project")))
  {
    CpuPlan();
    CpuLiterals();
    var planned := Clauses([], None, "cpu", [Predicate(ORGANIZATION, "=", ToStr(Int(7))), Predicate(PROJECT, "=", ToStr(Int(9)))],
                           ["time(" + DurationIql(Duration(Whole(1), Days)).value + ")", "organization", "project"], None);
    assert planned == Clauses([], None, "cpu", ["organization = '7'", "project = '9'"], ["time(1d)", "organization", "project"], None);
    RenderTwoThree("cpu", "organization = '7'", "project = '9'", "time(1d)", "organization", "project");
  }

  /** Two keyword arguments with distinct names, the first sorting first, become the first two
      filters of a query set that had none. */
  lemma FilterTwoFresh(e1: (string, Value), e2: (string, Value))
    requires AtMost(e1.0, e2.0) && e1.0 != e2.0
    ensures Filtered([], [e1, e2]) == [e1, e2]
  {
    var kw := [e1, e2];
    assert kw[1..] == [e2] && [e2][1..] == [];
    assert SortByKey([e2]) == [e2];
    assert SortByKey(kw) == InsertByKey(e1, [e2]) == [e1, e2];
    assert [e1][1..] == [];
    assert Put([e1], e2.0, e2.1) == [e1] + [e2] == [e1, e2];
    assert Update([e1], [e2]) == Update(Put([e1], e2.0, e2.1), []);
    assert Update([], [e1, e2]) == Update(Put([], e1.0, e1.1), [e2]);
  }

  /** `test_queryset` carried out with the query-set methods: `filter(organization=7, project=9)`,
      `group_by('organization')`, `group_by('project')` and `resolution(Days(1))` on a fresh
      query set of the test class. */
  method CpuBuilderCalls(qs: QuerySet) returns (r: Result<string>)
    requires qs.model.measurement == Some("cpu") && qs.model.meta.Snapshot() == CPU_SCHEMA
    requires qs.query.State() == DEFAULT_QUERY
    ensures r == Ok("SELECT * FROM " + "cpu" + " WHERE " + ("organization = '7'" + " AND " + "project = '9'")
                    + " GROUP BY " + ("time(1d)" + ", " + ("organization" + ", " + "project")))
  {
    FilterTwoFresh(("organization", Int(7)), ("project", Int(9)));
    var filtered := qs.Filter([("organization", Int(7)), ("project", Int(9))]);
    var byOrganization := filtered.GroupBy(["organization"]);
    var byProject := byOrganization.GroupBy(["project"]);
    var daily := byProject.SetResolution(Span(Duration(Whole(1), Days)));
    assert daily.query.State() == CPU_QUERY;
    CpuQueryText();
    r := daily.IqlQuery();
  }
}
