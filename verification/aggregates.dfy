/** influxpy/aggregates.py: the SELECT items, rendered as `func(field)` or as raw text,
    with an optional alias. */
module Aggregates {
  import opened Results
  import opened Text

  /** What an aggregate renders before its alias: `Aggregate.func` applied to a measurement, or `Raw` text. */
  datatype Expression = Call(func: string, measurement: string) | Verbatim(raw: string)

  /** An aggregate object: its expression and its `name`, which only `annotate` sets. */
  datatype Aggregate = Aggregate(expr: Expression, name: Option<string>)

  /** `Sum(measurement)`. */
  function Sum(measurement: string): Aggregate {
    Aggregate(Call("sum", measurement), None)
  }

  /** `Mean(measurement)`. */
  function Mean(measurement: string): Aggregate {
    Aggregate(Call("mean", measurement), None)
  }

  /** `Raw(raw)`. */
  function Raw(raw: string): Aggregate {
    Aggregate(Verbatim(raw), None)
  }

  /** `as_iql_part()`. */
  function AsIqlPart(a: Aggregate): string {
    match a.expr
    case Call(func, measurement) => func + "(" + measurement + ")"
    case Verbatim(raw) => raw
  }

  /** `as_iql()`: the part, then `AS` and the double-quoted name when a name is set, space-separated. */
  function AsIql(a: Aggregate): string {
    Join([AsIqlPart(a)] + (if a.name.Some? then ["AS", "\"" + a.name.value + "\""] else []), " ")
  }

  /** `a == b`: the full renderings, alias included, agree. */
  predicate Same(a: Aggregate, b: Aggregate) {
    AsIql(a) == AsIql(b)
  }

  /** An unnamed aggregate renders its part alone; a named one appends ` AS "<name>"`. */
  lemma AliasSuffix(a: Aggregate)
    ensures a.name.None? ==> AsIql(a) == AsIqlPart(a)
    ensures a.name.Some? ==> AsIql(a) == AsIqlPart(a) + " AS \"" + a.name.value + "\""
  {
    if a.name.Some? {
      JoinCons(AsIqlPart(a), ["AS", "\"" + a.name.value + "\""], " ");
      JoinCons("AS", ["\"" + a.name.value + "\""], " ");
    }
  }

  /** Constructed aggregates render as the source promises: `sum(m)`, `mean(m)` and raw text verbatim. */
  lemma Renderings(m: string, raw: string)
    ensures AsIql(Sum(m)) == "sum(" + m + ")"
    ensures AsIql(Mean(m)) == "mean(" + m + ")"
    ensures AsIql(Raw(raw)) == raw
  {
    AliasSuffix(Sum(m));
    AliasSuffix(Mean(m));
    AliasSuffix(Raw(raw));
  }

  /** Equality looks at the text only: `Sum(m) == Raw('sum(m)')`. */
  lemma SameIgnoresConstruction(m: string)
    ensures Same(Sum(m), Raw("sum(" + m + ")"))
  {
    Renderings(m, "sum(" + m + ")");
  }

  /** Two aliases of one expression are equal aggregates exactly when the aliases are equal. */
  lemma SameAliasIff(e: Expression, n1: string, n2: string)
    ensures Same(Aggregate(e, Some(n1)), Aggregate(e, Some(n2))) <==> n1 == n2
  {
    var a1, a2 := Aggregate(e, Some(n1)), Aggregate(e, Some(n2));
    AliasSuffix(a1);
    AliasSuffix(a2);
    if Same(a1, a2) {
      var x := AsIqlPart(a1) + " AS \"";
      assert AsIql(a1) == x + n1 + "\"";
      assert AsIql(a2) == x + n2 + "\"";
      assert |n1| == |n2|;
      forall i | 0 <= i < |n1|
        ensures n1[i] == n2[i]
      {
        assert AsIql(a1)[|x| + i] == n1[i];
        assert AsIql(a2)[|x| + i] == n2[i];
      }
    }
  }

  /** A named aggregate never equals the unnamed one with the same expression. */
  lemma AliasMatters(e: Expression, n: string)
    ensures !Same(Aggregate(e, Some(n)), Aggregate(e, None))
  {
    AliasSuffix(Aggregate(e, Some(n)));
    AliasSuffix(Aggregate(e, None));
    assert |AsIql(Aggregate(e, Some(n)))| > |AsIql(Aggregate(e, None))|;
  }
}
