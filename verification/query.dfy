/** influxpy/query.py: the mutable record of what a query set has asked for, which
    every builder call deep-copies before changing. */
module Queries {
  import opened Results
  import opened Values
  import opened Fields
  import opened Aggregates
  import opened Dicts

  /** The `resolution` attribute: a duration, or any other value, used as it is; `Plain(Nothing)` is None. */
  datatype Resolution = Span(duration: Duration) | Plain(value: Value)

  const NO_RESOLUTION: Resolution := Plain(Nothing)

  /** The `filters` OrderedDict: filter keyword to right-hand value. */
  type Filters = Entries<Value>

  /** The attributes of an InfluxQuery, as one value. */
  datatype QueryState = QueryState(
    resolution: Resolution,
    groupBy: seq<string>,
    filters: Filters,
    destination: Option<string>,
    fill: Value,
    annotations: seq<Aggregate>,
    canUseAggregatedMeasurement: bool)

  /** What `InfluxQuery()` holds: no resolution, destination or fill, nothing grouped, filtered
      or annotated, and downsampled tables not allowed. */
  const DEFAULT_QUERY: QueryState := QueryState(NO_RESOLUTION, [], [], None, Nothing, [], false)

  class InfluxQuery {
    var resolution: Resolution
    var groupBy: seq<string>
    var filters: Filters
    var destination: Option<string>
    var fill: Value
    var annotations: seq<Aggregate>
    var canUseAggregatedMeasurement: bool

    function State(): QueryState
      reads this
    {
      QueryState(resolution, groupBy, filters, destination, fill, annotations, canUseAggregatedMeasurement)
    }

    /** `InfluxQuery()`. */
    constructor ()
      ensures State() == DEFAULT_QUERY
    {
      resolution := NO_RESOLUTION;
      groupBy := [];
      filters := [];
      destination := None;
      fill := Nothing;
      annotations := [];
      canUseAggregatedMeasurement := false;
    }

    /** `copy.deepcopy(query)`: a new query of the same class, each attribute copied across. */
    method DeepCopy() returns (copy: InfluxQuery)
      ensures fresh(copy)
      ensures copy.State() == State()
    {
      copy := new InfluxQuery();
      copy.resolution := resolution;
      copy.groupBy := groupBy;
      copy.filters := filters;
      copy.destination := destination;
      copy.fill := fill;
      copy.annotations := annotations;
      copy.canUseAggregatedMeasurement := canUseAggregatedMeasurement;
    }
  }

  /** Changing a deep copy in place leaves the original as it was: appending a group-by name and
      an annotation to the copy, and setting a filter on it. */
  method ChangeCopy(query: InfluxQuery, tag: string, a: Aggregate, key: string, v: Value) returns (copy: InfluxQuery)
    ensures fresh(copy)
    ensures query.State() == old(query.State())
    ensures copy.State() == query.State().(groupBy := query.groupBy + [tag],
                                           annotations := query.annotations + [a],
                                           filters := Put(query.filters, key, v))
  {
    copy := query.DeepCopy();
    copy.groupBy := copy.groupBy + [tag];
    copy.annotations := copy.annotations + [a];
    copy.filters := Put(copy.filters, key, v);
  }
}
