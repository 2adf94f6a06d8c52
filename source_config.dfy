/**
 * `QuerySourceConfig`, the configuration of a time-series data source node, and its
 * `Builder`. Java's nulls are `None`; lists are sequences (see README for what that
 * leaves out).
 */
module SourceConfig {
  import opened Wrappers

  /** A query filter; its contents are not interpreted here. */
  datatype QueryFilter = QueryFilter(description: string)

  /** The metric filter that says which metric(s) to fetch. */
  datatype MetricFilter = MetricFilter(metric: string)

  /** A node of the execution graph that may be pushed down to the driver. */
  datatype GraphNode = GraphNode(id: string)

  /** The parts of a time-series query a source config reads: its filters, by id. */
  datatype TimeSeriesQuery = TimeSeriesQuery(filters: map<string, QueryFilter>)

  /** `query.getFilter(id)`: the filter registered under that id, or null. */
  function GetFilter(q: TimeSeriesQuery, filterId: string): Option<QueryFilter> {
    if filterId in q.filters then Some(q.filters[filterId]) else None
  }

  /** Guava's `Strings.isNullOrEmpty`. */
  predicate IsNullOrEmpty(s: Option<string>) {
    s.None? || s.value == ""
  }

  /**
   * The filter a source config applies: the local filter when no filter id is set;
   * otherwise the query's filter with that id, or none when there is no query.
   */
  function SelectFilter(filterId: Option<string>, local: Option<QueryFilter>, query: Option<TimeSeriesQuery>): Option<QueryFilter> {
    if IsNullOrEmpty(filterId) then local
    else if query.None? then None
    else GetFilter(query.value, filterId.value)
  }

  /** With no filter id, the local filter is the answer, whatever the query. */
  lemma NoFilterIdSelectsLocal(local: Option<QueryFilter>, q1: Option<TimeSeriesQuery>, q2: Option<TimeSeriesQuery>)
    ensures SelectFilter(None, local, q1) == local
    ensures SelectFilter(Some(""), local, q1) == local
    ensures SelectFilter(Some(""), local, q1) == SelectFilter(Some(""), local, q2)
  {
  }

  /**
   * With a filter id set, the local filter is ignored, and any filter returned is one
   * the query registered under that id.
   */
  lemma FilterIdOverridesLocal(filterId: string, l1: Option<QueryFilter>, l2: Option<QueryFilter>, query: Option<TimeSeriesQuery>)
    requires filterId != ""
    ensures SelectFilter(Some(filterId), l1, query) == SelectFilter(Some(filterId), l2, query)
    ensures var f := SelectFilter(Some(filterId), l1, query);
      f.Some? <==> query.Some? && filterId in query.value.filters
    ensures var f := SelectFilter(Some(filterId), l1, query);
      f.Some? ==> f.value == query.value.filters[filterId]
  {
  }

  /**
   * `String.compareTo` reduced to its sign, as Guava's `ComparisonChain` reports it:
   * lexicographic by character, a proper prefix first.
   */
  function StrCompare(a: string, b: string): (r: int)
    ensures -1 <= r <= 1
    ensures r == 0 <==> a == b
    ensures a != [] && b != [] && a[0] < b[0] ==> r == -1
    ensures a < b ==> r == -1
    decreases |a|
  {
    if a == [] && b == [] then 0
    else if a == [] then -1
    else if b == [] then 1
    else if a[0] < b[0] then -1
    else if a[0] > b[0] then 1
    else
      var r := StrCompare(a[1..], b[1..]);
      assert a == [a[0]] + a[1..] && b == [b[0]] + b[1..];
      assert a < b ==> a[1..] < b[1..];
      r
  }

  /** Two strings are ordered by their first differing character. */
  lemma {:induction false} StrCompareFirstDifference(a: string, b: string, k: nat)
    requires k < |a| && k < |b| && a[..k] == b[..k] && a[k] < b[k]
    ensures StrCompare(a, b) == -1
    decreases k
  {
    if k > 0 {
      assert a[0] == a[..k][0] == b[..k][0] == b[0];
      assert a[1..][..k - 1] == a[..k][1..] == b[..k][1..] == b[1..][..k - 1];
      StrCompareFirstDifference(a[1..], b[1..], k - 1);
    }
  }

  lemma {:induction false} StrCompareAntisymmetric(a: string, b: string)
    ensures StrCompare(a, b) == -StrCompare(b, a)
    decreases |a|
  {
    if a != [] && b != [] && a[0] == b[0] {
      StrCompareAntisymmetric(a[1..], b[1..]);
    }
  }

  lemma {:induction false} StrCompareTransitive(a: string, b: string, c: string)
    requires StrCompare(a, b) == -1 && StrCompare(b, c) == -1
    ensures StrCompare(a, c) == -1
    decreases |a|
  {
    if a != [] && b != [] && c != [] && a[0] == b[0] && b[0] == c[0] {
      StrCompareTransitive(a[1..], b[1..], c[1..]);
    }
  }

  /** `Ordering.natural().nullsFirst()` on ids, reduced to its sign. */
  function CompareIds(a: Option<string>, b: Option<string>): (r: int)
    ensures -1 <= r <= 1
    ensures r == 0 <==> a == b
    ensures a.None? && b.Some? ==> r == -1
    ensures a.Some? && b.None? ==> r == 1
  {
    match (a, b)
    case (None, None) => 0
    case (None, Some(_)) => -1
    case (Some(_), None) => 1
    case (Some(x), Some(y)) => StrCompare(x, y)
  }

  /** The id ordering is a total order: antisymmetric and transitive. */
  lemma CompareIdsAntisymmetric(a: Option<string>, b: Option<string>)
    ensures CompareIds(a, b) == -CompareIds(b, a)
  {
    if a.Some? && b.Some? {
      StrCompareAntisymmetric(a.value, b.value);
    }
  }

  lemma CompareIdsTransitive(a: Option<string>, b: Option<string>, c: Option<string>)
    requires CompareIds(a, b) == -1 && CompareIds(b, c) == -1
    ensures CompareIds(a, c) == -1
  {
    if a.Some? {
      StrCompareTransitive(a.value, b.value, c.value);
    }
  }

  /** The configuration of a data source node; only the query can be replaced once built. */
  class QuerySourceConfig {
    var query: Option<TimeSeriesQuery>
    const id: Option<string>
    const types: Option<seq<string>>
    const metric: MetricFilter
    const filterId: Option<string>
    const filter: Option<QueryFilter>
    const fetchLast: bool
    const pushDownNodes: Option<seq<GraphNode>>

    constructor (id: Option<string>, query: Option<TimeSeriesQuery>, types: Option<seq<string>>,
                 metric: MetricFilter, filterId: Option<string>, filter: Option<QueryFilter>,
                 fetchLast: bool, pushDownNodes: Option<seq<GraphNode>>)
      ensures this.id == id && this.query == query && this.types == types && this.metric == metric
      ensures this.filterId == filterId && this.filter == filter && this.fetchLast == fetchLast
      ensures this.pushDownNodes == pushDownNodes
    {
      this.id := id;
      this.query := query;
      this.types := types;
      this.metric := metric;
      this.filterId := filterId;
      this.filter := filter;
      this.fetchLast := fetchLast;
      this.pushDownNodes := pushDownNodes;
    }

    /** Replaces the query; every other field is a constant. */
    method SetTimeSeriesQuery(q: Option<TimeSeriesQuery>)
      modifies this`query
      ensures query == q
    {
      query := q;
    }

    /** `filter()`: the filter linked by the filter id, or else the local filter. */
    function Filter(): Option<QueryFilter>
      reads this`query
    {
      SelectFilter(filterId, filter, query)
    }

    /** A source config never pushes down and never joins. */
    function PushDown(): (r: bool)
      ensures !r
    {
      false
    }

    function Joins(): (r: bool)
      ensures !r
    {
      false
    }

    /** `equals` is left unimplemented in the source: it answers false for every argument, itself included. */
    function Equals(o: object?): (r: bool)
      ensures !r
    {
      false
    }

    /**
     * `compareTo`: -1 against any node config that is not a source config (`None`);
     * otherwise the order of the ids, a null id first.
     */
    function CompareTo(o: Option<QuerySourceConfig>): (r: int)
      ensures -1 <= r <= 1
      ensures o.None? ==> r == -1
      ensures o.Some? ==> (r == 0 <==> id == o.value.id)
      ensures o.Some? && id.None? && o.value.id.Some? ==> r == -1
    {
      if o.None? then -1 else CompareIds(id, o.value.id)
    }
  }

  /** Source configs, ordered by `CompareTo`, agree in both directions. */
  lemma CompareToAntisymmetric(a: QuerySourceConfig, b: QuerySourceConfig)
    ensures a.CompareTo(Some(b)) == -b.CompareTo(Some(a))
  {
    CompareIdsAntisymmetric(a.id, b.id);
  }

  /** The builder of a source config; each setter answers the builder itself. */
  class Builder {
    var id: Option<string>
    var query: Option<TimeSeriesQuery>
    var types: Option<seq<string>>
    var metric: Option<MetricFilter>
    var filterId: Option<string>
    var filter: Option<QueryFilter>
    var fetchLast: bool
    var pushDownNodes: Option<seq<GraphNode>>

    /** `newBuilder()`: every field null, `fetchLast` false. */
    constructor ()
      ensures id == None && query == None && types == None && metric == None
      ensures filterId == None && filter == None && !fetchLast && pushDownNodes == None
    {
      id := None;
      query := None;
      types := None;
      metric := None;
      filterId := None;
      filter := None;
      fetchLast := false;
      pushDownNodes := None;
    }

    method SetId(v: Option<string>) returns (b: Builder)
      modifies this`id
      ensures b == this && id == v
    {
      id := v;
      return this;
    }

    method SetQuery(v: Option<TimeSeriesQuery>) returns (b: Builder)
      modifies this`query
      ensures b == this && query == v
    {
      query := v;
      return this;
    }

    method SetTypes(v: Option<seq<string>>) returns (b: Builder)
      modifies this`types
      ensures b == this && types == v
    {
      types := v;
      return this;
    }

    /** Appends one type, starting a list if there is none. */
    method AddType(t: string) returns (b: Builder)
      modifies this`types
      ensures b == this && types.Some?
      ensures old(types).None? ==> types.value == [t]
      ensures old(types).Some? ==> types.value == old(types).value + [t]
    {
      if types.None? {
        types := Some([]);
      }
      types := Some(types.value + [t]);
      return this;
    }

    method SetMetric(v: Option<MetricFilter>) returns (b: Builder)
      modifies this`metric
      ensures b == this && metric == v
    {
      metric := v;
      return this;
    }

    method SetFilterId(v: Option<string>) returns (b: Builder)
      modifies this`filterId
      ensures b == this && filterId == v
    {
      filterId := v;
      return this;
    }

    method SetQueryFilter(v: Option<QueryFilter>) returns (b: Builder)
      modifies this`filter
      ensures b == this && filter == v
    {
      filter := v;
      return this;
    }

    method SetFetchLast(v: bool) returns (b: Builder)
      modifies this`fetchLast
      ensures b == this && fetchLast == v
    {
      fetchLast := v;
      return this;
    }

    method SetPushDownNodes(v: Option<seq<GraphNode>>) returns (b: Builder)
      modifies this`pushDownNodes
      ensures b == this && pushDownNodes == v
    {
      pushDownNodes := v;
      return this;
    }

    /** Appends one push-down node, starting a list if there is none. */
    method AddPushDownNode(n: GraphNode) returns (b: Builder)
      modifies this`pushDownNodes
      ensures b == this && pushDownNodes.Some?
      ensures old(pushDownNodes).None? ==> pushDownNodes.value == [n]
      ensures old(pushDownNodes).Some? ==> pushDownNodes.value == old(pushDownNodes).value + [n]
    {
      if pushDownNodes.None? {
        pushDownNodes := Some([]);
      }
      pushDownNodes := Some(pushDownNodes.value + [n]);
      return this;
    }

    /** `build()`: a config with the builder's fields; a missing metric filter is an illegal argument. */
    method Build() returns (r: Result<QuerySourceConfig>)
      ensures r.IllegalArgument? <==> metric.None?
      ensures r.Ok? ==> fresh(r.value) && r.value.metric == metric.value
      ensures r.Ok? ==> r.value.id == id && r.value.query == query && r.value.types == types
      ensures r.Ok? ==> r.value.filterId == filterId && r.value.filter == filter
      ensures r.Ok? ==> r.value.fetchLast == fetchLast && r.value.pushDownNodes == pushDownNodes
    {
      if metric.None? {
        return IllegalArgument("Metric filter cannot be null.");
      }
      var c := new QuerySourceConfig(id, query, types, metric.value, filterId, filter, fetchLast, pushDownNodes);
      return Ok(c);
    }
  }

  /**
   * `newBuilder(config)`: a builder holding a copy of the config's fields, types in a
   * list of its own, and no push-down nodes.
   */
  method NewBuilderFrom(c: QuerySourceConfig) returns (b: Builder)
    ensures fresh(b)
    ensures b.id == c.id && b.query == c.query && b.types == c.types && b.metric == Some(c.metric)
    ensures b.filterId == c.filterId && b.filter == c.filter && b.fetchLast == c.fetchLast
    ensures b.pushDownNodes == None
  {
    b := new Builder();
    b := b.SetQuery(c.query);
    b := b.SetTypes(c.types);
    b := b.SetMetric(Some(c.metric));
    b := b.SetFilterId(c.filterId);
    b := b.SetQueryFilter(c.filter);
    b := b.SetFetchLast(c.fetchLast);
    b := b.SetId(c.id);
  }
}
