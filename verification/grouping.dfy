/** The grouping and merging fold at the heart of `sink`: results are folded, in
    arrival order, into a three-level map keyed by resource, instrumentation library
    and metric name, collecting error strings on the side. */
module Grouping {
  import opened Results
  import opened Errors
  import opened Wire
  import opened Attributes
  import opened Records

  /** One `result` as the sink receives it: a conversion error, or a converted
      metric with the resource and library of the record it came from. */
  datatype Item =
    | Failed(error: Error)
    | Converted(resource: Resource, library: Library, metric: Metric)

  /** The three keys a converted metric is grouped under. */
  datatype GroupKey = GroupKey(resource: seq<Attribute>, library: Library, name: string)

  function KeyOf(item: Item): GroupKey
    requires item.Converted?
  {
    GroupKey(Equivalent(item.resource), item.library, item.metric.name)
  }

  predicate InGroup(item: Item, g: GroupKey)
  {
    item.Converted? && KeyOf(item) == g
  }

  /** The sink's `resourceBatch`. */
  datatype ResourceBatch = ResourceBatch(resource: Resource, libraries: map<Library, map<string, Metric>>)

  type Grouped = map<seq<Attribute>, ResourceBatch>

  /** The sink's local state: the grouping and the error strings so far. */
  datatype State = State(grouped: Grouped, errors: seq<string>)

  const Initial: State := State(map[], [])

  /** The string the sink records for a metric whose data oneof is unset. */
  const UnsupportedNoData: string := "unsupported metric type: <nil>"

  function Lookup(grouped: Grouped, g: GroupKey): Option<Metric>
  {
    if g.resource in grouped
       && g.library in grouped[g.resource].libraries
       && g.name in grouped[g.resource].libraries[g.library]
    then Some(grouped[g.resource].libraries[g.library][g.name])
    else None
  }

  /** Puts `m` under `res`, `lib` and `name`, creating the resource batch (which
      keeps `res`) and the library batch on first sight. */
  function Store(grouped: Grouped, res: Resource, lib: Library, name: string, m: Metric): (r: Grouped)
    ensures Lookup(r, GroupKey(Equivalent(res), lib, name)) == Some(m)
    ensures forall g :: g != GroupKey(Equivalent(res), lib, name) ==> Lookup(r, g) == Lookup(grouped, g)
    ensures r.Keys == grouped.Keys + {Equivalent(res)}
  {
    var rk := Equivalent(res);
    var rb := if rk in grouped then grouped[rk] else ResourceBatch(res, map[]);
    var mb := if lib in rb.libraries then rb.libraries[lib] else map[];
    grouped[rk := rb.(libraries := rb.libraries[lib := mb[name := m]])]
  }

  /** Appends the incoming metric's points to the stored metric's, keeping
      everything else of the stored one. */
  function AppendPoints(stored: MetricData, incoming: MetricData): (r: MetricData)
    requires ShapeOf(stored) == ShapeOf(incoming) && !incoming.NoData?
    ensures ShapeOf(r) == ShapeOf(stored)
    ensures PointCount(r) == PointCount(stored) + PointCount(incoming)
    ensures NumberPointsOf(r) == NumberPointsOf(stored) + NumberPointsOf(incoming)
    ensures HistogramPointsOf(r) == HistogramPointsOf(stored) + HistogramPointsOf(incoming)
    ensures SummaryPointsOf(r) == SummaryPointsOf(stored) + SummaryPointsOf(incoming)
    ensures r.Sum? ==> r.isMonotonic == stored.isMonotonic && r.temporality == stored.temporality
    ensures r.Histogram? ==> r.temporality == stored.temporality
  {
    match incoming
    case Gauge(ps) => Gauge(stored.points + ps)
    case Sum(_, _, ps) => stored.(points := stored.points + ps)
    case Histogram(_, ps) => stored.(histogramPoints := stored.histogramPoints + ps)
    case Summary(ps) => Summary(stored.summaryPoints + ps)
  }

  /** What one fold step needs to avoid the nil dereference of the source: a
      metric that has data and meets a stored metric of its name meets one of its
      own shape. */
  predicate Mergeable(s: State, item: Item)
  {
    item.Converted? && !item.metric.data.NoData? && Lookup(s.grouped, KeyOf(item)).Some?
    ==> ShapeOf(Lookup(s.grouped, KeyOf(item)).value.data) == ShapeOf(item.metric.data)
  }

  /** One iteration of the sink's loop. A failure appends its message and leaves
      the grouping alone. A converted result leaves every other group alone and
      makes its own group present: stored as it is on first sight, otherwise
      with its points appended to the stored metric's, or, when it has no data,
      leaving the grouping alone and recording one "unsupported" string. */
  function Step(s: State, item: Item): (r: State)
    requires Mergeable(s, item)
    ensures item.Failed? ==> r.grouped == s.grouped && r.errors == s.errors + [Message(item.error)]
    ensures item.Converted? ==>
      && r.grouped.Keys == s.grouped.Keys + {Equivalent(item.resource)}
      && Lookup(r.grouped, KeyOf(item)).Some?
      && (forall g | g != KeyOf(item) :: Lookup(r.grouped, g) == Lookup(s.grouped, g))
    ensures item.Converted? && Lookup(s.grouped, KeyOf(item)).None? ==>
      r.errors == s.errors && Lookup(r.grouped, KeyOf(item)) == Some(item.metric)
    ensures item.Converted? && Lookup(s.grouped, KeyOf(item)).Some? && item.metric.data.NoData? ==>
      r.grouped == s.grouped && r.errors == s.errors + [UnsupportedNoData]
    ensures item.Converted? && Lookup(s.grouped, KeyOf(item)).Some? && !item.metric.data.NoData? ==>
      var stored := Lookup(s.grouped, KeyOf(item)).value;
      && r.errors == s.errors
      && Lookup(r.grouped, KeyOf(item)).value.data == AppendPoints(stored.data, item.metric.data)
      && PointCount(Lookup(r.grouped, KeyOf(item)).value.data)
         == PointCount(stored.data) + PointCount(item.metric.data)
  {
    match item
    case Failed(e) => s.(errors := s.errors + [Message(e)])
    case Converted(res, lib, m) =>
      match Lookup(s.grouped, KeyOf(item))
      case None => s.(grouped := Store(s.grouped, res, lib, m.name, m))
      case Some(stored) =>
        if m.data.NoData? then s.(errors := s.errors + [UnsupportedNoData])
        else s.(grouped := Store(s.grouped, res, lib, m.name, stored.(data := AppendPoints(stored.data, m.data))))
  }

  function Prefix(items: seq<Item>): seq<Item>
    requires |items| > 0
  {
    items[..|items| - 1]
  }

  function Last(items: seq<Item>): Item
    requires |items| > 0
  {
    items[|items| - 1]
  }

  /** Every step of the fold over `items` is mergeable. */
  predicate MergeSafe(items: seq<Item>)
    decreases |items|, 0
  {
    |items| == 0 || (MergeSafe(Prefix(items)) && Mergeable(Merge(Prefix(items)), Last(items)))
  }

  /** The sink's loop, folded over the results in arrival order. Every result
      records at most one string. */
  function Merge(items: seq<Item>): (r: State)
    requires MergeSafe(items)
    ensures |r.errors| <= |items|
    decreases |items|, 1
  {
    if |items| == 0 then Initial else Step(Merge(Prefix(items)), Last(items))
  }

  // ---------------------------------------------------------------------------
  // Reference definitions: what each group should end up holding.

  /** The metrics of a group, in arrival order. */
  function GroupMetrics(items: seq<Item>, g: GroupKey): (ms: seq<Metric>)
    ensures forall j | 0 <= j < |ms| :: ms[j].name == g.name
  {
    if |items| == 0 then []
    else GroupMetrics(Prefix(items), g) + (if InGroup(Last(items), g) then [Last(items).metric] else [])
  }

  /** Number points of a gauge or sum, histogram points, summary points. */
  function NumberPointsOf(d: MetricData): seq<NumberDataPoint>
  {
    if d.Gauge? || d.Sum? then d.points else []
  }

  function HistogramPointsOf(d: MetricData): seq<HistogramDataPoint>
  {
    if d.Histogram? then d.histogramPoints else []
  }

  function SummaryPointsOf(d: MetricData): seq<SummaryDataPoint>
  {
    if d.Summary? then d.summaryPoints else []
  }

  function ConcatNumberPoints(ms: seq<Metric>): seq<NumberDataPoint>
  {
    if |ms| == 0 then [] else ConcatNumberPoints(ms[..|ms| - 1]) + NumberPointsOf(ms[|ms| - 1].data)
  }

  function ConcatHistogramPoints(ms: seq<Metric>): seq<HistogramDataPoint>
  {
    if |ms| == 0 then [] else ConcatHistogramPoints(ms[..|ms| - 1]) + HistogramPointsOf(ms[|ms| - 1].data)
  }

  function ConcatSummaryPoints(ms: seq<Metric>): seq<SummaryDataPoint>
  {
    if |ms| == 0 then [] else ConcatSummaryPoints(ms[..|ms| - 1]) + SummaryPointsOf(ms[|ms| - 1].data)
  }

  /** The metric a group should merge into: the first metric, with its own shape,
      name, description, unit, monotonicity and temporality, carrying the points of
      every metric of the group concatenated in arrival order. */
  function Combine(ms: seq<Metric>): Metric
    requires |ms| > 0
  {
    var first := ms[0];
    first.(data :=
      match first.data
      case Gauge(_) => Gauge(ConcatNumberPoints(ms))
      case Sum(mono, t, _) => Sum(mono, t, ConcatNumberPoints(ms))
      case Histogram(t, _) => Histogram(t, ConcatHistogramPoints(ms))
      case Summary(_) => Summary(ConcatSummaryPoints(ms))
      case NoData => NoData)
  }

  /** Every later metric of a group that has data has the first one's shape. */
  predicate LaterAgreeWithFirst(ms: seq<Metric>)
  {
    forall j | 0 < j < |ms| && !ms[j].data.NoData? :: ShapeOf(ms[j].data) == ShapeOf(ms[0].data)
  }

  /** The input condition under which the sink never dereferences a missing
      sub-message: in every group, metrics after the first that have data have the
      first one's shape. */
  ghost predicate ShapesAgree(items: seq<Item>)
  {
    forall g :: LaterAgreeWithFirst(GroupMetrics(items, g))
  }

  /** No result converted. */
  predicate AllFailed(items: seq<Item>)
  {
    forall n | 0 <= n < |items| :: items[n].Failed?
  }

  /** The error strings the sink should collect: each failure's message, and one
      "unsupported metric type" for every metric without data that meets an
      already stored metric of its name. */
  function ErrorStrings(items: seq<Item>): seq<string>
  {
    if |items| == 0 then []
    else
      var x := Last(items);
      ErrorStrings(Prefix(items)) +
        match x
        case Failed(e) => [Message(e)]
        case Converted(_, _, m) =>
          if m.data.NoData? && GroupMetrics(Prefix(items), KeyOf(x)) != [] then [UnsupportedNoData] else []
  }

  /** The sum of the point counts of `ms`. */
  function TotalPoints(ms: seq<Metric>): nat
  {
    if |ms| == 0 then 0 else TotalPoints(ms[..|ms| - 1]) + PointCount(ms[|ms| - 1].data)
  }

  // ---------------------------------------------------------------------------
  // Shape of the grouping the sink later flattens.

  /** Every metric of a library batch is stored under its own name. */
  predicate NamedByKey(mb: map<string, Metric>)
  {
    forall name | name in mb :: mb[name].name == name
  }

  /** Every resource batch sits under its resource's key and holds a library
      batch, and every library batch is keyed by metric name and holds a metric:
      the sink creates a batch only to store a metric in it. */
  predicate WellFormed(grouped: Grouped)
  {
    forall rk | rk in grouped :: BatchWellFormed(rk, grouped[rk])
  }

  /** The resource batch `rb` under key `rk` is well formed. */
  predicate BatchWellFormed(rk: seq<Attribute>, rb: ResourceBatch)
  {
    && Equivalent(rb.resource) == rk
    && rb.libraries != map[]
    && forall lib | lib in rb.libraries :: NamedByKey(rb.libraries[lib]) && rb.libraries[lib] != map[]
  }
}
