/** The record converter: `Record` dispatches on the aggregation kind to one of five
    builders, each producing one OTLP metric or an error. */
module Convert {
  import opened Seqs
  import opened Results
  import opened Numbers
  import opened Errors
  import opened Wire
  import opened Attributes
  import opened Records

  /** Reads a `uint64` bit pattern as the `int64` it encodes. */
  function AsSigned(u: Uint64): Int64
  {
    if u < 0x8000_0000_0000_0000 then u as int as Int64 else (u as int - TwoTo64) as Int64
  }

  /** `toNanos`: the zero time is 0; any other time is its `UnixNano()` converted to
      `uint64`, which wraps an instant before the epoch modulo 2^64. */
  function ToNanos(t: Time): (r: Uint64)
    ensures t.ZeroTime? ==> r == 0
    ensures t.Instant? && t.unixNano >= 0 ==> r as int == t.unixNano as int
    ensures t.Instant? && t.unixNano < 0 ==> r as int == t.unixNano as int + TwoTo64
  {
    match t
    case ZeroTime => 0
    case Instant(n) => (n as int % TwoTo64) as Uint64
  }

  /** The wrap-around loses nothing: an instant's nanoseconds read back as signed
      give its `UnixNano()`. */
  lemma ToNanosRoundTrip(n: Int64)
    ensures AsSigned(ToNanos(Instant(n))) == n
  {
  }

  /** `exportKindToTemporality`. */
  function ExportKindToTemporality(ek: ExportKind): (r: Temporality)
    ensures r == TemporalityDelta <==> ek == DeltaExportKind
    ensures r == TemporalityCumulative <==> ek == CumulativeExportKind
    ensures r == TemporalityUnspecified <==> ek.OtherExportKind?
  {
    match ek
    case DeltaExportKind => TemporalityDelta
    case CumulativeExportKind => TemporalityCumulative
    case OtherExportKind(_) => TemporalityUnspecified
  }

  /** The number-kind switch shared by `sumPoint`, `gaugePoint` and `gaugeArray`:
      an `int64` kind sets only the integer variant, a `float64` kind only the
      double variant, and any other kind is an `ErrUnknownValueType`. */
  function NumberValueOf(c: Coercion, num: Number, kind: NumberKind): (r: Fallible<NumberValue>)
    ensures r.Ok? <==> !kind.OtherNumberKind?
    ensures kind == Int64Kind ==> r == Ok(AsInt(c.toInt64(num, Int64Kind)))
    ensures kind == Float64Kind ==> r == Ok(AsDouble(c.toFloat64(num, Float64Kind)))
    ensures kind.OtherNumberKind? ==> r == Err(UnknownValueType(kind.name))
  {
    match kind
    case Int64Kind => Ok(AsInt(c.toInt64(num, kind)))
    case Float64Kind => Ok(AsDouble(c.toFloat64(num, kind)))
    case OtherNumberKind(name) => Err(UnknownValueType(name))
  }

  /** A metric with the descriptor's name, description and unit. */
  function MetricFor(desc: Descriptor, data: MetricData): Metric
  {
    Metric(desc.name, desc.description, desc.unit, data)
  }

  predicate DescribedBy(m: Metric, desc: Descriptor)
  {
    m.name == desc.name && m.description == desc.description && m.unit == desc.unit
  }

  /** Every data point of `d`, whatever its shape, carries `attrs`. */
  predicate PointsCarry(d: MetricData, attrs: seq<KeyValue>)
  {
    match d
    case Gauge(ps) => forall i | 0 <= i < |ps| :: ps[i].attributes == attrs
    case Sum(_, _, ps) => forall i | 0 <= i < |ps| :: ps[i].attributes == attrs
    case Histogram(_, ps) => forall i | 0 <= i < |ps| :: ps[i].attributes == attrs
    case Summary(ps) => forall i | 0 <= i < |ps| :: ps[i].attributes == attrs
    case NoData => true
  }

  /** `gaugePoint`: one gauge point over `[start, end]` carrying the record's
      attributes, or `ErrUnknownValueType`. */
  function GaugePoint(env: Env, record: Record, num: Number, start: Time, end: Time): (r: Fallible<Metric>)
    ensures r.Ok? <==> !record.descriptor.numberKind.OtherNumberKind?
    ensures r.Err? ==> r.error == UnknownValueType(record.descriptor.numberKind.name)
    ensures r.Ok? ==>
      && DescribedBy(r.value, record.descriptor)
      && r.value.data.Gauge?
      && |r.value.data.points| == 1
      && r.value.data.points[0].attributes == KeyValues(record.labels)
      && r.value.data.points[0].startTimeUnixNano == ToNanos(start)
      && r.value.data.points[0].timeUnixNano == ToNanos(end)
      && r.value.data.points[0].value == NumberValueOf(env.coerce, num, record.descriptor.numberKind).value
  {
    var v :- NumberValueOf(env.coerce, num, record.descriptor.numberKind);
    Ok(MetricFor(record.descriptor, Gauge([
      NumberDataPoint(KeyValues(record.labels), ToNanos(start), ToNanos(end), v)])))
  }

  /** `sumPoint`: one sum point with the given monotonicity and the temporality of
      the export kind, or `ErrUnknownValueType`. */
  function SumPoint(env: Env, record: Record, num: Number, start: Time, end: Time, ek: ExportKind, monotonic: bool)
    : (r: Fallible<Metric>)
    ensures r.Ok? <==> !record.descriptor.numberKind.OtherNumberKind?
    ensures r.Err? ==> r.error == UnknownValueType(record.descriptor.numberKind.name)
    ensures r.Ok? ==>
      && DescribedBy(r.value, record.descriptor)
      && r.value.data.Sum?
      && r.value.data.isMonotonic == monotonic
      && r.value.data.temporality == ExportKindToTemporality(ek)
      && |r.value.data.points| == 1
      && r.value.data.points[0].attributes == KeyValues(record.labels)
      && r.value.data.points[0].startTimeUnixNano == ToNanos(start)
      && r.value.data.points[0].timeUnixNano == ToNanos(end)
      && r.value.data.points[0].value == NumberValueOf(env.coerce, num, record.descriptor.numberKind).value
  {
    var v :- NumberValueOf(env.coerce, num, record.descriptor.numberKind);
    Ok(MetricFor(record.descriptor, Sum(monotonic, ExportKindToTemporality(ek), [
      NumberDataPoint(KeyValues(record.labels), ToNanos(start), ToNanos(end), v)])))
  }

  /** `gaugeArray`: one gauge point per aggregated point, in input order, all over
      the record's interval and carrying its attributes. No points give a gauge
      with an empty point list, not a missing metric. The number kind is checked
      before any point is looked at. */
  function GaugeArray(env: Env, record: Record, points: seq<Point>): (r: Fallible<Metric>)
    ensures r.Ok? <==> !record.descriptor.numberKind.OtherNumberKind?
    ensures r.Err? ==> r.error == UnknownValueType(record.descriptor.numberKind.name)
    ensures r.Ok? ==>
      && DescribedBy(r.value, record.descriptor)
      && r.value.data.Gauge?
      && |r.value.data.points| == |points|
      && forall i | 0 <= i < |points| ::
        && r.value.data.points[i].attributes == KeyValues(record.labels)
        && r.value.data.points[i].startTimeUnixNano == ToNanos(record.startTime)
        && r.value.data.points[i].timeUnixNano == ToNanos(record.endTime)
        && r.value.data.points[i].value
           == NumberValueOf(env.coerce, points[i].number, record.descriptor.numberKind).value
  {
    var kind := record.descriptor.numberKind;
    var attrs := KeyValues(record.labels);
    var start := ToNanos(record.startTime);
    var end := ToNanos(record.endTime);
    match kind
    case Int64Kind =>
      Ok(MetricFor(record.descriptor, Gauge(MapSeq(points, (p: Point) =>
        NumberDataPoint(attrs, start, end, AsInt(env.coerce.toInt64(p.number, kind)))))))
    case Float64Kind =>
      Ok(MetricFor(record.descriptor, Gauge(MapSeq(points, (p: Point) =>
        NumberDataPoint(attrs, start, end, AsDouble(env.coerce.toFloat64(p.number, kind)))))))
    case OtherNumberKind(name) =>
      Err(UnknownValueType(name))
  }

  /** The four statistics of a min/max/sum/count aggregation. */
  datatype Stats = Stats(min: Number, max: Number, sum: Number, count: Uint64)

  /** `minMaxSumCountValues`: reads Min, Max, Sum and Count in that order; the first
      accessor that fails ends the read with its own error. */
  function MinMaxSumCountValues(a: Aggregation): (r: Fallible<Stats>)
    requires Implements(a, MinMaxSumCountKind)
    ensures a.min.value.Err? ==> r == Err(a.min.value.error)
    ensures a.min.value.Ok? && a.max.value.Err? ==> r == Err(a.max.value.error)
    ensures a.min.value.Ok? && a.max.value.Ok? && a.sum.value.Err? ==> r == Err(a.sum.value.error)
    ensures a.min.value.Ok? && a.max.value.Ok? && a.sum.value.Ok? && a.count.value.Err?
      ==> r == Err(a.count.value.error)
    ensures r.Ok? <==> a.min.value.Ok? && a.max.value.Ok? && a.sum.value.Ok? && a.count.value.Ok?
    ensures r.Ok? ==> r.value == Stats(a.min.value.value, a.max.value.value, a.sum.value.value, a.count.value.value)
  {
    var min :- a.min.value;
    var max :- a.max.value;
    var sum :- a.sum.value;
    var count :- a.count.value;
    Ok(Stats(min, max, sum, count))
  }

  /** `minMaxSumCount`: one summary point with the count, the sum as a double, and
      exactly two quantiles, 0.0 at the minimum and 1.0 at the maximum. The number
      kind is not checked: every kind is coerced. */
  function MinMaxSumCount(env: Env, record: Record, a: Aggregation): (r: Fallible<Metric>)
    requires Implements(a, MinMaxSumCountKind)
    ensures r.Ok? <==> MinMaxSumCountValues(a).Ok?
    ensures r.Err? ==> r.error == MinMaxSumCountValues(a).error
    ensures r.Ok? ==>
      var kind := record.descriptor.numberKind;
      var st := MinMaxSumCountValues(a).value;
      && DescribedBy(r.value, record.descriptor)
      && r.value.data.Summary?
      && |r.value.data.summaryPoints| == 1
      && r.value.data.summaryPoints[0].attributes == KeyValues(record.labels)
      && r.value.data.summaryPoints[0].startTimeUnixNano == ToNanos(record.startTime)
      && r.value.data.summaryPoints[0].timeUnixNano == ToNanos(record.endTime)
      && r.value.data.summaryPoints[0].count == st.count
      && r.value.data.summaryPoints[0].sum == env.coerce.toFloat64(st.sum, kind)
      && r.value.data.summaryPoints[0].quantileValues == [
        ValueAtQuantile(PositiveZero, env.coerce.toFloat64(st.min, kind)),
        ValueAtQuantile(PositiveOne, env.coerce.toFloat64(st.max, kind))]
  {
    var st :- MinMaxSumCountValues(a);
    var kind := record.descriptor.numberKind;
    Ok(MetricFor(record.descriptor, Summary([
      SummaryDataPoint(
        KeyValues(record.labels),
        ToNanos(record.startTime),
        ToNanos(record.endTime),
        st.count,
        env.coerce.toFloat64(st.sum, kind),
        [ ValueAtQuantile(PositiveZero, env.coerce.toFloat64(st.min, kind)),
          ValueAtQuantile(PositiveOne, env.coerce.toFloat64(st.max, kind)) ])])))
  }

  /** `histogramValues`: the buckets, provided there is one more count than there
      are boundaries; a mismatch is a bare `ErrTransforming`. */
  function HistogramValues(a: Aggregation): (r: Fallible<Buckets>)
    requires Implements(a, HistogramKind)
    ensures a.histogram.value.Err? ==> r == Err(a.histogram.value.error)
    ensures a.histogram.value.Ok? ==>
      var b := a.histogram.value.value;
      if |b.counts| == |b.boundaries| + 1 then r == Ok(b) else r == Err(Transforming)
  {
    var b :- a.histogram.value;
    if |b.counts| != |b.boundaries| + 1 then Err(Transforming) else Ok(b)
  }

  /** `histogramPoint`: the buckets are checked first, then Count and Sum are read;
      the first failure is returned unchanged. On success there is one histogram
      point whose bucket counts and explicit bounds are the aggregation's own. */
  function HistogramPoint(env: Env, record: Record, ek: ExportKind, a: Aggregation): (r: Fallible<Metric>)
    requires Implements(a, HistogramKind)
    ensures HistogramValues(a).Err? ==> r == Err(HistogramValues(a).error)
    ensures HistogramValues(a).Ok? && a.count.value.Err? ==> r == Err(a.count.value.error)
    ensures HistogramValues(a).Ok? && a.count.value.Ok? && a.sum.value.Err? ==> r == Err(a.sum.value.error)
    ensures r.Ok? <==> HistogramValues(a).Ok? && a.count.value.Ok? && a.sum.value.Ok?
    ensures r.Ok? ==>
      var b := a.histogram.value.value;
      && DescribedBy(r.value, record.descriptor)
      && r.value.data.Histogram?
      && r.value.data.temporality == ExportKindToTemporality(ek)
      && |r.value.data.histogramPoints| == 1
      && r.value.data.histogramPoints[0].attributes == KeyValues(record.labels)
      && r.value.data.histogramPoints[0].startTimeUnixNano == ToNanos(record.startTime)
      && r.value.data.histogramPoints[0].timeUnixNano == ToNanos(record.endTime)
      && r.value.data.histogramPoints[0].count == a.count.value.value
      && r.value.data.histogramPoints[0].sum
         == env.coerce.toFloat64(a.sum.value.value, record.descriptor.numberKind)
      && r.value.data.histogramPoints[0].bucketCounts == b.counts
      && r.value.data.histogramPoints[0].explicitBounds == b.boundaries
      && |b.counts| == |b.boundaries| + 1
  {
    var b :- HistogramValues(a);
    var count :- a.count.value;
    var sum :- a.sum.value;
    Ok(MetricFor(record.descriptor, Histogram(ExportKindToTemporality(ek), [
      HistogramDataPoint(
        KeyValues(record.labels),
        ToNanos(record.startTime),
        ToNanos(record.endTime),
        count,
        env.coerce.toFloat64(sum, record.descriptor.numberKind),
        b.counts,
        b.boundaries)])))
  }

  /** The metric shape each aggregation kind converts to. */
  function ExpectedShape(k: AggKind): Shape
  {
    match k
    case MinMaxSumCountKind => SummaryShape
    case HistogramKind => HistogramShape
    case SumKind => SumShape
    case LastValueKind => GaugeShape
    case ExactKind => GaugeShape
    case OtherAggKind(_) => NoShape
  }

  /** `Record`: converts one record to one metric. An unknown kind is an
      `ErrUnimplementedAgg`, a kind whose interface the aggregation lacks is an
      `ErrIncompatibleAgg` (both naming the aggregation's Go type), and an error
      from the Sum, LastValue or Points accessor is returned unchanged. A converted
      metric has the descriptor's name, the kind's shape, and points that all carry
      the record's attributes. `ConvertProperties.ConvertRecordErrors` states the
      remaining error cases. */
  function ConvertRecord(env: Env, r: Record): (res: Fallible<Metric>)
    ensures r.aggregation.kind.OtherAggKind? ==> res == Err(Unimplemented(r.aggregation.typeName))
    ensures !r.aggregation.kind.OtherAggKind? && !Implements(r.aggregation, r.aggregation.kind)
      ==> res == Err(Incompatible(r.aggregation.typeName))
    ensures r.aggregation.kind == SumKind && r.aggregation.sum.Some? && r.aggregation.sum.value.Err?
      ==> res == Err(r.aggregation.sum.value.error)
    ensures r.aggregation.kind == LastValueKind && r.aggregation.lastValue.Some? && r.aggregation.lastValue.value.Err?
      ==> res == Err(r.aggregation.lastValue.value.error)
    ensures r.aggregation.kind == ExactKind && r.aggregation.points.Some? && r.aggregation.points.value.Err?
      ==> res == Err(r.aggregation.points.value.error)
    ensures res.Ok? ==>
      && DescribedBy(res.value, r.descriptor)
      && ShapeOf(res.value.data) == ExpectedShape(r.aggregation.kind)
      && PointsCarry(res.value.data, KeyValues(r.labels))
  {
    var a := r.aggregation;
    var desc := r.descriptor;
    match a.kind
    case MinMaxSumCountKind =>
      if !Implements(a, MinMaxSumCountKind) then Err(Incompatible(a.typeName))
      else MinMaxSumCount(env, r, a)
    case HistogramKind =>
      if !Implements(a, HistogramKind) then Err(Incompatible(a.typeName))
      else HistogramPoint(env, r, env.exportKindFor(desc, HistogramKind), a)
    case SumKind =>
      if !Implements(a, SumKind) then Err(Incompatible(a.typeName))
      else
        var sum :- a.sum.value;
        SumPoint(env, r, sum, r.startTime, r.endTime, env.exportKindFor(desc, SumKind), desc.monotonic)
    case LastValueKind =>
      if !Implements(a, LastValueKind) then Err(Incompatible(a.typeName))
      else
        var obs :- a.lastValue.value;
        GaugePoint(env, r, obs.value, ZeroTime, obs.time)
    case ExactKind =>
      if !Implements(a, ExactKind) then Err(Incompatible(a.typeName))
      else
        var points :- a.points.value;
        GaugeArray(env, r, points)
    case OtherAggKind(_) =>
      Err(Unimplemented(a.typeName))
  }
}
