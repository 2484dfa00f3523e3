/** The OTLP messages the exporter builds, as plain datatypes: common `AnyValue` and
    `KeyValue`, and the metrics `Metric` with its four data shapes. */
module Wire {
  import opened Numbers

  /** `commonpb.AnyValue`, restricted to the variants the exporter sets. */
  datatype AnyValue =
    | BoolValue(boolValue: bool)
    | IntValue(intValue: Int64)
    | DoubleValue(doubleValue: Float64)
    | StringValue(stringValue: string)
    | ArrayValue(values: seq<AnyValue>)

  datatype KeyValue = KeyValue(key: string, value: AnyValue)

  /** The `Value` oneof of a number data point. */
  datatype NumberValue = AsInt(asInt: Int64) | AsDouble(asDouble: Float64)

  datatype NumberDataPoint = NumberDataPoint(
    attributes: seq<KeyValue>,
    startTimeUnixNano: Uint64,
    timeUnixNano: Uint64,
    value: NumberValue)

  datatype HistogramDataPoint = HistogramDataPoint(
    attributes: seq<KeyValue>,
    startTimeUnixNano: Uint64,
    timeUnixNano: Uint64,
    count: Uint64,
    sum: Float64,
    bucketCounts: seq<Uint64>,
    explicitBounds: seq<Float64>)

  datatype ValueAtQuantile = ValueAtQuantile(quantile: Float64, value: Float64)

  datatype SummaryDataPoint = SummaryDataPoint(
    attributes: seq<KeyValue>,
    startTimeUnixNano: Uint64,
    timeUnixNano: Uint64,
    count: Uint64,
    sum: Float64,
    quantileValues: seq<ValueAtQuantile>)

  datatype Temporality = TemporalityUnspecified | TemporalityDelta | TemporalityCumulative

  /** The `Data` oneof of a metric. `NoData` is a metric whose oneof is unset, the one
      case the sink's type switch does not recognise. */
  datatype MetricData =
    | Gauge(points: seq<NumberDataPoint>)
    | Sum(isMonotonic: bool, temporality: Temporality, points: seq<NumberDataPoint>)
    | Histogram(temporality: Temporality, histogramPoints: seq<HistogramDataPoint>)
    | Summary(summaryPoints: seq<SummaryDataPoint>)
    | NoData

  datatype Metric = Metric(name: string, description: string, unit: string, data: MetricData)

  /** The tag of the data oneof. */
  datatype Shape = GaugeShape | SumShape | HistogramShape | SummaryShape | NoShape

  function ShapeOf(d: MetricData): Shape
  {
    match d
    case Gauge(_) => GaugeShape
    case Sum(_, _, _) => SumShape
    case Histogram(_, _) => HistogramShape
    case Summary(_) => SummaryShape
    case NoData => NoShape
  }

  /** The number of data points a metric carries, whatever its shape. */
  function PointCount(d: MetricData): nat
  {
    match d
    case Gauge(ps) => |ps|
    case Sum(_, _, ps) => |ps|
    case Histogram(_, ps) => |ps|
    case Summary(ps) => |ps|
    case NoData => 0
  }
}
