/** The SDK side of the conversion: what one checkpoint record offers the exporter.
    The SDK's own types are outside the model; they appear here only through the
    values the exporter reads from them. */
module Records {
  import opened Results
  import opened Numbers
  import opened Errors
  import opened Attributes

  /** A Go `time.Time`: the zero time, or an instant whose `UnixNano` fits an
      `int64`. */
  datatype Time = ZeroTime | Instant(unixNano: Int64)

  /** `instrumentation.Library`, compared by value. */
  datatype Library = Library(name: string, version: string)

  const ZeroLibrary: Library := Library("", "")

  /** A `*resource.Resource`, reduced to its attribute set. */
  datatype Resource = Resource(attributes: seq<Attribute>)

  /** `Resource.Equivalent()`: the key under which the sink groups resources. An
      attribute set is sorted and free of duplicate keys, so its sequence is a
      canonical key. */
  function Equivalent(r: Resource): seq<Attribute>
  {
    r.attributes
  }

  /** The parts of a metric descriptor the exporter reads. `monotonic` is
      `InstrumentKind().Monotonic()`. */
  datatype Descriptor = Descriptor(
    name: string,
    description: string,
    unit: string,
    numberKind: NumberKind,
    monotonic: bool,
    instrumentationName: string,
    instrumentationVersion: string)

  /** `aggregation.Kind`. Kinds the exporter has no case for (a sketch, say) are
      kept by name; `OtherAggKind` stands only for such kinds, never for a name
      one of the five known kinds reports. */
  datatype AggKind =
    | MinMaxSumCountKind
    | HistogramKind
    | SumKind
    | LastValueKind
    | ExactKind
    | OtherAggKind(name: string)

  /** `aggregation.Buckets`. */
  datatype Buckets = Buckets(boundaries: seq<Float64>, counts: seq<Uint64>)

  /** `aggregation.Point`; the exporter reads only its number. */
  datatype Point = Point(number: Number)

  /** What `LastValue()` returns on success. */
  datatype Observation = Observation(value: Number, time: Time)

  /** An aggregation as the exporter sees it: the kind it reports, the Go type name
      `%T` prints for it, and, for each accessor method, `None` if its concrete type
      lacks the method or `Some` of what the method returns. */
  datatype Aggregation = Aggregation(
    kind: AggKind,
    typeName: string,
    min: Option<Fallible<Number>>,
    max: Option<Fallible<Number>>,
    sum: Option<Fallible<Number>>,
    count: Option<Fallible<Uint64>>,
    histogram: Option<Fallible<Buckets>>,
    lastValue: Option<Fallible<Observation>>,
    points: Option<Fallible<seq<Point>>>)

  /** Whether the type assertion to the interface a kind implies succeeds: the
      concrete type has every method of that interface. */
  predicate Implements(a: Aggregation, k: AggKind)
  {
    match k
    case MinMaxSumCountKind => a.min.Some? && a.max.Some? && a.sum.Some? && a.count.Some?
    case HistogramKind => a.count.Some? && a.sum.Some? && a.histogram.Some?
    case SumKind => a.sum.Some?
    case LastValueKind => a.lastValue.Some?
    case ExactKind => a.points.Some?
    case OtherAggKind(_) => false
  }

  /** An `export.ExportKind` code other than those of the cumulative (1) and
      delta (2) kinds. */
  type UnknownExportCode = c: int | c != 1 && c != 2 witness 0

  /** `export.ExportKind`. */
  datatype ExportKind = CumulativeExportKind | DeltaExportKind | OtherExportKind(code: UnknownExportCode)

  /** One `export.Record`. */
  datatype Record = Record(
    descriptor: Descriptor,
    labels: seq<Attribute>,
    aggregation: Aggregation,
    startTime: Time,
    endTime: Time,
    resource: Resource)

  /** What the converter calls outside the model: the export-kind selector and the
      number coercions. */
  datatype Env = Env(
    exportKindFor: (Descriptor, AggKind) -> ExportKind,
    coerce: Coercion)
}
