/** Properties of the record converter that relate the dispatch in `ConvertRecord`
    to the per-kind builders and to the aggregation it was given. */
module ConvertProperties {
  import opened Results
  import opened Numbers
  import opened Errors
  import opened Wire
  import opened Records
  import opened Convert

  /** When a record converts, stated from the aggregation alone: the kind is known,
      the aggregation has that kind's interface, every accessor the builder reads
      succeeds, the buckets are well shaped, and, for the three builders that
      switch on it, the number kind is known. */
  predicate Converts(r: Record)
  {
    var a := r.aggregation;
    var known := !r.descriptor.numberKind.OtherNumberKind?;
    && Implements(a, a.kind)
    && match a.kind
       case MinMaxSumCountKind =>
         a.min.value.Ok? && a.max.value.Ok? && a.sum.value.Ok? && a.count.value.Ok?
       case HistogramKind =>
         && a.histogram.value.Ok?
         && |a.histogram.value.value.counts| == |a.histogram.value.value.boundaries| + 1
         && a.count.value.Ok? && a.sum.value.Ok?
       case SumKind => a.sum.value.Ok? && known
       case LastValueKind => a.lastValue.value.Ok? && known
       case ExactKind => a.points.value.Ok? && known
       case OtherAggKind(_) => false
  }

  lemma ConvertRecordSucceeds(env: Env, r: Record)
    ensures ConvertRecord(env, r).Ok? <==> Converts(r)
  {
  }

  /** Which error a failing record gives, kind by kind: a summary returns the first
      failing of Min, Max, Sum and Count; a histogram the Histogram accessor's
      error, then a bare `ErrTransforming` for misshapen buckets, then Count's and
      Sum's errors; a sum, last value or exact aggregation whose reads succeed but
      whose number kind is unknown gives `ErrUnknownValueType` naming the kind. */
  lemma ConvertRecordErrors(env: Env, r: Record)
    requires Implements(r.aggregation, r.aggregation.kind)
    ensures var a := r.aggregation; a.kind == MinMaxSumCountKind ==>
      && (a.min.value.Err? ==> ConvertRecord(env, r) == Err(a.min.value.error))
      && (a.min.value.Ok? && a.max.value.Err? ==> ConvertRecord(env, r) == Err(a.max.value.error))
      && (a.min.value.Ok? && a.max.value.Ok? && a.sum.value.Err?
          ==> ConvertRecord(env, r) == Err(a.sum.value.error))
      && (a.min.value.Ok? && a.max.value.Ok? && a.sum.value.Ok? && a.count.value.Err?
          ==> ConvertRecord(env, r) == Err(a.count.value.error))
    ensures var a := r.aggregation; a.kind == HistogramKind ==>
      && (a.histogram.value.Err? ==> ConvertRecord(env, r) == Err(a.histogram.value.error))
      && (a.histogram.value.Ok?
          && |a.histogram.value.value.counts| != |a.histogram.value.value.boundaries| + 1
          ==> ConvertRecord(env, r) == Err(Transforming))
      && (a.histogram.value.Ok?
          && |a.histogram.value.value.counts| == |a.histogram.value.value.boundaries| + 1
          && a.count.value.Err?
          ==> ConvertRecord(env, r) == Err(a.count.value.error))
      && (a.histogram.value.Ok?
          && |a.histogram.value.value.counts| == |a.histogram.value.value.boundaries| + 1
          && a.count.value.Ok? && a.sum.value.Err?
          ==> ConvertRecord(env, r) == Err(a.sum.value.error))
    ensures var a := r.aggregation;
      && r.descriptor.numberKind.OtherNumberKind?
      && ((a.kind == SumKind && a.sum.value.Ok?)
          || (a.kind == LastValueKind && a.lastValue.value.Ok?)
          || (a.kind == ExactKind && a.points.value.Ok?))
      ==> ConvertRecord(env, r) == Err(UnknownValueType(r.descriptor.numberKind.name))
  {
  }

  /** How many points a converted record has: one, except for an exact aggregation,
      which has one per aggregated point. */
  lemma ConvertRecordPointCount(env: Env, r: Record)
    requires ConvertRecord(env, r).Ok?
    ensures r.aggregation.kind == ExactKind ==>
      PointCount(ConvertRecord(env, r).value.data) == |r.aggregation.points.value.value|
    ensures r.aggregation.kind != ExactKind ==> PointCount(ConvertRecord(env, r).value.data) == 1
  {
  }

  /** A sum sets exactly the value variant its number kind selects, takes its
      monotonicity from the descriptor and its temporality from the selector; a sum
      of any other number kind is an `ErrUnknownValueType`. */
  lemma SumValueVariant(env: Env, r: Record)
    requires r.aggregation.kind == SumKind && Implements(r.aggregation, SumKind)
    requires r.aggregation.sum.value.Ok?
    ensures r.descriptor.numberKind.OtherNumberKind?
      ==> ConvertRecord(env, r) == Err(UnknownValueType(r.descriptor.numberKind.name))
    ensures ConvertRecord(env, r).Ok? ==>
      var d := ConvertRecord(env, r).value.data;
      && d.Sum?
      && (d.points[0].value.AsInt? <==> r.descriptor.numberKind == Int64Kind)
      && (d.points[0].value.AsDouble? <==> r.descriptor.numberKind == Float64Kind)
      && d.isMonotonic == r.descriptor.monotonic
      && d.temporality == ExportKindToTemporality(env.exportKindFor(r.descriptor, SumKind))
  {
  }

  /** A last value becomes one gauge point that starts at 0, because the converter
      passes the zero time as its start, and ends at the observation's time. */
  lemma LastValueStartsAtZero(env: Env, r: Record)
    requires r.aggregation.kind == LastValueKind
    requires ConvertRecord(env, r).Ok?
    ensures var d := ConvertRecord(env, r).value.data;
      && d.Gauge? && |d.points| == 1
      && d.points[0].startTimeUnixNano == 0
      && d.points[0].timeUnixNano == ToNanos(r.aggregation.lastValue.value.value.time)
  {
  }

  /** An exact aggregation with no points converts to a gauge with an empty point
      list: a metric, not an absent one. */
  lemma ExactWithoutPoints(env: Env, r: Record)
    requires r.aggregation.kind == ExactKind && r.aggregation.points == Some(Ok([]))
    requires !r.descriptor.numberKind.OtherNumberKind?
    ensures ConvertRecord(env, r) == Ok(Metric(r.descriptor.name, r.descriptor.description, r.descriptor.unit, Gauge([])))
  {
  }

  /** A histogram whose counts are not one more than its boundaries is a bare
      `ErrTransforming`, whatever Count and Sum would have returned. */
  lemma HistogramShapeMismatch(env: Env, r: Record)
    requires r.aggregation.kind == HistogramKind && Implements(r.aggregation, HistogramKind)
    requires r.aggregation.histogram.value.Ok?
    requires |r.aggregation.histogram.value.value.counts| != |r.aggregation.histogram.value.value.boundaries| + 1
    ensures ConvertRecord(env, r) == Err(Transforming)
    ensures Is(ConvertRecord(env, r).error, ErrTransforming)
  {
  }

  /** Summaries and histograms never look at the number kind: changing it changes
      whether the conversion succeeds for neither. */
  lemma SummaryAndHistogramIgnoreNumberKind(env: Env, r: Record, k: NumberKind)
    requires r.aggregation.kind == MinMaxSumCountKind || r.aggregation.kind == HistogramKind
    ensures ConvertRecord(env, r).Ok?
      <==> ConvertRecord(env, r.(descriptor := r.descriptor.(numberKind := k))).Ok?
  {
    assert Converts(r) <==> Converts(r.(descriptor := r.descriptor.(numberKind := k)));
    ConvertRecordSucceeds(env, r);
    ConvertRecordSucceeds(env, r.(descriptor := r.descriptor.(numberKind := k)));
  }
}
