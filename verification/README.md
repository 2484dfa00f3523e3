# OTLP metric transform, modelled in Dafny

This project models the metric side of the OTLP exporter's transform package
(`exporters/otlp/internal/transform/metric.go`). That code turns the records of a
metrics checkpoint into the OTLP wire tree `ResourceMetrics → InstrumentationLibraryMetrics → Metric`.
It has four parts, and each is modelled here as pure functions with the contracts
the code promises:

- **Record converter** (`Convert`). `Record` dispatches on the aggregation kind
  to one of five builders: `minMaxSumCount`, `histogramPoint`, `sumPoint`,
  `gaugePoint` and `gaugeArray`. Its helpers are `minMaxSumCountValues`,
  `histogramValues`, `exportKindToTemporality` and `toNanos`. The interface type
  assertions, the accessor errors, the number-kind switch, the histogram bucket
  check and the `uint64` wrap of `UnixNano()` are all written out.
- **Attribute encoder** (`Attributes`). `keyValues`, `value` and `arrayValue`
  are modelled, together with a decoder. The decoder states exactly what the
  encoding forgets.
- **Sink fold** (`Grouping`, `Sink`). The sink's loop is modelled as a fold over
  the results in arrival order into nested maps keyed by resource, library and
  metric name. A repeated group has its points appended. Errors become strings,
  and the map is then flattened into the tree. `Combine` is a reference
  definition: it says what each group must hold, independently of the fold.
- **Error precedence** (`Pipeline`, `Sink.Reconcile`). `CheckpointSet` lets a
  sink error win over the source's terminal error, and returns the tree only
  when neither error is set.

Supporting modules:

- `Results` holds Option and Result.
- `Numbers` holds the 64-bit integer types, floats as IEEE-754 bit patterns, and
  number kinds.
- `Errors` holds the five sentinels, `errors.Is` and `Error()`.
- `Wire` holds the OTLP message shapes.
- `Records` holds the SDK side: time, descriptor, aggregation, record, and the
  environment (the export-kind selector and the number coercions).

Behaviour of the code that is easy to misread, and that the model follows:

- `gaugeArray` with no points returns a gauge with an empty point list, not a
  missing metric (metric.go:318 and 346-351; `Convert.GaugeArray`,
  `ConvertProperties.ExactWithoutPoints`).
- `minMaxSumCount` and `histogramPoint` never examine the number kind, so they
  never produce `ErrUnknownValueType`
  (`ConvertProperties.SummaryAndHistogramIgnoreNumberKind`).

Where the package's own comments and its code differ, the model follows the code:

- The sink's doc comment (metric.go:158-162) says any transform error is reported
  with `ErrTransforming` alongside the tree. When nothing converted, the sink
  returns neither a tree nor an error (metric.go:217-219), so the failures are
  dropped (`Sink.RunSink`, `Pipeline.CheckpointSet`).
- The transformer's comment (metric.go:137) and check (metric.go:138-140) guard
  against empty results, but `Record` never returns a nil metric together with a
  nil error, so the skip never applies (`Pipeline.Transform`).

## Model

| member | source | states |
|---|---|---|
| Errors.Message | exporters/otlp/internal/transform/metric.go:39-59 | the text of an error that wraps a sentinel begins with that sentinel's text; a sentinel returned bare prints as exactly its own text |
| Convert.ToNanos | exporters/otlp/internal/transform/metric.go:69-75 | the zero time is 0; an instant at or after the epoch is its nanosecond count; an earlier one wraps modulo 2^64 |
| Convert.ToNanosRoundTrip | exporters/otlp/internal/transform/metric.go:69-75 | reading the `uint64` back as signed gives the instant's `UnixNano()`, so the wrap loses nothing |
| Convert.ExportKindToTemporality | exporters/otlp/internal/transform/metric.go:402-410 | delta maps to delta, cumulative to cumulative, and every other kind to unspecified; each is an if-and-only-if |
| Convert.NumberValueOf | exporters/otlp/internal/transform/metric.go:364-398 | an int64 kind sets only the integer variant and a float64 kind only the double variant; any other kind is `ErrUnknownValueType` naming the kind |
| Convert.GaugePoint | exporters/otlp/internal/transform/metric.go:354-400 | success iff the number kind is known; one gauge point with the record's attributes, the wrapped start and end times and the coerced value |
| Convert.SumPoint | exporters/otlp/internal/transform/metric.go:412-462 | success iff the number kind is known; one sum point with the given monotonicity and the export kind's temporality |
| Convert.GaugeArray | exporters/otlp/internal/transform/metric.go:307-352 | the kind is checked first; one point per aggregated point, in order and over the record's interval; no points give an empty gauge |
| Convert.MinMaxSumCountValues | exporters/otlp/internal/transform/metric.go:466-480 | Min, Max, Sum and Count are read in that order; the first failing accessor's error is returned unchanged; success iff all four succeed |
| Convert.MinMaxSumCount | exporters/otlp/internal/transform/metric.go:483-520 | one summary point holding the count, the sum, and exactly the quantiles 0.0→min and 1.0→max; fails iff the reads fail |
| Convert.HistogramValues | exporters/otlp/internal/transform/metric.go:522-533 | the buckets are returned iff there is one more count than there are boundaries; otherwise the result is a bare `ErrTransforming` |
| Convert.HistogramPoint | exporters/otlp/internal/transform/metric.go:536-576 | the buckets are checked before Count and Sum; the first failure is returned unchanged; on success there is one point holding exactly the aggregation's counts and bounds |
| Convert.ConvertRecord | exporters/otlp/internal/transform/metric.go:249-305 | an unknown kind gives `ErrUnimplementedAgg` and a missing interface gives `ErrIncompatibleAgg`, both with the type name; an error of the Sum, LastValue or Points accessor passes through unchanged; a result has the descriptor's name, the kind's shape, and points carrying the record's attributes |
| ConvertProperties.ConvertRecordErrors | exporters/otlp/internal/transform/metric.go:251-305 | which error a failing record gives: a summary the first failing of Min, Max, Sum and Count; a histogram the Histogram accessor's error, then a bare `ErrTransforming` for misshapen buckets, then Count's and Sum's errors; a sum, last value or exact aggregation with an unknown number kind `ErrUnknownValueType` naming the kind |
| ConvertProperties.ConvertRecordSucceeds | exporters/otlp/internal/transform/metric.go:251-305 | a record converts iff, judged from the aggregation alone, its kind is known, the interface is implemented, every accessor read succeeds, the buckets are well shaped, and the number kind is known where the builder switches on it |
| ConvertProperties.ConvertRecordPointCount | exporters/otlp/internal/transform/metric.go:251-305 | a converted record has one point, except an exact aggregation, which has one per aggregated point |
| ConvertProperties.SumValueVariant | exporters/otlp/internal/transform/metric.go:268-277 | a sum sets the value variant its kind selects and takes its monotonicity from the descriptor and its temporality from the selector; an unknown kind fails |
| ConvertProperties.LastValueStartsAtZero | exporters/otlp/internal/transform/metric.go:279-288 | a last value becomes one gauge point that starts at 0 and ends at the observation's time |
| ConvertProperties.ExactWithoutPoints | exporters/otlp/internal/transform/metric.go:307-352 | an exact aggregation with no points converts to a metric whose gauge has an empty point list |
| ConvertProperties.HistogramShapeMismatch | exporters/otlp/internal/transform/metric.go:522-545 | a bucket mismatch fails with a bare `ErrTransforming`, whatever Count and Sum would return |
| ConvertProperties.SummaryAndHistogramIgnoreNumberKind | exporters/otlp/internal/transform/metric.go:483-576 | changing the number kind never changes whether a summary or a histogram converts |
| Attributes.ArrayValues | exporters/otlp/internal/transform/metric.go:635-685 | a known slice type is encoded element by element, in order and with its scalar variant; any other type gives no elements |
| Attributes.EncodeValue | exporters/otlp/internal/transform/metric.go:596-631 | bool, int64, float64 and array each map to their own variant, iff; every other type becomes a string holding its emitted text |
| Attributes.KeyValues | exporters/otlp/internal/transform/metric.go:579-593 | one key/value per attribute, in order, with the value encoded; the result is empty iff the input is |
| Attributes.DecodeEncode | exporters/otlp/internal/transform/metric.go:596-685 | decoding an encoded value gives its canonical form (an `int` slice read as `int64`, emitted text read as a string, an empty array as untyped) |
| Attributes.EncodeValueInjective | exporters/otlp/internal/transform/metric.go:596-685 | two values encode alike iff their canonical forms are equal |
| Attributes.CanonicalEncodesAlike | exporters/otlp/internal/transform/metric.go:596-685 | a value and its canonical form encode alike |
| Attributes.DecodeKeyValues | exporters/otlp/internal/transform/metric.go:579-593 | the encoded list read back gives the keys in order and each value's canonical form |
| Grouping.Store | exporters/otlp/internal/transform/metric.go:180-200 | after the store, the group's lookup is the stored metric, every other group's lookup is unchanged, and the resource joins the key set |
| Grouping.AppendPoints | exporters/otlp/internal/transform/metric.go:201-209 | the result's points are the stored metric's points followed by the incoming ones, for every shape; the shape and, for a sum or histogram, the stored monotonicity and temporality are kept; the point counts add up |
| Grouping.Step | exporters/otlp/internal/transform/metric.go:174-214 | one loop iteration: a failure appends its message and leaves the grouping alone; a converted result leaves every other group alone and makes its group present, stored on first sight, otherwise with its points appended (the point counts adding up), or, without data, recording one "unsupported metric type" string and changing nothing else |
| Grouping.Merge | exporters/otlp/internal/transform/metric.go:174-215 | the fold over the results records at most one string per result; `GroupingProperties.MergeLookup`, `MergeErrors` and `MergeResourceKeys` state what it builds |
| Grouping.GroupMetrics | exporters/otlp/internal/transform/metric.go:192-200 | every metric collected for a group bears the group's name |
| GroupingProperties.CombineSingle | exporters/otlp/internal/transform/metric.go:196-200 | a group with one result holds exactly that result's metric |
| GroupingProperties.CombineExtend | exporters/otlp/internal/transform/metric.go:201-213 | a later result with no data leaves the group's metric as it was; one of the group's shape keeps that shape |
| GroupingProperties.GroupMetricsOfPrefix | exporters/otlp/internal/transform/metric.go:174-215 | a group's results are those of the earlier arrivals, followed by the last arrival if it belongs to the group |
| GroupingProperties.StepLookupOwnGroup | exporters/otlp/internal/transform/metric.go:189-213 | one loop iteration on a converted result turns its group's combination of the earlier metrics into the combination extended by the arriving metric: stored on first sight, unchanged without data, appended otherwise |
| GroupingProperties.MergeLookup | exporters/otlp/internal/transform/metric.go:174-215 | after the fold, each group holds the combination of its results in arrival order, and a group without results is absent |
| GroupingProperties.LaterAgreeWithFirstPrefix | exporters/otlp/internal/transform/metric.go:201-213 | the shape agreement of a group's results also holds for any prefix of them |
| GroupingProperties.ShapesAgreeMergeSafe | exporters/otlp/internal/transform/metric.go:201-213 | if every group's later results agree in shape with its first, no fold step can meet a stored metric of another shape |
| GroupingProperties.MergeErrors | exporters/otlp/internal/transform/metric.go:175-178 | the collected strings are the failures' messages and the no-data notices, in arrival order |
| GroupingProperties.MergeResourceKeys | exporters/otlp/internal/transform/metric.go:180-189 | the resources grouped are exactly those of the converted results |
| GroupingProperties.NothingGroupedIffAllFailed | exporters/otlp/internal/transform/metric.go:217-219 | nothing is grouped iff every result failed |
| GroupingProperties.CombinePointCount | exporters/otlp/internal/transform/metric.go:201-213 | a group's combined metric has as many points as its results together |
| GroupingProperties.GroupPointsConserved | exporters/otlp/internal/transform/metric.go:174-215 | after the fold, each group's stored metric has the total point count of its results; a group exists iff it has results |
| GroupingProperties.StoreWellFormed | exporters/otlp/internal/transform/metric.go:192-200 | a store keeps every metric filed under its own name and every resource and library batch non-empty |
| GroupingProperties.MergeWellFormed | exporters/otlp/internal/transform/metric.go:174-215 | after the fold, every metric is filed under its own name and no batch is empty, since a batch is created only to store a metric |
| GroupingProperties.InGroupMember | exporters/otlp/internal/transform/metric.go:174-215 | a converted result's group has at least one result |
| GroupingProperties.GroupMetricsMembers | exporters/otlp/internal/transform/metric.go:174-215 | every metric collected for a group comes from a converted result of that group |
| Sink.LibraryProto | exporters/otlp/internal/transform/metric.go:228-233 | the instrumentation library is left unset iff it is the zero library; otherwise it keeps the same name and version |
| Sink.FlattenMetrics | exporters/otlp/internal/transform/metric.go:234-236 | the metrics of one library batch are listed, each once |
| Sink.FlattenScopes | exporters/otlp/internal/transform/metric.go:224-238 | one scope entry per library batch, each once, each listing that batch's metrics |
| Sink.FlattenResources | exporters/otlp/internal/transform/metric.go:221-240 | one resource entry per grouped resource, each once, each listing that resource's batches |
| Sink.ListedIsStored | exporters/otlp/internal/transform/metric.go:221-240 | a metric listed in the tree is the one the grouping stores under its resource, library and name |
| Sink.StoredIsListed | exporters/otlp/internal/transform/metric.go:221-240 | every group the grouping stores appears in the tree |
| Sink.ScopeEntryShape | exporters/otlp/internal/transform/metric.go:224-238 | a scope entry holds a metric, lists no name twice, and leaves `InstrumentationLibrary` unset exactly for the zero library |
| Sink.ResourceEntryShape | exporters/otlp/internal/transform/metric.go:221-240 | a resource entry holds a scope, lists no library twice, and each scope has the shape above |
| Sink.ListingShape | exporters/otlp/internal/transform/metric.go:221-240 | the flattened tree lists no resource twice and every entry has the shape above |
| Sink.ListingListsGroups | exporters/otlp/internal/transform/metric.go:163-240 | every metric in the tree is the combination, in arrival order, of a non-empty group of the input |
| Sink.ListingCoversGroups | exporters/otlp/internal/transform/metric.go:163-240 | the group of every converted result appears in the tree |
| Sink.ListingDescribes | exporters/otlp/internal/transform/metric.go:163-240 | a listing of the fold's maps describes the input: the two facts above, and the tree shape, with no resource, library or name listed twice, no empty entry, and the zero library left unset |
| Sink.AggregateError | exporters/otlp/internal/transform/metric.go:242-246 | there is no error iff no strings were collected; otherwise the error wraps `ErrTransforming`, carries exactly the collected strings, and prints as the sentinel's text, ":\n -", and the strings joined by "\n -" |
| Sink.AggregateErrorReportsEach | exporters/otlp/internal/transform/metric.go:242-246 | no failure is lost: every collected string appears in the aggregate error's text |
| Errors.JoinKeepsParts | exporters/otlp/internal/transform/metric.go:244 | `strings.Join` keeps every part: each one appears in the joined text |
| Sink.RunSink | exporters/otlp/internal/transform/metric.go:163-247 | there is no tree iff every result failed, and then no error; otherwise the tree describes the results, with the aggregate of the collected strings as the error |
| Sink.Reconcile | exporters/otlp/internal/transform/metric.go:98-108 | a sink error wins, then the source's error; any error drops the tree; with neither error the sink's tree is returned |
| Pipeline.Transform | exporters/otlp/internal/transform/metric.go:134-156 | a result is a failure iff the conversion failed; a converted result carries the record's resource and library, so it falls into the record's group |
| Pipeline.TransformAll | exporters/otlp/internal/transform/metric.go:134-156 | every record gives exactly one result, in order |
| Pipeline.KindsAgreeShapesAgree | exporters/otlp/internal/transform/metric.go:201-213 | if the records of each group share an aggregation kind, their converted metrics agree in shape, so the fold is safe in any arrival order |
| Pipeline.CheckpointSet | exporters/otlp/internal/transform/metric.go:79-108 | the error is the aggregate of the conversion failures if some record converted and some failed, and otherwise the source's error; a tree comes only without an error, and then describes the converted records; with no error, a tree comes iff some record converted |
| Pipeline.EmptyCheckpoint | exporters/otlp/internal/transform/metric.go:79-108 | an empty checkpoint reports no conversion error and converts nothing, so `CheckpointSet` returns no tree and only the checkpoint's own error |

## Left out

- Concurrency: the source goroutine, the worker pool and the channels of
  `CheckpointSet` (lines 79-130) are not modelled. The sink sees the results as
  one sequence, in whichever arrival order the scheduler produced. Every
  statement about the sink is made for an arbitrary sequence.
- Cancellation: `ErrContextCanceled` exists as an error value, but the two
  `select`s on `ctx.Done()`, in `source` (metric.go:121-125) and in the
  transformer (metric.go:150-154), are not modelled.
- `source`, and the checkpoint's `ForEach` behind it, are not part of this model.
  Its terminal error is the `sourceErr` parameter of `Pipeline.CheckpointSet`.
- The resource encoding `Resource(res.Resource)` is in resource.go, which is not
  part of this model. A listed resource is the SDK resource itself. Resources are
  grouped by their attribute list (`Records.Equivalent`), which stands for
  `attribute.Distinct`.
- The `number.Number` coercions (`CoerceToInt64`, `CoerceToFloat64`) and the
  export-kind selector are opaque functions, given as fields of `Records.Env`.
- Floating point arithmetic: floats are IEEE-754 bit patterns that are only
  passed through. 0.0 and 1.0 are their exact bit patterns.
- Go's nil/empty distinction: a nil list and an empty list are both the empty
  sequence.
- The method sets of the aggregation interfaces are modelled as accessors that
  are present or absent (`Records.Implements`). Which concrete aggregator
  implements which interface is not modelled.
- `int` in an attribute array is taken as 64 bits wide.
- Go arrays (as opposed to slices) in an attribute array are not modelled.
  `arrayValue` switches on slice types only, so any other dynamic type is
  `OtherArray` and encodes to no elements.
- Time values are modelled as "zero" or a signed 64-bit nanosecond count. Times
  whose `UnixNano()` overflows are not modelled.
- Grouping.Merge, Sink.RunSink, Pipeline.CheckpointSet: these require that the
  later results of a group agree in shape with its first (`Grouping.ShapesAgree`).
  With mismatching shapes the source reads `.DataPoints` through the nil
  sub-message pointer that `m.GetGauge()`, `GetSum()`, `GetHistogram()` or
  `GetSummary()` returns for the stored metric, and panics. The panic itself is not modelled. `Pipeline.KindsAgreeShapesAgree`
  gives a sufficient condition on the records.
- Sink.RunSink: the order of the flattened tree comes from Go's map iteration,
  which is randomised. The contract states which entries are listed, each once,
  and what they hold, not their order.
