/** `CheckpointSet` without its goroutines: every record is converted by the
    transformer step, the results reach the sink in some arrival order, and the
    sink's outcome is reconciled with the checkpoint's own terminal error. */
module Pipeline {
  import opened Seqs
  import opened Results
  import opened Errors
  import opened Wire
  import opened Records
  import opened Convert
  import opened Grouping
  import opened GroupingProperties
  import opened Sink

  /** The library a record's instrument was registered by. */
  function LibraryOfRecord(r: Record): Library
  {
    Library(r.descriptor.instrumentationName, r.descriptor.instrumentationVersion)
  }

  /** The group a record's metric falls into. */
  function RecordKey(r: Record): GroupKey
  {
    GroupKey(Equivalent(r.resource), LibraryOfRecord(r), r.descriptor.name)
  }

  /** `transformer`, for one record: the conversion's error, or its metric tagged
      with the record's resource and library. The converter never returns neither,
      so the transformer's skip of an empty result never applies. */
  function Transform(env: Env, r: Record): (item: Item)
    ensures item.Failed? <==> ConvertRecord(env, r).Err?
    ensures item.Failed? ==> item.error == ConvertRecord(env, r).error
    ensures item.Converted? ==>
      && item.resource == r.resource
      && item.metric == ConvertRecord(env, r).value
      && KeyOf(item) == RecordKey(r)
  {
    match ConvertRecord(env, r)
    case Ok(m) => Converted(r.resource, LibraryOfRecord(r), m)
    case Err(e) => Failed(e)
  }

  function TransformAll(env: Env, records: seq<Record>): (items: seq<Item>)
    ensures |items| == |records|
    ensures forall n | 0 <= n < |records| :: items[n] == Transform(env, records[n])
  {
    MapSeq(records, (r: Record) => Transform(env, r))
  }

  /** Records of one group share an aggregation kind. */
  predicate KindsAgree(records: seq<Record>)
  {
    forall i, j | 0 <= i < |records| && 0 <= j < |records| && RecordKey(records[i]) == RecordKey(records[j]) ::
      records[i].aggregation.kind == records[j].aggregation.kind
  }

  /** Records whose groups agree in aggregation kind are safe to merge in any
      arrival order: their converted metrics agree in shape. */
  lemma KindsAgreeShapesAgree(env: Env, records: seq<Record>)
    requires KindsAgree(records)
    ensures ShapesAgree(TransformAll(env, records))
  {
    var items := TransformAll(env, records);
    forall g
      ensures LaterAgreeWithFirst(GroupMetrics(items, g))
    {
      var ms := GroupMetrics(items, g);
      GroupMetricsMembers(items, g);
      forall j | 0 < j < |ms| && !ms[j].data.NoData?
        ensures ShapeOf(ms[j].data) == ShapeOf(ms[0].data)
      {
        assert FromGroup(items, g, ms[0]) && FromGroup(items, g, ms[j]);
        var n0 :| 0 <= n0 < |items| && InGroup(items[n0], g) && items[n0].metric == ms[0];
        var n1 :| 0 <= n1 < |items| && InGroup(items[n1], g) && items[n1].metric == ms[j];
        assert RecordKey(records[n0]) == g == RecordKey(records[n1]);
      }
    }
  }

  /** Some record of the checkpoint converts. */
  predicate AnyConverts(env: Env, records: seq<Record>)
  {
    exists n | 0 <= n < |records| :: ConvertRecord(env, records[n]).Ok?
  }

  /** `CheckpointSet` for one arrival order of the converted records, with the
      checkpoint's terminal error as a parameter. Conversion errors are reported
      (and the tree dropped) only when some record converted; otherwise the
      checkpoint's error decides. A tree is returned only with no error, and then
      it describes the converted records. */
  method CheckpointSet(env: Env, records: seq<Record>, sourceErr: Option<Error>)
    returns (tree: Option<seq<ResourceMetrics>>, err: Option<Error>)
    requires ShapesAgree(TransformAll(env, records))
    ensures err ==
      if AnyConverts(env, records) && Reported(TransformAll(env, records)).Some?
      then Reported(TransformAll(env, records))
      else sourceErr
    ensures tree.Some? ==> err.None? && Describes(tree.value, TransformAll(env, records))
    ensures err.None? ==> (tree.Some? <==> AnyConverts(env, records))
  {
    var items := TransformAll(env, records);
    var sinkTree, sinkErr := RunSink(items);
    assert AnyConverts(env, records) <==> exists n | 0 <= n < |items| :: items[n].Converted?;
    tree, err := Reconcile(sinkTree, sinkErr, sourceErr).0, Reconcile(sinkTree, sinkErr, sourceErr).1;
  }

  /** An empty checkpoint reports no conversion error and converts nothing, so by
      the contract of `CheckpointSet` it yields no tree and exactly the
      checkpoint's own error. */
  lemma EmptyCheckpoint(env: Env)
    ensures Reported(TransformAll(env, [])) == None
    ensures !AnyConverts(env, [])
  {
  }
}
