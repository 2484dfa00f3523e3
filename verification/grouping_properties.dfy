/** What the sink's fold computes, proved against the reference definitions: each
    group holds the concatenation of its metrics' points, the errors are the ones
    collected in arrival order, and a resource batch exists exactly for the
    resources of converted results. */
module GroupingProperties {
  import opened Results
  import opened Wire
  import opened Attributes
  import opened Records
  import opened Grouping

  lemma CombineSingle(m: Metric)
    ensures Combine([m]) == m
  {
    assert [m][..0] == [];
    assert ConcatNumberPoints([m]) == NumberPointsOf(m.data);
    assert ConcatHistogramPoints([m]) == HistogramPointsOf(m.data);
    assert ConcatSummaryPoints([m]) == SummaryPointsOf(m.data);
  }

  /** Adding a metric to a group: one without data changes nothing; one of the
      group's shape appends its points. */
  lemma CombineExtend(ms: seq<Metric>, m: Metric)
    requires |ms| > 0
    ensures m.data.NoData? ==> Combine(ms + [m]) == Combine(ms)
    ensures !m.data.NoData? && ShapeOf(m.data) == ShapeOf(ms[0].data) ==>
      ShapeOf(Combine(ms).data) == ShapeOf(m.data)
      && Combine(ms + [m]) == Combine(ms).(data := AppendPoints(Combine(ms).data, m.data))
  {
    var ms' := ms + [m];
    assert ms'[..|ms'| - 1] == ms;
    assert ms'[0] == ms[0];
    if m.data.NoData? {
      assert ConcatNumberPoints(ms') == ConcatNumberPoints(ms) + [] == ConcatNumberPoints(ms);
      assert ConcatHistogramPoints(ms') == ConcatHistogramPoints(ms) + [] == ConcatHistogramPoints(ms);
      assert ConcatSummaryPoints(ms') == ConcatSummaryPoints(ms) + [] == ConcatSummaryPoints(ms);
    }
  }

  lemma GroupMetricsOfPrefix(items: seq<Item>, g: GroupKey)
    requires |items| > 0
    ensures GroupMetrics(items, g)
      == GroupMetrics(Prefix(items), g) + (if InGroup(Last(items), g) then [Last(items).metric] else [])
  {
  }

  /** One fold step on a converted result: if its group held the reference merge
      of `ms` before, it holds the reference merge of `ms` extended by the
      result's metric after. */
  lemma StepLookupOwnGroup(s: State, x: Item, ms: seq<Metric>)
    requires x.Converted? && Mergeable(s, x)
    requires Lookup(s.grouped, KeyOf(x)) == if ms == [] then None else Some(Combine(ms))
    ensures Lookup(Step(s, x).grouped, KeyOf(x)) == Some(Combine(ms + [x.metric]))
  {
    var m := x.metric;
    if ms == [] {
      CombineSingle(m);
      assert ms + [m] == [m];
    } else {
      CombineExtend(ms, m);
      if !m.data.NoData? {
        var stored := Combine(ms);
        assert Step(s, x).grouped
          == Store(s.grouped, x.resource, x.library, m.name, stored.(data := AppendPoints(stored.data, m.data)));
      }
    }
  }

  /** Each group of the fold holds exactly the reference merge of its metrics, and
      no group exists without a metric. */
  lemma {:induction false} MergeLookup(items: seq<Item>, g: GroupKey)
    requires MergeSafe(items)
    ensures Lookup(Merge(items).grouped, g)
      == if GroupMetrics(items, g) == [] then None else Some(Combine(GroupMetrics(items, g)))
    decreases |items|
  {
    if |items| > 0 {
      var p, x := Prefix(items), Last(items);
      MergeLookup(p, g);
      var s := Merge(p);
      assert Merge(items) == Step(s, x);
      if x.Converted? {
        var k := KeyOf(x);
        var m := x.metric;
        MergeLookup(p, k);
        if g == k {
          var ms := GroupMetrics(p, g);
          assert GroupMetrics(items, g) == ms + [m];
          StepLookupOwnGroup(s, x, ms);
        } else {
          assert GroupMetrics(items, g) == GroupMetrics(p, g) + [] == GroupMetrics(p, g);
          assert Lookup(Merge(items).grouped, g) == Lookup(s.grouped, g);
        }
      } else {
        assert GroupMetrics(items, g) == GroupMetrics(p, g) + [] == GroupMetrics(p, g);
      }
    }
  }

  lemma LaterAgreeWithFirstPrefix(ms: seq<Metric>, tail: seq<Metric>)
    requires LaterAgreeWithFirst(ms + tail)
    ensures LaterAgreeWithFirst(ms)
  {
    if |ms| > 0 {
      assert (ms + tail)[0] == ms[0];
      forall j | 0 < j < |ms| && !ms[j].data.NoData?
        ensures ShapeOf(ms[j].data) == ShapeOf(ms[0].data)
      {
        assert (ms + tail)[j] == ms[j];
      }
    }
  }

  /** The condition on the input is enough: a fold over results whose groups agree
      in shape never meets a stored metric of another shape. */
  lemma {:induction false} ShapesAgreeMergeSafe(items: seq<Item>)
    requires ShapesAgree(items)
    ensures MergeSafe(items)
    decreases |items|
  {
    if |items| > 0 {
      var p, x := Prefix(items), Last(items);
      forall g
        ensures LaterAgreeWithFirst(GroupMetrics(p, g))
      {
        GroupMetricsOfPrefix(items, g);
        LaterAgreeWithFirstPrefix(GroupMetrics(p, g),
          if InGroup(x, g) then [x.metric] else []);
      }
      ShapesAgreeMergeSafe(p);
      if x.Converted? && !x.metric.data.NoData? {
        var k := KeyOf(x);
        var ms := GroupMetrics(p, k);
        MergeLookup(p, k);
        if ms != [] {
          GroupMetricsOfPrefix(items, k);
          var full := GroupMetrics(items, k);
          assert full == ms + [x.metric];
          assert full[|ms|] == x.metric && full[0] == ms[0];
          CombineExtend(ms, x.metric);
        }
      }
    }
  }

  /** The error strings the fold collects are the reference ones, in arrival
      order. */
  lemma {:induction false} MergeErrors(items: seq<Item>)
    requires MergeSafe(items)
    ensures Merge(items).errors == ErrorStrings(items)
    decreases |items|
  {
    if |items| > 0 {
      var p, x := Prefix(items), Last(items);
      MergeErrors(p);
      if x.Converted? {
        MergeLookup(p, KeyOf(x));
      }
    }
  }

  /** The resources of converted results. */
  function ResourceKeys(items: seq<Item>): set<seq<Attribute>>
  {
    set i | 0 <= i < |items| && items[i].Converted? :: Equivalent(items[i].resource)
  }

  /** A resource batch is created exactly for each resource a converted result
      names; failures create nothing. */
  lemma {:induction false} MergeResourceKeys(items: seq<Item>)
    requires MergeSafe(items)
    ensures Merge(items).grouped.Keys == ResourceKeys(items)
    decreases |items|
  {
    if |items| > 0 {
      var p, x := Prefix(items), Last(items);
      MergeResourceKeys(p);
      assert forall i | 0 <= i < |p| :: p[i] == items[i];
      if x.Converted? {
        assert ResourceKeys(items) == ResourceKeys(p) + {Equivalent(x.resource)};
        if x.metric.data.NoData? && Lookup(Merge(p).grouped, KeyOf(x)).Some? {
          assert Equivalent(x.resource) in Merge(p).grouped;
        }
      } else {
        assert ResourceKeys(items) == ResourceKeys(p);
      }
    }
  }

  /** The sink finds nothing to group exactly when no result converted. */
  lemma {:induction false} NothingGroupedIffAllFailed(items: seq<Item>)
    requires MergeSafe(items)
    ensures |Merge(items).grouped| == 0 <==> AllFailed(items)
  {
    MergeResourceKeys(items);
    if exists i | 0 <= i < |items| :: items[i].Converted? {
      var i :| 0 <= i < |items| && items[i].Converted?;
      assert Equivalent(items[i].resource) in ResourceKeys(items);
    }
  }

  /** Merging a group keeps every point: the merged metric has as many points as
      the group's metrics together. */
  lemma {:induction false} CombinePointCount(ms: seq<Metric>)
    requires |ms| > 0 && LaterAgreeWithFirst(ms)
    ensures PointCount(Combine(ms).data) == TotalPoints(ms)
    decreases |ms|
  {
    if |ms| == 1 {
      CombineSingle(ms[0]);
      assert ms == [ms[0]];
      assert ms[..0] == [];
    } else {
      var q, m := ms[..|ms| - 1], ms[|ms| - 1];
      assert ms == q + [m];
      LaterAgreeWithFirstPrefix(q, [m]);
      CombinePointCount(q);
      CombineExtend(q, m);
      assert ms[|ms| - 1] == m && q[0] == ms[0];
    }
  }

  /** Per group, the fold conserves points: the stored metric of a group has the
      total point count of the group's results, and a group without results is
      absent. */
  lemma GroupPointsConserved(items: seq<Item>, g: GroupKey)
    requires ShapesAgree(items)
    ensures MergeSafe(items)
    ensures Lookup(Merge(items).grouped, g).Some? <==> GroupMetrics(items, g) != []
    ensures Lookup(Merge(items).grouped, g).Some? ==>
      PointCount(Lookup(Merge(items).grouped, g).value.data) == TotalPoints(GroupMetrics(items, g))
  {
    ShapesAgreeMergeSafe(items);
    MergeLookup(items, g);
    if GroupMetrics(items, g) != [] {
      CombinePointCount(GroupMetrics(items, g));
    }
  }

  lemma StoreWellFormed(grouped: Grouped, res: Resource, lib: Library, m: Metric)
    requires WellFormed(grouped)
    ensures WellFormed(Store(grouped, res, lib, m.name, m))
  {
    var rk := Equivalent(res);
    var rb := if rk in grouped then grouped[rk] else ResourceBatch(res, map[]);
    var mb := if lib in rb.libraries then rb.libraries[lib] else map[];
    var mb' := mb[m.name := m];
    var rb' := rb.(libraries := rb.libraries[lib := mb']);
    var r := grouped[rk := rb'];
    assert r == Store(grouped, res, lib, m.name, m);
    assert m.name in mb';
    assert NamedByKey(mb');
    assert lib in rb'.libraries;
    forall k | k in r
      ensures Equivalent(r[k].resource) == k
      ensures r[k].libraries != map[]
      ensures forall l | l in r[k].libraries :: NamedByKey(r[k].libraries[l]) && r[k].libraries[l] != map[]
    {
      if k != rk {
        assert r[k] == grouped[k];
      } else {
        assert r[k] == rb';
        forall l | l in rb'.libraries
          ensures NamedByKey(rb'.libraries[l]) && rb'.libraries[l] != map[]
        {
          if l != lib {
            assert rb'.libraries[l] == rb.libraries[l];
          }
        }
      }
    }
  }

  /** The fold keeps the grouping well formed. */
  lemma {:induction false} MergeWellFormed(items: seq<Item>)
    requires MergeSafe(items)
    ensures WellFormed(Merge(items).grouped)
    decreases |items|
  {
    if |items| > 0 {
      var p, x := Prefix(items), Last(items);
      MergeWellFormed(p);
      var s := Merge(p);
      if x.Converted? {
        var m := x.metric;
        match Lookup(s.grouped, KeyOf(x))
        case None =>
          StoreWellFormed(s.grouped, x.resource, x.library, m);
        case Some(stored) =>
          if !m.data.NoData? {
            var m' := stored.(data := AppendPoints(stored.data, m.data));
            assert m'.name == m.name;
            StoreWellFormed(s.grouped, x.resource, x.library, m');
          }
      }
    }
  }

  /** A converted result puts its group among the non-empty ones. */
  lemma {:induction false} InGroupMember(items: seq<Item>, n: nat, g: GroupKey)
    requires n < |items| && InGroup(items[n], g)
    ensures GroupMetrics(items, g) != []
    decreases |items|
  {
    if n < |items| - 1 {
      assert Prefix(items)[n] == items[n];
      InGroupMember(Prefix(items), n, g);
    }
  }

  /** `m` is the metric of some converted result of group `g`. */
  predicate FromGroup(items: seq<Item>, g: GroupKey, m: Metric)
  {
    exists n | 0 <= n < |items| :: InGroup(items[n], g) && items[n].metric == m
  }

  /** Every metric of a group comes from a converted result of that group. */
  lemma {:induction false} GroupMetricsMembers(items: seq<Item>, g: GroupKey)
    ensures forall j | 0 <= j < |GroupMetrics(items, g)| :: FromGroup(items, g, GroupMetrics(items, g)[j])
    decreases |items|
  {
    if |items| > 0 {
      var p := Prefix(items);
      GroupMetricsMembers(p, g);
      GroupMetricsOfPrefix(items, g);
      var ms := GroupMetrics(items, g);
      forall j | 0 <= j < |ms|
        ensures FromGroup(items, g, ms[j])
      {
        if j < |GroupMetrics(p, g)| {
          assert ms[j] == GroupMetrics(p, g)[j];
          assert FromGroup(p, g, ms[j]);
          var n :| 0 <= n < |p| && InGroup(p[n], g) && p[n].metric == ms[j];
          assert items[n] == p[n];
        } else {
          assert items[|items| - 1] == Last(items);
        }
      }
    }
  }
}
