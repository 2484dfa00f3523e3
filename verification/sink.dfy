/** The sink's output: the fold's three-level grouping flattened into OTLP
    `ResourceMetrics`, with the aggregate error. Go's map iteration order is
    unspecified, so the flattening picks entries in any order and its contract
    speaks only of which entries are listed, never of their order. */
module Sink {
  import opened Results
  import opened Errors
  import opened Wire
  import opened Attributes
  import opened Records
  import opened Grouping
  import opened GroupingProperties

  /** `InstrumentationLibraryMetrics`. */
  datatype ScopeMetrics = ScopeMetrics(library: Option<Library>, metrics: seq<Metric>)

  /** `ResourceMetrics`; the resource is kept as the SDK value whose wire encoding
      the sink would attach. */
  datatype ResourceMetrics = ResourceMetrics(resource: Resource, scopes: seq<ScopeMetrics>)

  /** The library a listed scope stands for; an unset one is the zero library. */
  function LibraryOf(o: Option<Library>): Library
  {
    match o
    case None => ZeroLibrary
    case Some(lib) => lib
  }

  /** The sink leaves `InstrumentationLibrary` unset for the zero library and sets
      it, with the same name and version, for any other; nothing is lost. */
  function LibraryProto(lib: Library): (r: Option<Library>)
    ensures r.None? <==> lib == ZeroLibrary
    ensures LibraryOf(r) == lib
  {
    if lib == ZeroLibrary then None else Some(lib)
  }

  /** `ms` lists the metrics of `mb`, each once, in some order. */
  predicate ListsMetrics(ms: seq<Metric>, mb: map<string, Metric>)
  {
    && (forall i | 0 <= i < |ms| :: ms[i].name in mb && mb[ms[i].name] == ms[i])
    && (forall name | name in mb :: exists i | 0 <= i < |ms| :: ms[i].name == name)
    && (forall i, j | 0 <= i < j < |ms| :: ms[i].name != ms[j].name)
  }

  /** `scope` is the entry for one library batch of `libs`. */
  predicate IsScopeEntry(scope: ScopeMetrics, libs: map<Library, map<string, Metric>>)
  {
    && LibraryOf(scope.library) in libs
    && scope.library == LibraryProto(LibraryOf(scope.library))
    && ListsMetrics(scope.metrics, libs[LibraryOf(scope.library)])
  }

  /** `scopes` lists the library batches of `libs`, each once, in some order. */
  predicate ListsScopes(scopes: seq<ScopeMetrics>, libs: map<Library, map<string, Metric>>)
  {
    && (forall i | 0 <= i < |scopes| :: IsScopeEntry(scopes[i], libs))
    && (forall lib | lib in libs :: exists i | 0 <= i < |scopes| :: LibraryOf(scopes[i].library) == lib)
    && (forall i, j | 0 <= i < j < |scopes| :: LibraryOf(scopes[i].library) != LibraryOf(scopes[j].library))
  }

  /** `rm` is the entry for one resource batch of `grouped`. */
  predicate IsResourceEntry(rm: ResourceMetrics, grouped: Grouped)
  {
    && Equivalent(rm.resource) in grouped
    && rm.resource == grouped[Equivalent(rm.resource)].resource
    && ListsScopes(rm.scopes, grouped[Equivalent(rm.resource)].libraries)
  }

  /** `rms` lists the resource batches of `grouped`, each once, in some order. */
  predicate ListsResources(rms: seq<ResourceMetrics>, grouped: Grouped)
  {
    && (forall i | 0 <= i < |rms| :: IsResourceEntry(rms[i], grouped))
    && (forall rk | rk in grouped :: exists i | 0 <= i < |rms| :: Equivalent(rms[i].resource) == rk)
    && (forall i, j | 0 <= i < j < |rms| :: Equivalent(rms[i].resource) != Equivalent(rms[j].resource))
  }

  /** The innermost loop of the flattening: the metrics of one library batch. */
  method FlattenMetrics(mb: map<string, Metric>) returns (ms: seq<Metric>)
    requires NamedByKey(mb)
    ensures ListsMetrics(ms, mb)
  {
    ms := [];
    var rest := mb.Keys;
    while rest != {}
      invariant rest <= mb.Keys
      invariant forall i | 0 <= i < |ms| :: ms[i].name in mb && mb[ms[i].name] == ms[i] && ms[i].name !in rest
      invariant forall name | name in mb && name !in rest :: exists i | 0 <= i < |ms| :: ms[i].name == name
      invariant forall i, j | 0 <= i < j < |ms| :: ms[i].name != ms[j].name
      decreases rest
    {
      var name :| name in rest;
      var msBefore := ms;
      ms := ms + [mb[name]];
      rest := rest - {name};
      forall k | k in mb && k !in rest
        ensures exists i | 0 <= i < |ms| :: ms[i].name == k
      {
        if k == name {
          assert ms[|ms| - 1].name == k;
        } else {
          var i :| 0 <= i < |msBefore| && msBefore[i].name == k;
          assert ms[i] == msBefore[i];
        }
      }
    }
  }

  /** The middle loop: one scope entry per library batch. */
  method FlattenScopes(libs: map<Library, map<string, Metric>>) returns (scopes: seq<ScopeMetrics>)
    requires forall lib | lib in libs :: NamedByKey(libs[lib])
    ensures ListsScopes(scopes, libs)
  {
    scopes := [];
    var rest := libs.Keys;
    while rest != {}
      invariant rest <= libs.Keys
      invariant forall i | 0 <= i < |scopes| :: IsScopeEntry(scopes[i], libs) && LibraryOf(scopes[i].library) !in rest
      invariant forall lib | lib in libs && lib !in rest ::
        exists i | 0 <= i < |scopes| :: LibraryOf(scopes[i].library) == lib
      invariant forall i, j | 0 <= i < j < |scopes| :: LibraryOf(scopes[i].library) != LibraryOf(scopes[j].library)
      decreases rest
    {
      var lib :| lib in rest;
      var ms := FlattenMetrics(libs[lib]);
      var scopesBefore := scopes;
      scopes := scopes + [ScopeMetrics(LibraryProto(lib), ms)];
      rest := rest - {lib};
      forall l | l in libs && l !in rest
        ensures exists i | 0 <= i < |scopes| :: LibraryOf(scopes[i].library) == l
      {
        if l == lib {
          assert LibraryOf(scopes[|scopes| - 1].library) == l;
        } else {
          var i :| 0 <= i < |scopesBefore| && LibraryOf(scopesBefore[i].library) == l;
          assert scopes[i] == scopesBefore[i];
        }
      }
    }
  }

  /** The outer loop's progress: `rms` lists, each once, exactly the resource
      batches of `grouped` whose keys are no longer in `rest`. */
  predicate ListsResourcesBut(rms: seq<ResourceMetrics>, grouped: Grouped, rest: set<seq<Attribute>>)
  {
    && rest <= grouped.Keys
    && (forall i | 0 <= i < |rms| :: IsResourceEntry(rms[i], grouped) && Equivalent(rms[i].resource) !in rest)
    && (forall rk | rk in grouped && rk !in rest :: exists i | 0 <= i < |rms| :: Equivalent(rms[i].resource) == rk)
    && (forall i, j | 0 <= i < j < |rms| :: Equivalent(rms[i].resource) != Equivalent(rms[j].resource))
  }

  /** One step of the outer loop keeps its progress invariant. */
  lemma ListsResourcesButStep(rms: seq<ResourceMetrics>, grouped: Grouped, rest: set<seq<Attribute>>,
                              rm: ResourceMetrics)
    requires ListsResourcesBut(rms, grouped, rest)
    requires Equivalent(rm.resource) in rest && IsResourceEntry(rm, grouped)
    ensures ListsResourcesBut(rms + [rm], grouped, rest - {Equivalent(rm.resource)})
  {
    var rk := Equivalent(rm.resource);
    var rms' := rms + [rm];
    var rest' := rest - {rk};
    forall k | k in grouped && k !in rest'
      ensures exists i | 0 <= i < |rms'| :: Equivalent(rms'[i].resource) == k
    {
      if k == rk {
        assert Equivalent(rms'[|rms'| - 1].resource) == k;
      } else {
        var i :| 0 <= i < |rms| && Equivalent(rms[i].resource) == k;
        assert rms'[i] == rms[i];
      }
    }
  }

  /** The outer loop: one `ResourceMetrics` per resource batch. */
  method FlattenResources(grouped: Grouped) returns (rms: seq<ResourceMetrics>)
    requires WellFormed(grouped)
    ensures ListsResources(rms, grouped)
  {
    rms := [];
    var rest := grouped.Keys;
    while rest != {}
      invariant ListsResourcesBut(rms, grouped, rest)
      decreases rest
    {
      var rk :| rk in rest;
      var rb := grouped[rk];
      assert BatchWellFormed(rk, rb);
      var scopes := FlattenScopes(rb.libraries);
      var rm := ResourceMetrics(rb.resource, scopes);
      ListsResourcesButStep(rms, grouped, rest, rm);
      rms := rms + [rm];
      rest := rest - {rk};
    }
  }

  // ---------------------------------------------------------------------------
  // The sink against the reference definitions.

  /** Some listed resource, library and metric name form the group `g`. */
  predicate Listed(rms: seq<ResourceMetrics>, g: GroupKey)
  {
    exists i | 0 <= i < |rms| :: Equivalent(rms[i].resource) == g.resource && EntryLists(rms[i], g.library, g.name)
  }

  /** Some scope of `rm` for `lib` lists a metric called `name`. */
  predicate EntryLists(rm: ResourceMetrics, lib: Library, name: string)
  {
    exists j | 0 <= j < |rm.scopes| :: LibraryOf(rm.scopes[j].library) == lib && ScopeLists(rm.scopes[j], name)
  }

  /** `scope` lists a metric called `name`. */
  predicate ScopeLists(scope: ScopeMetrics, name: string)
  {
    exists k | 0 <= k < |scope.metrics| :: scope.metrics[k].name == name
  }

  /** The group a listed metric stands for. */
  function ListedKey(rms: seq<ResourceMetrics>, i: nat, j: nat, k: nat): GroupKey
    requires i < |rms| && j < |rms[i].scopes| && k < |rms[i].scopes[j].metrics|
  {
    GroupKey(Equivalent(rms[i].resource), LibraryOf(rms[i].scopes[j].library), rms[i].scopes[j].metrics[k].name)
  }

  /** Every listed metric is the merge of a non-empty group. */
  ghost predicate ListedAreGroups(rms: seq<ResourceMetrics>, items: seq<Item>)
  {
    forall i, j, k | 0 <= i < |rms| && 0 <= j < |rms[i].scopes| && 0 <= k < |rms[i].scopes[j].metrics| ::
      && GroupMetrics(items, ListedKey(rms, i, j, k)) != []
      && rms[i].scopes[j].metrics[k] == Combine(GroupMetrics(items, ListedKey(rms, i, j, k)))
  }

  /** The group of every converted result is listed. */
  predicate GroupsAreListed(rms: seq<ResourceMetrics>, items: seq<Item>)
  {
    forall n | 0 <= n < |items| && items[n].Converted? :: Listed(rms, KeyOf(items[n]))
  }

  /** The shape of the tree the sink builds: no resource is listed twice, and no
      library twice within a resource, nor a metric name twice within a library;
      every resource entry holds a scope and every scope a metric; and the zero
      library is the one scope left without an `InstrumentationLibrary`. */
  predicate TreeShape(rms: seq<ResourceMetrics>)
  {
    && (forall i, j | 0 <= i < j < |rms| :: Equivalent(rms[i].resource) != Equivalent(rms[j].resource))
    && (forall i | 0 <= i < |rms| :: |rms[i].scopes| > 0)
    && (forall i, j | 0 <= i < |rms| && 0 <= j < |rms[i].scopes| ::
         && |rms[i].scopes[j].metrics| > 0
         && rms[i].scopes[j].library == LibraryProto(LibraryOf(rms[i].scopes[j].library)))
    && (forall i | 0 <= i < |rms| :: forall j, j' | 0 <= j < j' < |rms[i].scopes| ::
         LibraryOf(rms[i].scopes[j].library) != LibraryOf(rms[i].scopes[j'].library))
    && (forall i, j | 0 <= i < |rms| && 0 <= j < |rms[i].scopes| ::
         forall k, k' | 0 <= k < k' < |rms[i].scopes[j].metrics| ::
           rms[i].scopes[j].metrics[k].name != rms[i].scopes[j].metrics[k'].name)
  }

  /** What the sink's tree says about its input, stated without the fold: every
      listed metric is the merge of a non-empty group, every converted result's
      group is listed, and the tree has the sink's shape. */
  ghost predicate Describes(rms: seq<ResourceMetrics>, items: seq<Item>)
  {
    ListedAreGroups(rms, items) && GroupsAreListed(rms, items) && TreeShape(rms)
  }

  /** A metric a listing lists is the one the grouping stores under its key. */
  lemma ListedIsStored(grouped: Grouped, rms: seq<ResourceMetrics>, i: nat, j: nat, k: nat)
    requires ListsResources(rms, grouped)
    requires i < |rms| && j < |rms[i].scopes| && k < |rms[i].scopes[j].metrics|
    ensures Lookup(grouped, ListedKey(rms, i, j, k)) == Some(rms[i].scopes[j].metrics[k])
  {
    var rk := Equivalent(rms[i].resource);
    assert IsResourceEntry(rms[i], grouped);
    assert IsScopeEntry(rms[i].scopes[j], grouped[rk].libraries);
    var lib := LibraryOf(rms[i].scopes[j].library);
    assert ListsMetrics(rms[i].scopes[j].metrics, grouped[rk].libraries[lib]);
  }

  /** A scope entry lists every name of its library batch. */
  lemma ScopeEntryLists(scope: ScopeMetrics, libs: map<Library, map<string, Metric>>, name: string)
    requires IsScopeEntry(scope, libs)
    requires name in libs[LibraryOf(scope.library)]
    ensures ScopeLists(scope, name)
  {
    assert ListsMetrics(scope.metrics, libs[LibraryOf(scope.library)]);
  }

  /** A resource entry lists every library and name of its resource batch. */
  lemma ResourceEntryLists(rm: ResourceMetrics, grouped: Grouped, lib: Library, name: string)
    requires IsResourceEntry(rm, grouped)
    requires lib in grouped[Equivalent(rm.resource)].libraries
    requires name in grouped[Equivalent(rm.resource)].libraries[lib]
    ensures EntryLists(rm, lib, name)
  {
    var libs := grouped[Equivalent(rm.resource)].libraries;
    assert ListsScopes(rm.scopes, libs);
    var j :| 0 <= j < |rm.scopes| && LibraryOf(rm.scopes[j].library) == lib;
    ScopeEntryLists(rm.scopes[j], libs, name);
  }

  /** Every group the grouping stores is listed. */
  lemma StoredIsListed(grouped: Grouped, rms: seq<ResourceMetrics>, g: GroupKey)
    requires ListsResources(rms, grouped)
    requires Lookup(grouped, g).Some?
    ensures Listed(rms, g)
  {
    assert g.resource in grouped;
    var i :| 0 <= i < |rms| && Equivalent(rms[i].resource) == g.resource;
    ResourceEntryLists(rms[i], grouped, g.library, g.name);
  }

  /** A listing of the fold's grouping lists only merged groups. */
  lemma {:induction false} ListingListsGroups(items: seq<Item>, rms: seq<ResourceMetrics>)
    requires MergeSafe(items)
    requires ListsResources(rms, Merge(items).grouped)
    ensures ListedAreGroups(rms, items)
  {
    forall i, j, k | 0 <= i < |rms| && 0 <= j < |rms[i].scopes| && 0 <= k < |rms[i].scopes[j].metrics|
      ensures GroupMetrics(items, ListedKey(rms, i, j, k)) != []
      ensures rms[i].scopes[j].metrics[k] == Combine(GroupMetrics(items, ListedKey(rms, i, j, k)))
    {
      ListedIsStored(Merge(items).grouped, rms, i, j, k);
      MergeLookup(items, ListedKey(rms, i, j, k));
    }
  }

  /** A listing of the fold's grouping lists every converted result's group. */
  lemma {:induction false} ListingCoversGroups(items: seq<Item>, rms: seq<ResourceMetrics>)
    requires MergeSafe(items)
    requires ListsResources(rms, Merge(items).grouped)
    ensures GroupsAreListed(rms, items)
  {
    forall n | 0 <= n < |items| && items[n].Converted?
      ensures Listed(rms, KeyOf(items[n]))
    {
      var g := KeyOf(items[n]);
      InGroupMember(items, n, g);
      MergeLookup(items, g);
      StoredIsListed(Merge(items).grouped, rms, g);
    }
  }

  /** A scope entry of non-empty library batches holds a metric, lists no name
      twice and leaves only the zero library unset. */
  lemma ScopeEntryShape(scope: ScopeMetrics, libs: map<Library, map<string, Metric>>)
    requires IsScopeEntry(scope, libs)
    requires forall lib | lib in libs :: libs[lib] != map[]
    ensures |scope.metrics| > 0
    ensures scope.library == LibraryProto(LibraryOf(scope.library))
    ensures forall k, k' | 0 <= k < k' < |scope.metrics| :: scope.metrics[k].name != scope.metrics[k'].name
  {
    var mb := libs[LibraryOf(scope.library)];
    assert ListsMetrics(scope.metrics, mb);
    var name :| name in mb;
    var k0 :| 0 <= k0 < |scope.metrics| && scope.metrics[k0].name == name;
  }

  /** A resource entry of a well-formed batch has the sink's shape. */
  lemma ResourceEntryShape(rm: ResourceMetrics, grouped: Grouped)
    requires WellFormed(grouped)
    requires IsResourceEntry(rm, grouped)
    ensures |rm.scopes| > 0
    ensures forall j | 0 <= j < |rm.scopes| ::
      && |rm.scopes[j].metrics| > 0
      && rm.scopes[j].library == LibraryProto(LibraryOf(rm.scopes[j].library))
    ensures forall j, j' | 0 <= j < j' < |rm.scopes| ::
      LibraryOf(rm.scopes[j].library) != LibraryOf(rm.scopes[j'].library)
    ensures forall j | 0 <= j < |rm.scopes| ::
      forall k, k' | 0 <= k < k' < |rm.scopes[j].metrics| ::
        rm.scopes[j].metrics[k].name != rm.scopes[j].metrics[k'].name
  {
    var rk := Equivalent(rm.resource);
    assert BatchWellFormed(rk, grouped[rk]);
    var libs := grouped[rk].libraries;
    assert ListsScopes(rm.scopes, libs);
    var lib :| lib in libs;
    var j0 :| 0 <= j0 < |rm.scopes| && LibraryOf(rm.scopes[j0].library) == lib;
    forall j | 0 <= j < |rm.scopes|
      ensures |rm.scopes[j].metrics| > 0
      ensures rm.scopes[j].library == LibraryProto(LibraryOf(rm.scopes[j].library))
      ensures forall k, k' | 0 <= k < k' < |rm.scopes[j].metrics| ::
        rm.scopes[j].metrics[k].name != rm.scopes[j].metrics[k'].name
    {
      ScopeEntryShape(rm.scopes[j], libs);
    }
  }

  /** A listing of a well-formed grouping has the sink's tree shape. */
  lemma ListingShape(grouped: Grouped, rms: seq<ResourceMetrics>)
    requires WellFormed(grouped)
    requires ListsResources(rms, grouped)
    ensures TreeShape(rms)
  {
    forall i | 0 <= i < |rms|
      ensures |rms[i].scopes| > 0
      ensures forall j | 0 <= j < |rms[i].scopes| ::
        && |rms[i].scopes[j].metrics| > 0
        && rms[i].scopes[j].library == LibraryProto(LibraryOf(rms[i].scopes[j].library))
      ensures forall j, j' | 0 <= j < j' < |rms[i].scopes| ::
        LibraryOf(rms[i].scopes[j].library) != LibraryOf(rms[i].scopes[j'].library)
      ensures forall j | 0 <= j < |rms[i].scopes| ::
        forall k, k' | 0 <= k < k' < |rms[i].scopes[j].metrics| ::
          rms[i].scopes[j].metrics[k].name != rms[i].scopes[j].metrics[k'].name
    {
      ResourceEntryShape(rms[i], grouped);
    }
  }

  /** A listing of the fold's grouping describes the fold's input. */
  lemma {:induction false} ListingDescribes(items: seq<Item>, rms: seq<ResourceMetrics>)
    requires MergeSafe(items)
    requires ListsResources(rms, Merge(items).grouped)
    ensures Describes(rms, items)
  {
    ListingListsGroups(items, rms);
    ListingCoversGroups(items, rms);
    MergeWellFormed(items);
    ListingShape(Merge(items).grouped, rms);
  }

  /** The aggregate error the sink reports for the collected strings: none when
      nothing was collected, otherwise an `ErrTransforming` wrapper that carries
      the strings and prints them joined by "\n -" after the sentinel's text. */
  function AggregateError(errs: seq<string>): (r: Option<Error>)
    ensures r.None? <==> errs == []
    ensures r.Some? ==> Is(r.value, ErrTransforming)
    ensures r.Some? ==> r.value == TransformingFailures(errs)
    ensures r.Some? ==> Message(r.value) == SentinelText(ErrTransforming) + ":\n -" + Join(errs, "\n -")
  {
    if errs == [] then None else Some(TransformingFailures(errs))
  }

  /** The aggregate error loses no failure: every collected string appears in its
      text. */
  lemma AggregateErrorReportsEach(errs: seq<string>)
    ensures AggregateError(errs).Some? ==>
      forall i | 0 <= i < |errs| :: Occurs(errs[i], Message(AggregateError(errs).value))
  {
    if errs != [] {
      forall i | 0 <= i < |errs|
        ensures Occurs(errs[i], Message(AggregateError(errs).value))
      {
        JoinKeepsParts(errs, "\n -", i);
        OccursAfter(errs[i], SentinelText(ErrTransforming) + ":\n -", Join(errs, "\n -"));
      }
    }
  }

  /** The error the sink reports alongside a tree: the aggregate of the strings it
      should collect. */
  function Reported(items: seq<Item>): Option<Error>
  {
    AggregateError(ErrorStrings(items))
  }

  /** `sink`: folds the results, returns nothing at all when no result converted
      (even if some failed), and otherwise the flattened tree together with an
      `ErrTransforming` aggregate of the collected error strings, if any. */
  method RunSink(items: seq<Item>) returns (tree: Option<seq<ResourceMetrics>>, err: Option<Error>)
    requires ShapesAgree(items)
    ensures tree.None? <==> AllFailed(items)
    ensures tree.None? ==> err.None?
    ensures tree.Some? ==> err == Reported(items)
    ensures tree.Some? ==> Describes(tree.value, items)
  {
    ShapesAgreeMergeSafe(items);
    var s := Merge(items);
    NothingGroupedIffAllFailed(items);
    if |s.grouped| == 0 {
      return None, None;
    }
    MergeWellFormed(items);
    var rms := FlattenResources(s.grouped);
    ListingDescribes(items, rms);
    MergeErrors(items);
    tree := Some(rms);
    err := AggregateError(s.errors);
  }

  /** The error precedence of `CheckpointSet`: an error from the sink wins and
      discards the tree, then the source's terminal error, and only with neither is
      the tree returned. */
  function Reconcile(sinkTree: Option<seq<ResourceMetrics>>, sinkErr: Option<Error>, sourceErr: Option<Error>)
    : (r: (Option<seq<ResourceMetrics>>, Option<Error>))
    ensures r.1 == (if sinkErr.Some? then sinkErr else sourceErr)
    ensures r.1.Some? ==> r.0.None?
    ensures r.1.None? ==> r.0 == sinkTree
  {
    if sinkErr.Some? then (None, sinkErr)
    else if sourceErr.Some? then (None, sourceErr)
    else (sinkTree, None)
  }
}
