/**
 * The provider smoke pass: a queue of models refilled from a catalog that may change on
 * every read, one target at a time, and a report that is authoritative only when every
 * model that was ever eligible ran once and passed.
 */
module SmokeScheduler {
  import opened Wrappers
  import opened SmokeRuns
  import SmokeTarget
  import SmokeVerdicts

  datatype Model = Model(id: string, runtimeId: string, hidden: bool)
  datatype Runtime = Runtime(id: string, canStart: bool, models: seq<Model>)
  datatype Catalog = Catalog(runtimes: seq<Runtime>, models: seq<Model>)

  datatype Options = Options(runtimeIds: seq<string>, modelIds: seq<string>, qualifyAttachments: bool,
                             qualifyReadOnly: bool)

  datatype Target = Target(runtimeId: string, modelId: string)

  datatype Verdict = VerdictPassed | VerdictFailed | VerdictUnattested | VerdictInterrupted
  datatype Qualification = QualificationPassed | QualificationUnsupported | QualificationFailed

  datatype Result = Result(modelId: string, runStatus: Option<RunStatus>, verdict: Verdict,
                           attachments: Option<Qualification>)

  /** The report's errors, by kind; their words are not part of the model. */
  datatype Error =
    | InterruptedBySignal | SafetyLimit | NotContained | NothingMatched | Stopped
    | ShutdownFailed | PersistenceFailed | RepositoryChanged

  // ----- Discovering targets -----

  predicate Selected(filter: seq<string>, id: string) {
    filter == [] || id in filter
  }

  function ModelTargets(runtimeId: string, models: seq<Model>, options: Options, excluded: set<string>): seq<Target> {
    if models == [] then []
    else
      (if !models[0].hidden && models[0].id !in excluded && Selected(options.modelIds, models[0].id)
       then [Target(runtimeId, models[0].id)] else []) + ModelTargets(runtimeId, models[1..], options, excluded)
  }

  function RuntimeTargets(runtimes: seq<Runtime>, options: Options, excluded: set<string>): seq<Target> {
    if runtimes == [] then []
    else
      (if runtimes[0].canStart && Selected(options.runtimeIds, runtimes[0].id)
       then ModelTargets(runtimes[0].id, runtimes[0].models, options, excluded) else [])
       + RuntimeTargets(runtimes[1..], options, excluded)
  }

  /** `rank` stands for the locale's order of names. */
  predicate Before(a: Target, b: Target, rank: string -> real) {
    rank(a.runtimeId) < rank(b.runtimeId) ||
    (rank(a.runtimeId) == rank(b.runtimeId) && rank(a.modelId) <= rank(b.modelId))
  }

  function Insert(t: Target, queue: seq<Target>, rank: string -> real): seq<Target> {
    if queue == [] || Before(t, queue[0], rank) then [t] + queue else [queue[0]] + Insert(t, queue[1..], rank)
  }

  /** The queue in order; targets that rank alike keep theirs. */
  function Sort(queue: seq<Target>, rank: string -> real): seq<Target> {
    if queue == [] then [] else Insert(queue[0], Sort(queue[1..], rank), rank)
  }

  function DiscoverProviderSmokeTargets(catalog: Catalog, options: Options, excluded: set<string>,
                                        rank: string -> real): seq<Target> {
    Sort(RuntimeTargets(catalog.runtimes, options, excluded), rank)
  }

  ghost function Ids(queue: seq<Target>): set<string> {
    set t | t in queue :: t.modelId
  }

  ghost predicate Distinct(queue: seq<Target>) {
    queue != [] ==> queue[0].modelId !in Ids(queue[1..]) && Distinct(queue[1..])
  }

  ghost predicate Sorted(queue: seq<Target>, rank: string -> real) {
    queue != [] ==> (forall t :: t in queue[1..] ==> Before(queue[0], t, rank)) && Sorted(queue[1..], rank)
  }

  lemma IdsConcat(first: seq<Target>, second: seq<Target>)
    ensures Ids(first + second) == Ids(first) + Ids(second)
  {
    assert forall t :: t in first + second <==> t in first || t in second;
  }

  /**
   * What a discovered target is: a startable, selected runtime's visible, selected model that has
   * not been excluded.
   */
  ghost predicate Discoverable(catalog: Catalog, options: Options, excluded: set<string>, t: Target) {
    exists r, m :: r in catalog.runtimes && r.canStart && Selected(options.runtimeIds, r.id) && r.id == t.runtimeId &&
                   m in r.models && !m.hidden && Selected(options.modelIds, m.id) && m.id == t.modelId &&
                   m.id !in excluded
  }

  lemma {:induction false} ModelTargetsAre(runtimeId: string, models: seq<Model>, options: Options,
                                           excluded: set<string>, t: Target)
    ensures t in ModelTargets(runtimeId, models, options, excluded) <==>
            t.runtimeId == runtimeId && t.modelId !in excluded && Selected(options.modelIds, t.modelId) &&
            exists m :: m in models && !m.hidden && m.id == t.modelId
    decreases |models|
  {
    if models != [] {
      ModelTargetsAre(runtimeId, models[1..], options, excluded, t);
      assert forall m :: m in models <==> m == models[0] || m in models[1..];
    }
  }

  lemma {:induction false} RuntimeTargetsAre(runtimes: seq<Runtime>, options: Options, excluded: set<string>, t: Target)
    ensures t in RuntimeTargets(runtimes, options, excluded) <==>
            exists r :: r in runtimes && r.canStart && Selected(options.runtimeIds, r.id) &&
                        t in ModelTargets(r.id, r.models, options, excluded)
    decreases |runtimes|
  {
    if runtimes != [] {
      RuntimeTargetsAre(runtimes[1..], options, excluded, t);
      assert forall r :: r in runtimes <==> r == runtimes[0] || r in runtimes[1..];
    }
  }

  lemma {:induction false} InsertReorders(t: Target, queue: seq<Target>, rank: string -> real)
    ensures multiset(Insert(t, queue, rank)) == multiset(queue) + multiset{t}
    decreases |queue|
  {
    if queue != [] && !Before(t, queue[0], rank) {
      InsertReorders(t, queue[1..], rank);
      assert queue == [queue[0]] + queue[1..];
    }
  }

  lemma InsertMembers(t: Target, queue: seq<Target>, rank: string -> real)
    ensures multiset(Insert(t, queue, rank)) == multiset(queue) + multiset{t}
    ensures forall u :: u in Insert(t, queue, rank) <==> u == t || u in queue
    ensures Ids(Insert(t, queue, rank)) == Ids(queue) + {t.modelId}
  {
    var inserted := Insert(t, queue, rank);
    InsertReorders(t, queue, rank);
    assert forall u :: u in inserted <==> u in multiset(inserted);
    assert forall u :: u in queue <==> u in multiset(queue);
  }

  lemma {:induction false} InsertSorted(t: Target, queue: seq<Target>, rank: string -> real)
    requires Sorted(queue, rank)
    ensures Sorted(Insert(t, queue, rank), rank)
    decreases |queue|
  {
    if queue == [] || Before(t, queue[0], rank) {
      assert ([t] + queue)[1..] == queue;
      assert forall u :: u in queue ==> u == queue[0] || u in queue[1..];
    } else {
      var rest := Insert(t, queue[1..], rank);
      InsertSorted(t, queue[1..], rank);
      InsertMembers(t, queue[1..], rank);
      assert ([queue[0]] + rest)[1..] == rest;
    }
  }

  lemma {:induction false} InsertDistinct(t: Target, queue: seq<Target>, rank: string -> real)
    requires Distinct(queue) && t.modelId !in Ids(queue)
    ensures Distinct(Insert(t, queue, rank))
    decreases |queue|
  {
    if queue == [] || Before(t, queue[0], rank) {
      assert ([t] + queue)[1..] == queue;
    } else {
      var rest := Insert(t, queue[1..], rank);
      assert queue == [queue[0]] + queue[1..];
      IdsConcat([queue[0]], queue[1..]);
      InsertDistinct(t, queue[1..], rank);
      InsertMembers(t, queue[1..], rank);
      assert ([queue[0]] + rest)[1..] == rest;
    }
  }

  /** Sorting only reorders. */
  lemma {:induction false} SortMembers(queue: seq<Target>, rank: string -> real)
    ensures multiset(Sort(queue, rank)) == multiset(queue)
    ensures forall t :: t in Sort(queue, rank) <==> t in queue
    ensures Ids(Sort(queue, rank)) == Ids(queue)
    decreases |queue|
  {
    if queue != [] {
      SortMembers(queue[1..], rank);
      assert queue == [queue[0]] + queue[1..];
      InsertMembers(queue[0], Sort(queue[1..], rank), rank);
    }
  }

  /** What sorting gives is in order. */
  lemma {:induction false} SortSorted(queue: seq<Target>, rank: string -> real)
    ensures Sorted(Sort(queue, rank), rank)
    decreases |queue|
  {
    if queue != [] {
      SortSorted(queue[1..], rank);
      InsertSorted(queue[0], Sort(queue[1..], rank), rank);
    }
  }

  /** So a target comes before another only if its runtime does, or it is of the same one and its model does. */
  lemma {:induction false} SortedPairs(queue: seq<Target>, rank: string -> real, i: nat, j: nat)
    requires Sorted(queue, rank) && i < j < |queue|
    ensures var a, b := queue[i], queue[j];
            rank(a.runtimeId) <= rank(b.runtimeId) &&
            (rank(a.runtimeId) == rank(b.runtimeId) ==> rank(a.modelId) <= rank(b.modelId))
    decreases |queue|
  {
    if i > 0 {
      SortedPairs(queue[1..], rank, i - 1, j - 1);
    } else {
      assert queue[j] in queue[1..];
    }
  }

  lemma {:induction false} SortDistinct(queue: seq<Target>, rank: string -> real)
    requires Distinct(queue)
    ensures Distinct(Sort(queue, rank))
    decreases |queue|
  {
    if queue != [] {
      SortDistinct(queue[1..], rank);
      SortMembers(queue[1..], rank);
      InsertDistinct(queue[0], Sort(queue[1..], rank), rank);
    }
  }

  lemma {:induction false} AppendDistinct(queue: seq<Target>, t: Target)
    requires Distinct(queue) && t.modelId !in Ids(queue)
    ensures Distinct(queue + [t])
    decreases |queue|
  {
    if queue == [] {
      assert [t][1..] == [];
    } else {
      assert (queue + [t])[1..] == queue[1..] + [t];
      assert queue == [queue[0]] + queue[1..];
      IdsConcat([queue[0]], queue[1..]);
      IdsConcat(queue[1..], [t]);
      AppendDistinct(queue[1..], t);
    }
  }

  /** Exactly the discoverable targets are discovered. */
  lemma DiscoveredAre(catalog: Catalog, options: Options, excluded: set<string>, rank: string -> real, t: Target)
    ensures t in DiscoverProviderSmokeTargets(catalog, options, excluded, rank) <==>
              Discoverable(catalog, options, excluded, t)
  {
    SortMembers(RuntimeTargets(catalog.runtimes, options, excluded), rank);
    RuntimeTargetsAre(catalog.runtimes, options, excluded, t);
    forall r | r in catalog.runtimes
      ensures t in ModelTargets(r.id, r.models, options, excluded) <==>
              t.runtimeId == r.id && t.modelId !in excluded && Selected(options.modelIds, t.modelId) &&
              exists m :: m in r.models && !m.hidden && m.id == t.modelId
    {
      ModelTargetsAre(r.id, r.models, options, excluded, t);
    }
  }

  // ----- The queue -----

  ghost predicate QueueInv(completed: set<string>, queued: set<string>, eligible: set<string>, queue: seq<Target>) {
    && queued == Ids(queue) && Distinct(queue) && completed !! queued && eligible == completed + queued
  }

  /** Every model the catalog offers for the selection is eligible. */
  ghost predicate Covers(eligible: set<string>, catalog: Catalog, options: Options) {
    forall t :: Discoverable(catalog, options, {}, t) ==> t.modelId in eligible
  }

  lemma DiscoveredCovers(catalog: Catalog, options: Options, completed: set<string>, rank: string -> real,
                         eligible: set<string>)
    requires completed <= eligible && Ids(DiscoverProviderSmokeTargets(catalog, options, completed, rank)) <= eligible
    ensures Covers(eligible, catalog, options)
  {
    var targets := DiscoverProviderSmokeTargets(catalog, options, completed, rank);
    forall t | Discoverable(catalog, options, {}, t) ensures t.modelId in eligible {
      if t.modelId !in completed {
        assert Discoverable(catalog, options, completed, t);
        DiscoveredAre(catalog, options, completed, rank, t);
        assert t.modelId in Ids(targets);
      }
    }
  }

  lemma QueueOneMore(completed: set<string>, queued: set<string>, eligible: set<string>, queue: seq<Target>, t: Target)
    requires QueueInv(completed, queued, eligible, queue) && t.modelId !in completed
    ensures t.modelId in queued ==> eligible + {t.modelId} == eligible
    ensures t.modelId !in queued ==>
              QueueInv(completed, queued + {t.modelId}, eligible + {t.modelId}, queue + [t])
  {
    if t.modelId !in queued {
      IdsConcat(queue, [t]);
      AppendDistinct(queue, t);
    }
  }

  lemma SortKeepsQueue(completed: set<string>, queued: set<string>, eligible: set<string>, queue: seq<Target>,
                       rank: string -> real)
    requires QueueInv(completed, queued, eligible, queue)
    ensures QueueInv(completed, queued, eligible, Sort(queue, rank)) && Sorted(Sort(queue, rank), rank)
    ensures forall t :: t in Sort(queue, rank) <==> t in queue
  {
    SortMembers(queue, rank);
    SortSorted(queue, rank);
    SortDistinct(queue, rank);
  }

  /** Queues each of the targets that is not queued yet. */
  method EnqueueAll(targets: seq<Target>, ghost completed: set<string>, queued0: set<string>, eligible0: set<string>,
                    queue0: seq<Target>)
    returns (queued: set<string>, eligible: set<string>, queue: seq<Target>)
    requires QueueInv(completed, queued0, eligible0, queue0)
    requires forall t :: t in targets ==> t.modelId !in completed
    ensures QueueInv(completed, queued, eligible, queue) && eligible == eligible0 + Ids(targets)
    ensures forall t :: t in queue0 ==> t in queue
    ensures forall t :: t in queue ==> t in queue0 || t in targets
  {
    queued, eligible, queue := queued0, eligible0, queue0;
    assert targets[..0] == [];
    for i := 0 to |targets|
      invariant QueueInv(completed, queued, eligible, queue) && eligible == eligible0 + Ids(targets[..i])
      invariant forall t :: t in queue0 ==> t in queue
      invariant forall t :: t in queue ==> t in queue0 || t in targets
    {
      var target := targets[i];
      assert targets[..i + 1] == targets[..i] + [target];
      IdsConcat(targets[..i], [target]);
      QueueOneMore(completed, queued, eligible, queue, target);
      eligible := eligible + {target.modelId};
      if target.modelId in queued { continue; }
      queued := queued + {target.modelId};
      queue := queue + [target];
    }
    assert targets[..|targets|] == targets;
  }

  /** Adds what the catalog offers and has neither completed nor been queued; eligible models are never forgotten. */
  method EnqueueTargets(catalog: Catalog, options: Options, rank: string -> real,
                        completed: set<string>, queued0: set<string>, eligible0: set<string>, queue0: seq<Target>)
    returns (queued: set<string>, eligible: set<string>, queue: seq<Target>)
    requires QueueInv(completed, queued0, eligible0, queue0)
    ensures QueueInv(completed, queued, eligible, queue) && Sorted(queue, rank)
    ensures eligible == eligible0 + Ids(DiscoverProviderSmokeTargets(catalog, options, completed, rank))
    ensures Covers(eligible, catalog, options)
    ensures forall t :: t in queue0 ==> t in queue
    ensures forall t :: t in queue ==> t in queue0 || Discoverable(catalog, options, completed, t)
  {
    var targets := DiscoverProviderSmokeTargets(catalog, options, completed, rank);
    forall t | t in targets ensures Discoverable(catalog, options, completed, t) {
      DiscoveredAre(catalog, options, completed, rank, t);
    }
    queued, eligible, queue := EnqueueAll(targets, completed, queued0, eligible0, queue0);
    DiscoveredCovers(catalog, options, completed, rank, eligible);
    SortKeepsQueue(completed, queued, eligible, queue, rank);
    queue := Sort(queue, rank);
  }

  // ----- What the catalogs offer -----

  /** One of the catalogs offers the target for the selection. */
  ghost predicate Offered(catalogs: seq<Catalog>, options: Options, t: Target) {
    exists i :: 0 <= i < |catalogs| && Discoverable(catalogs[i], options, {}, t)
  }

  ghost predicate OffersModel(catalogs: seq<Catalog>, options: Options, id: string) {
    exists t: Target :: t.modelId == id && Offered(catalogs, options, t)
  }

  /** The models are exactly those the catalogs offer for the selection. */
  ghost predicate OfferedModels(catalogs: seq<Catalog>, options: Options, ids: set<string>) {
    forall id :: id in ids <==> OffersModel(catalogs, options, id)
  }

  ghost predicate EachOffered(catalogs: seq<Catalog>, options: Options, targets: seq<Target>) {
    forall t :: t in targets ==> Offered(catalogs, options, t)
  }

  ghost predicate CoversAll(eligible: set<string>, catalogs: seq<Catalog>, options: Options) {
    forall i :: 0 <= i < |catalogs| ==> Covers(eligible, catalogs[i], options)
  }

  lemma OfferedOn(catalogs: seq<Catalog>, more: seq<Catalog>, options: Options, t: Target)
    requires Offered(catalogs, options, t)
    ensures Offered(catalogs + more, options, t)
  {
    var i :| 0 <= i < |catalogs| && Discoverable(catalogs[i], options, {}, t);
    assert (catalogs + more)[i] == catalogs[i];
  }

  /** A queue refilled from one more catalog. */
  lemma RefilledOffered(catalogs: seq<Catalog>, catalog: Catalog, options: Options, excluded: set<string>,
                        queue0: seq<Target>, queue: seq<Target>)
    requires EachOffered(catalogs, options, queue0)
    requires forall t :: t in queue ==> t in queue0 || Discoverable(catalog, options, excluded, t)
    ensures EachOffered(catalogs + [catalog], options, queue)
  {
    forall t | t in queue ensures Offered(catalogs + [catalog], options, t) {
      if t in queue0 {
        OfferedOn(catalogs, [catalog], options, t);
      } else {
        assert (catalogs + [catalog])[|catalogs|] == catalog;
      }
    }
  }

  lemma CoversOneMore(eligible: set<string>, more: set<string>, catalogs: seq<Catalog>, catalog: Catalog,
                      options: Options)
    requires CoversAll(eligible, catalogs, options) && eligible <= more && Covers(more, catalog, options)
    ensures CoversAll(more, catalogs + [catalog], options)
  {
    forall i | 0 <= i < |catalogs| ensures Covers(more, catalogs[i], options) {
      assert Covers(eligible, catalogs[i], options);
    }
  }

  // ----- The selection audit -----

  function RememberRuntimes(runtimes: seq<Runtime>, known: map<string, Runtime>): map<string, Runtime> {
    if runtimes == [] then known else RememberRuntimes(runtimes[1..], known[runtimes[0].id := runtimes[0]])
  }

  function RememberModels(models: seq<Model>, known: map<string, Model>): map<string, Model> {
    if models == [] then known else RememberModels(models[1..], known[models[0].id := models[0]])
  }

  /** All the runtimes that the catalogs list, in the order they were read. */
  function AllRuntimes(catalogs: seq<Catalog>): seq<Runtime> {
    if catalogs == [] then []
    else AllRuntimes(catalogs[..|catalogs| - 1]) + catalogs[|catalogs| - 1].runtimes
  }

  function AllModels(catalogs: seq<Catalog>): seq<Model> {
    if catalogs == [] then [] else AllModels(catalogs[..|catalogs| - 1]) + catalogs[|catalogs| - 1].models
  }

  /** The runtime is listed so, and none with its id is listed later. */
  ghost predicate LastRuntime(runtimes: seq<Runtime>, r: Runtime) {
    exists i :: 0 <= i < |runtimes| && runtimes[i] == r && forall j :: i < j < |runtimes| ==> runtimes[j].id != r.id
  }

  ghost predicate LastModel(models: seq<Model>, m: Model) {
    exists i :: 0 <= i < |models| && models[i] == m && forall j :: i < j < |models| ==> models[j].id != m.id
  }

  ghost predicate Listed(runtimes: seq<Runtime>, id: string) {
    exists r :: r in runtimes && r.id == id
  }

  ghost predicate ListedModel(models: seq<Model>, id: string) {
    exists m :: m in models && m.id == id
  }

  /** A runtime is remembered as it was listed last. */
  lemma {:induction false} RemembersRuntime(runtimes: seq<Runtime>, known: map<string, Runtime>, id: string)
    ensures var after := RememberRuntimes(runtimes, known);
            && (id in after <==> id in known || Listed(runtimes, id))
            && (id in after ==> if Listed(runtimes, id) then LastRuntime(runtimes, after[id]) && after[id].id == id
                                else after[id] == known[id])
    decreases |runtimes|
  {
    if runtimes != [] {
      var first, rest := runtimes[0], runtimes[1..];
      RemembersRuntime(rest, known[first.id := first], id);
      assert Listed(runtimes, id) <==> first.id == id || Listed(rest, id);
      if Listed(rest, id) {
        var last := RememberRuntimes(runtimes, known)[id];
        var i :| 0 <= i < |rest| && rest[i] == last && forall j :: i < j < |rest| ==> rest[j].id != last.id;
        assert runtimes[i + 1] == last;
      }
    }
  }

  lemma {:induction false} RemembersModel(models: seq<Model>, known: map<string, Model>, id: string)
    ensures var after := RememberModels(models, known);
            && (id in after <==> id in known || ListedModel(models, id))
            && (id in after ==> if ListedModel(models, id) then LastModel(models, after[id]) && after[id].id == id
                                else after[id] == known[id])
    decreases |models|
  {
    if models != [] {
      var first, rest := models[0], models[1..];
      RemembersModel(rest, known[first.id := first], id);
      assert ListedModel(models, id) <==> first.id == id || ListedModel(rest, id);
      if ListedModel(rest, id) {
        var last := RememberModels(models, known)[id];
        var i :| 0 <= i < |rest| && rest[i] == last && forall j :: i < j < |rest| ==> rest[j].id != last.id;
        assert models[i + 1] == last;
      }
    }
  }

  function ModelIds(results: seq<Result>): set<string> {
    set r | r in results :: r.modelId
  }

  predicate RuntimeStarts(runtimes: map<string, Runtime>, id: string) {
    id in runtimes && runtimes[id].canStart
  }

  /** Whether any of the audit's lists of what was asked for and not run is not empty. */
  predicate SelectionIncomplete(options: Options, runtimes: map<string, Runtime>, models: map<string, Model>,
                                eligible: set<string>, executed: set<string>) {
    || (exists id :: id in options.runtimeIds && id !in runtimes)
    || (exists id :: id in options.modelIds && id !in models)
    || (exists id :: id in options.runtimeIds && id in runtimes && !runtimes[id].canStart)
    || (exists id :: id in options.modelIds && id in models && id !in executed &&
                     (!RuntimeStarts(runtimes, models[id].runtimeId) || models[id].hidden))
    || eligible - executed != {}
  }

  /** The runtimes and models known are those the catalogs list, each as it was listed last. */
  ghost predicate Knows(catalogs: seq<Catalog>, runtimes: map<string, Runtime>, models: map<string, Model>) {
    && (forall id :: id in runtimes <==> Listed(AllRuntimes(catalogs), id))
    && (forall id :: id in models <==> ListedModel(AllModels(catalogs), id))
    && (forall id :: id in runtimes ==> LastRuntime(AllRuntimes(catalogs), runtimes[id]) && runtimes[id].id == id)
    && (forall id :: id in models ==> LastModel(AllModels(catalogs), models[id]) && models[id].id == id)
  }

  lemma LastRuntimeOn(before: seq<Runtime>, after: seq<Runtime>, r: Runtime)
    requires LastRuntime(if Listed(after, r.id) then after else before, r)
    ensures LastRuntime(before + after, r)
  {
    var from := if Listed(after, r.id) then after else before;
    var i :| 0 <= i < |from| && from[i] == r && forall j :: i < j < |from| ==> from[j].id != r.id;
    var k := if Listed(after, r.id) then |before| + i else i;
    assert (before + after)[k] == r;
    assert forall j :: |before| <= j < |before + after| ==> (before + after)[j] in after;
  }

  lemma LastModelOn(before: seq<Model>, after: seq<Model>, m: Model)
    requires LastModel(if ListedModel(after, m.id) then after else before, m)
    ensures LastModel(before + after, m)
  {
    var from := if ListedModel(after, m.id) then after else before;
    var i :| 0 <= i < |from| && from[i] == m && forall j :: i < j < |from| ==> from[j].id != m.id;
    var k := if ListedModel(after, m.id) then |before| + i else i;
    assert (before + after)[k] == m;
    assert forall j :: |before| <= j < |before + after| ==> (before + after)[j] in after;
  }

  lemma RuntimesKnown(before: seq<Runtime>, listed: seq<Runtime>, known: map<string, Runtime>)
    requires forall id :: id in known <==> Listed(before, id)
    requires forall id :: id in known ==> LastRuntime(before, known[id]) && known[id].id == id
    ensures var after := RememberRuntimes(listed, known);
            && (forall id :: id in after <==> Listed(before + listed, id))
            && (forall id :: id in after ==> LastRuntime(before + listed, after[id]) && after[id].id == id)
  {
    var after := RememberRuntimes(listed, known);
    forall id ensures id in after <==> Listed(before + listed, id) {
      RemembersRuntime(listed, known, id);
      assert forall r :: r in before + listed <==> r in before || r in listed;
    }
    forall id | id in after ensures LastRuntime(before + listed, after[id]) && after[id].id == id {
      RemembersRuntime(listed, known, id);
      LastRuntimeOn(before, listed, after[id]);
    }
  }

  lemma ModelsKnown(before: seq<Model>, listed: seq<Model>, known: map<string, Model>)
    requires forall id :: id in known <==> ListedModel(before, id)
    requires forall id :: id in known ==> LastModel(before, known[id]) && known[id].id == id
    ensures var after := RememberModels(listed, known);
            && (forall id :: id in after <==> ListedModel(before + listed, id))
            && (forall id :: id in after ==> LastModel(before + listed, after[id]) && after[id].id == id)
  {
    var after := RememberModels(listed, known);
    forall id ensures id in after <==> ListedModel(before + listed, id) {
      RemembersModel(listed, known, id);
      assert forall m :: m in before + listed <==> m in before || m in listed;
    }
    forall id | id in after ensures LastModel(before + listed, after[id]) && after[id].id == id {
      RemembersModel(listed, known, id);
      LastModelOn(before, listed, after[id]);
    }
  }

  lemma KnownOneMore(catalogs: seq<Catalog>, catalog: Catalog, runtimes: map<string, Runtime>,
                     models: map<string, Model>)
    requires Knows(catalogs, runtimes, models)
    ensures Knows(catalogs + [catalog], RememberRuntimes(catalog.runtimes, runtimes),
                  RememberModels(catalog.models, models))
  {
    assert (catalogs + [catalog])[..|catalogs|] == catalogs;
    RuntimesKnown(AllRuntimes(catalogs), catalog.runtimes, runtimes);
    ModelsKnown(AllModels(catalogs), catalog.models, models);
  }

  /** The runtime can be started, as it was listed last. */
  ghost predicate Starts(catalogs: seq<Catalog>, id: string) {
    exists r :: LastRuntime(AllRuntimes(catalogs), r) && r.id == id && r.canStart
  }

  /** The model is hidden, as it was listed last, or its runtime cannot be started. */
  ghost predicate Withheld(catalogs: seq<Catalog>, id: string) {
    exists m :: LastModel(AllModels(catalogs), m) && m.id == id && (m.hidden || !Starts(catalogs, m.runtimeId))
  }

  /**
   * Something asked for did not run: a runtime that no catalog lists or that cannot be started, a model
   * that no catalog lists, one withheld that did not run, or one offered for the selection that did not.
   */
  ghost predicate Missed(catalogs: seq<Catalog>, options: Options, executed: set<string>) {
    || (exists id :: id in options.runtimeIds && !Starts(catalogs, id))
    || (exists id :: id in options.modelIds && !ListedModel(AllModels(catalogs), id))
    || (exists id :: id in options.modelIds && id !in executed && Withheld(catalogs, id))
    || (exists id :: OffersModel(catalogs, options, id) && id !in executed)
  }

  lemma LastRuntimeIsOne(runtimes: seq<Runtime>, r: Runtime, s: Runtime)
    requires LastRuntime(runtimes, r) && LastRuntime(runtimes, s) && r.id == s.id
    ensures r == s
  {
  }

  lemma LastModelIsOne(models: seq<Model>, m: Model, n: Model)
    requires LastModel(models, m) && LastModel(models, n) && m.id == n.id
    ensures m == n
  {
  }

  lemma StartsIff(catalogs: seq<Catalog>, runtimes: map<string, Runtime>, models: map<string, Model>, id: string)
    requires Knows(catalogs, runtimes, models)
    ensures Starts(catalogs, id) <==> RuntimeStarts(runtimes, id)
  {
    if r :| LastRuntime(AllRuntimes(catalogs), r) && r.id == id && r.canStart {
      assert Listed(AllRuntimes(catalogs), id);
      LastRuntimeIsOne(AllRuntimes(catalogs), r, runtimes[id]);
    }
  }

  lemma WithheldIff(catalogs: seq<Catalog>, runtimes: map<string, Runtime>, models: map<string, Model>, id: string)
    requires Knows(catalogs, runtimes, models)
    ensures Withheld(catalogs, id) <==>
              id in models && (!RuntimeStarts(runtimes, models[id].runtimeId) || models[id].hidden)
  {
    if m :| LastModel(AllModels(catalogs), m) && m.id == id && (m.hidden || !Starts(catalogs, m.runtimeId)) {
      assert ListedModel(AllModels(catalogs), id);
      LastModelIsOne(AllModels(catalogs), m, models[id]);
    }
    if id in models { StartsIff(catalogs, runtimes, models, models[id].runtimeId); }
  }

  /** The audit finds a selection incomplete exactly where something asked for did not run. */
  lemma IncompleteIff(catalogs: seq<Catalog>, options: Options, runtimes: map<string, Runtime>,
                      models: map<string, Model>, eligible: set<string>, executed: set<string>)
    requires Knows(catalogs, runtimes, models) && OfferedModels(catalogs, options, eligible)
    ensures SelectionIncomplete(options, runtimes, models, eligible, executed) <==> Missed(catalogs, options, executed)
  {
    forall id ensures Starts(catalogs, id) <==> RuntimeStarts(runtimes, id) {
      StartsIff(catalogs, runtimes, models, id);
    }
    forall id ensures Withheld(catalogs, id) <==>
                        id in models && (!RuntimeStarts(runtimes, models[id].runtimeId) || models[id].hidden)
    {
      WithheldIff(catalogs, runtimes, models, id);
    }
    assert eligible - executed != {} <==> exists id :: id in eligible && id !in executed;
  }

  const ASKED := Options(["a"], ["m", "n"], false, false)
  const OFFERED := Catalog([Runtime("a", true, [Model("n", "a", false)]), Runtime("b", true, [Model("m", "b", false)])],
                           [Model("n", "a", false), Model("m", "b", false)])

  lemma OnlyOneOffered(t: Target)
    ensures Discoverable(OFFERED, ASKED, {}, t) <==> t == Target("a", "n")
  {
    assert OFFERED.runtimes[0] in OFFERED.runtimes && OFFERED.runtimes[0].models[0] in OFFERED.runtimes[0].models;
  }

  lemma AllOfOne(catalog: Catalog)
    ensures AllRuntimes([catalog]) == catalog.runtimes && AllModels([catalog]) == catalog.models
  {
    assert [catalog][..0] == [];
  }

  lemma LastOfTwo(r: Runtime, s: Runtime)
    requires r.id != s.id
    ensures LastRuntime([r, s], r) && LastRuntime([r, s], s)
  {
    assert [r, s][0] == r && [r, s][1] == s;
  }

  lemma BothStart()
    ensures Starts([OFFERED], "a") && Starts([OFFERED], "b")
  {
    AllOfOne(OFFERED);
    LastOfTwo(OFFERED.runtimes[0], OFFERED.runtimes[1]);
  }

  lemma BothListed()
    ensures ListedModel(AllModels([OFFERED]), "m") && ListedModel(AllModels([OFFERED]), "n")
  {
    AllOfOne(OFFERED);
    assert OFFERED.models[0] in OFFERED.models && OFFERED.models[1] in OFFERED.models;
  }

  lemma NoneWithheld(catalogs: seq<Catalog>, id: string)
    requires forall m :: m in AllModels(catalogs) ==> !m.hidden && Starts(catalogs, m.runtimeId)
    ensures !Withheld(catalogs, id)
  {
  }

  lemma OneModelOffered(id: string)
    ensures OffersModel([OFFERED], ASKED, id) <==> id == "n"
  {
    forall t ensures Offered([OFFERED], ASKED, t) <==> t == Target("a", "n") {
      OnlyOneOffered(t);
      assert [OFFERED][0] == OFFERED;
    }
    assert Offered([OFFERED], ASKED, Target("a", "n"));
  }

  lemma NotWithheld()
    ensures !Withheld([OFFERED], "m")
  {
    BothStart();
    AllOfOne(OFFERED);
    NoneWithheld([OFFERED], "m");
  }

  /**
   * Runtime a and the models m and n are asked for, and m is offered by runtime b alone: nothing
   * asked for is missed where n alone has run, although m is not offered for the selection.
   */
  lemma AskedNotOffered()
    ensures "m" in ASKED.modelIds && !OffersModel([OFFERED], ASKED, "m") && OffersModel([OFFERED], ASKED, "n")
    ensures !Missed([OFFERED], ASKED, {"n"})
  {
    OneModelOffered("m");
    OneModelOffered("n");
    BothStart();
    BothListed();
    NotWithheld();
    forall id ensures OffersModel([OFFERED], ASKED, id) ==> id == "n" { OneModelOffered(id); }
  }

  // ----- The pass -----

  /**
   * What one turn of the pass meets; nothing about it is assumed. `interruptedInRun` says
   * that a signal came before the verdict, `evidencePassed` that the worktree, the reply and
   * the attachments are as they should be, and `attested` that the selection was observed.
   */
  datatype Turn = Turn(
    events: seq<SmokeTarget.Event>, evidencePassed: bool, attested: bool, attachments: Option<Qualification>,
    interruptedInRun: bool, interruptedAfterRun: bool, repositoryClean: bool, identityUnchanged: bool,
    catalog: Option<Catalog>, interruptedInCatalog: bool)

  /** What surrounds the turns; a catalog is None when reading it fails. */
  datatype Surroundings = Surroundings(
    setUp: bool, catalog: Option<Catalog>, activated: bool, activatedCatalog: Option<Catalog>,
    retriedCatalog: Option<Catalog>,
    interrupted: bool, qualifications: Option<seq<Qualification>>, qualifiedCleanly: bool,
    shutdownFine: bool, persistenceFine: bool, repositoryClean: bool, identityUnchanged: bool)

  datatype Report = Report(
    stoppedEarly: bool, authoritative: bool, errors: set<Error>, results: seq<Result>, readOnly: seq<Qualification>,
    runtimes: map<string, Runtime>, models: map<string, Model>, eligible: set<string>, selectionIncomplete: bool)

  /** A target's flow to its end: whatever happened, its deadlines pass at last. */
  function RunTarget(turn: Turn): (t: SmokeTarget.Target)
    ensures t.outer.Returned? && (t.outer.safe ==> SmokeTarget.Over(t))
  {
    SmokeTarget.InitialInv();
    SmokeTarget.ExecKeeps(SmokeTarget.Initial(), turn.events);
    SmokeTarget.AlwaysReturns(SmokeTarget.Exec(SmokeTarget.Initial(), turn.events));
    SmokeTarget.ExecKeeps(SmokeTarget.Exec(SmokeTarget.Initial(), turn.events), SmokeTarget.Deadlines());
    SmokeTarget.Exec(SmokeTarget.Exec(SmokeTarget.Initial(), turn.events), SmokeTarget.Deadlines())
  }

  /** What a target's own result says: it passes only over a completed run that nothing disturbed. */
  function Evaluate(turn: Turn, ended: SmokeTarget.Target): Verdict
    requires ended.outer.Returned?
  {
    var run := ended.outer.run;
    if turn.interruptedInRun then VerdictInterrupted
    else if run.Some? && run.value.status == Completed && turn.evidencePassed && !ended.timedOut &&
            !ended.unexpectedInteraction
            && (ended.snapshot.Some? ==> run.value.id !in ended.snapshot.value.interactions) then
      if turn.attested then VerdictPassed else VerdictUnattested
    else VerdictFailed
  }

  function RunStatusOf(t: SmokeTarget.Target): Option<RunStatus>
    requires t.outer.Returned?
  {
    if t.outer.run.Some? then Some(t.outer.run.value.status) else None
  }

  /** A launched target, as it stood when the pass went on, and the catalog read then, if one was. */
  datatype Launch = Launch(target: Target, ended: SmokeTarget.Target, read: seq<Catalog>)

  /** The result is about the target launched, and carries the status of the run it was judged by. */
  predicate ResultOf(result: Result, launch: Launch) {
    && result.modelId == launch.target.modelId && launch.ended.outer.Returned?
    && if launch.ended.outer.run.Some? then result.runStatus == Some(launch.ended.outer.run.value.status)
       else result.runStatus.None?
  }

  predicate EachOver(launches: seq<Launch>) {
    forall i :: 0 <= i < |launches| ==> SmokeTarget.Over(launches[i].ended)
  }

  /** The target is over, and the run its task has is completed. */
  predicate RanToEnd(ended: SmokeTarget.Target) {
    SmokeTarget.Over(ended) && ended.actual.Some? && ended.actual.value.status == Completed
  }

  predicate EachRanToEnd(launches: seq<Launch>) {
    forall i :: 0 <= i < |launches| ==> RanToEnd(launches[i].ended)
  }

  /**
   * No task is left with a run at work, but for one whose start was rejected and that no one looked
   * for with success.
   */
  predicate EachContained(launches: seq<Launch>) {
    forall i :: 0 <= i < |launches| ==>
      SmokeTarget.RunContained(launches[i].ended) || SmokeTarget.Unseen(launches[i].ended)
  }

  predicate OnceEach(results: seq<Result>) {
    forall i, j :: 0 <= i < j < |results| ==> results[i].modelId != results[j].modelId
  }

  predicate AllPassed(results: seq<Result>) {
    forall i :: 0 <= i < |results| ==> results[i].verdict == VerdictPassed
  }

  predicate Qualified(q: Option<Qualification>) {
    q == Some(QualificationPassed) || q == Some(QualificationUnsupported)
  }

  /** Where the pass stands between two targets. */
  datatype Pass = Pass(
    results: seq<Result>, completed: set<string>, eligible: set<string>, errors: set<Error>, stopped: bool,
    runtimes: map<string, Runtime>, models: map<string, Model>)

  /**
   * Each completed model has one result, in the order of the launches, and only one whose run is
   * completed has passed.
   */
  ghost predicate Recorded(results: seq<Result>, completed: set<string>, launches: seq<Launch>) {
    && OnceEach(results) && ModelIds(results) == completed
    && |launches| == |results| && (forall i :: 0 <= i < |launches| ==> ResultOf(results[i], launches[i]))
    && (forall i :: 0 <= i < |launches| && results[i].verdict == VerdictPassed ==> RanToEnd(launches[i].ended))
  }

  ghost predicate Ran(pass: Pass, launches: seq<Launch>) {
    Recorded(pass.results, pass.completed, launches) && (pass.errors != {} ==> pass.stopped)
  }

  lemma OnceMore(results: seq<Result>, result: Result)
    requires OnceEach(results) && result.modelId !in ModelIds(results)
    ensures OnceEach(results + [result]) && ModelIds(results + [result]) == ModelIds(results) + {result.modelId}
  {
    assert ModelIds(results + [result]) == ModelIds(results) + {result.modelId};
    assert forall i :: 0 <= i < |results| ==> results[i] in results && results[i].modelId in ModelIds(results);
  }

  lemma RecordedOneMore(results: seq<Result>, completed: set<string>, launches: seq<Launch>, result: Result,
                        launch: Launch)
    requires Recorded(results, completed, launches) && result.modelId !in completed && ResultOf(result, launch)
    requires result.verdict == VerdictPassed ==> RanToEnd(launch.ended)
    ensures Recorded(results + [result], completed + {result.modelId}, launches + [launch])
  {
    OnceMore(results, result);
  }

  /** The target's run goes on to stop the pass: it was interrupted, it touched the repository, or it is not over. */
  predicate StopsRun(turn: Turn, ended: SmokeTarget.Target) {
    turn.interruptedInRun || turn.interruptedAfterRun || !turn.repositoryClean || !turn.identityUnchanged
    || !(ended.outer.Returned? && ended.outer.safe)
  }

  predicate StopsTurn(turn: Turn, ended: SmokeTarget.Target) {
    StopsRun(turn, ended) || turn.catalog.None? || turn.interruptedInCatalog
  }

  /**
   * The target is safe, its run completed with its evidence in order, nothing timed out, was
   * interrupted or asked for an interaction, and the repository is untouched.
   */
  predicate Undisturbed(turn: Turn, ended: SmokeTarget.Target) {
    && ended.outer.Returned? && ended.outer.safe && ended.outer.run.Some? && ended.outer.run.value.status == Completed
    && turn.evidencePassed && !ended.timedOut && !ended.unexpectedInteraction && !turn.interruptedInRun
    && (ended.snapshot.Some? ==> ended.outer.run.value.id !in ended.snapshot.value.interactions)
    && turn.repositoryClean && turn.identityUnchanged
  }

  /** Interrupted, but over, and with the repository untouched. */
  predicate OnlyInterrupted(turn: Turn, ended: SmokeTarget.Target) {
    && turn.interruptedInRun && ended.outer.Returned? && ended.outer.safe
    && turn.repositoryClean && turn.identityUnchanged
  }

  /** Each result has the verdict of its own turn. */
  ghost predicate VerdictsOf(results: seq<Result>, launches: seq<Launch>, turns: nat -> Turn) {
    && |results| == |launches|
    && forall k: nat :: k < |results| ==> HasVerdict(results[k], launches[k].ended, turns(k))
  }

  /** Passed exactly over an undisturbed target whose selection was attested; failed where nothing else applies. */
  predicate HasVerdict(result: Result, ended: SmokeTarget.Target, turn: Turn) {
    && (result.verdict == VerdictPassed <==> Undisturbed(turn, ended) && turn.attested)
    && (result.verdict == VerdictUnattested <==> Undisturbed(turn, ended) && !turn.attested)
    && (result.verdict == VerdictInterrupted <==> OnlyInterrupted(turn, ended))
    && result.attachments == turn.attachments
  }

  /** A turn whose run is admitted though its start is rejected, and whose final listing then fails, stops nothing. */
  lemma GoesOnWithRunAtWork(run: Run, turn: Turn)
    requires turn.events == SmokeTarget.Rejected(run) + [SmokeTarget.FinalListed(None)]
    requires !turn.interruptedInRun && !turn.interruptedAfterRun && !turn.interruptedInCatalog
    requires turn.repositoryClean && turn.identityUnchanged && turn.catalog.Some?
    ensures RunTarget(turn).actual == Some(run) && RunTarget(turn).outer.run.None? && !StopsTurn(turn, RunTarget(turn))
    ensures forall r: Result :: HasVerdict(r, RunTarget(turn), turn) ==> r.verdict == VerdictFailed
  {
    var ended := SmokeTarget.Exec(SmokeTarget.Initial(), turn.events);
    SmokeTarget.ReleasedAtWork(run);
    SmokeTarget.ExecAppends(SmokeTarget.Initial(), SmokeTarget.Rejected(run), SmokeTarget.FinalListed(None));
    SmokeTarget.SafeMeansOver(turn.events);
    SmokeTarget.OverStays(ended, SmokeTarget.Deadlines());
  }

  /** A turn whose run is admitted, starts and completes stops nothing, and its model passes if attested. */
  lemma GoesOnOverCompletedRun(run: Run, ended: Run, turn: Turn)
    requires SmokeTarget.Earlier(Some(run), Some(ended)) && ended.status == Completed
    requires turn.events == SmokeVerdicts.Undisturbed(run, ended) && turn.evidencePassed
    requires !turn.interruptedInRun && !turn.interruptedAfterRun && !turn.interruptedInCatalog
    requires turn.repositoryClean && turn.identityUnchanged && turn.catalog.Some?
    ensures RunTarget(turn).outer == SmokeTarget.Returned(true, Some(ended)) && !StopsTurn(turn, RunTarget(turn))
    ensures forall r: Result :: HasVerdict(r, RunTarget(turn), turn) ==>
              r.verdict == if turn.attested then VerdictPassed else VerdictUnattested
  {
    SmokeVerdicts.UndisturbedReturns(run, ended);
    SmokeTarget.SafeMeansOver(turn.events);
    SmokeTarget.OverStays(SmokeTarget.Exec(SmokeTarget.Initial(), turn.events), SmokeTarget.Deadlines());
  }

  lemma PassedRanToEnd(result: Result, turn: Turn, ended: SmokeTarget.Target)
    requires ended.outer.Returned? && (ended.outer.safe ==> SmokeTarget.Over(ended))
    requires result.verdict == (if !turn.repositoryClean || !turn.identityUnchanged || !ended.outer.safe
                                then VerdictFailed else Evaluate(turn, ended))
    requires result.attachments == turn.attachments
    ensures HasVerdict(result, ended, turn) && (result.verdict == VerdictPassed ==> RanToEnd(ended))
  {
  }

  lemma RecordedHowever(results: seq<Result>, completed: set<string>, launches: seq<Launch>, result: Result,
                        target: Target, ended: SmokeTarget.Target)
    requires Recorded(results, completed, launches) && result.modelId !in completed
    requires ResultOf(result, Launch(target, ended, []))
    requires result.verdict == VerdictPassed ==> RanToEnd(ended)
    ensures forall read ::
              Recorded(results + [result], completed + {result.modelId}, launches + [Launch(target, ended, read)])
  {
    forall read ensures Recorded(results + [result], completed + {result.modelId},
                                 launches + [Launch(target, ended, read)])
    {
      RecordedOneMore(results, completed, launches, result, Launch(target, ended, read));
    }
  }

  /** The result of a returned target, the errors it adds, and whether it stops the pass. */
  method JudgeTarget(target: Target, turn: Turn, ended: SmokeTarget.Target)
    returns (result: Result, errors: set<Error>, stops: bool)
    requires ended.outer.Returned? && (ended.outer.safe ==> SmokeTarget.Over(ended))
    ensures ResultOf(result, Launch(target, ended, [])) && HasVerdict(result, ended, turn)
    ensures result.verdict == VerdictPassed ==> RanToEnd(ended)
    ensures stops <==> StopsRun(turn, ended)
    ensures InterruptedBySignal in errors <==> turn.interruptedInRun || turn.interruptedAfterRun
    ensures NotContained in errors <==> !ended.outer.safe
    ensures errors <= {InterruptedBySignal, NotContained}
  {
    result := Result(target.modelId, RunStatusOf(ended), Evaluate(turn, ended), turn.attachments);
    errors, stops := {}, false;
    if turn.interruptedInRun || turn.interruptedAfterRun { errors, stops := {InterruptedBySignal}, true; }
    if !turn.repositoryClean || !turn.identityUnchanged {
      result, stops := result.(verdict := VerdictFailed), true;
    }
    if !ended.outer.safe {
      result, errors, stops := result.(verdict := VerdictFailed), errors + {NotContained}, true;
    }
    if result.runStatus.Some? && !Terminal(result.runStatus.value) {
      result, stops := result.(verdict := VerdictFailed), true;
    }
    PassedRanToEnd(result, turn, ended);
  }

  /** Records a returned target; the pass stops unless the target is safe and left the repository alone. */
  method CompleteTarget(pass: Pass, launches: seq<Launch>, target: Target, turn: Turn, ended: SmokeTarget.Target)
    returns (next: Pass)
    requires Ran(pass, launches) && target.modelId !in pass.completed
    requires ended.outer.Returned? && (ended.outer.safe ==> SmokeTarget.Over(ended))
    ensures forall read :: Ran(next, launches + [Launch(target, ended, read)])
    ensures next.completed == pass.completed + {target.modelId} && |next.results| == |pass.results| + 1
    ensures next.eligible == pass.eligible && next.results[..|pass.results|] == pass.results
    ensures next.runtimes == pass.runtimes && next.models == pass.models
    ensures HasVerdict(next.results[|pass.results|], ended, turn)
    ensures next.stopped <==> pass.stopped || StopsRun(turn, ended)
    ensures SafetyLimit in next.errors <==> SafetyLimit in pass.errors
  {
    var result, errors, stops := JudgeTarget(target, turn, ended);
    RecordedHowever(pass.results, pass.completed, launches, result, target, ended);
    next := pass.(results := pass.results + [result], completed := pass.completed + {target.modelId},
                  errors := pass.errors + errors, stopped := pass.stopped || stops);
  }

  // ----- The catalogs a pass reads -----

  ghost predicate OffersNothing(catalog: Catalog, options: Options) {
    forall t :: !Discoverable(catalog, options, {}, t)
  }

  /** The catalogs read before the main loop: one more read lets models that appear on demand be seen. */
  ghost function CatalogsBefore(options: Options, around: Surroundings): seq<Catalog> {
    var first := FirstCatalog(around);
    if first.None? then []
    else if around.retriedCatalog.Some? &&
            OffersNothing(first.value, options) then [first.value, around.retriedCatalog.value]
    else [first.value]
  }

  /** After its run a turn reads the catalog, unless the run has stopped the pass or the read fails. */
  function ReadAfter(turn: Turn, ended: SmokeTarget.Target): seq<Catalog> {
    if StopsRun(turn, ended) || turn.catalog.None? then [] else [turn.catalog.value]
  }

  /** The catalogs read before the main loop and after the launches. */
  function CatalogsRead(before: seq<Catalog>, launches: seq<Launch>): seq<Catalog> {
    if launches == [] then before
    else CatalogsRead(before, launches[..|launches| - 1]) + launches[|launches| - 1].read
  }

  lemma CatalogsReadMore(before: seq<Catalog>, launches: seq<Launch>, launch: Launch)
    ensures CatalogsRead(before, launches + [launch]) == CatalogsRead(before, launches) + launch.read
  {
    assert (launches + [launch])[..|launches|] == launches;
  }

  /** What the pass knows and will run comes from these catalogs, and it misses nothing they offer. */
  ghost predicate Gathered(catalogs: seq<Catalog>, options: Options, pass: Pass, queue: seq<Target>) {
    && CoversAll(pass.eligible, catalogs, options) && EachOffered(catalogs, options, queue)
    && Knows(catalogs, pass.runtimes, pass.models)
  }

  /** Each target launched was offered by a catalog read before it. */
  ghost predicate LaunchedOffered(before: seq<Catalog>, options: Options, launches: seq<Launch>) {
    forall i :: 0 <= i < |launches| ==> OfferedBefore(before, options, launches, i)
  }

  ghost predicate OfferedBefore(before: seq<Catalog>, options: Options, launches: seq<Launch>, i: nat)
    requires i < |launches|
  {
    Offered(CatalogsRead(before, launches[..i]), options, launches[i].target)
  }

  lemma {:induction false} OfferedLater(before: seq<Catalog>, launches: seq<Launch>, i: nat, options: Options,
                                        t: Target)
    requires i <= |launches| && Offered(CatalogsRead(before, launches[..i]), options, t)
    ensures Offered(CatalogsRead(before, launches), options, t)
    decreases |launches|
  {
    if i == |launches| {
      assert launches[..i] == launches;
    } else {
      var init := launches[..|launches| - 1];
      assert init[..i] == launches[..i];
      OfferedLater(before, init, i, options, t);
      OfferedOn(CatalogsRead(before, init), launches[|launches| - 1].read, options, t);
    }
  }

  lemma GatheredOneMore(catalogs: seq<Catalog>, catalog: Catalog, options: Options, pass: Pass, next: Pass,
                        queue0: seq<Target>, queue: seq<Target>)
    requires Gathered(catalogs, options, pass, queue0) && pass.eligible <= next.eligible
    requires Covers(next.eligible, catalog, options)
    requires forall t :: t in queue ==> t in queue0 || Discoverable(catalog, options, pass.completed, t)
    requires next.runtimes == RememberRuntimes(catalog.runtimes, pass.runtimes)
    requires next.models == RememberModels(catalog.models, pass.models)
    ensures Gathered(catalogs + [catalog], options, next, queue)
  {
    KnownOneMore(catalogs, catalog, pass.runtimes, pass.models);
    CoversOneMore(pass.eligible, next.eligible, catalogs, catalog, options);
    RefilledOffered(catalogs, catalog, options, pass.completed, queue0, queue);
  }

  /** A model is eligible exactly where a catalog that was read offers it. */
  lemma EligibleIffOffered(before: seq<Catalog>, options: Options, pass: Pass, launches: seq<Launch>,
                           queued: set<string>, queue: seq<Target>)
    requires QueueInv(pass.completed, queued, pass.eligible, queue) && Ran(pass, launches)
    requires Reading(options, pass, launches, queue, before)
    ensures OfferedModels(CatalogsRead(before, launches), options, pass.eligible)
  {
    var read := CatalogsRead(before, launches);
    forall id | id in pass.eligible ensures OffersModel(read, options, id) {
      if id in queued {
        var t :| t in queue && t.modelId == id;
        assert Offered(read, options, t);
      } else {
        var i: nat :| i < |launches| && pass.results[i].modelId == id;
        assert ResultOf(pass.results[i], launches[i]) && OfferedBefore(before, options, launches, i);
        OfferedLater(before, launches, i, options, launches[i].target);
      }
    }
    forall id | OffersModel(read, options, id) ensures id in pass.eligible {
      var t: Target :| t.modelId == id && Offered(read, options, t);
      var i :| 0 <= i < |read| && Discoverable(read[i], options, {}, t);
      assert Covers(pass.eligible, read[i], options);
    }
  }

  ghost predicate Reading(options: Options, pass: Pass, launches: seq<Launch>, queue: seq<Target>,
                          before: seq<Catalog>) {
    LaunchedOffered(before, options, launches) && Gathered(CatalogsRead(before, launches), options, pass, queue)
  }

  /** Each turn's catalog is one of these. */
  ghost predicate EachTurnRead(catalogs: seq<Catalog>, launches: seq<Launch>, turns: nat -> Turn) {
    forall k: nat :: k < |launches| ==> turns(k).catalog.Some? && turns(k).catalog.value in catalogs
  }

  lemma {:induction false} ReadIsRead(before: seq<Catalog>, launches: seq<Launch>, k: nat, catalog: Catalog)
    requires k < |launches| && catalog in launches[k].read
    ensures catalog in CatalogsRead(before, launches)
    decreases |launches|
  {
    if k < |launches| - 1 { ReadIsRead(before, launches[..|launches| - 1], k, catalog); }
  }

  lemma {:induction false} AllTurnsRead(before: seq<Catalog>, launches: seq<Launch>, turns: nat -> Turn)
    requires LaunchesOf(launches, turns) && NoneStops(launches, turns)
    ensures EachTurnRead(CatalogsRead(before, launches), launches, turns)
  {
    forall k: nat | k < |launches| ensures turns(k).catalog.Some? &&
    turns(k).catalog.value in CatalogsRead(before, launches) {
      assert !StopsTurn(turns(k), launches[k].ended) && launches[k] == LaunchOf(launches[k].target, turns(k));
      ReadIsRead(before, launches, k, turns(k).catalog.value);
    }
  }

  /** Reads the catalog again after a target, unless the pass has stopped. */
  method Refill(options: Options, rank: string -> real, pass: Pass, launches: seq<Launch>, queued0: set<string>,
                queue0: seq<Target>, turn: Turn, ghost catalogs: seq<Catalog>)
    returns (next: Pass, queued: set<string>, queue: seq<Target>)
    requires QueueInv(pass.completed, queued0, pass.eligible, queue0) && Ran(pass, launches)
    requires Gathered(catalogs, options, pass, queue0)
    ensures Gathered(if pass.stopped || turn.catalog.None? then catalogs else catalogs + [turn.catalog.value],
                     options, next, queue)
    ensures QueueInv(next.completed, queued, next.eligible, queue) && Ran(next, launches)
    ensures next.results == pass.results && next.completed == pass.completed && pass.eligible <= next.eligible
    ensures next.stopped <==> pass.stopped || turn.catalog.None? || turn.interruptedInCatalog
    ensures SafetyLimit in next.errors <==> SafetyLimit in pass.errors
  {
    next, queued, queue := pass, queued0, queue0;
    if pass.stopped { return; }
    if turn.catalog.None? {
      next := next.(stopped := true, errors := next.errors + {Stopped});
      return;
    }
    if turn.interruptedInCatalog { next := next.(stopped := true, errors := next.errors + {InterruptedBySignal}); }
    var eligible;
    queued, eligible,
    queue := EnqueueTargets(turn.catalog.value, options, rank, pass.completed, queued, pass.eligible, queue);
    next := next.(eligible := eligible,
                  runtimes := RememberRuntimes(turn.catalog.value.runtimes, next.runtimes),
                  models := RememberModels(turn.catalog.value.models, next.models));
    GatheredOneMore(catalogs, turn.catalog.value, options, pass, next, queue0, queue);
  }

  function LaunchOf(target: Target, turn: Turn): Launch {
    Launch(target, RunTarget(turn), ReadAfter(turn, RunTarget(turn)))
  }

  /** Runs the target at the head of the queue, records it, and refills the queue. */
  method TakeTurn(options: Options, rank: string -> real, pass: Pass, launches0: seq<Launch>, queued0: set<string>,
                  queue0: seq<Target>, turn: Turn, ghost catalogs: seq<Catalog>)
    returns (next: Pass, launches: seq<Launch>, queued: set<string>, queue: seq<Target>)
    requires queue0 != [] && queue0[0].modelId !in pass.completed && !pass.stopped
    requires QueueInv(pass.completed, queued0, pass.eligible, queue0) && Ran(pass, launches0)
    requires Gathered(catalogs, options, pass, queue0)
    ensures launches == launches0 + [LaunchOf(queue0[0], turn)]
    ensures Gathered(catalogs + LaunchOf(queue0[0], turn).read, options, next, queue)
    ensures QueueInv(next.completed, queued, next.eligible, queue) && Ran(next, launches)
    ensures |next.results| == |pass.results| + 1 && pass.eligible <= next.eligible
    ensures next.stopped <==> StopsTurn(turn, RunTarget(turn))
    ensures SafetyLimit in next.errors <==> SafetyLimit in pass.errors
    ensures !next.stopped ==> SmokeTarget.Over(RunTarget(turn))
    ensures next.results[..|pass.results|] == pass.results
    ensures HasVerdict(next.results[|pass.results|], RunTarget(turn), turn)
  {
    var target := queue0[0];
    queue := queue0[1..];
    assert queue0 == [target] + queue;
    IdsConcat([target], queue);
    queued := queued0 - {target.modelId};
    var ended := RunTarget(turn);
    launches := launches0 + [Launch(target, ended, ReadAfter(turn, ended))];
    next := CompleteTarget(pass, launches0, target, turn, ended);
    next, queued, queue := Refill(options, rank, next, launches, queued, queue, turn, catalogs);
    assert catalogs + [] == catalogs;
  }

  /** Each launch went as its turn says. */
  ghost predicate LaunchesOf(launches: seq<Launch>, turns: nat -> Turn) {
    forall k: nat :: k < |launches| ==> launches[k] == LaunchOf(launches[k].target, turns(k))
  }

  ghost predicate NoneStops(launches: seq<Launch>, turns: nat -> Turn) {
    forall k: nat :: k < |launches| ==> !StopsTurn(turns(k), launches[k].ended)
  }

  predicate LastStops(launches: seq<Launch>, turns: nat -> Turn) {
    launches != [] && StopsTurn(turns(|launches| - 1), launches[|launches| - 1].ended)
  }

  function AllButLast<T>(s: seq<T>): seq<T> {
    if s == [] then s else s[..|s| - 1]
  }

  /** Only the last turn can have stopped the pass, and each result has its turn's verdict. */
  ghost predicate TurnsSoFar(start: Pass, pass: Pass, launches: seq<Launch>, turns: nat -> Turn) {
    && NoneStops(AllButLast(launches), turns) && (pass.stopped <==> start.stopped || LastStops(launches, turns))
    && (SafetyLimit in pass.errors ==> SafetyLimit in start.errors) && VerdictsOf(pass.results, launches, turns)
  }

  lemma NoneStopsMore(launches: seq<Launch>, turns: nat -> Turn)
    requires NoneStops(AllButLast(launches), turns) && !LastStops(launches, turns)
    ensures NoneStops(launches, turns)
  {
    forall k: nat | k < |launches| ensures !StopsTurn(turns(k), launches[k].ended) {
      assert k < |launches| - 1 ==> launches[k] == AllButLast(launches)[k];
    }
  }

  lemma VerdictsGoOn(results: seq<Result>, next: seq<Result>, launches: seq<Launch>, launch: Launch, turns: nat -> Turn)
    requires VerdictsOf(results, launches, turns) && |next| == |results| + 1 && next[..|results|] == results
    requires HasVerdict(next[|results|], launch.ended, turns(|results|))
    ensures VerdictsOf(next, launches + [launch], turns)
  {
    forall k: nat | k < |next| ensures HasVerdict(next[k], (launches + [launch])[k].ended, turns(k)) {
      assert k < |results| ==> next[k] == next[..|results|][k];
    }
  }

  lemma TurnsGoOn(start: Pass, pass: Pass, next: Pass, launches: seq<Launch>, launch: Launch, turns: nat -> Turn)
    requires TurnsSoFar(start, pass, launches, turns) && !pass.stopped
    requires |next.results| == |pass.results| + 1 && next.results[..|pass.results|] == pass.results
    requires HasVerdict(next.results[|pass.results|], launch.ended, turns(|launches|))
    requires next.stopped <==> StopsTurn(turns(|launches|), launch.ended)
    requires SafetyLimit in next.errors <==> SafetyLimit in pass.errors
    ensures TurnsSoFar(start, next, launches + [launch], turns)
  {
    VerdictsGoOn(pass.results, next.results, launches, launch, turns);
    assert AllButLast(launches + [launch]) == launches;
    NoneStopsMore(launches, turns);
  }

  ghost predicate Going(start: Pass, pass: Pass, launches: seq<Launch>, queued: set<string>, queue: seq<Target>,
                        turns: nat -> Turn) {
    && QueueInv(pass.completed, queued, pass.eligible, queue) && Ran(pass, launches) && start.eligible <= pass.eligible
    && EachOver(AllButLast(launches)) && (!pass.stopped ==> EachOver(launches) && !start.stopped)
    && TurnsSoFar(start, pass, launches, turns) && LaunchesOf(launches, turns)
  }

  lemma {:induction false} ReadingOneMore(options: Options, pass: Pass, next: Pass, launches: seq<Launch>,
                                          launch: Launch,
                       queue0: seq<Target>, queue: seq<Target>, before: seq<Catalog>)
    requires Reading(options, pass, launches, queue0, before) && launch.target in queue0
    requires Gathered(CatalogsRead(before, launches) + launch.read, options, next, queue)
    ensures Reading(options, next, launches + [launch], queue, before)
  {
    var more := launches + [launch];
    CatalogsReadMore(before, launches, launch);
    forall i | 0 <= i < |more| ensures OfferedBefore(before, options, more, i) {
      if i < |launches| {
        assert OfferedBefore(before, options, launches, i) && more[..i] == launches[..i];
      } else {
        assert more[..i] == launches;
      }
    }
  }

  lemma LaunchesOneMore(launches: seq<Launch>, target: Target, turns: nat -> Turn)
    requires LaunchesOf(launches, turns)
    ensures LaunchesOf(launches + [LaunchOf(target, turns(|launches|))], turns)
  {
  }

  /** The pass goes on with one more launch, which goes as its turn says. */
  lemma GoesOn(start: Pass, pass: Pass, next: Pass, launches: seq<Launch>, launch: Launch, queued0: set<string>,
               queue0: seq<Target>, queued: set<string>, queue: seq<Target>, turns: nat -> Turn)
    requires Going(start, pass, launches, queued0, queue0, turns) && !pass.stopped
    requires QueueInv(next.completed, queued, next.eligible, queue) && Ran(next, launches + [launch])
    requires pass.eligible <= next.eligible && (!next.stopped ==> SmokeTarget.Over(launch.ended))
    requires TurnsSoFar(start, next, launches + [launch], turns) && LaunchesOf(launches + [launch], turns)
    ensures Going(start, next, launches + [launch], queued, queue, turns)
  {
    assert AllButLast(launches + [launch]) == launches;
  }

  /** One round of the main loop. */
  method Advance(options: Options, rank: string -> real, start: Pass, pass: Pass, launches0: seq<Launch>,
                 queued0: set<string>, queue0: seq<Target>, turns: nat -> Turn, ghost before: seq<Catalog>)
    returns (next: Pass, launches: seq<Launch>, queued: set<string>, queue: seq<Target>)
    requires Going(start, pass, launches0, queued0, queue0, turns) && queue0 != [] && !pass.stopped
    requires Reading(options, pass, launches0, queue0, before)
    ensures Going(start, next, launches, queued, queue, turns) && |next.results| == |pass.results| + 1
    ensures Reading(options, next, launches, queue, before)
  {
    var turn := turns(|launches0|);
    assert queue0[0].modelId in Ids(queue0);
    if queue0[0].modelId in pass.completed {
      assert false;  // A completed model would be skipped; none is ever queued.
    }
    ghost var launch := LaunchOf(queue0[0], turn);
    next, launches, queued, queue :=
      TakeTurn(options, rank, pass, launches0, queued0, queue0, turn, CatalogsRead(before, launches0));
    TurnsGoOn(start, pass, next, launches0, launch, turns);
    LaunchesOneMore(launches0, queue0[0], turns);
    GoesOn(start, pass, next, launches0, launch, queued0, queue0, queued, queue, turns);
    ReadingOneMore(options, pass, next, launches0, launch, queue0, queue, before);
  }

  /** No task is left with a run at work where each target is over, but for those that no one saw. */
  lemma OverContained(launches: seq<Launch>)
    requires EachOver(launches)
    ensures EachContained(launches)
  {
  }

  /** What a pass that has no queue left, or has stopped, has come to. */
  ghost predicate PassEnded(start: Pass, pass: Pass, launches: seq<Launch>, turns: nat -> Turn) {
    && Ran(pass, launches) && start.eligible <= pass.eligible
    && EachOver(AllButLast(launches)) && EachContained(AllButLast(launches))
    && (!pass.stopped ==> EachOver(launches) && pass.eligible == pass.completed && !start.stopped)
    && NoneStops(AllButLast(launches), turns)
    && (pass.stopped <==> start.stopped || LastStops(launches, turns) || SafetyLimit in pass.errors)
    && (SafetyLimit in pass.errors && SafetyLimit !in start.errors ==> pass.eligible != pass.completed)
    && LaunchesOf(launches, turns) && VerdictsOf(pass.results, launches, turns)
  }

  lemma QueueEnds(start: Pass, pass: Pass, launches: seq<Launch>, queued: set<string>, queue: seq<Target>,
                  turns: nat -> Turn)
    requires Going(start, pass, launches, queued, queue, turns) && (queue == [] || pass.stopped)
    requires start.errors != {} ==> start.stopped
    ensures PassEnded(start, pass, launches, turns)
  {
    OverContained(AllButLast(launches));
  }

  /** The safety limit stops a pass that would go on. */
  function Limited(pass: Pass): Pass {
    pass.(errors := pass.errors + {SafetyLimit}, stopped := true)
  }

  lemma LimitEnds(start: Pass, pass: Pass, launches: seq<Launch>, queued: set<string>, queue: seq<Target>,
                  turns: nat -> Turn)
    requires Going(start, pass, launches, queued, queue, turns) && queue != []
    ensures PassEnded(start, Limited(pass), launches, turns)
  {
    assert queue[0].modelId in Ids(queue);
    OverContained(AllButLast(launches));
  }

  /**
   * The pass's main loop, over any queue, any sequence of catalogs and any way its targets
   * go. `launches` are the targets it started, in order.
   */
  method RunQueue(options: Options, rank: string -> real, maxModels: nat, start: Pass, queued0: set<string>,
                  queue0: seq<Target>, turns: nat -> Turn, ghost before: seq<Catalog>)
    returns (pass: Pass, launches: seq<Launch>, ghost queued: set<string>, ghost left: seq<Target>)
    requires QueueInv(start.completed, queued0, start.eligible, queue0) && Gathered(before, options, start, queue0)
    requires start.results == [] && start.completed == {} && (start.errors != {} ==> start.stopped)
    // A target starts only once every earlier one is over, and the pass stops early only where a turn, the
    // safety limit or what came before it says so.
    ensures PassEnded(start, pass, launches, turns) && |pass.results| <= maxModels
    ensures SafetyLimit in pass.errors && SafetyLimit !in start.errors ==> |pass.results| == maxModels
    // Every target it starts was offered before, as is every one still queued.
    ensures Reading(options, pass, launches, left, before) && QueueInv(pass.completed, queued, pass.eligible, left)
  {
    var queue, waiting := queue0, queued0;
    pass, launches := start, [];
    while queue != [] && !pass.stopped
      invariant Going(start, pass, launches, waiting, queue, turns)
      invariant Reading(options, pass, launches, queue, before) && |pass.results| <= maxModels
      decreases maxModels - |pass.results|, |queue|
    {
      if maxModels <= |pass.results| {
        LimitEnds(start, pass, launches, waiting, queue, turns);
        return Limited(pass), launches, waiting, queue;
      }
      pass, launches, waiting, queue := Advance(options, rank, start, pass, launches, waiting, queue, turns, before);
    }
    QueueEnds(start, pass, launches, waiting, queue, turns);
    queued, left := waiting, queue;
  }

  predicate AllQualified(results: seq<Result>) {
    forall i :: 0 <= i < |results| ==> Qualified(results[i].attachments)
  }

  predicate AllReadOnly(readOnly: seq<Qualification>) {
    forall i :: 0 <= i < |readOnly| ==> Qualified(Some(readOnly[i]))
  }

  /** Attachments qualify unless they were not tried or failed. */
  lemma QualifiedUnless(results: seq<Result>)
    ensures AllQualified(results) <==>
              forall r :: r in results ==> r.attachments.Some? && r.attachments.value != QualificationFailed
  {
    forall i | 0 <= i < |results| && !Qualified(results[i].attachments) ensures results[i] in results {}
  }

  lemma ReadOnlyUnless(readOnly: seq<Qualification>)
    ensures AllReadOnly(readOnly) <==> QualificationFailed !in readOnly
  {
    forall i | 0 <= i < |readOnly| && readOnly[i] == QualificationFailed ensures !Qualified(Some(readOnly[i])) {}
  }

  /** The catalog the pass first works from: read again where reading it activated models. */
  function FirstCatalog(around: Surroundings): Option<Catalog> {
    if !around.setUp || around.catalog.None? then None
    else if around.activated then around.activatedCatalog
    else around.catalog
  }

  lemma EmptyOffersNothing(catalog: Catalog, options: Options, queued: set<string>, eligible: set<string>,
                           queue: seq<Target>)
    requires QueueInv({}, queued, eligible, queue) && Covers(eligible, catalog, options)
    requires forall t :: t in queue ==> Discoverable(catalog, options, {}, t)
    ensures queue == [] <==> OffersNothing(catalog, options)
  {
    if queue == [] {
      forall t ensures !Discoverable(catalog, options, {}, t) {
        assert t.modelId !in eligible;
      }
    } else {
      assert queue[0] in queue;
    }
  }

  /** One read of the catalog before the main loop. */
  method ReadBefore(options: Options, rank: string -> real, catalog: Catalog, pass0: Pass, queued0: set<string>,
                    queue0: seq<Target>, ghost catalogs: seq<Catalog>)
    returns (pass: Pass, queued: set<string>, queue: seq<Target>)
    requires QueueInv({}, queued0, pass0.eligible, queue0) && pass0.completed == {}
    requires Gathered(catalogs, options, pass0, queue0)
    ensures QueueInv({}, queued, pass.eligible, queue) && Gathered(catalogs + [catalog], options, pass, queue)
    ensures pass == pass0.(eligible := pass.eligible, runtimes := pass.runtimes, models := pass.models)
    ensures queue0 == [] ==> (queue == [] <==> OffersNothing(catalog, options))
  {
    var eligible;
    queued, eligible, queue := EnqueueTargets(catalog, options, rank, {}, queued0, pass0.eligible, queue0);
    pass := pass0.(eligible := eligible, runtimes := RememberRuntimes(catalog.runtimes, pass0.runtimes),
                   models := RememberModels(catalog.models, pass0.models));
    GatheredOneMore(catalogs, catalog, options, pass0, pass, queue0, queue);
    if queue0 == [] { EmptyOffersNothing(catalog, options, queued, eligible, queue); }
  }

  /** The first catalog offers nothing for the selection, and reading it again fails. */
  ghost predicate NothingAppears(options: Options, around: Surroundings) {
    && FirstCatalog(around).Some? && OffersNothing(FirstCatalog(around).value, options)
    && around.retriedCatalog.None?
  }

  method ReadFirst(around: Surroundings) returns (catalog: Option<Catalog>)
    ensures catalog == FirstCatalog(around)
    ensures catalog.Some? <==>
              around.setUp && around.catalog.Some? && (around.activated ==> around.activatedCatalog.Some?)
    ensures catalog.Some? ==> catalog == if around.activated then around.activatedCatalog else around.catalog
  {
    if !around.setUp { return None; }
    catalog := around.catalog;
    if catalog.Some? && around.activated { catalog := around.activatedCatalog; }
  }

  /** Everything up to the main loop; `queued` and `queue` are its start. */
  method Prepare(options: Options, rank: string -> real, around: Surroundings)
    returns (pass: Pass, queued: set<string>, queue: seq<Target>)
    ensures QueueInv(pass.completed, queued, pass.eligible, queue)
    ensures pass.results == [] && pass.completed == {} && (pass.errors != {} ==> pass.stopped)
    ensures pass.stopped <==>
              around.interrupted || CatalogsBefore(options, around) == [] || NothingAppears(options, around)
    ensures Gathered(CatalogsBefore(options, around), options, pass, queue) && SafetyLimit !in pass.errors
  {
    pass := Pass([], {}, {}, {}, false, map[], map[]);
    queued, queue := {}, [];
    if around.interrupted { pass := pass.(stopped := true, errors := {InterruptedBySignal}); }
    var catalog := ReadFirst(around);
    if catalog.None? {
      pass := pass.(stopped := true, errors := pass.errors + {Stopped});
      return;
    }
    ghost var first := [catalog.value];
    pass, queued, queue := ReadBefore(options, rank, catalog.value, pass, queued, queue, []);
    assert [] + first == first;
    if queue == [] {
      // One more read lets models that appear on demand be seen.
      if around.retriedCatalog.None? {
        pass := pass.(stopped := true, errors := pass.errors + {Stopped});
        return;
      }
      pass, queued, queue := ReadBefore(options, rank, around.retriedCatalog.value, pass, queued, queue, first);
      assert first + [around.retriedCatalog.value] == CatalogsBefore(options, around);
    }
  }

  /** What follows the main loop: read-only qualification, and shutting the service and the persistence down. */
  method WindUp(options: Options, around: Surroundings, pass: Pass)
    returns (errors: set<Error>, stopped: bool, readOnly: seq<Qualification>)
    requires pass.errors != {} ==> pass.stopped
    ensures stopped <==>
              || pass.stopped || pass.results == [] || !around.shutdownFine || !around.persistenceFine
              || (options.qualifyReadOnly && (around.qualifications.None? || !around.qualifiedCleanly))
    ensures pass.errors <= errors && (errors != {} ==> stopped)
    ensures readOnly == if options.qualifyReadOnly && Stopped !in pass.errors && around.qualifications.Some?
                        then around.qualifications.value else []
  {
    errors, stopped, readOnly := pass.errors, pass.stopped, [];
    if Stopped !in errors {
      if options.qualifyReadOnly {
        if around.qualifications.None? {
          errors, stopped := errors + {Stopped}, true;
        } else {
          readOnly := around.qualifications.value;
          if !around.qualifiedCleanly { stopped := true; }
        }
      }
      if Stopped !in errors && pass.results == [] && !stopped {
        errors, stopped := errors + {NothingMatched}, true;
      }
    }
    if !around.shutdownFine { errors, stopped := errors + {ShutdownFailed}, true; }
    if !around.persistenceFine { errors, stopped := errors + {PersistenceFailed}, true; }
  }

  /**
   * The whole pass. Its report is authoritative only if every model that any catalog it
   * read offered for the selection ran exactly once and passed, each target over before
   * the next began.
   */
  method RunProviderSmoke(options: Options, rank: string -> real, maxModels: nat, around: Surroundings,
                          turns: nat -> Turn)
    returns (report: Report, launches: seq<Launch>)
    ensures EachOver(AllButLast(launches)) && EachContained(AllButLast(launches))
    ensures |launches| == |report.results| <= maxModels && OnceEach(report.results)
    ensures forall i :: 0 <= i < |launches| ==> ResultOf(report.results[i], launches[i])
    // Nothing else keeps it from being authoritative.
    ensures report.authoritative <==>
              && !report.stoppedEarly && report.results != [] && AllPassed(report.results)
              && !report.selectionIncomplete
              && (options.qualifyAttachments ==> AllQualified(report.results))
              && (options.qualifyReadOnly ==> AllReadOnly(report.readOnly))
    ensures LaunchesOf(launches, turns) && VerdictsOf(report.results, launches, turns)
    ensures NoneStops(AllButLast(launches), turns)
    // It stops early for these reasons alone.
    ensures report.stoppedEarly <==>
              || around.interrupted || CatalogsBefore(options, around) == [] || NothingAppears(options, around)
              || LastStops(launches, turns) || report.eligible != ModelIds(report.results) || report.results == []
              || (options.qualifyReadOnly && (around.qualifications.None? || !around.qualifiedCleanly))
              || !around.shutdownFine || !around.persistenceFine
              || !around.repositoryClean || !around.identityUnchanged
    ensures !report.stoppedEarly && options.qualifyReadOnly ==> around.qualifications == Some(report.readOnly)
    ensures report.authoritative ==> !report.stoppedEarly && report.errors == {} && report.results != []
    ensures report.authoritative ==> AllPassed(report.results) && EachRanToEnd(launches)
    ensures report.authoritative ==> ModelIds(report.results) == report.eligible
    // Every target it starts was offered for the selection by a catalog read before.
    ensures LaunchedOffered(CatalogsBefore(options, around), options, launches)
    // The audit is of the catalogs it read and of the models it ran.
    ensures var read := CatalogsRead(CatalogsBefore(options, around), launches);
            && OfferedModels(read, options, report.eligible)
            && (report.selectionIncomplete <==> Missed(read, options, ModelIds(report.results)))
    // So a model, asked for or not, ran exactly where one of these catalogs offers it for the selection.
    ensures report.authoritative ==>
              var read := CatalogsRead(CatalogsBefore(options, around), launches);
              && CatalogsBefore(options, around) != [] && EachTurnRead(read, launches, turns)
              && OfferedModels(read, options, ModelIds(report.results))
    ensures report.authoritative ==>
              around.repositoryClean && around.identityUnchanged && around.shutdownFine && around.persistenceFine
  {
    var start, queued, queue := Prepare(options, rank, around);
    ghost var before := CatalogsBefore(options, around);
    var pass;
    ghost var waiting, left;
    pass, launches, waiting, left := RunQueue(options, rank, maxModels, start, queued, queue, turns, before);
    EligibleIffOffered(before, options, pass, launches, waiting, left);
    IncompleteIff(CatalogsRead(before, launches), options, pass.runtimes, pass.models, pass.eligible,
                  ModelIds(pass.results));
    if !pass.stopped {
      NoneStopsMore(launches, turns);
      AllTurnsRead(before, launches, turns);
    }
    var errors, stopped, readOnly := WindUp(options, around, pass);
    if !around.repositoryClean || !around.identityUnchanged { errors, stopped := errors + {RepositoryChanged}, true; }
    var executed := ModelIds(pass.results);
    var incomplete := SelectionIncomplete(options, pass.runtimes, pass.models, pass.eligible, executed);
    var stoppedEarly := stopped || errors != {};
    var authoritative :=
      !stoppedEarly && pass.results != [] && AllPassed(pass.results) &&
      (!options.qualifyAttachments || AllQualified(pass.results)) &&
      (!options.qualifyReadOnly || AllReadOnly(readOnly)) &&
      !incomplete && around.repositoryClean && around.identityUnchanged;
    report :=
      Report(stoppedEarly, authoritative, errors, pass.results, readOnly, pass.runtimes, pass.models, pass.eligible,
             incomplete);
  }
}
