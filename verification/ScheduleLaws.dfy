/** What every schedule the scheduler returns guarantees to the workflow that runs it. */
module ScheduleLaws {
  import opened Ordering
  import opened Dag
  import opened Plans
  import opened Scheduler

  ghost function WavesOf(plan: ChangePlan, items: seq<WorkItem>, width: nat): seq<seq<Node>>
    requires width > 0
  {
    Waves(ScheduleGraph(plan, items), width, {})
  }

  lemma SchedulableGraph(plan: ChangePlan, items: seq<WorkItem>)
    requires Schedulable(plan, items)
    ensures Closed(ScheduleGraph(plan, items)) && Acyclic(ScheduleGraph(plan, items))
  {
    FilesCoverIds(plan, items);
    ExtraItemsAddNoCycle(plan, items);
  }

  /**
   The waves partition the work items; each holds between one and `width` items, none twice; and
   every upstream of an item is in a strictly earlier wave.
   */
  lemma ScheduleIsSound(plan: ChangePlan, items: seq<WorkItem>, width: nat)
    requires Schedulable(plan, items) && width > 0
    ensures Schedules(ScheduleGraph(plan, items), width, {}, WavesOf(plan, items, width))
    ensures Scheduled(WavesOf(plan, items, width)) == IdsOf(items)
    ensures WaveSizes(width, WavesOf(plan, items, width))
    ensures OneWaveEach(WavesOf(plan, items, width))
    ensures UpstreamsEarlier(ScheduleGraph(plan, items), {}, WavesOf(plan, items, width))
  {
    var g, waves := ScheduleGraph(plan, items), WavesOf(plan, items, width);
    SchedulableGraph(plan, items);
    WavesSchedule(g, width, {});
    SchedulePartition(g, width, {}, waves);
    ScheduleOrder(g, width, {}, waves);
    assert g.nodes - {} == g.nodes;
  }

  /**
   Planning composes: the work items made from a plan can be scheduled exactly when the plan is
   valid and deletes no required interface. The scheduler's own owner, path, dependency and
   cycle checks therefore never fire on them.
   */
  lemma MaterializedPlansSchedule(plan: ChangePlan)
    ensures Schedulable(plan, ItemsOf(plan)) <==> PlanOk(plan) && NoDeletedInterface(plan)
  {
    if PlanOk(plan) {
      MaterializedItemsMatch(plan);
    }
  }

  /** The same items in another order. */
  ghost predicate SameItems(items: seq<WorkItem>, other: seq<WorkItem>) {
    multiset(items) == multiset(other)
  }

  lemma SameItemsSameSets(items: seq<WorkItem>, other: seq<WorkItem>)
    requires SameItems(items, other)
    ensures |items| == |other| && IdsOf(items) == IdsOf(other)
    ensures forall item :: item in items <==> item in other
  {
    assert |multiset(items)| == |multiset(other)|;
    forall item ensures item in items <==> item in other {
      assert item in multiset(items) <==> item in multiset(other);
    }
  }

  lemma SameMatch(p: ChangePlan, q: ChangePlan, items: seq<WorkItem>, other: seq<WorkItem>)
    requires SamePlan(p, q) && SameItems(items, other) && ItemsMatch(p, items)
    ensures ItemsMatch(q, other)
  {
    SameItemsSameSets(items, other);
    SamePlanSameFiles(p, q);
    SameFilesSameSets(p.files, q.files);
    SamePlanSameShape(p, q);
    forall f | f in q.files ensures FileHasItem(other, f) {
      assert f in p.files;
      var item :| item in items && item.id == f.workItem && item.owner == f.owner;
      assert item in other;
    }
    forall item | item in other ensures ItemMatches(q, item) {
      assert item in items && ItemMatches(p, item);
      assert WritePaths(p.files, item.id) == WritePaths(q.files, item.id);
    }
  }

  /**
   Scheduling is canonical: neither the order of files, edges and work items nor repeated edges
   decide whether there is a schedule, or which one it is.
   */
  lemma ScheduleIsCanonical(p: ChangePlan, q: ChangePlan, items: seq<WorkItem>, other: seq<WorkItem>, width: nat)
    requires SamePlan(p, q) && SameItems(items, other) && width > 0
    ensures Schedulable(p, items) <==> Schedulable(q, other)
    ensures WavesOf(p, items, width) == WavesOf(q, other, width)
  {
    SameItemsSameSets(items, other);
    assert ScheduleGraph(p, items) == ScheduleGraph(q, other);
    SamePlanSameShape(p, q);
    if ItemsMatch(p, items) {
      SameMatch(p, q, items, other);
    }
    if ItemsMatch(q, other) {
      SameMatch(q, p, other, items);
    }
  }

  /**
   The builder never idles: a wave with room to spare holds every item whose upstreams are all in
   earlier waves.
   */
  lemma NarrowWavesHoldAllReady(plan: ChangePlan, items: seq<WorkItem>, width: nat, k: nat, x: Node)
    requires width > 0 && k < |WavesOf(plan, items, width)| && |WavesOf(plan, items, width)[k]| < width
    requires x in IdsOf(items) && x !in Scheduled(WavesOf(plan, items, width)[..k])
    requires Upstreams(ScheduleGraph(plan, items), x) <= Scheduled(WavesOf(plan, items, width)[..k])
    ensures x in WavesOf(plan, items, width)[k]
  {
    NarrowWave(ScheduleGraph(plan, items), width, {}, k, x);
    assert {} + Scheduled(WavesOf(plan, items, width)[..k]) == Scheduled(WavesOf(plan, items, width)[..k]);
  }

  /** The items of a wave come in increasing order of their ids. */
  lemma WavesAreIncreasing(plan: ChangePlan, items: seq<WorkItem>, width: nat, k: nat, i: nat, j: nat)
    requires width > 0 && k < |WavesOf(plan, items, width)| && i < j < |WavesOf(plan, items, width)[k]|
    ensures Precedes(WavesOf(plan, items, width)[k][i], WavesOf(plan, items, width)[k][j])
  {
    var g := ScheduleGraph(plan, items);
    WaveAt(g, width, {}, k);
    WaveIsIncreasing(g, width, {} + Scheduled(WavesOf(plan, items, width)[..k]), i, j);
  }

  /** A full wave takes the first of the items that are ready: one that is left out comes after all it takes. */
  lemma FullWavesTakeTheFirst(plan: ChangePlan, items: seq<WorkItem>, width: nat, k: nat, x: Node, y: Node)
    requires width > 0 && k < |WavesOf(plan, items, width)| && y in WavesOf(plan, items, width)[k]
    requires x in IdsOf(items) && x !in Scheduled(WavesOf(plan, items, width)[..k]) && x !in WavesOf(plan, items, width)[k]
    requires Upstreams(ScheduleGraph(plan, items), x) <= Scheduled(WavesOf(plan, items, width)[..k])
    ensures Precedes(y, x)
  {
    var g, before := ScheduleGraph(plan, items), {} + Scheduled(WavesOf(plan, items, width)[..k]);
    assert before == Scheduled(WavesOf(plan, items, width)[..k]);
    WaveAt(g, width, {}, k);
    ReadyMeans(g, before, x);
    LeftOutIsLater(g, width, before, x, y);
  }

  /**
   The number of waves against the longest dependency chain, which exists: at least its length L,
   and at most L + (n - L) / width.
   */
  lemma PlanWaveBound(plan: ChangePlan, items: seq<WorkItem>, width: nat) returns (longest: seq<Node>)
    requires Schedulable(plan, items) && width > 0
    ensures IsChain(ScheduleGraph(plan, items), longest) && NoChainLongerThan(ScheduleGraph(plan, items), |longest|)
    ensures |longest| <= |WavesOf(plan, items, width)| <= ListBound(|items|, |longest|, width)
  {
    var g := ScheduleGraph(plan, items);
    SchedulableGraph(plan, items);
    longest := LongestChain(g);
    WaveBound(g, width, |longest|);
    WavesSchedule(g, width, {});
    ChainNeedsWaves(g, width, {}, WavesOf(plan, items, width), longest);
  }

  /** The number of waves against any other schedule of the same width. */
  lemma PlanIsNearOptimal(plan: ChangePlan, items: seq<WorkItem>, width: nat, other: seq<seq<Node>>)
    requires Schedulable(plan, items) && width > 0
    requires Schedules(ScheduleGraph(plan, items), width, {}, other)
    ensures width * |WavesOf(plan, items, width)| <= (2 * width - 1) * |other|
  {
    SchedulableGraph(plan, items);
    GreedyIsNearOptimal(ScheduleGraph(plan, items), width, other);
  }
}
