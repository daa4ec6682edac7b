/**
 Dependency graphs: paths, cycles, what is ready once a set of nodes is done, and the greedy
 waves of bounded width. Everything here is stated on the sets of nodes and edges, so nothing
 depends on the order in which a plan lists them.
 */
module Dag {
  import opened Ordering

  type Node = string
  type Edge = (Node, Node)

  datatype Graph = Graph(nodes: set<Node>, edges: set<Edge>)

  ghost predicate Closed(g: Graph) {
    forall e :: e in g.edges ==> e.0 in g.nodes && e.1 in g.nodes
  }

  /** Consecutive nodes are joined by an edge from upstream to downstream. */
  ghost predicate IsChain(g: Graph, p: seq<Node>) {
    && (forall i :: 0 <= i < |p| ==> p[i] in g.nodes)
    && (forall i, j :: 0 <= i && j == i + 1 && j < |p| ==> (p[i], p[j]) in g.edges)
  }

  ghost predicate IsCycle(g: Graph, p: seq<Node>) {
    |p| >= 2 && p[0] == p[|p| - 1] && IsChain(g, p)
  }

  ghost predicate Acyclic(g: Graph) {
    forall p :: !IsCycle(g, p)
  }

  ghost function Sources(edges: set<Edge>, x: Node): set<Node> {
    set e | e in edges && e.1 == x :: e.0
  }

  ghost function Upstreams(g: Graph, x: Node): set<Node> {
    Sources(g.edges, x)
  }

  /** The edges into `x` whose upstream end is not done; their number is the live indegree. */
  ghost function Waiting(g: Graph, done: set<Node>, x: Node): set<Edge> {
    set e | e in g.edges && e.1 == x && e.0 !in done
  }

  ghost function Ready(g: Graph, done: set<Node>): set<Node> {
    set x | x in g.nodes && x !in done && Waiting(g, done, x) == {}
  }

  /** A done node has no upstream left to wait for. */
  ghost predicate Settled(g: Graph, done: set<Node>) {
    done <= g.nodes && forall x :: x in done ==> Waiting(g, done, x) == {}
  }

  // ---------------------------------------------------------------- one node more

  /** The nodes that finishing `u` makes ready. */
  ghost function Freed(g: Graph, done: set<Node>, u: Node): set<Node> {
    set e | e in g.edges && e.0 == u && Waiting(g, done + {u}, e.1) == {} :: e.1
  }

  lemma WaitingDrops(g: Graph, done: set<Node>, u: Node, x: Node)
    requires u !in done
    ensures Waiting(g, done + {u}, x) == Waiting(g, done, x) - {(u, x)}
    ensures |Waiting(g, done + {u}, x)| == |Waiting(g, done, x)| - (if (u, x) in g.edges then 1 else 0)
  {
    assert (u, x) in g.edges <==> (u, x) in Waiting(g, done, x);
    assert Waiting(g, done + {u}, x) == Waiting(g, done, x) - {(u, x)};
  }

  lemma ReadyAfter(g: Graph, done: set<Node>, u: Node)
    requires Closed(g) && Settled(g, done) && u in Ready(g, done)
    ensures Settled(g, done + {u})
    ensures Ready(g, done + {u}) == (Ready(g, done) - {u}) + Freed(g, done, u)
    ensures Freed(g, done, u) !! Ready(g, done)
  {
    forall x | x in done + {u} ensures Waiting(g, done + {u}, x) == {} {
      WaitingDrops(g, done, u, x);
    }
    forall x | x in g.nodes
      ensures x in Ready(g, done + {u}) <==> x in (Ready(g, done) - {u}) + Freed(g, done, u)
      ensures x in Freed(g, done, u) ==> x !in Ready(g, done)
    {
      WaitingDrops(g, done, u, x);
      if (u, x) in g.edges {
        assert (u, x) in Waiting(g, done, x);
      }
    }
  }

  // ---------------------------------------------------------------- cycles and progress

  /** While a whole cycle is pending, each of its nodes waits for the one before it. */
  lemma CycleWaits(g: Graph, done: set<Node>, c: seq<Node>, x: Node)
    requires IsCycle(g, c) && Elements(c) !! done && x in c
    ensures Waiting(g, done, x) != {}
  {
    var i :| 0 <= i < |c| && c[i] == x;
    var j := if i == 0 then |c| - 2 else i - 1;
    assert (c[j], c[j + 1]) in g.edges;
    assert c[j + 1] == x && c[j] in Elements(c);
    assert (c[j], x) in Waiting(g, done, x);
  }

  /** If nothing is ready and something is left, walking upstream never stops. */
  lemma {:induction false} UpstreamWalk(g: Graph, done: set<Node>, k: nat) returns (p: seq<Node>)
    requires Closed(g) && Ready(g, done) == {} && g.nodes - done != {}
    ensures |p| == k + 1 && IsChain(g, p) && Elements(p) <= g.nodes - done
  {
    if k == 0 {
      var x :| x in g.nodes - done;
      p := [x];
    } else {
      var q := UpstreamWalk(g, done, k - 1);
      assert q[0] in Elements(q);
      assert q[0] !in Ready(g, done);
      var e :| e in Waiting(g, done, q[0]);
      p := [e.0] + q;
      assert Elements(p) == {e.0} + Elements(q);
      forall i, j | 0 <= i && j == i + 1 && j < |p| ensures (p[i], p[j]) in g.edges {
        if i > 0 { assert p[i] == q[i - 1] && p[j] == q[j - 1]; }
      }
    }
  }

  /** Pigeonhole: a list drawn from fewer values than it has entries repeats one. */
  lemma Pigeonhole<T>(xs: seq<T>, s: set<T>) returns (i: nat, j: nat)
    requires Elements(xs) <= s && |s| < |xs|
    ensures i < j < |xs| && xs[i] == xs[j]
  {
    if Distinct(xs) {
      DistinctCardinality(xs);
      SubsetCardinality(Elements(xs), s);
      assert false;
    }
    i, j :| 0 <= i < j < |xs| && xs[i] == xs[j];
  }

  lemma SubsetCardinality<T>(a: set<T>, b: set<T>)
    requires a <= b
    ensures |a| <= |b|
    ensures |a| == |b| ==> a == b
  {
    assert b == a + (b - a);
    assert |b| == |a| + |b - a|;
  }

  /** Leftover nodes with nothing ready always contain an actual cycle. */
  lemma StuckHasCycle(g: Graph, done: set<Node>)
    requires Closed(g) && Ready(g, done) == {} && g.nodes - done != {}
    ensures exists c :: IsCycle(g, c)
  {
    var p := UpstreamWalk(g, done, |g.nodes - done|);
    var i, j := Pigeonhole(p, g.nodes - done);
    var c := p[i..j + 1];
    forall a, b | 0 <= a && b == a + 1 && b < |c| ensures (c[a], c[b]) in g.edges {
      assert c[a] == p[i + a] && c[b] == p[i + b];
    }
    assert IsCycle(g, c);
  }

  lemma AcyclicProgress(g: Graph, done: set<Node>)
    requires Closed(g) && Acyclic(g) && done <= g.nodes && done != g.nodes
    ensures Ready(g, done) != {}
  {
    assert g.nodes - done != {} by {
      SubsetCardinality(done, g.nodes);
      assert g.nodes == done + (g.nodes - done);
    }
    if Ready(g, done) == {} {
      StuckHasCycle(g, done);
    }
  }

  /** In an acyclic graph a chain never returns, so it is at most as long as the graph is big. */
  lemma ChainIsShort(g: Graph, p: seq<Node>)
    requires Acyclic(g) && IsChain(g, p)
    ensures |p| <= |g.nodes|
  {
    if |p| > |g.nodes| {
      assert Elements(p) <= g.nodes;
      var i, j := Pigeonhole(p, g.nodes);
      var c := p[i..j + 1];
      forall a, b | 0 <= a && b == a + 1 && b < |c| ensures (c[a], c[b]) in g.edges {
        assert c[a] == p[i + a] && c[b] == p[i + b];
      }
      assert IsCycle(g, c);
    }
  }

  // ---------------------------------------------------------------- waves

  function Min(a: int, b: int): int { if a < b then a else b }

  /** The next wave: the first `width` ready nodes in identifier order. */
  ghost function NextWave(g: Graph, width: nat, done: set<Node>): seq<Node> {
    var ready := SortSet(Ready(g, done));
    ready[..Min(width, |ready|)]
  }

  lemma NextWaveFacts(g: Graph, width: nat, done: set<Node>)
    ensures Elements(NextWave(g, width, done)) <= Ready(g, done)
    ensures Distinct(NextWave(g, width, done))
    ensures |NextWave(g, width, done)| < width ==> Elements(NextWave(g, width, done)) == Ready(g, done)
    ensures width > 0 && Ready(g, done) != {} ==> NextWave(g, width, done) != []
  {
    var ready := SortSet(Ready(g, done));
    SortSetFacts(Ready(g, done));
    StrictlySortedIsDistinct(ready);
    assert forall x :: x in NextWave(g, width, done) ==> x in ready;
    assert forall x :: x in ready ==> x in Elements(ready);
    EmptyElements(ready);
    if |NextWave(g, width, done)| < width {
      assert NextWave(g, width, done) == ready;
    }
  }

  lemma Shrinks(g: Graph, done: set<Node>, wave: seq<Node>)
    requires Elements(wave) <= Ready(g, done) && wave != []
    ensures g.nodes - (done + Elements(wave)) < g.nodes - done
    ensures |g.nodes - (done + Elements(wave))| < |g.nodes - done|
  {
    assert wave[0] in Elements(wave);
    assert wave[0] in g.nodes - done;
    SubsetCardinality(g.nodes - (done + Elements(wave)), g.nodes - done);
  }

  /** The schedule as a definition: take the next wave until nothing is ready. */
  ghost function Waves(g: Graph, width: nat, done: set<Node>): seq<seq<Node>>
    requires width > 0
    decreases |g.nodes - done|
  {
    var wave := NextWave(g, width, done);
    if wave == [] then []
    else
      NextWaveFacts(g, width, done);
      Shrinks(g, done, wave);
      [wave] + Waves(g, width, done + Elements(wave))
  }

  /**
   A schedule for what is left: every wave holds between one and `width` different nodes, all
   of whose upstreams are in earlier waves or already done, and in the end everything is done.
   */
  ghost predicate Schedules(g: Graph, width: nat, done: set<Node>, waves: seq<seq<Node>>)
    decreases |waves|
  {
    if waves == [] then done == g.nodes
    else
      && 1 <= |waves[0]| <= width
      && Distinct(waves[0])
      && Elements(waves[0]) <= Ready(g, done)
      && Schedules(g, width, done + Elements(waves[0]), waves[1..])
  }

  /** The greedy waves of an acyclic graph are a schedule. */
  lemma {:induction false} WavesSchedule(g: Graph, width: nat, done: set<Node>)
    requires width > 0 && Closed(g) && Acyclic(g) && done <= g.nodes
    ensures Schedules(g, width, done, Waves(g, width, done))
    decreases |g.nodes - done|
  {
    var wave := NextWave(g, width, done);
    NextWaveFacts(g, width, done);
    if wave == [] {
      if done != g.nodes { AcyclicProgress(g, done); }
    } else {
      Shrinks(g, done, wave);
      WavesSchedule(g, width, done + Elements(wave));
      assert Waves(g, width, done)[1..] == Waves(g, width, done + Elements(wave));
    }
  }

  // ---------------------------------------------------------------- what a schedule means

  ghost function Scheduled(waves: seq<seq<Node>>): set<Node> {
    set k, x | 0 <= k < |waves| && x in waves[k] :: x
  }

  lemma ScheduledCons(waves: seq<seq<Node>>)
    requires waves != []
    ensures Scheduled(waves) == Elements(waves[0]) + Scheduled(waves[1..])
  {
    forall x | x in Scheduled(waves) ensures x in Elements(waves[0]) + Scheduled(waves[1..]) {
      var k :| 0 <= k < |waves| && x in waves[k];
      if k > 0 { assert waves[1..][k - 1] == waves[k]; }
    }
    forall x | x in Scheduled(waves[1..]) ensures x in Scheduled(waves) {
      var k :| 0 <= k < |waves[1..]| && x in waves[1..][k];
      assert waves[k + 1] == waves[1..][k];
    }
  }

  /** A schedule covers exactly what was left. */
  lemma {:induction false} SchedulePartition(g: Graph, width: nat, done: set<Node>, waves: seq<seq<Node>>)
    requires Schedules(g, width, done, waves) && done <= g.nodes
    ensures Scheduled(waves) == g.nodes - done
    decreases |waves|
  {
    if waves != [] {
      SchedulePartition(g, width, done + Elements(waves[0]), waves[1..]);
      ScheduledCons(waves);
    } else {
      assert Scheduled(waves) == {};
    }
  }

  ghost predicate WaveSizes(width: nat, waves: seq<seq<Node>>) {
    forall k :: 0 <= k < |waves| ==> 1 <= |waves[k]| <= width && Distinct(waves[k])
  }

  /** No node is in two waves. */
  ghost predicate OneWaveEach(waves: seq<seq<Node>>) {
    forall j, k, x :: 0 <= j < |waves| && 0 <= k < |waves| && x in waves[j] && x in waves[k] ==> j == k
  }

  /** An edge leads from a strictly earlier wave, or from something already done. */
  ghost predicate UpstreamsEarlier(g: Graph, done: set<Node>, waves: seq<seq<Node>>) {
    forall k, x, u :: 0 <= k < |waves| && x in waves[k] && u in Upstreams(g, x) ==>
      u in done || exists j :: 0 <= j < k && u in waves[j]
  }

  lemma {:induction false} ScheduleOrder(g: Graph, width: nat, done: set<Node>, waves: seq<seq<Node>>)
    requires Schedules(g, width, done, waves) && done <= g.nodes
    ensures WaveSizes(width, waves) && OneWaveEach(waves) && UpstreamsEarlier(g, done, waves)
    decreases |waves|
  {
    if waves != [] {
      var done', rest := done + Elements(waves[0]), waves[1..];
      ScheduleOrder(g, width, done', rest);
      SchedulePartition(g, width, done', rest);
      forall k | 0 <= k < |waves| ensures 1 <= |waves[k]| <= width && Distinct(waves[k]) {
        if k > 0 { assert waves[k] == rest[k - 1]; }
      }
      forall j, k, x | 0 <= j < |waves| && 0 <= k < |waves| && x in waves[j] && x in waves[k]
        ensures j == k
      {
        if j > 0 { assert waves[j] == rest[j - 1]; assert x in Scheduled(rest); }
        if k > 0 { assert waves[k] == rest[k - 1]; assert x in Scheduled(rest); }
        if j == 0 || k == 0 { assert x in Elements(waves[0]); }
      }
      forall k, x, u | 0 <= k < |waves| && x in waves[k] && u in Upstreams(g, x)
        ensures u in done || exists j :: 0 <= j < k && u in waves[j]
      {
        if k == 0 {
          assert x in Elements(waves[0]);
          assert u !in done ==> (u, x) in Waiting(g, done, x);
        } else {
          assert waves[k] == rest[k - 1];
          if u !in done {
            if u in done' {
              assert u in waves[0];
            } else {
              var j :| 0 <= j < k - 1 && u in rest[j];
              assert waves[j + 1] == rest[j];
            }
          }
        }
      }
    }
  }

  lemma FirstWave(g: Graph, width: nat, done: set<Node>)
    requires width > 0 && Waves(g, width, done) != []
    ensures Waves(g, width, done)[0] == NextWave(g, width, done)
    ensures Waves(g, width, done)[1..] == Waves(g, width, done + Elements(NextWave(g, width, done)))
  {
  }

  lemma ScheduledAfterFirst(done: set<Node>, waves: seq<seq<Node>>, k: nat)
    requires 0 < k <= |waves|
    ensures done + Elements(waves[0]) + Scheduled(waves[1..][..k - 1]) == done + Scheduled(waves[..k])
  {
    assert waves[..k][1..] == waves[1..][..k - 1];
    ScheduledCons(waves[..k]);
  }

  /** Each wave is the next one after all those before it. */
  lemma {:induction false} WaveAt(g: Graph, width: nat, done: set<Node>, k: nat)
    requires width > 0 && k < |Waves(g, width, done)|
    ensures Waves(g, width, done)[k] == NextWave(g, width, done + Scheduled(Waves(g, width, done)[..k]))
    decreases k
  {
    var waves := Waves(g, width, done);
    FirstWave(g, width, done);
    if k == 0 {
      assert done + Scheduled(waves[..0]) == done;
    } else {
      ScheduledAfterFirst(done, waves, k);
      WaveAt(g, width, done + Elements(waves[0]), k - 1);
    }
  }

  /** A wave with room to spare takes everything that is ready. */
  lemma NarrowWave(g: Graph, width: nat, done: set<Node>, k: nat, x: Node)
    requires width > 0 && k < |Waves(g, width, done)| && |Waves(g, width, done)[k]| < width
    requires var before := done + Scheduled(Waves(g, width, done)[..k]);
             x in g.nodes && x !in before && Upstreams(g, x) <= before
    ensures x in Waves(g, width, done)[k]
  {
    var before := done + Scheduled(Waves(g, width, done)[..k]);
    WaveAt(g, width, done, k);
    NextWaveFacts(g, width, before);
    ReadyMeans(g, before, x);
  }

  /** A ready node that is left out comes after every node of the wave. */
  lemma LeftOutIsLater(g: Graph, width: nat, done: set<Node>, x: Node, y: Node)
    requires x in Ready(g, done) && x !in NextWave(g, width, done) && y in NextWave(g, width, done)
    ensures Precedes(y, x)
  {
    var ready := SortSet(Ready(g, done));
    SortSetFacts(Ready(g, done));
    assert x in Elements(ready);
    var i :| 0 <= i < |ready| && ready[i] == x;
    var j :| 0 <= j < |NextWave(g, width, done)| && NextWave(g, width, done)[j] == y;
    InPrefix(ready, |NextWave(g, width, done)|, i);
    StrLtExactly(y, x);
  }

  lemma WaveIsIncreasing(g: Graph, width: nat, done: set<Node>, i: nat, j: nat)
    requires i < j < |NextWave(g, width, done)|
    ensures Precedes(NextWave(g, width, done)[i], NextWave(g, width, done)[j])
  {
    SortSetFacts(Ready(g, done));
    StrLtExactly(NextWave(g, width, done)[i], NextWave(g, width, done)[j]);
  }

  lemma ReadyMeans(g: Graph, done: set<Node>, x: Node)
    requires x in g.nodes && x !in done && Upstreams(g, x) <= done
    ensures x in Ready(g, done)
  {
    forall e | e in g.edges && e.1 == x ensures e.0 in done {
      assert e.0 in Upstreams(g, x);
    }
  }

  // ---------------------------------------------------------------- how many waves

  /** Any schedule needs a wave for every node of a chain that is still to be done. */
  lemma {:induction false} ChainNeedsWaves(g: Graph, width: nat, done: set<Node>, waves: seq<seq<Node>>, p: seq<Node>)
    requires Schedules(g, width, done, waves) && done <= g.nodes && Settled(g, done) && Closed(g)
    requires IsChain(g, p) && (p != [] ==> p[0] !in done)
    ensures |p| <= |waves|
    decreases |waves|
  {
    if p != [] {
      if waves == [] {
        assert false;
      } else {
        var wave := waves[0];
        SettledStep(g, done, wave);
        if p[0] in wave {
          var q := p[1..];
          forall i, j | 0 <= i && j == i + 1 && j < |q| ensures (q[i], q[j]) in g.edges {
            assert q[i] == p[i + 1] && q[j] == p[j + 1];
          }
          if q != [] {
            assert (p[0], p[1]) in g.edges;
            var next := p[1];
            assert (p[0], next) in Waiting(g, done, next);
            assert next !in done && next !in Ready(g, done);
            assert next !in Elements(wave);
          }
          ChainNeedsWaves(g, width, done + Elements(wave), waves[1..], q);
        } else {
          ChainNeedsWaves(g, width, done + Elements(wave), waves[1..], p);
        }
      }
    }
  }

  lemma SettledStep(g: Graph, done: set<Node>, wave: seq<Node>)
    requires Settled(g, done) && Elements(wave) <= Ready(g, done)
    ensures Settled(g, done + Elements(wave))
  {
    forall x | x in done + Elements(wave) ensures Waiting(g, done + Elements(wave), x) == {} {
      assert Waiting(g, done, x) == {};
      assert Waiting(g, done + Elements(wave), x) <= Waiting(g, done, x);
    }
  }

  /** Any schedule of width `width` needs enough waves to hold all nodes. */
  lemma {:induction false} NodesNeedWaves(g: Graph, width: nat, done: set<Node>, waves: seq<seq<Node>>)
    requires Schedules(g, width, done, waves) && done <= g.nodes
    ensures |g.nodes - done| <= width * |waves|
    decreases |waves|
  {
    if waves == [] {
      assert g.nodes - done == {};
    } else {
      var wave, rest := waves[0], waves[1..];
      LeftAfter(g, done, wave);
      NodesNeedWaves(g, width, done + Elements(wave), rest);
      OneMoreWave(width, |rest|, |g.nodes - (done + Elements(wave))|, |wave|);
      assert |waves| == |rest| + 1;
    }
  }

  lemma OneMoreWave(width: nat, waves: nat, nodes: nat, size: nat)
    requires nodes <= width * waves && size <= width
    ensures nodes + size <= width * (waves + 1)
  {
  }

  lemma LeftAfter(g: Graph, done: set<Node>, wave: seq<Node>)
    requires Elements(wave) <= Ready(g, done) && Distinct(wave)
    ensures |g.nodes - (done + Elements(wave))| == |g.nodes - done| - |wave|
  {
    DistinctCardinality(wave);
    assert g.nodes - (done + Elements(wave)) == (g.nodes - done) - Elements(wave);
    assert Elements(wave) <= g.nodes - done;
    assert |(g.nodes - done) - Elements(wave)| + |Elements(wave)| == |g.nodes - done| by {
      assert g.nodes - done == ((g.nodes - done) - Elements(wave)) + Elements(wave);
    }
  }

  /** The number of waves that leave a place idle. */
  ghost function Narrow(width: nat, waves: seq<seq<Node>>): (k: nat)
    ensures k <= |waves|
  {
    if waves == [] then 0 else (if |waves[0]| < width then 1 else 0) + Narrow(width, waves[1..])
  }

  /**
   The greedy schedule is work-conserving: a wave narrower than `width` takes everything that is
   ready, so reading the narrow waves backwards gives a chain.
   */
  lemma {:induction false} GreedyChain(g: Graph, width: nat, done: set<Node>) returns (p: seq<Node>)
    requires width > 0 && Closed(g) && Acyclic(g) && done <= g.nodes
    ensures IsChain(g, p) && (p != [] ==> p[0] !in done)
    ensures |p| == Narrow(width, Waves(g, width, done))
    decreases |g.nodes - done|
  {
    var wave := NextWave(g, width, done);
    NextWaveFacts(g, width, done);
    if wave == [] {
      p := [];
    } else {
      Shrinks(g, done, wave);
      var done' := done + Elements(wave);
      var q := GreedyChain(g, width, done');
      assert Waves(g, width, done)[1..] == Waves(g, width, done');
      p := if |wave| < width then [] else q;
      if |wave| < width {
        p := ExtendUpstream(g, done, wave, q);
      }
    }
  }

  /** What a schedule costs in nodes at least: `width` for a full wave, one for a narrow one. */
  ghost function NodeCost(width: nat, waves: seq<seq<Node>>): int {
    if waves == [] then 0
    else (if |waves[0]| < width then 1 else width) + NodeCost(width, waves[1..])
  }

  lemma {:induction false} NodesPayForWaves(g: Graph, width: nat, done: set<Node>, waves: seq<seq<Node>>)
    requires Schedules(g, width, done, waves) && done <= g.nodes
    ensures NodeCost(width, waves) <= |g.nodes - done|
    decreases |waves|
  {
    if waves != [] {
      var wave, rest := waves[0], waves[1..];
      LeftAfter(g, done, wave);
      NodesPayForWaves(g, width, done + Elements(wave), rest);
    }
  }

  lemma {:induction false} NodeCostCount(width: nat, waves: seq<seq<Node>>)
    ensures width * |waves| == NodeCost(width, waves) + (width - 1) * Narrow(width, waves)
  {
    if waves != [] {
      var rest := waves[1..];
      NodeCostCount(width, rest);
      OneMore(width, |rest|);
      OneMore(width - 1, Narrow(width, rest));
      assert |waves| == |rest| + 1;
    }
  }

  lemma OneMore(k: int, n: nat)
    ensures k * (n + 1) == k * n + k
  {
  }

  /** A chain that pays for the idle places of the greedy schedule. */
  lemma GreedyCost(g: Graph, width: nat) returns (p: seq<Node>)
    requires width > 0 && Closed(g) && Acyclic(g)
    ensures IsChain(g, p)
    ensures width * |Waves(g, width, {})| <= |g.nodes| + (width - 1) * |p|
  {
    p := GreedyChain(g, width, {});
    WavesSchedule(g, width, {});
    NodesPayForWaves(g, width, {}, Waves(g, width, {}));
    assert g.nodes - {} == g.nodes;
    NodeCostCount(width, Waves(g, width, {}));
  }

  /** When a wave takes everything that is ready, a chain that starts later can be prolonged. */
  lemma ExtendUpstream(g: Graph, done: set<Node>, wave: seq<Node>, q: seq<Node>) returns (p: seq<Node>)
    requires Closed(g) && wave != [] && Elements(wave) == Ready(g, done)
    requires IsChain(g, q) && (q != [] ==> q[0] !in done + Elements(wave))
    ensures IsChain(g, p) && |p| == |q| + 1 && p[0] !in done
  {
    assert wave[0] in Elements(wave);
    if q == [] {
      p := [wave[0]];
    } else {
      var e :| e in Waiting(g, done, q[0]);
      p := [e.0] + q;
      forall i, j | 0 <= i && j == i + 1 && j < |p| ensures (p[i], p[j]) in g.edges {
        assert p[j] == q[i];
        assert i > 0 ==> p[i] == q[i - 1];
      }
    }
  }

  ghost function ListBound(nodes: int, longest: int, width: nat): int
    requires width > 0
  {
    longest + (nodes - longest) / width
  }

  ghost predicate NoChainLongerThan(g: Graph, longest: nat) {
    forall p :: IsChain(g, p) ==> |p| <= longest
  }

  /** An acyclic graph has a longest chain. */
  lemma LongestChain(g: Graph) returns (p: seq<Node>)
    requires Closed(g) && Acyclic(g)
    ensures IsChain(g, p) && NoChainLongerThan(g, |p|)
  {
    forall q | IsChain(g, q) ensures |q| <= |g.nodes| {
      ChainIsShort(g, q);
    }
    p := LongestBelow(g, |g.nodes|);
  }

  lemma {:induction false} LongestBelow(g: Graph, bound: nat) returns (p: seq<Node>)
    requires NoChainLongerThan(g, bound)
    ensures IsChain(g, p) && NoChainLongerThan(g, |p|)
  {
    if q :| IsChain(g, q) && |q| == bound {
      p := q;
    } else {
      assert IsChain(g, []);
      p := LongestBelow(g, bound - 1);
    }
  }

  /**
   The list-scheduling bound: when no chain is longer than `longest`, the greedy schedule of n
   nodes has at most longest + (n - longest) / width waves.
   */
  lemma WaveBound(g: Graph, width: nat, longest: nat)
    requires width > 0 && Closed(g) && Acyclic(g)
    requires NoChainLongerThan(g, longest)
    ensures |Waves(g, width, {})| <= ListBound(|g.nodes|, longest, width)
  {
    var p := GreedyCost(g, width);
    BoundFromChain(width, |Waves(g, width, {})|, |g.nodes|, |p|, longest);
  }

  lemma BoundFromChain(width: nat, waves: nat, nodes: nat, chain: nat, longest: nat)
    requires width > 0 && chain <= longest && width * waves <= nodes + (width - 1) * chain
    ensures waves <= ListBound(nodes, longest, width)
  {
    MulMonotone(width - 1, chain, longest);
    assert width * (waves - longest) <= nodes - longest;
    DivBound(width, waves - longest, nodes - longest);
  }

  lemma MulMonotone(k: nat, a: nat, b: nat)
    requires a <= b
    ensures k * a <= k * b
  {
  }

  lemma BelowOne(width: nat, k: int)
    requires width * k < width
    ensures k <= 0
  {
  }

  lemma DivBound(width: nat, a: int, b: int)
    requires width > 0 && width * a <= b
    ensures a <= b / width
  {
    var q := b / width;
    assert b == width * q + b % width;
    assert width * (a - q) < width;
    BelowOne(width, a - q);
  }

  /**
   No schedule of the same width is much shorter: the greedy one needs at most
   (2 - 1 / width) times the waves of any other.
   */
  lemma GreedyIsNearOptimal(g: Graph, width: nat, other: seq<seq<Node>>)
    requires width > 0 && Closed(g) && Acyclic(g) && Schedules(g, width, {}, other)
    ensures width * |Waves(g, width, {})| <= (2 * width - 1) * |other|
  {
    var p := GreedyCost(g, width);
    ChainNeedsWaves(g, width, {}, other, p);
    assert g.nodes - {} == g.nodes;
    NodesNeedWaves(g, width, {}, other);
    NearOptimalCount(width, |Waves(g, width, {})|, |g.nodes|, |p|, |other|);
  }

  lemma NearOptimalCount(width: nat, waves: nat, nodes: nat, chain: nat, other: nat)
    requires width > 0 && chain <= other && nodes <= width * other
    requires width * waves <= nodes + (width - 1) * chain
    ensures width * waves <= (2 * width - 1) * other
  {
    MulMonotone(width - 1, chain, other);
    assert (2 * width - 1) * other == width * other + (width - 1) * other;
  }
}
