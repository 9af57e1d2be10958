/** Cluster and per-site resource usage (internal/metrics/kube.go, internal/metrics/metrics.go).
    One dimension (CPU or memory); the program computes both the same way. */
module Metrics {

  datatype Metric = Metric(used: int, capacity: int, allocatable: int, available: int)

  datatype Node = Node(name: string, capacity: int, allocatable: int)

  datatype NodeMetrics = NodeMetrics(name: string, metric: Metric)

  datatype ClusterMetrics = ClusterMetrics(total: Metric, nodes: seq<NodeMetrics>)

  function Avail(allocatable: int, used: int): int { if used > allocatable then 0 else allocatable - used }

  function UsedBy(used: map<string, int>, name: string): int { if name in used then used[name] else 0 }

  function NodeMetric(used: map<string, int>, n: Node): NodeMetrics {
    var u := UsedBy(used, n.name);
    NodeMetrics(n.name, Metric(u, n.capacity, n.allocatable, Avail(n.allocatable, u)))
  }

  function Total(xs: seq<int>): int { if xs == [] then 0 else Total(xs[..|xs| - 1]) + xs[|xs| - 1] }

  function Uses(ns: seq<NodeMetrics>): seq<int> { seq(|ns|, i requires 0 <= i < |ns| => ns[i].metric.used) }

  function Capacities(ns: seq<NodeMetrics>): seq<int> { seq(|ns|, i requires 0 <= i < |ns| => ns[i].metric.capacity) }

  function Allocatables(ns: seq<NodeMetrics>): seq<int> { seq(|ns|, i requires 0 <= i < |ns| => ns[i].metric.allocatable) }

  function Availables(ns: seq<NodeMetrics>): seq<int> { seq(|ns|, i requires 0 <= i < |ns| => ns[i].metric.available) }

  lemma TotalAppend(xs: seq<int>, x: int)
    ensures Total(xs + [x]) == Total(xs) + x
  { }

  lemma ListsAppend(ns: seq<NodeMetrics>, n: NodeMetrics)
    ensures Uses(ns + [n]) == Uses(ns) + [n.metric.used]
    ensures Capacities(ns + [n]) == Capacities(ns) + [n.metric.capacity]
    ensures Allocatables(ns + [n]) == Allocatables(ns) + [n.metric.allocatable]
    ensures Availables(ns + [n]) == Availables(ns) + [n.metric.available]
  { }

  /** One pass over the nodes with running sums; the totals are the sums over what is reported. */
  method Cluster(nodes: seq<Node>, used: map<string, int>) returns (cm: ClusterMetrics)
    ensures |cm.nodes| == |nodes| && forall i :: 0 <= i < |nodes| ==> cm.nodes[i] == NodeMetric(used, nodes[i])
    ensures forall i :: 0 <= i < |nodes| ==> Measures(cm.nodes[i], nodes[i], used)
    ensures cm.total.used == Total(KnownUses(nodes, used))
    ensures cm.total.capacity == Total(seq(|nodes|, i requires 0 <= i < |nodes| => nodes[i].capacity))
    ensures cm.total.allocatable == Total(seq(|nodes|, i requires 0 <= i < |nodes| => nodes[i].allocatable))
    ensures Left(cm.total) && cm.total.available <= Total(Availables(cm.nodes))
    ensures cm.total.available == Total(Availables(cm.nodes)) <==> !OverUsed(cm.nodes) || !Spare(cm.nodes)
    ensures cm.total.used == Total(Uses(cm.nodes))
    ensures cm.total.capacity == Total(Capacities(cm.nodes))
    ensures cm.total.allocatable == Total(Allocatables(cm.nodes))
    ensures cm.total.available == Avail(cm.total.allocatable, cm.total.used)
  {
    var out: seq<NodeMetrics> := [];
    var cap, alloc, use := 0, 0, 0;
    for i := 0 to |nodes|
      invariant |out| == i && forall j :: 0 <= j < i ==> out[j] == NodeMetric(used, nodes[j])
      invariant use == Total(Uses(out)) && cap == Total(Capacities(out)) && alloc == Total(Allocatables(out))
    {
      var n := nodes[i];
      var u := UsedBy(used, n.name);
      cap := cap + n.capacity;
      alloc := alloc + n.allocatable;
      use := use + u;
      var m := NodeMetrics(n.name, Metric(u, n.capacity, n.allocatable, Avail(n.allocatable, u)));
      ListsAppend(out, m);
      TotalAppend(Uses(out), u);
      TotalAppend(Capacities(out), n.capacity);
      TotalAppend(Allocatables(out), n.allocatable);
      out := out + [m];
    }
    cm := ClusterMetrics(Metric(use, cap, alloc, Avail(alloc, use)), out);
    Reported(nodes, used, out);
    ClusterAvailable(out);
  }

  function KnownUses(nodes: seq<Node>, used: map<string, int>): seq<int> {
    seq(|nodes|, i requires 0 <= i < |nodes| => if nodes[i].name in used then used[nodes[i].name] else 0)
  }

  lemma Reported(nodes: seq<Node>, used: map<string, int>, out: seq<NodeMetrics>)
    requires |out| == |nodes| && forall i :: 0 <= i < |nodes| ==> out[i] == NodeMetric(used, nodes[i])
    ensures Clamped(out) && forall i :: 0 <= i < |nodes| ==> Measures(out[i], nodes[i], used)
    ensures Uses(out) == KnownUses(nodes, used)
    ensures Capacities(out) == seq(|nodes|, i requires 0 <= i < |nodes| => nodes[i].capacity)
    ensures Allocatables(out) == seq(|nodes|, i requires 0 <= i < |nodes| => nodes[i].allocatable)
  { }

  /** What is available is what is left, never below zero. */
  predicate Left(m: Metric) {
    m.available >= 0 && m.available >= m.allocatable - m.used && (m.available > 0 ==> m.available == m.allocatable - m.used)
  }

  /** A node's report: its own numbers, and what is used on it, nothing if that is not known. */
  predicate Measures(m: NodeMetrics, n: Node, used: map<string, int>) {
    && m.name == n.name && m.metric.capacity == n.capacity && m.metric.allocatable == n.allocatable
    && m.metric.used == (if n.name in used then used[n.name] else 0) && Left(m.metric)
  }

  ghost predicate Clamped(ns: seq<NodeMetrics>) {
    forall i :: 0 <= i < |ns| ==> ns[i].metric.available == Avail(ns[i].metric.allocatable, ns[i].metric.used)
  }

  ghost predicate OverUsed(ns: seq<NodeMetrics>) {
    exists i :: 0 <= i < |ns| && ns[i].metric.used > ns[i].metric.allocatable
  }

  ghost predicate Spare(ns: seq<NodeMetrics>) { exists i :: 0 <= i < |ns| && ns[i].metric.available > 0 }

  /** Summing what is free per node: never below zero and never below what the sums leave free, with
      equality exactly when no node uses more than it may. */
  lemma {:induction false} SumOfAvailable(ns: seq<NodeMetrics>)
    requires Clamped(ns)
    ensures Total(Availables(ns)) >= 0
    ensures Total(Availables(ns)) >= Total(Allocatables(ns)) - Total(Uses(ns))
    ensures Total(Availables(ns)) == Total(Allocatables(ns)) - Total(Uses(ns)) <==> !OverUsed(ns)
    ensures Total(Availables(ns)) > 0 <==> Spare(ns)
  {
    if ns != [] {
      var rest, n := ns[..|ns| - 1], ns[|ns| - 1];
      assert ns == rest + [n];
      SumOfAvailable(rest);
      ListsAppend(rest, n);
      TotalAppend(Uses(rest), n.metric.used);
      TotalAppend(Allocatables(rest), n.metric.allocatable);
      TotalAppend(Availables(rest), n.metric.available);
      assert OverUsed(ns) <==> OverUsed(rest) || n.metric.used > n.metric.allocatable by {
        if OverUsed(rest) { var i :| 0 <= i < |rest| && rest[i].metric.used > rest[i].metric.allocatable; assert ns[i] == rest[i]; }
        if n.metric.used > n.metric.allocatable { assert ns[|ns| - 1] == n; }
      }
      assert Spare(ns) <==> Spare(rest) || n.metric.available > 0 by {
        if Spare(rest) { var i :| 0 <= i < |rest| && rest[i].metric.available > 0; assert ns[i] == rest[i]; }
        if n.metric.available > 0 { assert ns[|ns| - 1] == n; }
      }
    }
  }

  /** What the cluster reports as available never exceeds what its nodes report, and equals it exactly
      when no node is over-used or no node has anything left. */
  lemma ClusterAvailable(ns: seq<NodeMetrics>)
    requires Clamped(ns)
    ensures var total := Avail(Total(Allocatables(ns)), Total(Uses(ns)));
            && total <= Total(Availables(ns))
            && (total == Total(Availables(ns)) <==> !OverUsed(ns) || !Spare(ns))
  {
    SumOfAvailable(ns);
  }

  // ---- Usage per site ----

  /** A pod's site label ("" when it has none) and the usage of its containers. */
  datatype Pod = Pod(site: string, containers: seq<int>)

  function SiteTotal(pods: seq<Pod>, site: string): int {
    if pods == [] then 0
    else
      var last := pods[|pods| - 1];
      SiteTotal(pods[..|pods| - 1], site) + if last.site == site then Total(last.containers) else 0
  }

  lemma SiteTotalAppend(pods: seq<Pod>, p: Pod, site: string)
    ensures SiteTotal(pods + [p], site) == SiteTotal(pods, site) + if p.site == site then Total(p.containers) else 0
  { }

  /** One pod's containers are added to its site's entry, which is created on first sight. */
  method AddPod(agg: map<string, int>, p: Pod) returns (agg': map<string, int>)
    ensures agg' == agg[p.site := (if p.site in agg then agg[p.site] else 0) + Total(p.containers)]
  {
    agg' := agg;
    if p.site !in agg' {
      agg' := agg'[p.site := 0];
    }
    ghost var before := agg';
    for k := 0 to |p.containers|
      invariant agg' == before[p.site := before[p.site] + Total(p.containers[..k])]
    {
      TotalAppend(p.containers[..k], p.containers[k]);
      assert p.containers[..k + 1] == p.containers[..k] + [p.containers[k]];
      agg' := agg'[p.site := agg'[p.site] + p.containers[k]];
    }
    assert p.containers[..|p.containers|] == p.containers;
  }

  ghost predicate Seen(pods: seq<Pod>, s: string) { s != "" && exists i :: 0 <= i < |pods| && pods[i].site == s }

  lemma SeenAppend(pods: seq<Pod>, p: Pod)
    ensures forall s :: Seen(pods + [p], s) <==> Seen(pods, s) || (s != "" && s == p.site)
  {
    forall s ensures Seen(pods + [p], s) <==> Seen(pods, s) || (s != "" && s == p.site) {
      assert (pods + [p])[|pods|] == p;
      if Seen(pods, s) {
        var i :| 0 <= i < |pods| && pods[i].site == s;
        assert (pods + [p])[i] == pods[i];
      }
    }
  }

  lemma {:induction false} UnseenIsZero(pods: seq<Pod>, s: string)
    requires s != "" && !Seen(pods, s)
    ensures SiteTotal(pods, s) == 0
  {
    if pods != [] {
      var rest := pods[..|pods| - 1];
      assert pods == rest + [pods[|pods| - 1]];
      SeenAppend(rest, pods[|pods| - 1]);
      UnseenIsZero(rest, s);
    }
  }

  /** The map the aggregation is meant to produce. */
  ghost predicate Aggregates(agg: map<string, int>, pods: seq<Pod>) {
    && (forall s :: s in agg <==> Seen(pods, s))
    && (forall s :: s in agg ==> agg[s] == SiteTotal(pods, s))
  }

  lemma AggregateOne(agg: map<string, int>, agg': map<string, int>, pods: seq<Pod>, p: Pod)
    requires Aggregates(agg, pods)
    requires agg' == if p.site == "" then agg
                     else agg[p.site := (if p.site in agg then agg[p.site] else 0) + Total(p.containers)]
    ensures Aggregates(agg', pods + [p])
  {
    SeenAppend(pods, p);
    forall s | s in agg' ensures agg'[s] == SiteTotal(pods + [p], s) {
      SiteTotalAppend(pods, p, s);
      if s !in agg { UnseenIsZero(pods, s); }
    }
  }

  /** One pass over the pods: an entry for every label seen, holding the sum over its pods' containers. */
  method Sites(pods: seq<Pod>) returns (agg: map<string, int>)
    ensures forall s :: s in agg <==> s != "" && exists i :: 0 <= i < |pods| && pods[i].site == s
    ensures forall s :: s in agg ==> agg[s] == SiteTotal(pods, s)
  {
    agg := map[];
    for i := 0 to |pods|
      invariant Aggregates(agg, pods[..i])
    {
      ghost var before := agg;
      if pods[i].site != "" {
        agg := AddPod(agg, pods[i]);
      }
      AggregateOne(before, agg, pods[..i], pods[i]);
      assert pods[..i + 1] == pods[..i] + [pods[i]];
    }
    assert pods[..|pods|] == pods;
    assert forall s :: s in agg <==> Seen(pods, s);
  }

  lemma {:induction false} SiteTotalRemove(pods: seq<Pod>, k: nat, site: string)
    requires k < |pods|
    ensures SiteTotal(pods, site)
            == SiteTotal(pods[..k] + pods[k + 1..], site) + if pods[k].site == site then Total(pods[k].containers) else 0
  {
    var n := |pods|;
    if k == n - 1 {
      assert pods[..k] + pods[k + 1..] == pods[..n - 1];
    } else {
      var rest := pods[..n - 1];
      SiteTotalRemove(rest, k, site);
      assert pods[..k] + pods[k + 1..] == (rest[..k] + rest[k + 1..]) + [pods[n - 1]];
      SiteTotalAppend(rest[..k] + rest[k + 1..], pods[n - 1], site);
    }
  }

  /** The usage of a site does not depend on the order in which its pods are listed. */
  lemma {:induction false} OrderIsIrrelevant(a: seq<Pod>, b: seq<Pod>, site: string)
    requires multiset(a) == multiset(b)
    ensures SiteTotal(a, site) == SiteTotal(b, site)
    decreases |a|
  {
    if a == [] {
      assert |multiset(b)| == 0;
    } else {
      var last := a[|a| - 1];
      assert last in multiset(b);
      var k :| 0 <= k < |b| && b[k] == last;
      assert a == a[..|a| - 1] + [last];
      assert b == b[..k] + [last] + b[k + 1..];
      assert multiset(a[..|a| - 1]) == multiset(a) - multiset{last};
      assert multiset(b[..k] + b[k + 1..]) == multiset(b) - multiset{last};
      OrderIsIrrelevant(a[..|a| - 1], b[..k] + b[k + 1..], site);
      SiteTotalRemove(b, k, site);
    }
  }

  function GrandTotal(pods: seq<Pod>): int {
    if pods == [] then 0 else GrandTotal(pods[..|pods| - 1]) + Total(pods[|pods| - 1].containers)
  }

  function PerSite(pods: seq<Pod>, names: seq<string>): seq<int> { seq(|names|, i requires 0 <= i < |names| => SiteTotal(pods, names[i])) }

  lemma {:induction false} RaiseOne(xs: seq<int>, ys: seq<int>, k: nat, d: int)
    requires |xs| == |ys| && k < |xs| && ys[k] == xs[k] + d
    requires forall i :: 0 <= i < |xs| && i != k ==> ys[i] == xs[i]
    ensures Total(ys) == Total(xs) + d
  {
    var n := |xs|;
    if k < n - 1 {
      RaiseOne(xs[..n - 1], ys[..n - 1], k, d);
    } else {
      assert xs[..n - 1] == ys[..n - 1];
    }
  }

  lemma {:induction false} Zeros(xs: seq<int>)
    requires forall i :: 0 <= i < |xs| ==> xs[i] == 0
    ensures Total(xs) == 0
  {
    if xs != [] { Zeros(xs[..|xs| - 1]); }
  }

  /** Nothing is lost or counted twice: over any list of distinct names that includes every label, the
      empty one standing for unlabelled pods, the per-site sums add up to the usage of all containers. */
  lemma {:induction false} UsageIsConserved(pods: seq<Pod>, names: seq<string>)
    requires forall i, j :: 0 <= i < j < |names| ==> names[i] != names[j]
    requires forall i :: 0 <= i < |pods| ==> pods[i].site in names
    ensures Total(PerSite(pods, names)) == GrandTotal(pods)
  {
    if pods == [] {
      Zeros(PerSite(pods, names));
    } else {
      var rest, p := pods[..|pods| - 1], pods[|pods| - 1];
      UsageIsConserved(rest, names);
      var k :| 0 <= k < |names| && names[k] == p.site;
      RaiseOne(PerSite(rest, names), PerSite(pods, names), k, Total(p.containers));
    }
  }
}
