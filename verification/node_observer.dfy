/** The node observer of pkg/core/node_observer.go: for every ready Kube, list the Heapster
    metrics and the Kubernetes nodes, then refresh each of its node records from the first
    Kubernetes node, address, condition, node size and metric that match it, and save it. */
module NodeObserver {
  import opened Outcomes
  import opened Model

  datatype NodeAddress = NodeAddress(kind: string, address: string)

  datatype NodeCondition = NodeCondition(kind: string, status: string)

  /** A node as the Kubernetes API lists it: its name and the status fields the observer reads. */
  datatype K8sNode = K8sNode(name: string, addresses: seq<NodeAddress>, conditions: seq<NodeCondition>)

  /** The zero value the observer falls back on when no Kubernetes node has the record's name. */
  const EmptyK8sNode: K8sNode := K8sNode("", [], [])

  datatype HeapsterMetric = HeapsterMetric(name: string, cpuUsage: int, ramUsage: int)

  /** A node size of the provider, with its limits already converted to millicores and bytes. */
  datatype NodeSize = NodeSize(name: string, cpuLimit: int, ramLimit: int)

  // ---------------------------------------------------------------------------
  // First-match lookups
  // ---------------------------------------------------------------------------

  /** The position of the first element of s satisfying p; |s| when there is none. */
  function FirstIndex<T>(s: seq<T>, p: T -> bool): (i: nat)
    ensures i <= |s|
    decreases |s|
  {
    if s == [] then 0
    else if p(s[0]) then 0
    else 1 + FirstIndex(s[1..], p)
  }

  /** The first match matches, and nothing before it does. */
  lemma {:induction false} FirstIndexFacts<T>(s: seq<T>, p: T -> bool)
    ensures var i := FirstIndex(s, p);
            && (i < |s| ==> p(s[i]))
            && forall j :: 0 <= j < i ==> !p(s[j])
    decreases |s|
  {
    if s != [] && !p(s[0]) {
      FirstIndexFacts(s[1..], p);
      assert forall j :: 1 <= j <= |s[1..]| ==> s[j] == s[1..][j - 1];
    }
  }

  /** The first match is the only position whose element matches with none matching before
      it, and |s| is the only answer when nothing matches. */
  lemma {:induction false} FirstIndexIs<T>(s: seq<T>, p: T -> bool, i: nat)
    requires i <= |s| && (i < |s| ==> p(s[i]))
    requires forall j :: 0 <= j < i ==> !p(s[j])
    ensures FirstIndex(s, p) == i
    decreases |s|
  {
    if s != [] && !p(s[0]) {
      assert 0 < i;
      FirstIndexIs(s[1..], p, i - 1);
    }
  }

  /** The range loop with `break` on the first match. */
  method FindFirst<T>(s: seq<T>, p: T -> bool) returns (i: nat)
    ensures i == FirstIndex(s, p)
  {
    i := 0;
    while i < |s| && !p(s[i])
      invariant i <= |s|
      invariant forall j :: 0 <= j < i ==> !p(s[j])
    {
      i := i + 1;
    }
    FirstIndexIs(s, p, i);
  }

  function NamedNode(name: string): K8sNode -> bool
  {
    (kn: K8sNode) => kn.name == name
  }

  function ExternalAddress(): NodeAddress -> bool
  {
    (a: NodeAddress) => a.kind == "ExternalIP"
  }

  function OutOfDiskCondition(): NodeCondition -> bool
  {
    (c: NodeCondition) => c.kind == "OutOfDisk"
  }

  function NamedSize(name: string): NodeSize -> bool
  {
    (ns: NodeSize) => ns.name == name
  }

  function NamedMetric(name: string): HeapsterMetric -> bool
  {
    (m: HeapsterMetric) => m.name == name
  }

  /** The Kubernetes node a record is refreshed from: the first one of equal name, or the zero
      node. */
  function Matched(knodes: seq<K8sNode>, name: string): K8sNode
  {
    var k := FirstIndex(knodes, NamedNode(name));
    if k < |knodes| then knodes[k] else EmptyK8sNode
  }

  // ---------------------------------------------------------------------------
  // Refreshing one node record
  // ---------------------------------------------------------------------------

  /** The external IP a record takes from its Kubernetes node's addresses: that of the first
      "ExternalIP" entry, or the one it had when there is none. */
  function WithExternalIP(n: Node, addresses: seq<NodeAddress>): Node
  {
    var a := FirstIndex(addresses, ExternalAddress());
    if a < |addresses| then n.(externalIP := addresses[a].address) else n
  }

  /** OutOfDisk as a record takes it from its Kubernetes node's conditions: whether the first
      "OutOfDisk" condition is "True", or what it was when there is none. */
  function WithOutOfDisk(n: Node, conditions: seq<NodeCondition>): Node
  {
    var d := FirstIndex(conditions, OutOfDiskCondition());
    if d < |conditions| then n.(outOfDisk := conditions[d].status == "True") else n
  }

  /** The refreshed record, or None when the metric or the node size is missing and the
      observer dereferences a nil pointer. */
  function Refresh(n: Node, knodes: seq<K8sNode>, metrics: seq<HeapsterMetric>, sizes: seq<NodeSize>): Option<Node>
  {
    var knode := Matched(knodes, n.name);
    var z := FirstIndex(sizes, NamedSize(n.size));
    var m := FirstIndex(metrics, NamedMetric(n.name));
    if m == |metrics| || z == |sizes| then None
    else
      Some(WithOutOfDisk(WithExternalIP(n, knode.addresses), knode.conditions)
             .(cpuUsage := metrics[m].cpuUsage, ramUsage := metrics[m].ramUsage,
               cpuLimit := sizes[z].cpuLimit, ramLimit := sizes[z].ramLimit))
  }

  /** The refresh fails exactly when no metric carries the node's name or no size of the
      provider carries the node's size. */
  lemma RefreshPanicsIff(n: Node, knodes: seq<K8sNode>, metrics: seq<HeapsterMetric>, sizes: seq<NodeSize>)
    ensures Refresh(n, knodes, metrics, sizes).None? <==>
              (forall i :: 0 <= i < |metrics| ==> metrics[i].name != n.name)
              || (forall i :: 0 <= i < |sizes| ==> sizes[i].name != n.size)
  {
    var m := FirstIndex(metrics, NamedMetric(n.name));
    var z := FirstIndex(sizes, NamedSize(n.size));
    FirstIndexFacts(metrics, NamedMetric(n.name));
    FirstIndexFacts(sizes, NamedSize(n.size));
    if m < |metrics| {
      assert NamedMetric(n.name)(metrics[m]);
    }
    if z < |sizes| {
      assert NamedSize(n.size)(sizes[z]);
    }
    if forall i :: 0 <= i < |metrics| ==> metrics[i].name != n.name {
      assert m == |metrics|;
    }
    if forall i :: 0 <= i < |sizes| ==> sizes[i].name != n.size {
      assert z == |sizes|;
    }
  }

  /** The external IP becomes the address of an "ExternalIP" entry of the matched node with no
      such entry before it, and stays as it was when there is none. */
  lemma RefreshExternalIP(n: Node, knodes: seq<K8sNode>, metrics: seq<HeapsterMetric>, sizes: seq<NodeSize>)
    requires Refresh(n, knodes, metrics, sizes).Some?
    ensures var r, addrs := Refresh(n, knodes, metrics, sizes).value, Matched(knodes, n.name).addresses;
            || (exists a :: 0 <= a < |addrs| && addrs[a].kind == "ExternalIP" && r.externalIP == addrs[a].address
                             && forall j :: 0 <= j < a ==> addrs[j].kind != "ExternalIP")
            || ((forall j :: 0 <= j < |addrs| ==> addrs[j].kind != "ExternalIP") && r.externalIP == n.externalIP)
  {
    var addrs := Matched(knodes, n.name).addresses;
    var a := FirstIndex(addrs, ExternalAddress());
    FirstIndexFacts(addrs, ExternalAddress());
    if a < |addrs| {
      assert ExternalAddress()(addrs[a]);
      assert forall j :: 0 <= j < a ==> !ExternalAddress()(addrs[j]);
    } else {
      assert forall j :: 0 <= j < |addrs| ==> !ExternalAddress()(addrs[j]);
    }
  }

  /** OutOfDisk becomes whether the status of an "OutOfDisk" condition of the matched node, with
      no such condition before it, is "True"; it stays as it was when there is none. */
  lemma RefreshOutOfDisk(n: Node, knodes: seq<K8sNode>, metrics: seq<HeapsterMetric>, sizes: seq<NodeSize>)
    requires Refresh(n, knodes, metrics, sizes).Some?
    ensures var r, conds := Refresh(n, knodes, metrics, sizes).value, Matched(knodes, n.name).conditions;
            || (exists d :: 0 <= d < |conds| && conds[d].kind == "OutOfDisk" && r.outOfDisk == (conds[d].status == "True")
                             && forall j :: 0 <= j < d ==> conds[j].kind != "OutOfDisk")
            || ((forall j :: 0 <= j < |conds| ==> conds[j].kind != "OutOfDisk") && r.outOfDisk == n.outOfDisk)
  {
    var conds := Matched(knodes, n.name).conditions;
    var d := FirstIndex(conds, OutOfDiskCondition());
    FirstIndexFacts(conds, OutOfDiskCondition());
    if d < |conds| {
      assert OutOfDiskCondition()(conds[d]);
      assert forall j :: 0 <= j < d ==> !OutOfDiskCondition()(conds[j]);
    } else {
      assert forall j :: 0 <= j < |conds| ==> !OutOfDiskCondition()(conds[j]);
    }
  }

  /** With no Kubernetes node of the record's name, the zero node has neither addresses nor
      conditions, so the external IP and OutOfDisk stay as they were. */
  lemma RefreshUnmatched(n: Node, knodes: seq<K8sNode>, metrics: seq<HeapsterMetric>, sizes: seq<NodeSize>)
    requires forall i :: 0 <= i < |knodes| ==> knodes[i].name != n.name
    requires Refresh(n, knodes, metrics, sizes).Some?
    ensures Refresh(n, knodes, metrics, sizes).value.externalIP == n.externalIP
    ensures Refresh(n, knodes, metrics, sizes).value.outOfDisk == n.outOfDisk
  {
    assert forall j :: 0 <= j < |knodes| ==> !NamedNode(n.name)(knodes[j]);
    FirstIndexIs(knodes, NamedNode(n.name), |knodes|);
  }

  /** The usage comes from a metric of the record's name with none of that name before it,
      the limits from a size of the record's size with none before it; the identity of the
      record (id, Kube, name, size, provider id) is untouched. */
  lemma RefreshUsage(n: Node, knodes: seq<K8sNode>, metrics: seq<HeapsterMetric>, sizes: seq<NodeSize>)
    requires Refresh(n, knodes, metrics, sizes).Some?
    ensures var r := Refresh(n, knodes, metrics, sizes).value;
            && (exists m :: 0 <= m < |metrics| && metrics[m].name == n.name
                            && r.cpuUsage == metrics[m].cpuUsage && r.ramUsage == metrics[m].ramUsage
                            && forall j :: 0 <= j < m ==> metrics[j].name != n.name)
            && (exists z :: 0 <= z < |sizes| && sizes[z].name == n.size
                            && r.cpuLimit == sizes[z].cpuLimit && r.ramLimit == sizes[z].ramLimit
                            && forall j :: 0 <= j < z ==> sizes[j].name != n.size)
            && r.id == n.id && r.kubeID == n.kubeID && r.name == n.name && r.size == n.size
            && r.providerID == n.providerID
  {
    var m := FirstIndex(metrics, NamedMetric(n.name));
    var z := FirstIndex(sizes, NamedSize(n.size));
    FirstIndexFacts(metrics, NamedMetric(n.name));
    FirstIndexFacts(sizes, NamedSize(n.size));
    assert NamedMetric(n.name)(metrics[m]);
    assert forall j :: 0 <= j < m ==> !NamedMetric(n.name)(metrics[j]);
    assert NamedSize(n.size)(sizes[z]);
    assert forall j :: 0 <= j < z ==> !NamedSize(n.size)(sizes[j]);
  }

  // ---------------------------------------------------------------------------
  // The whole pass
  // ---------------------------------------------------------------------------

  /** The calls of a pass, in order. */
  datatype ObserverCall =
    | FindReadyKubes                  // DB.Where("ready = ?", true)...Find
    | ListMetrics(kubeID: int)        // ListNodeHeapsterMetrics
    | ListNodes(kubeID: int)          // ListNodes("")
    | Save(node: Node)                // DB.Save

  /** The world a pass observes: the stored Kubes, the answers of the calls by their position in
      the pass (whether the call fails, and with which error), the metrics and Kubernetes nodes a
      listing at that position returns, and the node sizes of each provider. */
  datatype Cluster = Cluster(
    db: seq<Kube>,
    env: Env,
    metrics: nat -> seq<HeapsterMetric>,
    k8sNodes: nat -> seq<K8sNode>,
    nodeSizes: string -> seq<NodeSize>)

  /** The query: the ready Kubes, each with only its nodes that have a provider id. */
  function Ready(db: seq<Kube>): (kubes: seq<Kube>)
    ensures |kubes| <= |db|
    ensures forall i :: 0 <= i < |kubes| ==> kubes[i].ready
    ensures forall i, j :: 0 <= i < |kubes| && 0 <= j < |kubes[i].nodes| ==> kubes[i].nodes[j].providerID != ""
  {
    if db == [] then []
    else if db[0].ready then [db[0].(nodes := WithProviderID(db[0].nodes))] + Ready(db[1..])
    else Ready(db[1..])
  }

  /** The query keeps order and works Kube by Kube: on a concatenation it is the
      concatenation of the results, and a single Kube is returned, with only its nodes that
      have a provider id, exactly when it is ready. */
  lemma {:induction false} ReadyAppend(a: seq<Kube>, b: seq<Kube>)
    ensures Ready(a + b) == Ready(a) + Ready(b)
    ensures Ready([]) == []
    ensures |a| == 1 ==> Ready(a) == if a[0].ready then [a[0].(nodes := WithProviderID(a[0].nodes))] else []
    decreases |a|
  {
    if a != [] {
      assert (a + b)[0] == a[0] && (a + b)[1..] == a[1..] + b;
      ReadyAppend(a[1..], b);
      if |a| == 1 {
        assert a[1..] == [];
      }
    } else {
      assert a + b == b;
    }
  }

  /** Every ready Kube of the table is returned, with only its nodes that have a provider id,
      and nothing else is. */
  lemma {:induction false} ReadyMembers(db: seq<Kube>)
    ensures forall k :: k in db && k.ready ==> k.(nodes := WithProviderID(k.nodes)) in Ready(db)
    ensures forall r :: r in Ready(db) ==>
              exists k :: k in db && k.ready && r == k.(nodes := WithProviderID(k.nodes))
    decreases |db|
  {
    if db != [] {
      ReadyMembers(db[1..]);
      forall r | r in Ready(db[1..])
        ensures exists k :: k in db && k.ready && r == k.(nodes := WithProviderID(k.nodes))
      {
        var k :| k in db[1..] && k.ready && r == k.(nodes := WithProviderID(k.nodes));
        assert k in db;
      }
      assert forall k :: k in db ==> k == db[0] || k in db[1..];
    }
  }

  function WithProviderID(nodes: seq<Node>): (r: seq<Node>)
    ensures |r| <= |nodes|
    ensures forall i :: 0 <= i < |r| ==> r[i].providerID != "" && r[i] in nodes
    ensures forall i :: 0 <= i < |nodes| && nodes[i].providerID != "" ==> nodes[i] in r
  {
    if nodes == [] then []
    else if nodes[0].providerID != "" then [nodes[0]] + WithProviderID(nodes[1..])
    else WithProviderID(nodes[1..])
  }

  /** The refresh of every record of one Kube, from what its listings returned. */
  function Refresher(knodes: seq<K8sNode>, metrics: seq<HeapsterMetric>, sizes: seq<NodeSize>): Node -> Option<Node>
  {
    (n: Node) => Refresh(n, knodes, metrics, sizes)
  }

  /** Refreshing and saving nodes in order from position `at`: a missing metric or size panics
      before the save; a failed save ends the pass with its error. */
  function ObserveNodes(nodes: seq<Node>, refresh: Node -> Option<Node>, env: Env, at: nat): (seq<ObserverCall>, Outcome)
    decreases |nodes|
  {
    if nodes == [] then ([], Ok)
    else match refresh(nodes[0])
      case None => ([], Panic(NilDereference))
      case Some(r) =>
        if env.fails(at) then ([Save(r)], Err(env.message(at)))
        else
          var rest := ObserveNodes(nodes[1..], refresh, env, at + 1);
          ([Save(r)] + rest.0, rest.1)
  }

  /** How the records of a Kube are refreshed from its two listings and its provider's node
      sizes. The pass uses Refresher; the facts about the pass hold for any rule. */
  type RefreshRule = (seq<K8sNode>, seq<HeapsterMetric>, seq<NodeSize>) -> (Node -> Option<Node>)

  /** One Kube from position `at`: list the metrics, then the nodes, then refresh and save
      the Kube's nodes. */
  function ObserveKube(k: Kube, c: Cluster, rule: RefreshRule, at: nat): (seq<ObserverCall>, Outcome)
  {
    if c.env.fails(at) then ([ListMetrics(k.id)], Err(c.env.message(at)))
    else if c.env.fails(at + 1) then ([ListMetrics(k.id), ListNodes(k.id)], Err(c.env.message(at + 1)))
    else
      var r := ObserveNodes(k.nodes, rule(c.k8sNodes(at + 1), c.metrics(at), c.nodeSizes(k.provider)), c.env, at + 2);
      ([ListMetrics(k.id), ListNodes(k.id)] + r.0, r.1)
  }

  /** The three ways one Kube goes: its metrics listing fails, its node listing fails, or its
      nodes are refreshed with what the two listings returned. */
  lemma ObserveKubeCases(k: Kube, c: Cluster, rule: RefreshRule, at: nat)
    ensures c.env.fails(at) ==> ObserveKube(k, c, rule, at) == ([ListMetrics(k.id)], Answer(c.env, at))
    ensures !c.env.fails(at) && c.env.fails(at + 1) ==>
              ObserveKube(k, c, rule, at) == ([ListMetrics(k.id), ListNodes(k.id)], Answer(c.env, at + 1))
    ensures !c.env.fails(at) && !c.env.fails(at + 1) ==>
              var r := ObserveNodes(k.nodes, rule(c.k8sNodes(at + 1), c.metrics(at), c.nodeSizes(k.provider)), c.env, at + 2);
              ObserveKube(k, c, rule, at) == ([ListMetrics(k.id), ListNodes(k.id)] + r.0, r.1)
  {
  }

  /** The Kubes in order from position `at`; the first error ends the pass. */
  function ObserveKubes(kubes: seq<Kube>, c: Cluster, rule: RefreshRule, at: nat): (seq<ObserverCall>, Outcome)
    decreases |kubes|
  {
    if kubes == [] then ([], Ok)
    else
      var r := ObserveKube(kubes[0], c, rule, at);
      if r.1 != Ok then r
      else
        var rest := ObserveKubes(kubes[1..], c, rule, at + |r.0|);
        (r.0 + rest.0, rest.1)
  }

  /** One step of the pass over the Kubes from the i-th on: the i-th Kube, then the others
      only when it returned nil. */
  lemma ObserveKubesFrom(kubes: seq<Kube>, i: nat, c: Cluster, rule: RefreshRule, at: nat)
    requires i < |kubes|
    ensures var step := ObserveKube(kubes[i], c, rule, at);
            step.1 != Ok ==> ObserveKubes(kubes[i..], c, rule, at) == step
    ensures var step := ObserveKube(kubes[i], c, rule, at);
            var rest := ObserveKubes(kubes[i + 1..], c, rule, at + |step.0|);
            step.1 == Ok ==> ObserveKubes(kubes[i..], c, rule, at) == (step.0 + rest.0, rest.1)
  {
    assert kubes[i..][0] == kubes[i] && kubes[i..][1..] == kubes[i + 1..];
  }

  /** A whole pass from position `at`. */
  function Observe(c: Cluster, at: nat): (seq<ObserverCall>, Outcome)
  {
    if c.env.fails(at) then ([FindReadyKubes], Err(c.env.message(at)))
    else
      var r := ObserveKubes(Ready(c.db), c, Refresher, at + 1);
      ([FindReadyKubes] + r.0, r.1)
  }

  /** Every call before the last one succeeded; nil comes back only when every call succeeded;
      an error is the error of the last call, which failed; a panic comes after calls that all
      succeeded. So nothing is called after a failed listing or save. */
  predicate Aborts(calls: seq<ObserverCall>, err: Outcome, env: Env, at: nat)
  {
    match err
    case Ok => Succeed(env, at, at + |calls|)
    case Err(e) =>
      0 < |calls| && env.fails(at + |calls| - 1) && e == env.message(at + |calls| - 1) && Succeed(env, at, at + |calls| - 1)
    case Panic(reason) => reason == NilDereference && Succeed(env, at, at + |calls|)
  }

  lemma {:induction false} ObserveNodesAborts(nodes: seq<Node>, refresh: Node -> Option<Node>, env: Env, at: nat)
    ensures var r := ObserveNodes(nodes, refresh, env, at);
            Aborts(r.0, r.1, env, at)
    decreases |nodes|
  {
    if nodes != [] && refresh(nodes[0]).Some? && !env.fails(at) {
      ObserveNodesAborts(nodes[1..], refresh, env, at + 1);
    }
  }

  /** Calls that all succeeded, followed by calls that abort, abort as a whole. */
  lemma AbortsAfter(done: seq<ObserverCall>, calls: seq<ObserverCall>, err: Outcome, env: Env, at: nat)
    requires Succeed(env, at, at + |done|)
    requires Aborts(calls, err, env, at + |done|)
    ensures Aborts(done + calls, err, env, at)
  {
  }

  lemma ObserveKubeAborts(k: Kube, c: Cluster, rule: RefreshRule, at: nat)
    ensures var r := ObserveKube(k, c, rule, at);
            Aborts(r.0, r.1, c.env, at)
  {
    if !c.env.fails(at) && !c.env.fails(at + 1) {
      var refresh := rule(c.k8sNodes(at + 1), c.metrics(at), c.nodeSizes(k.provider));
      var r := ObserveNodes(k.nodes, refresh, c.env, at + 2);
      ObserveNodesAborts(k.nodes, refresh, c.env, at + 2);
      AbortsAfter([ListMetrics(k.id), ListNodes(k.id)], r.0, r.1, c.env, at);
    }
  }

  /** A step that aborts, followed (only when it returned nil) by a rest that aborts, aborts as
      a whole. */
  lemma AbortsSeq(step: (seq<ObserverCall>, Outcome), rest: (seq<ObserverCall>, Outcome),
                  whole: (seq<ObserverCall>, Outcome), env: Env, at: nat)
    requires Aborts(step.0, step.1, env, at)
    requires step.1 == Ok ==> Aborts(rest.0, rest.1, env, at + |step.0|)
    requires whole == if step.1 != Ok then step else (step.0 + rest.0, rest.1)
    ensures Aborts(whole.0, whole.1, env, at)
  {
    if step.1 == Ok {
      AbortsAfter(step.0, rest.0, rest.1, env, at);
    }
  }

  lemma {:induction false} ObserveKubesAborts(kubes: seq<Kube>, c: Cluster, rule: RefreshRule, at: nat)
    ensures var r := ObserveKubes(kubes, c, rule, at);
            Aborts(r.0, r.1, c.env, at)
    decreases |kubes|
  {
    if kubes != [] {
      var step := ObserveKube(kubes[0], c, rule, at);
      var rest := ObserveKubes(kubes[1..], c, rule, at + |step.0|);
      ObserveKubeAborts(kubes[0], c, rule, at);
      if step.1 == Ok {
        ObserveKubesAborts(kubes[1..], c, rule, at + |step.0|);
      }
      AbortsSeq(step, rest, ObserveKubes(kubes, c, rule, at), c.env, at);
    }
  }

  /** A pass stops at its first failing call and returns that call's error; nil means every
      call succeeded. */
  lemma ObserveAborts(c: Cluster, at: nat)
    ensures var r := Observe(c, at);
            Aborts(r.0, r.1, c.env, at)
  {
    if !c.env.fails(at) {
      ObserveFromAborts(Ready(c.db), c, Refresher, at);
    }
  }

  lemma ObserveFromAborts(kubes: seq<Kube>, c: Cluster, rule: RefreshRule, at: nat)
    requires !c.env.fails(at)
    ensures var r := ObserveKubes(kubes, c, rule, at + 1);
            Aborts([FindReadyKubes] + r.0, r.1, c.env, at)
  {
    var r := ObserveKubes(kubes, c, rule, at + 1);
    ObserveKubesAborts(kubes, c, rule, at + 1);
    AbortsAfter([FindReadyKubes], r.0, r.1, c.env, at);
  }

  /** A failed metrics or node listing of the first Kube ends the pass before any node is
      saved, with that listing's error. */
  lemma ListingErrorSavesNothing(kubes: seq<Kube>, c: Cluster, rule: RefreshRule, at: nat)
    requires |kubes| > 0 && (c.env.fails(at) || c.env.fails(at + 1))
    ensures var r := ObserveKubes(kubes, c, rule, at);
            && (forall i :: 0 <= i < |r.0| ==> !r.0[i].Save?)
            && r.1 == Err(c.env.message(if c.env.fails(at) then at else at + 1))
  {
  }

  /** When every save succeeds and every metric and size is there, each node is saved exactly
      once, refreshed, in order. */
  lemma {:induction false} ObserveNodesSavesAll(nodes: seq<Node>, refresh: Node -> Option<Node>, env: Env, at: nat)
    requires ObserveNodes(nodes, refresh, env, at).1 == Ok
    ensures var calls := ObserveNodes(nodes, refresh, env, at).0;
            && |calls| == |nodes|
            && forall i :: 0 <= i < |nodes| ==> calls[i].Save? && refresh(nodes[i]) == Some(calls[i].node)
    decreases |nodes|
  {
    if nodes != [] {
      ObserveNodesSavesAll(nodes[1..], refresh, env, at + 1);
      var calls := ObserveNodes(nodes, refresh, env, at).0;
      var rest := ObserveNodes(nodes[1..], refresh, env, at + 1).0;
      forall i | 1 <= i < |nodes|
        ensures calls[i].Save? && refresh(nodes[i]) == Some(calls[i].node)
      {
        assert calls[i] == rest[i - 1];
        assert nodes[1..][i - 1] == nodes[i];
      }
    }
  }

  lemma AppendAssoc<T>(a: seq<T>, b: seq<T>, c: seq<T>)
    ensures a + (b + c) == a + b + c
  {
  }

  lemma AppendPair<T>(a: seq<T>, x: T, y: T)
    ensures a + [x] + [y] == a + [x, y]
  {
  }

  class Observer {
    const cluster: Cluster
    var log: seq<ObserverCall>

    constructor (cluster: Cluster)
      ensures this.cluster == cluster && log == []
    {
      this.cluster := cluster;
      log := [];
    }

    /** Make one call and return its answer. */
    method Call(call: ObserverCall) returns (err: Outcome)
      modifies this
      ensures log == old(log) + [call]
      ensures err == Answer(cluster.env, |old(log)|)
    {
      err := Answer(cluster.env, |log|);
      log := log + [call];
    }

    /** The first loop of the refresh: the Kubernetes node of the record's name. */
    method MatchNode(knodes: seq<K8sNode>, name: string) returns (knode: K8sNode)
      ensures knode == Matched(knodes, name)
    {
      var k := FindFirst(knodes, NamedNode(name));
      knode := if k < |knodes| then knodes[k] else EmptyK8sNode;
    }

    /** The address loop: copy the first "ExternalIP" address into the record. */
    method SetExternalIP(n: Node, addresses: seq<NodeAddress>) returns (r: Node)
      ensures r == WithExternalIP(n, addresses)
    {
      r := n;
      var a := FindFirst(addresses, ExternalAddress());
      if a < |addresses| {
        r := r.(externalIP := addresses[a].address);
      }
    }

    /** The condition loop: copy whether the first "OutOfDisk" condition is "True". */
    method SetOutOfDisk(n: Node, conditions: seq<NodeCondition>) returns (r: Node)
      ensures r == WithOutOfDisk(n, conditions)
    {
      r := n;
      var d := FindFirst(conditions, OutOfDiskCondition());
      if d < |conditions| {
        r := r.(outOfDisk := conditions[d].status == "True");
      }
    }

    /** Refresh one record in place of the Go pointer updates: the four first-match loops and
        the field assignments. */
    method RefreshNode(n: Node, knodes: seq<K8sNode>, metrics: seq<HeapsterMetric>, sizes: seq<NodeSize>)
      returns (r: Option<Node>)
      ensures r == Refresh(n, knodes, metrics, sizes)
    {
      var knode := MatchNode(knodes, n.name);
      var node := SetExternalIP(n, knode.addresses);
      node := SetOutOfDisk(node, knode.conditions);
      var z := FindFirst(sizes, NamedSize(n.size));
      var m := FindFirst(metrics, NamedMetric(n.name));
      if m == |metrics| || z == |sizes| {
        return None;
      }
      node := node.(cpuUsage := metrics[m].cpuUsage, ramUsage := metrics[m].ramUsage);
      node := node.(cpuLimit := sizes[z].cpuLimit, ramLimit := sizes[z].ramLimit);
      r := Some(node);
    }

    /** The inner loop: refresh and save each node of one Kube. */
    method ObserveKubeNodes(nodes: seq<Node>, knodes: seq<K8sNode>, metrics: seq<HeapsterMetric>, sizes: seq<NodeSize>)
      returns (err: Outcome)
      modifies this
      ensures log == old(log) + ObserveNodes(nodes, Refresher(knodes, metrics, sizes), cluster.env, |old(log)|).0
      ensures err == ObserveNodes(nodes, Refresher(knodes, metrics, sizes), cluster.env, |old(log)|).1
    {
      ghost var refresh := Refresher(knodes, metrics, sizes);
      ghost var expected := ObserveNodes(nodes, refresh, cluster.env, |log|);
      assert nodes[0..] == nodes;
      var i := 0;
      while i < |nodes|
        invariant 0 <= i <= |nodes|
        invariant old(log) + expected.0 == log + ObserveNodes(nodes[i..], refresh, cluster.env, |log|).0
        invariant expected.1 == ObserveNodes(nodes[i..], refresh, cluster.env, |log|).1
      {
        ghost var cur := ObserveNodes(nodes[i..], refresh, cluster.env, |log|);
        ghost var rest := ObserveNodes(nodes[i + 1..], refresh, cluster.env, |log| + 1);
        assert nodes[i..][0] == nodes[i] && nodes[i..][1..] == nodes[i + 1..];
        var r := RefreshNode(nodes[i], knodes, metrics, sizes);
        assert refresh(nodes[i]) == r;
        if r.None? {
          assert cur == ([], Panic(NilDereference));
          return Panic(NilDereference);
        }
        ghost var l := log;
        err := Call(Save(r.value));
        if err != Ok {
          assert cur == ([Save(r.value)], err);
          return;
        }
        assert cur == ([Save(r.value)] + rest.0, rest.1);
        AppendAssoc(l, [Save(r.value)], rest.0);
        i := i + 1;
      }
      err := Ok;
    }

    /** The body of the outer loop: list the metrics and the nodes of one Kube, then refresh
        and save its nodes. */
    method ObserveOneKube(k: Kube) returns (err: Outcome)
      modifies this
      ensures log == old(log) + ObserveKube(k, cluster, Refresher, |old(log)|).0
      ensures err == ObserveKube(k, cluster, Refresher, |old(log)|).1
    {
      ghost var before := log;
      ghost var at := |log|;
      ObserveKubeCases(k, cluster, Refresher, at);
      err := Call(ListMetrics(k.id));
      if err != Ok {
        return;
      }
      var metrics := cluster.metrics(|log| - 1);
      err := Call(ListNodes(k.id));
      if err != Ok {
        return;
      }
      var knodes := cluster.k8sNodes(|log| - 1);
      var sizes := cluster.nodeSizes(k.provider);
      ghost var refresh := Refresher(knodes, metrics, sizes);
      ghost var rule: RefreshRule := Refresher;
      assert refresh == rule(cluster.k8sNodes(at + 1), cluster.metrics(at), cluster.nodeSizes(k.provider));
      ghost var r := ObserveNodes(k.nodes, refresh, cluster.env, at + 2);
      AppendPair(before, ListMetrics(k.id), ListNodes(k.id));
      err := ObserveKubeNodes(k.nodes, knodes, metrics, sizes);
      assert err == r.1;
      AppendAssoc(before, [ListMetrics(k.id), ListNodes(k.id)], r.0);
    }

    /** One round of the outer loop, on the i-th Kube: either the pass over the Kubes from the
        i-th on ends here, or it goes on with the Kubes after the i-th. */
    method ObserveAt(kubes: seq<Kube>, i: nat) returns (err: Outcome)
      requires i < |kubes|
      modifies this
      ensures var whole := ObserveKubes(kubes[i..], cluster, Refresher, |old(log)|);
              err != Ok ==> log == old(log) + whole.0 && err == whole.1
      ensures var whole := ObserveKubes(kubes[i..], cluster, Refresher, |old(log)|);
              var rest := ObserveKubes(kubes[i + 1..], cluster, Refresher, |log|);
              err == Ok ==> old(log) + whole.0 == log + rest.0 && whole.1 == rest.1
    {
      ghost var at := |log|;
      ghost var step := ObserveKube(kubes[i], cluster, Refresher, at);
      ObserveKubesFrom(kubes, i, cluster, Refresher, at);
      err := ObserveOneKube(kubes[i]);
      assert log == old(log) + step.0 && err == step.1;
      if err == Ok {
        ghost var rest := ObserveKubes(kubes[i + 1..], cluster, Refresher, |log|);
        ghost var whole := ObserveKubes(kubes[i..], cluster, Refresher, at);
        assert |log| == at + |step.0|;
        assert whole == (step.0 + rest.0, rest.1);
        AppendAssoc(old(log), step.0, rest.0);
        assert old(log) + whole.0 == log + rest.0;
      }
    }

    /** The outer loop: each Kube in turn; the first error (or panic) ends it. */
    method ObserveEach(kubes: seq<Kube>) returns (err: Outcome)
      modifies this
      ensures log == old(log) + ObserveKubes(kubes, cluster, Refresher, |old(log)|).0
      ensures err == ObserveKubes(kubes, cluster, Refresher, |old(log)|).1
    {
      ghost var expected := ObserveKubes(kubes, cluster, Refresher, |log|);
      assert kubes[0..] == kubes;
      var i := 0;
      while i < |kubes|
        invariant 0 <= i <= |kubes|
        invariant old(log) + expected.0 == log + ObserveKubes(kubes[i..], cluster, Refresher, |log|).0
        invariant expected.1 == ObserveKubes(kubes[i..], cluster, Refresher, |log|).1
      {
        err := ObserveAt(kubes, i);
        if err != Ok {
          return;
        }
        i := i + 1;
      }
      err := Ok;
    }

    /** Perform: find the ready Kubes; for each, list the metrics and the nodes, then refresh and
        save its nodes; the first error (or panic) ends the pass. */
    method Perform() returns (err: Outcome)
      modifies this
      ensures log == old(log) + Observe(cluster, |old(log)|).0
      ensures err == Observe(cluster, |old(log)|).1
    {
      err := Call(FindReadyKubes);
      if err != Ok {
        return;
      }
      var kubes := Ready(cluster.db);
      ghost var r := ObserveKubes(kubes, cluster, Refresher, |log|);
      AppendAssoc(old(log), [FindReadyKubes], r.0);
      err := ObserveEach(kubes);
    }
  }
}
