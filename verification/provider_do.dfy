/** The DigitalOcean provider of pkg/core/provider_do.go: CreateKube and DeleteKube as
    Procedures of self-guarding steps, DeleteNode, and the droplet creation sequence. */
module ProviderDO {
  import opened Outcomes
  import opened Model
  import opened Cloud
  import opened Procedures
  import Strconv

  const MasterUserdataPath: string := "config/providers/digitalocean/master.yaml"
  const CoreOSImage: string := "coreos-stable"
  const ClusterTag: string := "Kubernetes-Cluster"

  // ---------------------------------------------------------------------------
  // Names and tags
  // ---------------------------------------------------------------------------

  /** The tags created once per Kube and attached by name to its droplets. */
  function GlobalTags(name: string): seq<string>
  {
    [ClusterTag, name, name + "-master", name + "-minion"]
  }

  /** The tags a master droplet is given: the cluster tag, the Kube name, the droplet name. */
  function MasterTags(k: Kube): seq<string>
  {
    [ClusterTag, k.name, k.name + "-master"]
  }

  function MasterRequest(k: Kube, userData: string): DropletRequest
  {
    DropletRequest(k.name + "-master", k.doConfig.region, k.masterNodeSize, false, userData,
                   k.doConfig.sshKeyFingerprint, CoreOSImage)
  }

  /** Every global tag and every master tag is the Kube name or starts with it, except the
      cluster tag; the master droplet is named after the Kube. */
  lemma TagsNameTheKube(k: Kube)
    ensures |GlobalTags(k.name)| == 4 && GlobalTags(k.name)[0] == ClusterTag
    ensures forall i :: 1 <= i < 4 ==> GlobalTags(k.name)[i][..|k.name|] == k.name
    ensures MasterTags(k) == GlobalTags(k.name)[..3]
    ensures MasterTags(k)[2] == MasterRequest(k, "").name
  {
    var g := GlobalTags(k.name);
    assert g[2][..|k.name|] == k.name;
    assert g[3][..|k.name|] == k.name;
  }

  // ---------------------------------------------------------------------------
  // Step 1: global tags
  // ---------------------------------------------------------------------------

  function TagCreations(tags: seq<string>): (cs: seq<Call>)
    ensures |cs| == |tags|
    ensures forall i :: 0 <= i < |tags| ==> cs[i] == CreateTag(tags[i])
  {
    if tags == [] then [] else [CreateTag(tags[0])] + TagCreations(tags[1..])
  }

  /** Create each tag in turn; a failure is only logged, so the answers are not looked at. */
  function CreateTags(w: World, tags: seq<string>): (w': World)
    ensures w' == w.(calls := w.calls + TagCreations(tags))
    decreases |tags|
  {
    if tags == [] then w
    else
      var c := CreateTag(tags[0]);
      assert TagCreations(tags) == [c] + TagCreations(tags[1..]);
      assert (w.calls + [c]) + TagCreations(tags[1..]) == w.calls + TagCreations(tags);
      CreateTags(Issue(w, c), tags[1..])
  }

  /** "creating global tags for Kube": creates the four global tags and always returns nil. */
  function TagStep(w: World): (r: (World, Outcome))
    ensures r.1 == Ok
    ensures r.0 == w.(calls := w.calls + TagCreations(GlobalTags(w.kube.name)))
  {
    (CreateTags(w, GlobalTags(w.kube.name)), Ok)
  }

  // ---------------------------------------------------------------------------
  // createDroplet
  // ---------------------------------------------------------------------------

  function TagRequests(id: int, tags: seq<string>): (cs: seq<Call>)
    ensures |cs| == |tags|
    ensures forall i :: 0 <= i < |tags| ==> cs[i] == TagDroplet(tags[i], id)
  {
    if tags == [] then [] else [TagDroplet(tags[0], id)] + TagRequests(id, tags[1..])
  }

  /** Tag the droplet with each tag; failures are only logged. */
  function TagAll(w: World, id: int, tags: seq<string>): (w': World)
    ensures w' == w.(calls := w.calls + TagRequests(id, tags))
    decreases |tags|
  {
    if tags == [] then w
    else
      var c := TagDroplet(tags[0], id);
      assert TagRequests(id, tags) == [c] + TagRequests(id, tags[1..]);
      assert (w.calls + [c]) + TagRequests(id, tags[1..]) == w.calls + TagRequests(id, tags);
      TagAll(Issue(w, c), id, tags[1..])
  }

  /** The reload after tagging: read the droplet back, then its public IPv4 address. */
  function Reload(w: World, id: int): (r: (World, Result<Droplet>))
    ensures r.0 == w.(calls := r.0.calls)
    ensures r.0.calls == w.calls + (if w.env.fails(|w.calls|) then [GetDroplet(id)] else [GetDroplet(id), PublicIPv4(id)])
    ensures r.1.Success? <==> !w.env.fails(|w.calls|) && !w.env.fails(|w.calls| + 1)
    ensures r.1.Success? ==> r.1.value == Droplet(id, w.env.text(|w.calls| + 1))
  {
    var w1 := Issue(w, GetDroplet(id));
    if NextFails(w) then (w1, Failure(w.env.message(|w.calls|)))
    else
      var w2 := Issue(w1, PublicIPv4(id));
      if NextFails(w1) then (w2, Failure(w.env.message(|w.calls| + 1)))
      else (w2, Success(Droplet(id, w.env.text(|w.calls| + 1))))
  }

  /** The parts of a trace made of three consecutive pieces. */
  lemma Pieces<T>(a: seq<T>, b: seq<T>, c: seq<T>)
    ensures (a + b + c)[..|a|] == a
    ensures (a + b + c)[|a|..|a| + |b|] == b
    ensures |c| > 0 ==> (a + b + c)[|a| + |b|] == c[0]
  {
    assert (a + b + c)[..|a|] == a;
    assert (a + b + c)[|a|..|a| + |b|] == b;
  }

  /** A trace that extends another keeps every prefix of it. */
  lemma PrefixOfPrefix<T>(a: seq<T>, b: seq<T>, k: nat)
    requires |b| <= |a| && a[..|b|] == b && k <= |b|
    ensures a[..k] == b[..k]
  {
    assert forall i :: 0 <= i < k ==> a[i] == a[..|b|][i];
  }

  /** createDroplet: create, tag (ignoring failures), reload, read the public address. With
      the create call at position n, the reload is at n + |tags| + 1 and the address lookup
      right after it. */
  function CreateDroplet(w: World, req: DropletRequest, tags: seq<string>): (r: (World, Result<Droplet>))
    ensures r.0.kube == w.kube && r.0.saved == w.saved && r.0.nodes == w.nodes && r.0.env == w.env
    ensures |r.0.calls| > |w.calls| && r.0.calls[..|w.calls|] == w.calls
    ensures r.0.calls[|w.calls|] == Call.CreateDroplet(req)
    ensures w.env.fails(|w.calls|) ==>
              r.0.calls == w.calls + [Call.CreateDroplet(req)] && r.1 == Failure(w.env.message(|w.calls|))
    ensures !w.env.fails(|w.calls|) ==>
              && |r.0.calls| == |w.calls| + |tags| + (if w.env.fails(|w.calls| + |tags| + 1) then 2 else 3)
              && r.0.calls[|w.calls| + 1 .. |w.calls| + 1 + |tags|] == TagRequests(w.env.number(|w.calls|), tags)
              && r.0.calls[|w.calls| + 1 + |tags|] == GetDroplet(w.env.number(|w.calls|))
    ensures r.1.Success? <==>
              !w.env.fails(|w.calls|) && !w.env.fails(|w.calls| + |tags| + 1) && !w.env.fails(|w.calls| + |tags| + 2)
    ensures r.1.Success? ==>
              r.1.value == Droplet(w.env.number(|w.calls|), w.env.text(|w.calls| + |tags| + 2))
  {
    var n := |w.calls|;
    var w1 := Issue(w, Call.CreateDroplet(req));
    if NextFails(w) then (w1, Failure(w.env.message(n)))
    else
      var id := w.env.number(n);
      var w2 := TagAll(w1, id, tags);
      var r := Reload(w2, id);
      var rest := r.0.calls[|w2.calls|..];
      assert r.0.calls == w1.calls + TagRequests(id, tags) + rest;
      Pieces(w1.calls, TagRequests(id, tags), rest);
      Pieces(w.calls, [Call.CreateDroplet(req)], TagRequests(id, tags) + rest);
      r
  }

  // ---------------------------------------------------------------------------
  // Step 2: master
  // ---------------------------------------------------------------------------

  /** The master droplet, once the user data is read: create it and, on success, record its id
      and public address in the Kube. With the create call at position n, the droplet is
      reloaded at n + 4 and its address read at n + 5. */
  function CreateMaster(w: World, userData: string): (r: (World, Outcome))
    ensures r.0.saved == w.saved && r.0.nodes == w.nodes && r.0.env == w.env
    ensures |r.0.calls| > |w.calls| && r.0.calls[..|w.calls|] == w.calls
    ensures r.0.calls[|w.calls|] == Call.CreateDroplet(MasterRequest(w.kube, userData))
    ensures r.1 != Ok ==> r.0.kube == w.kube
    ensures r.1 == Ok <==> !w.env.fails(|w.calls|) && !w.env.fails(|w.calls| + 4) && !w.env.fails(|w.calls| + 5)
    ensures r.1 == Ok ==>
              r.0.kube == w.kube.(doConfig := w.kube.doConfig.(masterID := w.env.number(|w.calls|)),
                                  masterPublicIP := w.env.text(|w.calls| + 5))
    ensures !w.env.fails(|w.calls|) && w.env.fails(|w.calls| + 4) ==> |r.0.calls| == |w.calls| + 5
  {
    var (w2, d) := CreateDroplet(w, MasterRequest(w.kube, userData), MasterTags(w.kube));
    match d
    case Failure(e) => (w2, Err(e))
    case Success(droplet) =>
      (w2.(kube := w.kube.(doConfig := w.kube.doConfig.(masterID := droplet.id), masterPublicIP := droplet.publicIP)), Ok)
  }

  /** "creating master": nothing to do once the master has a public address; otherwise read
      the user data, create the master droplet and record its id and address (see
      MasterStepCalls and MasterStepResult). It keeps the saved model, the node table and the
      earlier calls, and an error leaves the Kube as it was. */
  function MasterStep(w: World): (r: (World, Outcome))
    ensures w.kube.masterPublicIP != "" ==> r == (w, Ok)
    ensures r.0.saved == w.saved && r.0.nodes == w.nodes && r.0.env == w.env
    ensures |r.0.calls| >= |w.calls| && r.0.calls[..|w.calls|] == w.calls
    ensures r.1 != Ok ==> r.0.kube == w.kube
  {
    if w.kube.masterPublicIP != "" then (w, Ok)
    else
      var n := |w.calls|;
      var w1 := Issue(w, ReadFile(MasterUserdataPath));
      if NextFails(w) then (w1, NextError(w))
      else
        var r := CreateMaster(w1, w.env.text(n));
        assert r.0.calls[..n] == r.0.calls[..n + 1][..n];
        r
  }

  /** Without an address, the step reads the user data at position n, creates the master
      droplet at n + 1 from it and, when the reload at n + 5 fails, makes no call after the
      reload. */
  lemma MasterStepCalls(w: World)
    requires w.kube.masterPublicIP == ""
    ensures var r, n := MasterStep(w), |w.calls|;
            && |r.0.calls| > n && r.0.calls[n] == ReadFile(MasterUserdataPath)
            && (!w.env.fails(n) ==>
                  |r.0.calls| > n + 1 && r.0.calls[n + 1] == Call.CreateDroplet(MasterRequest(w.kube, w.env.text(n))))
            && (!w.env.fails(n) && !w.env.fails(n + 1) && w.env.fails(n + 5) ==> |r.0.calls| == n + 6)
  {
    var n := |w.calls|;
    var w1 := Issue(w, ReadFile(MasterUserdataPath));
    if !w.env.fails(n) {
      var r := CreateMaster(w1, w.env.text(n));
      assert MasterStep(w) == r;
      assert r.0.calls[n] == r.0.calls[..n + 1][n];
    }
  }

  /** Without an address, the step returns nil exactly when the read, the create, the reload
      and the address lookup all succeed, and then it records the created droplet's id and the
      address read, and nothing else, in the Kube. */
  lemma MasterStepResult(w: World)
    requires w.kube.masterPublicIP == ""
    ensures var r, n := MasterStep(w), |w.calls|;
            && (r.1 == Ok <==> !w.env.fails(n) && !w.env.fails(n + 1) && !w.env.fails(n + 5) && !w.env.fails(n + 6))
            && (r.1 == Ok ==>
                  r.0.kube == w.kube.(doConfig := w.kube.doConfig.(masterID := w.env.number(n + 1)),
                                      masterPublicIP := w.env.text(n + 6)))
  {
    var n := |w.calls|;
    var w1 := Issue(w, ReadFile(MasterUserdataPath));
    if !w.env.fails(n) {
      assert MasterStep(w) == CreateMaster(w1, w.env.text(n));
    }
  }

  // ---------------------------------------------------------------------------
  // Step 3: minion
  // ---------------------------------------------------------------------------

  /** "building Kubernetes minion": load the Kube's nodes into the model; if there are none,
      create one node of the first node size. `kubeAttached` says whether the new record
      carries the loaded Kube. */
  function MinionStepWith(w: World, kubeAttached: bool): (r: (World, Outcome))
    ensures r.0.saved == w.saved && r.0.env == w.env
    ensures r.0.kube.(nodes := w.kube.nodes) == w.kube
    ensures |r.0.calls| > |w.calls| && r.0.calls[..|w.calls|] == w.calls
    ensures r.0.calls[|w.calls|] == FindNodes(w.kube.id)
    ensures r.0.nodes != w.nodes ==>
              && |w.kube.nodeSizes| > 0
              && r.0.nodes == w.nodes + [NewNode(w.kube.id, w.kube.nodeSizes[0])]
              && !w.env.fails(|w.calls|) && NodesOf(w.nodes, w.kube.id) == [] && r.1 == Ok
              && r.0.calls == w.calls + [FindNodes(w.kube.id), CreateNode(NewNode(w.kube.id, w.kube.nodeSizes[0]), kubeAttached)]
    ensures NodesOf(w.nodes, w.kube.id) != [] ==>
              r.0.nodes == w.nodes && r.0.calls == w.calls + [FindNodes(w.kube.id)]
    ensures r.1 == Ok ==> NodesOf(r.0.nodes, w.kube.id) != []
    ensures w.env.fails(|w.calls|) ==> r.1 == Err(w.env.message(|w.calls|))
  {
    var n := |w.calls|;
    var w1 := Issue(w, FindNodes(w.kube.id));
    if NextFails(w) then (w1, NextError(w))
    else
      var found := NodesOf(w.nodes, w.kube.id);
      var w2 := w1.(kube := w.kube.(nodes := found));
      if |found| > 0 then (w2, Ok)
      else if |w.kube.nodeSizes| == 0 then (w2, Panic(IndexOutOfRange))
      else
        var node := NewNode(w.kube.id, w.kube.nodeSizes[0]);
        var w3 := Issue(w2, CreateNode(node, kubeAttached));
        if NextFails(w2) then (w3, NextError(w2))
        else (w3.(nodes := w.nodes + [node]), Ok)
  }

  function MinionStep(w: World): (World, Outcome)
  {
    MinionStepWith(w, false)
  }

  // ---------------------------------------------------------------------------
  // Step 4: waiting for Kubernetes
  // ---------------------------------------------------------------------------

  /** The wait predicate: a failed listing means "not yet", never an error; ready once at least
      one node is listed. */
  function KubernetesReady(listed: Result<nat>): (r: (bool, Outcome))
    ensures r.1 == Ok
    ensures r.0 <==> listed.Success? && listed.value > 0
  {
    match listed
    case Failure(_) => (false, Ok)
    case Success(count) => (count > 0, Ok)
  }

  /** Poll the predicate at most `budget` more times, stopping at the first "ready". */
  function PollKubernetes(w: World, budget: nat): (r: (World, bool))
    ensures r.0 == w.(calls := r.0.calls)
    ensures |r.0.calls| >= |w.calls| && r.0.calls[..|w.calls|] == w.calls
    ensures forall i :: |w.calls| <= i < |r.0.calls| ==> r.0.calls[i] == ListKubernetesNodes(w.kube.id)
    ensures |r.0.calls| <= |w.calls| + budget
    ensures !r.1 ==> |r.0.calls| == |w.calls| + budget
    decreases budget
  {
    if budget == 0 then (w, false)
    else
      var n := |w.calls|;
      var listed := if w.env.fails(n) then Failure(w.env.message(n)) else Success(w.env.count(n));
      var w1 := Issue(w, ListKubernetesNodes(w.kube.id));
      if KubernetesReady(listed).0 then (w1, true) else PollKubernetes(w1, budget - 1)
  }

  /** CancellableWaitFor: the Action runtime polls the predicate until it is ready, or gives up
      (timeout or cancellation) with an error after `count(n)` polls, n being the position of
      the WaitFor call. */
  function WaitForKubernetes(w: World): (r: (World, Outcome))
    ensures r.0 == w.(calls := r.0.calls)
    ensures |r.0.calls| > |w.calls| && r.0.calls[..|w.calls|] == w.calls
    ensures r.0.calls[|w.calls|] == WaitFor("Kubernetes API and first minion")
    ensures forall i :: |w.calls| < i < |r.0.calls| ==> r.0.calls[i] == ListKubernetesNodes(w.kube.id)
    ensures r.1 == Ok || r.1 == Err(w.env.message(|w.calls|))
  {
    var n := |w.calls|;
    var w1 := Issue(w, WaitFor("Kubernetes API and first minion"));
    var (w2, done) := PollKubernetes(w1, w.env.count(n));
    if done then (w2, Ok) else (w2, Err(w.env.message(n)))
  }

  /** The listing at position i succeeded and showed at least one node. */
  predicate ListsANode(env: Env, i: nat)
  {
    !env.fails(i) && env.count(i) > 0
  }

  /** The polls stop at the first listing that shows a node: the cluster is ready exactly when
      the last listing made showed one, no earlier listing did, and a wait that did not see
      one saw none in its whole budget. */
  lemma {:induction false} PollKubernetesReady(w: World, budget: nat)
    ensures var r, n := PollKubernetes(w, budget), |w.calls|;
            && (r.1 <==> |r.0.calls| > n && ListsANode(w.env, |r.0.calls| - 1))
            && (forall i :: n <= i < |r.0.calls| - 1 ==> !ListsANode(w.env, i))
            && (!r.1 ==> forall i :: n <= i < n + budget ==> !ListsANode(w.env, i))
    decreases budget
  {
    if budget > 0 && !ListsANode(w.env, |w.calls|) {
      var w1 := Issue(w, ListKubernetesNodes(w.kube.id));
      PollKubernetesReady(w1, budget - 1);
      assert PollKubernetes(w, budget) == PollKubernetes(w1, budget - 1);
    }
  }

  /** Waiting for Kubernetes returns nil exactly when one of the listings its budget allows,
      after the WaitFor call, shows a node. */
  lemma WaitForKubernetesReady(w: World)
    ensures var r, n := WaitForKubernetes(w), |w.calls|;
            r.1 == Ok <==> exists i :: n < i <= n + w.env.count(n) && ListsANode(w.env, i)
  {
    var n := |w.calls|;
    var w1 := Issue(w, WaitFor("Kubernetes API and first minion"));
    var p := PollKubernetes(w1, w.env.count(n));
    PollKubernetesReady(w1, w.env.count(n));
    if p.1 {
      assert ListsANode(w.env, |p.0.calls| - 1);
    }
  }

  // ---------------------------------------------------------------------------
  // CreateKube and DeleteKube
  // ---------------------------------------------------------------------------

  function CreateKubeSteps(): seq<Step<World>>
  {
    [ Step("creating global tags for Kube", TagStep),
      Step("creating master", MasterStep),
      Step("building Kubernetes minion", MinionStep),
      Step("waiting for Kubernetes", WaitForKubernetes) ]
  }

  /** CreateKube: a "Create Kube" procedure of the four steps, in order, run once. */
  method CreateKube(w0: World) returns (w: World, err: Outcome, trace: seq<Event>)
    ensures (w, err, trace) == Exec(CreateKubeSteps(), SaveKube, 0, w0)
  {
    var procedure := new Procedure<World>("Create Kube", SaveKube);
    procedure.AddStep("creating global tags for Kube", TagStep);
    procedure.AddStep("creating master", MasterStep);
    procedure.AddStep("building Kubernetes minion", MinionStep);
    procedure.AddStep("waiting for Kubernetes", WaitForKubernetes);
    assert procedure.steps == CreateKubeSteps();
    w, err, trace := procedure.Run(w0);
  }

  /** "deleting master": nothing to do without a master; otherwise delete its droplet and, once
      that succeeded, forget its id. */
  function DeleteMasterStep(w: World): (r: (World, Outcome))
    ensures w.kube.doConfig.masterID == 0 ==> r == (w, Ok)
    ensures w.kube.doConfig.masterID != 0 ==>
              && r.0.calls == w.calls + [DeleteDroplet(w.kube.doConfig.masterID)]
              && (r.1 == Ok <==> !w.env.fails(|w.calls|))
              && r.0.kube == (if r.1 == Ok then w.kube.(doConfig := w.kube.doConfig.(masterID := 0)) else w.kube)
    ensures r.0.saved == w.saved && r.0.nodes == w.nodes && r.0.env == w.env
  {
    var id := w.kube.doConfig.masterID;
    if id == 0 then (w, Ok)
    else
      var w1 := Issue(w, DeleteDroplet(id));
      if NextFails(w) then (w1, NextError(w))
      else (w1.(kube := w.kube.(doConfig := w.kube.doConfig.(masterID := 0))), Ok)
  }

  function DeleteKubeSteps(): seq<Step<World>>
  {
    [Step("deleting master", DeleteMasterStep)]
  }

  /** DeleteKube: a "Delete Kube" procedure of the one master-deleting step. */
  method DeleteKube(w0: World) returns (w: World, err: Outcome, trace: seq<Event>)
    ensures (w, err, trace) == Exec(DeleteKubeSteps(), SaveKube, 0, w0)
  {
    var procedure := new Procedure<World>("Delete Kube", SaveKube);
    procedure.AddStep("deleting master", DeleteMasterStep);
    assert procedure.steps == DeleteKubeSteps();
    w, err, trace := procedure.Run(w0);
  }

  /** One DeleteKube run, its calls and what it leaves in memory. */
  lemma DeleteKubeRun(w: World)
    ensures var (w1, e, _) := Exec(DeleteKubeSteps(), SaveKube, 0, w);
            && w1.env == w.env
            && |w1.calls| >= |w.calls| && w1.calls[..|w.calls|] == w.calls
            && DeletesFrom(w1.calls, w.env, |w.calls|)
               == (if w.kube.doConfig.masterID != 0 && !w.env.fails(|w.calls|) then 1 else 0)
            && (w.kube.doConfig.masterID != 0 && !w.env.fails(|w.calls|) ==> w1.kube.doConfig.masterID == 0)
            && (w.kube.doConfig.masterID == 0 ==> w1.kube.doConfig.masterID == 0)
            && (e == Ok ==> w1.saved == w1.kube)
  {
    if w.kube.doConfig.masterID != 0 {
      DeleteKubeRunWithMaster(w);
    } else {
      DeleteKubeRunWithoutMaster(w);
    }
  }

  /** A Delete Kube run is the master step, then, when it returned nil, the checkpoint save. */
  lemma DeleteKubeExec(w: World)
    ensures var (s1, e1) := DeleteMasterStep(w);
            Exec(DeleteKubeSteps(), SaveKube, 0, w)
              == if e1 != Ok then (s1, e1, [Invoked(0)])
                 else (SaveKube(s1).0, SaveKube(s1).1, [Invoked(0), Saved(0)])
  {
    var (s1, e1) := DeleteMasterStep(w);
    var steps := DeleteKubeSteps();
    assert steps[0].fn(w) == (s1, e1);
    if e1 == Ok {
      var (s2, e2) := SaveKube(s1);
      assert Exec(steps, SaveKube, 1, s2) == (s2, Ok, []);
      assert [Invoked(0), Saved(0)] + [] == [Invoked(0), Saved(0)];
    }
  }

  /** The checkpoint save deletes nothing. */
  lemma SaveDeletesNothing(x: World, from: nat)
    requires from <= |x.calls|
    ensures DeletesFrom(SaveKube(x).0.calls, x.env, from) == DeletesFrom(x.calls, x.env, from)
  {
    DeletesSplit(x.calls, [Call.SaveModel(x.kube)], x.env, from);
    assert DeletesFrom(SaveKube(x).0.calls, x.env, |x.calls|) == 0;
  }

  lemma DeleteKubeRunWithMaster(w: World)
    requires w.kube.doConfig.masterID != 0
    ensures var (w1, e, _) := Exec(DeleteKubeSteps(), SaveKube, 0, w);
            && w1.env == w.env
            && |w1.calls| >= |w.calls| && w1.calls[..|w.calls|] == w.calls
            && DeletesFrom(w1.calls, w.env, |w.calls|) == (if !w.env.fails(|w.calls|) then 1 else 0)
            && (!w.env.fails(|w.calls|) ==> w1.kube.doConfig.masterID == 0)
            && (e == Ok ==> w1.saved == w1.kube)
  {
    var (s1, e1) := DeleteMasterStep(w);
    var n := |w.calls|;
    DeleteKubeExec(w);
    DeletesSplit(w.calls, [DeleteDroplet(w.kube.doConfig.masterID)], w.env, n);
    assert DeletesFrom(s1.calls, w.env, n) == (if !w.env.fails(n) then 1 else 0);
    if e1 == Ok {
      SaveDeletesNothing(s1, n);
    }
  }

  lemma DeleteKubeRunWithoutMaster(w: World)
    requires w.kube.doConfig.masterID == 0
    ensures var (w1, e, _) := Exec(DeleteKubeSteps(), SaveKube, 0, w);
            && w1.env == w.env
            && |w1.calls| >= |w.calls| && w1.calls[..|w.calls|] == w.calls
            && DeletesFrom(w1.calls, w.env, |w.calls|) == 0
            && w1.kube.doConfig.masterID == 0
            && (e == Ok ==> w1.saved == w1.kube)
  {
    var n := |w.calls|;
    DeleteKubeExec(w);
    SaveDeletesNothing(w, n);
    assert DeletesFrom(w.calls, w.env, n) == 0;
  }

  /** Running DeleteKube again on the model the first run left in memory deletes the master
      droplet at most once over both runs, and not at all in the second run once the first
      deleted it. */
  lemma DeleteKubeTwiceDeletesOnce(w: World)
    ensures var w1 := Exec(DeleteKubeSteps(), SaveKube, 0, w).0;
            var w2 := Exec(DeleteKubeSteps(), SaveKube, 0, w1).0;
            && DeletesFrom(w2.calls, w.env, |w.calls|) <= 1
            && (DeletesFrom(w1.calls, w.env, |w.calls|) == 1 ==> DeletesFrom(w2.calls, w.env, |w1.calls|) == 0)
  {
    var w1 := Exec(DeleteKubeSteps(), SaveKube, 0, w).0;
    var w2 := Exec(DeleteKubeSteps(), SaveKube, 0, w1).0;
    DeleteKubeRun(w);
    DeleteKubeRun(w1);
    DeletesPrefix(w1.calls, w2.calls, w.env, |w.calls|);
  }

  /** A re-run that reloads the Kube from the database is as safe only when the first run's
      checkpoint was taken: after a first run that returned nil, it deletes nothing. */
  lemma DeleteKubeRerunFromCheckpoint(w: World)
    requires Exec(DeleteKubeSteps(), SaveKube, 0, w).1 == Ok
    ensures var w1 := Exec(DeleteKubeSteps(), SaveKube, 0, w).0;
            var w2 := Exec(DeleteKubeSteps(), SaveKube, 0, w1.(kube := w1.saved)).0;
            DeletesFrom(w2.calls, w.env, |w1.calls|) == 0
  {
    var w1 := Exec(DeleteKubeSteps(), SaveKube, 0, w).0;
    DeleteKubeRun(w);
    DeleteKubeRun(w1.(kube := w1.saved));
  }

  /** When the delete succeeds but the checkpoint after it fails, the database still holds the
      old master id, and a re-run from the database deletes the droplet a second time. */
  lemma DeleteKubeLostCheckpointDeletesTwice(w: World)
    requires w.kube.doConfig.masterID != 0 && w.saved == w.kube
    requires !w.env.fails(|w.calls|) && w.env.fails(|w.calls| + 1) && !w.env.fails(|w.calls| + 2)
    ensures var w1 := Exec(DeleteKubeSteps(), SaveKube, 0, w).0;
            var w2 := Exec(DeleteKubeSteps(), SaveKube, 0, w1.(kube := w1.saved)).0;
            Exec(DeleteKubeSteps(), SaveKube, 0, w).1 != Ok && DeletesFrom(w2.calls, w.env, |w.calls|) == 2
  {
    var (w1, e1, _) := Exec(DeleteKubeSteps(), SaveKube, 0, w);
    var s1 := DeleteMasterStep(w).0;
    assert SaveKube(s1).1 != Ok;
    assert w1 == SaveKube(s1).0 && e1 != Ok;
    var r1 := w1.(kube := w1.saved);
    var w2 := Exec(DeleteKubeSteps(), SaveKube, 0, r1).0;
    DeleteKubeRun(w);
    assert |w1.calls| == |w.calls| + 2;
    DeleteKubeRun(r1);
    DeletesPrefix(w1.calls, w2.calls, w.env, |w.calls|);
  }

  // ---------------------------------------------------------------------------
  // Re-running CreateKube
  // ---------------------------------------------------------------------------

  /** A call that provisions or destroys something at the provider. */
  predicate Provisions(c: Call)
  {
    c.CreateDroplet? || c.CreateNode? || c.DeleteDroplet?
  }

  /** Since position `from`, no call provisioned anything, the master has an address and the
      Kube has a node record. */
  predicate NothingLeftToCreate(from: nat, x: World)
  {
    && x.kube.masterPublicIP != ""
    && NodesOf(x.nodes, x.kube.id) != []
    && |x.calls| >= from
    && forall i :: from <= i < |x.calls| ==> !Provisions(x.calls[i])
  }

  /** A step keeps NothingLeftToCreate when it keeps the address, the node table and the
      Kube's identity, and appends only calls that provision nothing. */
  lemma KeepsNothingLeft(from: nat, x: World, y: World)
    requires NothingLeftToCreate(from, x)
    requires y.kube.masterPublicIP == x.kube.masterPublicIP && y.kube.id == x.kube.id && y.nodes == x.nodes
    requires |y.calls| >= |x.calls| && y.calls[..|x.calls|] == x.calls
    requires forall i :: |x.calls| <= i < |y.calls| ==> !Provisions(y.calls[i])
    ensures NothingLeftToCreate(from, y)
  {
    forall i | from <= i < |y.calls|
      ensures !Provisions(y.calls[i])
    {
      if i < |x.calls| {
        assert y.calls[i] == y.calls[..|x.calls|][i];
      }
    }
  }

  lemma TagStepKeeps(from: nat, x: World)
    requires NothingLeftToCreate(from, x)
    ensures NothingLeftToCreate(from, TagStep(x).0)
  {
    var y := TagStep(x).0;
    var tags := TagCreations(GlobalTags(x.kube.name));
    assert y.calls[..|x.calls|] == x.calls;
    forall i | |x.calls| <= i < |y.calls|
      ensures !Provisions(y.calls[i])
    {
      assert y.calls[i] == tags[i - |x.calls|];
    }
    KeepsNothingLeft(from, x, y);
  }

  lemma MinionStepKeeps(from: nat, x: World, kubeAttached: bool)
    requires NothingLeftToCreate(from, x)
    ensures NothingLeftToCreate(from, MinionStepWith(x, kubeAttached).0)
  {
    var y := MinionStepWith(x, kubeAttached).0;
    assert y.calls == x.calls + [FindNodes(x.kube.id)];
    KeepsNothingLeft(from, x, y);
  }

  lemma WaitKeeps(from: nat, x: World)
    requires NothingLeftToCreate(from, x)
    ensures NothingLeftToCreate(from, WaitForKubernetes(x).0)
  {
    KeepsNothingLeft(from, x, WaitForKubernetes(x).0);
  }

  lemma SaveKeeps(from: nat, x: World)
    requires NothingLeftToCreate(from, x)
    ensures NothingLeftToCreate(from, SaveKube(x).0)
  {
    KeepsNothingLeft(from, x, SaveKube(x).0);
  }

  lemma CreateKubeStepsKeep(from: nat, j: nat, x: World)
    requires j < 4 && NothingLeftToCreate(from, x)
    ensures NothingLeftToCreate(from, CreateKubeSteps()[j].fn(x).0)
  {
    var steps := CreateKubeSteps();
    if j == 0 {
      assert steps[j].fn == TagStep;
      TagStepKeeps(from, x);
    } else if j == 1 {
      assert steps[j].fn == MasterStep;
    } else if j == 2 {
      assert steps[j].fn == MinionStep;
      MinionStepKeeps(from, x, false);
    } else {
      assert steps[j].fn == WaitForKubernetes;
      WaitKeeps(from, x);
    }
  }

  /** A Create Kube run on a Kube whose master has an address and which has a node record
      creates no droplet and no node and deletes nothing: the guards make the re-run resume
      after the work already done. */
  lemma CreateKubeRerunProvisionsNothing(w: World)
    requires w.kube.masterPublicIP != "" && NodesOf(w.nodes, w.kube.id) != []
    ensures var w' := Exec(CreateKubeSteps(), SaveKube, 0, w).0;
            forall i :: |w.calls| <= i < |w'.calls| ==> !Provisions(w'.calls[i])
  {
    var from := |w.calls|;
    var inv := (x: World) => NothingLeftToCreate(from, x);
    forall j, x | 0 <= j < |CreateKubeSteps()| && inv(x)
      ensures inv(CreateKubeSteps()[j].fn(x).0)
    {
      CreateKubeStepsKeep(from, j, x);
    }
    forall x | inv(x)
      ensures inv(SaveKube(x).0)
    {
      SaveKeeps(from, x);
    }
    ExecPreserves(CreateKubeSteps(), SaveKube, 0, w, inv);
  }

  /** The master guard looks at the address, not the droplet id: when the droplet was created
      but reloading it failed, the step fails without recording it, and the next run creates a
      second master droplet. */
  lemma MasterRetryAfterFailedReloadCreatesAgain(w: World)
    requires w.kube.masterPublicIP == ""
    requires !w.env.fails(|w.calls|) && !w.env.fails(|w.calls| + 1) && w.env.fails(|w.calls| + 5)
    requires !w.env.fails(|w.calls| + 6) && !w.env.fails(|w.calls| + 7)
    ensures MasterStep(w).1 != Ok
    ensures CreatesFrom(MasterStep(MasterStep(w).0).0.calls, w.env, |w.calls|) >= 2
  {
    var n := |w.calls|;
    var (w1, e1) := MasterStep(w);
    MasterStepResult(w);
    MasterStepCalls(w);
    var (w2, e2) := MasterStep(w1);
    assert w1.kube == w.kube && |w1.calls| == n + 6;
    MasterStepCalls(w1);
    assert w2.calls[n + 1] == w1.calls[n + 1];
    CreatesAt(w2.calls, w.env, n, n + 1);
    CreatesAt(w2.calls, w.env, n + 2, n + 7);
    CreatesMonotone(w2.calls, w.env, n, n + 2);
  }

  lemma {:induction false} CreatesAt(calls: seq<Call>, env: Env, from: nat, i: nat)
    requires from <= i < |calls| && calls[i].CreateDroplet? && !env.fails(i)
    ensures CreatesFrom(calls, env, from) >= 1 + CreatesFrom(calls, env, i + 1)
    decreases i - from
  {
    if from < i {
      CreatesAt(calls, env, from + 1, i);
    }
  }

  lemma {:induction false} CreatesMonotone(calls: seq<Call>, env: Env, from: nat, later: nat)
    requires from <= later
    ensures CreatesFrom(calls, env, from) >= CreatesFrom(calls, env, later)
    decreases later - from
  {
    if from < later {
      CreatesMonotone(calls, env, from + 1, later);
    }
  }

  // ---------------------------------------------------------------------------
  // DeleteNode
  // ---------------------------------------------------------------------------

  /** DeleteNode: the provider id must parse as an integer, or the error is returned without
      any call; otherwise the droplet of that id is deleted and the answer returned. */
  method DeleteNode(m: Node, w: World) returns (w': World, err: Outcome)
    ensures Strconv.Atoi(m.providerID).Failure? ==>
              w' == w && err == Err(Strconv.Atoi(m.providerID).error)
    ensures Strconv.Atoi(m.providerID).Success? ==>
              && w' == w.(calls := w.calls + [DeleteDroplet(Strconv.Atoi(m.providerID).value)])
              && (err == Ok <==> !w.env.fails(|w.calls|))
              && (err != Ok ==> err == Err(w.env.message(|w.calls|)))
  {
    var intID := Strconv.Atoi(m.providerID);
    if intID.Failure? {
      return w, Err(intID.error);
    }
    w' := Issue(w, DeleteDroplet(intID.value));
    err := Answer(w.env, |w.calls|);
  }

  // ---------------------------------------------------------------------------
  // Volumes and entrypoints
  // ---------------------------------------------------------------------------

  /** The volume and entrypoint (load balancer) operations of the DigitalOcean providers. */
  datatype VolumeOrEntrypointOp =
    | CreateVolume | ResizeVolume | WaitForVolumeAvailable | DeleteVolume
    | CreateEntrypoint | AddPortToEntrypoint | RemovePortFromEntrypoint | DeleteEntrypoint

  /** The error every one of them returns. */
  const NotImplemented: Error := "butt"

  /** None of the volume and entrypoint operations is implemented: each issues no call and
      returns the same error. */
  function VolumeOrEntrypoint(w: World, op: VolumeOrEntrypointOp): (r: (World, Outcome))
    ensures r.0 == w && r.1.Err? && r.1.error == NotImplemented
  {
    (w, Err(NotImplemented))
  }
}
