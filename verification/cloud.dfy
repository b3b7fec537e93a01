/** The world a DigitalOcean provider operation acts on: the Kube being provisioned (in memory
    and as last saved), the node table, and the trace of calls made to DigitalOcean, the
    database, the file system and the Kubernetes API. The `Env` oracle answers each call by its
    position in the trace. */
module Cloud {
  import opened Outcomes
  import opened Model

  datatype DropletRequest = DropletRequest(
    name: string,
    region: string,
    size: string,
    privateNetworking: bool,
    userData: string,
    sshKeyFingerprint: string,
    image: string)

  /** A droplet as createDroplet hands it back: its id and its public IPv4 address. */
  datatype Droplet = Droplet(id: int, publicIP: string)

  datatype Call =
    | CreateTag(tag: string)
    | ReadFile(path: string)
    | ParseTemplate(template: string)
    | ExecuteTemplate(template: string)
    | CreateDroplet(request: DropletRequest)
    | TagDroplet(tag: string, dropletID: int)
    | GetDroplet(dropletID: int)
    | PublicIPv4(dropletID: int)
    | FindNodes(kubeID: int)
    | CreateNode(node: Node, kubeAttached: bool)
    | WaitFor(description: string)
    | ListKubernetesNodes(kubeID: int)
    | DeleteDroplet(dropletID: int)
    | SaveModel(kube: Kube)

  /** `kube` is the in-memory model the steps mutate, `saved` what the database holds. */
  datatype World = World(kube: Kube, saved: Kube, nodes: seq<Node>, calls: seq<Call>, env: Env)

  /** Issue a call: append it to the trace. Its answer is read from the env at the position
      it was appended at, `|w.calls|`. */
  function Issue(w: World, c: Call): (w': World)
    ensures w'.calls == w.calls + [c]
    ensures w' == w.(calls := w.calls + [c])
  {
    w.(calls := w.calls + [c])
  }

  /** Whether the next call to be issued fails, and with what error. */
  predicate NextFails(w: World) { w.env.fails(|w.calls|) }

  function NextError(w: World): Outcome { Err(w.env.message(|w.calls|)) }

  /** DB.Save of the in-memory model: the checkpoint a Procedure takes after each step. */
  function SaveKube(w: World): (r: (World, Outcome))
    ensures r.0.calls == w.calls + [Call.SaveModel(w.kube)]
    ensures r.1 == Ok <==> !w.env.fails(|w.calls|)
    ensures r.0.kube == w.kube && r.0.nodes == w.nodes && r.0.env == w.env
    ensures r.0.saved == if r.1 == Ok then w.kube else w.saved
  {
    var w1 := Issue(w, Call.SaveModel(w.kube));
    if NextFails(w) then (w1, NextError(w)) else (w1.(saved := w.kube), Ok)
  }

  /** The node records that belong to a kube, in table order (the association lookup). */
  function NodesOf(nodes: seq<Node>, kubeID: int): (r: seq<Node>)
    ensures |r| <= |nodes|
    ensures forall i :: 0 <= i < |r| ==> r[i] in nodes && r[i].kubeID == kubeID
    ensures forall n :: n in nodes && n.kubeID == kubeID ==> n in r
    decreases |nodes|
  {
    if nodes == [] then []
    else
      var rest := NodesOf(nodes[1..], kubeID);
      if nodes[0].kubeID == kubeID then [nodes[0]] + rest else rest
  }

  /** The number of calls from position `from` on that deleted a droplet and succeeded. */
  function DeletesFrom(calls: seq<Call>, env: Env, from: nat): nat
    decreases |calls| - from
  {
    if from >= |calls| then 0
    else (if calls[from].DeleteDroplet? && !env.fails(from) then 1 else 0) + DeletesFrom(calls, env, from + 1)
  }

  /** The number of calls from position `from` on that created a droplet and succeeded. */
  function CreatesFrom(calls: seq<Call>, env: Env, from: nat): nat
    decreases |calls| - from
  {
    if from >= |calls| then 0
    else (if calls[from].CreateDroplet? && !env.fails(from) then 1 else 0) + CreatesFrom(calls, env, from + 1)
  }

  /** Counting over a trace that only grew splits at the old length. */
  lemma {:induction false} DeletesSplit(calls: seq<Call>, more: seq<Call>, env: Env, from: nat)
    requires from <= |calls|
    ensures DeletesFrom(calls + more, env, from)
         == DeletesFrom(calls, env, from) + DeletesFrom(calls + more, env, |calls|)
    decreases |calls| - from
  {
    if from < |calls| {
      DeletesSplit(calls, more, env, from + 1);
    }
  }

  /** The same split for a trace `longer` that extends `calls`. */
  lemma DeletesPrefix(calls: seq<Call>, longer: seq<Call>, env: Env, from: nat)
    requires from <= |calls| <= |longer| && longer[..|calls|] == calls
    ensures DeletesFrom(longer, env, from) == DeletesFrom(calls, env, from) + DeletesFrom(longer, env, |calls|)
  {
    assert longer == calls + longer[|calls|..];
    DeletesSplit(calls, longer[|calls|..], env, from);
  }

  lemma {:induction false} CreatesSplit(calls: seq<Call>, more: seq<Call>, env: Env, from: nat)
    requires from <= |calls|
    ensures CreatesFrom(calls + more, env, from)
         == CreatesFrom(calls, env, from) + CreatesFrom(calls + more, env, |calls|)
    decreases |calls| - from
  {
    if from < |calls| {
      CreatesSplit(calls, more, env, from + 1);
    }
  }
}
