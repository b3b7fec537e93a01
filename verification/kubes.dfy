/** The Kube lifecycle of pkg/core/kubes.go: Create fills in default credentials, inserts the
    record and dispatches the provisioning Action; Delete builds the deleting Action whose
    closure tears the Kube down child by child. */
module CoreKubes {
  import opened Outcomes
  import opened Model
  import opened Actions

  const Collection: string := "kubes"

  /** The preloads of the deleting Action's scope. */
  const DeleteScope: seq<string> := ["CloudAccount", "Entrypoints", "Volumes.Kube.CloudAccount", "Nodes.Kube.CloudAccount"]

  function Record(m: Kube): Resource
  {
    Resource(Collection, m.id, m.uuid)
  }

  /** The credential defaults: two random strings of 16 and 8 characters, only when both the
      username and the password are empty. Afterwards at least one of them is set, and nothing
      else changes. */
  function WithDefaultCredentials(m: Kube, random16: string, random8: string): (k: Kube)
    requires |random16| == 16 && |random8| == 8
    ensures m.username == "" && m.password == "" ==> k.username == random16 && k.password == random8
    ensures m.username != "" || m.password != "" ==> k == m
    ensures k.(username := m.username, password := m.password) == m
    ensures k.username != "" || k.password != ""
  {
    if m.username == "" && m.password == "" then m.(username := random16, password := random8) else m
  }

  /** Applying the defaults a second time, with any random strings, changes nothing. */
  lemma DefaultCredentialsIdempotent(m: Kube, a: string, b: string, c: string, d: string)
    requires |a| == 16 && |b| == 8 && |c| == 16 && |d| == 8
    ensures WithDefaultCredentials(WithDefaultCredentials(m, a, b), c, d) == WithDefaultCredentials(m, a, b)
  {
  }

  /** The provisioning Action: "provisioning", 20 retries, locked on the Kube's UUID, running
      the provider's CreateKube on the Kube. */
  function ProvisionAction(m: Kube): (a: Action)
    ensures a.description == "provisioning" && a.maxRetries == 20
    ensures a.resourceID == Some(m.uuid) && a.fn == ProvisionKube(m)
    ensures a.id.None? && !a.cancelExisting
  {
    Action("provisioning", 20, Some(m.uuid), None, false, [], ProvisionKube(m))
  }

  /** What Create does once the credentials are set: insert, then dispatch asynchronously. */
  function CreatePlan(m: Kube): seq<Effect>
  {
    [Insert(Record(m)), Dispatch(ProvisionAction(m), Async)]
  }

  /** An insert error is returned as is and nothing is dispatched; otherwise the provisioning
      Action is dispatched asynchronously and Create returns what the dispatch returns. */
  lemma CreateDispatchesOnlyAfterInsert(m: Kube, env: Env, at: nat)
    ensures var (performed, err) := RunPlan(CreatePlan(m), env, at);
            && performed[0] == Insert(Record(m))
            && (Dispatch(ProvisionAction(m), Async) in performed <==> !env.fails(at))
            && err == (if env.fails(at) then Err(env.message(at)) else Answer(env, at + 1))
  {
    var plan := CreatePlan(m);
    if env.fails(at) {
      RunPlanStopsAt(plan, env, at, 0);
      assert RunPlan(plan, env, at).0 == [plan[0]];
    } else if env.fails(at + 1) {
      RunPlanStopsAt(plan, env, at, 1);
      assert RunPlan(plan, env, at).0 == plan;
    } else {
      RunPlanAll(plan, env, at);
    }
  }

  /** Delete: the deleting Action, built and not run: "deleting", 5 retries, the record id,
      cancelling any Action in flight, with the cascade as its closure. */
  function DeleteAction(id: int, m: Kube): (a: Action)
    ensures a.description == "deleting" && a.maxRetries == 5
    ensures a.id == Some(id) && a.cancelExisting && a.resourceID.None?
    ensures a.scope == DeleteScope && a.fn == DeleteKubeTree(id, m)
  {
    Action("deleting", 5, None, Some(id), true, DeleteScope, DeleteKubeTree(id, m))
  }

  /** Deleting each record of a child collection, in order, through its own deleting Action
      run synchronously. */
  function SubDeletes(collection: string, ids: seq<int>): (es: seq<Effect>)
    ensures |es| == |ids|
    ensures forall i :: 0 <= i < |ids| ==> es[i] == SubDelete(collection, ids[i])
  {
    if ids == [] then [] else [SubDelete(collection, ids[0])] + SubDeletes(collection, ids[1..])
  }

  function NodeIDs(nodes: seq<Node>): (ids: seq<int>)
    ensures |ids| == |nodes|
    ensures forall i :: 0 <= i < |nodes| ==> ids[i] == nodes[i].id
  {
    if nodes == [] then [] else [nodes[0].id] + NodeIDs(nodes[1..])
  }

  /** The effect at position i of the cascade of the deleting closure: every entrypoint, then
      every node, then every volume, then the provider's DeleteKube, then the Kube record. */
  function CascadeAt(id: int, m: Kube, i: nat): Effect
    requires i < |m.entrypoints| + |m.nodes| + |m.volumes| + 2
  {
    var e, n, v := |m.entrypoints|, |m.nodes|, |m.volumes|;
    if i < e then SubDelete("entrypoints", m.entrypoints[i])
    else if i < e + n then SubDelete("nodes", m.nodes[i - e].id)
    else if i < e + n + v then SubDelete("volumes", m.volumes[i - e - n])
    else if i == e + n + v then Provider(DeleteKube(m.id))
    else DeleteRecord(Collection, id)
  }

  function CascadePlan(id: int, m: Kube): (plan: seq<Effect>)
    ensures |plan| == |m.entrypoints| + |m.nodes| + |m.volumes| + 2
    ensures forall i :: 0 <= i < |plan| ==> plan[i] == CascadeAt(id, m, i)
  {
    var len := |m.entrypoints| + |m.nodes| + |m.volumes| + 2;
    seq(len, i requires 0 <= i < len => CascadeAt(id, m, i))
  }

  /** The cascade is the three loops of child deletes, in the order entrypoints, nodes, volumes,
      followed by the provider's DeleteKube and the record delete. */
  lemma CascadePhases(id: int, m: Kube)
    ensures CascadePlan(id, m) == SubDeletes("entrypoints", m.entrypoints) + SubDeletes("nodes", NodeIDs(m.nodes))
                                  + SubDeletes("volumes", m.volumes) + [Provider(DeleteKube(m.id)), DeleteRecord(Collection, id)]
  {
    var a, b, c := SubDeletes("entrypoints", m.entrypoints), SubDeletes("nodes", NodeIDs(m.nodes)), SubDeletes("volumes", m.volumes);
    var tail := [Provider(DeleteKube(m.id)), DeleteRecord(Collection, id)];
    var plan, whole := CascadePlan(id, m), a + b + c + tail;
    assert |whole| == |plan|;
    forall i | 0 <= i < |plan|
      ensures plan[i] == whole[i]
    {
      if i < |a| {
        assert whole[i] == a[i];
      } else if i < |a| + |b| {
        assert whole[i] == b[i - |a|];
      } else if i < |a| + |b| + |c| {
        assert whole[i] == c[i - |a| - |b|];
      } else {
        assert whole[i] == tail[i - |a| - |b| - |c|];
      }
    }
  }

  /** The Kube record is deleted only as the last effect, and it is attempted exactly when every
      child delete and the provider's DeleteKube succeeded. */
  lemma RecordDeletedOnlyAfterEverythingElse(id: int, m: Kube, env: Env, at: nat)
    ensures var plan := CascadePlan(id, m);
            var performed := RunPlan(plan, env, at).0;
            && (forall i :: 0 <= i < |performed| && performed[i].DeleteRecord? ==> i == |plan| - 1)
            && (DeleteRecord(Collection, id) in performed <==> Succeed(env, at, at + |plan| - 1))
  {
    var plan := CascadePlan(id, m);
    var performed := RunPlan(plan, env, at).0;
    RunPlanFacts(plan, env, at);
    forall i | 0 <= i < |performed| && performed[i].DeleteRecord?
      ensures i == |plan| - 1
    {
      assert performed[i] == plan[i];
    }
    LastAttemptedIff(plan, env, at);
    if DeleteRecord(Collection, id) in performed {
      var i :| 0 <= i < |performed| && performed[i] == DeleteRecord(Collection, id);
      assert |performed| == |plan|;
    }
    if Succeed(env, at, at + |plan| - 1) {
      assert performed[|plan| - 1] == DeleteRecord(Collection, id);
    }
  }

  class Kubes {
    const core: Core

    constructor (core: Core)
      ensures this.core == core
    {
      this.core := core;
    }

    /** Create: set the default credentials, insert the record and dispatch the provisioning
        Action asynchronously; an insert error is returned and nothing is dispatched. */
    method Create(m: Kube, random16: string, random8: string) returns (k: Kube, err: Outcome)
      requires |random16| == 16 && |random8| == 8
      modifies core
      ensures k == WithDefaultCredentials(m, random16, random8)
      ensures core.effects == old(core.effects) + RunPlan(CreatePlan(k), core.env, |old(core.effects)|).0
      ensures err == RunPlan(CreatePlan(k), core.env, |old(core.effects)|).1
    {
      ghost var at := |core.effects|;
      k := m;
      if k.username == "" && k.password == "" {
        k := k.(username := random16, password := random8);
      }
      ghost var plan := CreatePlan(k);
      ghost var before := core.effects;
      assert plan[..0] == [];
      err := core.PerformPlanned(plan, before, 0, Insert(Record(k)));
      if err != Ok {
        return;
      }
      err := core.PerformPlanned(plan, before, 1, Dispatch(ProvisionAction(k), Async));
      if err == Ok {
        assert plan[..2] == plan;
        RunPlanAll(plan, core.env, at);
      }
    }

    /** One loop of the deleting closure, as part of a run of `plan` that started with
        `before` performed and has reached position `pos`: delete each child in turn through its
        own deleting Action run synchronously; on the first error the run of `plan` ends there
        and that error is returned. */
    method DeleteEach(ghost plan: seq<Effect>, ghost before: seq<Effect>, ghost pos: nat, collection: string, ids: seq<int>)
      returns (err: Outcome)
      requires pos + |ids| <= |plan|
      requires forall i :: 0 <= i < |ids| ==> plan[pos + i] == SubDelete(collection, ids[i])
      requires core.effects == before + plan[..pos] && Succeed(core.env, |before|, |before| + pos)
      modifies core
      ensures err == Ok ==>
                core.effects == before + plan[..pos + |ids|] && Succeed(core.env, |before|, |before| + pos + |ids|)
      ensures err != Ok ==>
                core.effects == before + RunPlan(plan, core.env, |before|).0 && err == RunPlan(plan, core.env, |before|).1
    {
      ghost var at := |before|;
      err := Ok;
      var i := 0;
      while i < |ids|
        invariant 0 <= i <= |ids| && err == Ok
        invariant core.effects == before + plan[..pos + i] && Succeed(core.env, at, at + pos + i)
      {
        err := core.Perform(SubDelete(collection, ids[i]));
        assert plan[..pos + i + 1] == plan[..pos + i] + [plan[pos + i]];
        if err != Ok {
          RunPlanStopsAt(plan, core.env, at, pos + i);
          return;
        }
        i := i + 1;
      }
    }

    /** The first loop of the deleting closure: delete every entrypoint of the Kube. */
    method DeleteEntrypoints(ghost plan: seq<Effect>, ghost before: seq<Effect>, ghost id: int, m: Kube) returns (err: Outcome)
      requires plan == CascadePlan(id, m)
      requires core.effects == before
      modifies core
      ensures err == Ok ==>
                core.effects == before + plan[..|m.entrypoints|] && Succeed(core.env, |before|, |before| + |m.entrypoints|)
      ensures err != Ok ==>
                core.effects == before + RunPlan(plan, core.env, |before|).0 && err == RunPlan(plan, core.env, |before|).1
    {
      forall i | 0 <= i < |m.entrypoints|
        ensures plan[i] == SubDelete("entrypoints", m.entrypoints[i])
      {
        assert plan[i] == CascadeAt(id, m, i);
      }
      assert before + plan[..0] == before;
      err := DeleteEach(plan, before, 0, "entrypoints", m.entrypoints);
    }

    /** The second loop of the deleting closure: delete every node of the Kube. */
    method DeleteNodes(ghost plan: seq<Effect>, ghost before: seq<Effect>, ghost id: int, m: Kube) returns (err: Outcome)
      requires plan == CascadePlan(id, m)
      requires core.effects == before + plan[..|m.entrypoints|]
      requires Succeed(core.env, |before|, |before| + |m.entrypoints|)
      modifies core
      ensures err == Ok ==>
                && core.effects == before + plan[..|m.entrypoints| + |m.nodes|]
                && Succeed(core.env, |before|, |before| + |m.entrypoints| + |m.nodes|)
      ensures err != Ok ==>
                core.effects == before + RunPlan(plan, core.env, |before|).0 && err == RunPlan(plan, core.env, |before|).1
    {
      var e := |m.entrypoints|;
      var nodeIDs := NodeIDs(m.nodes);
      forall i | 0 <= i < |m.nodes|
        ensures plan[e + i] == SubDelete("nodes", nodeIDs[i])
      {
        assert plan[e + i] == CascadeAt(id, m, e + i);
      }
      err := DeleteEach(plan, before, e, "nodes", nodeIDs);
    }

    /** The third loop of the deleting closure: delete every volume of the Kube. */
    method DeleteVolumes(ghost plan: seq<Effect>, ghost before: seq<Effect>, ghost id: int, m: Kube) returns (err: Outcome)
      requires plan == CascadePlan(id, m)
      requires core.effects == before + plan[..|m.entrypoints| + |m.nodes|]
      requires Succeed(core.env, |before|, |before| + |m.entrypoints| + |m.nodes|)
      modifies core
      ensures err == Ok ==>
                core.effects == before + plan[..|plan| - 2] && Succeed(core.env, |before|, |before| + |plan| - 2)
      ensures err != Ok ==>
                core.effects == before + RunPlan(plan, core.env, |before|).0 && err == RunPlan(plan, core.env, |before|).1
    {
      var k := |m.entrypoints| + |m.nodes|;
      forall i | 0 <= i < |m.volumes|
        ensures plan[k + i] == SubDelete("volumes", m.volumes[i])
      {
        assert plan[k + i] == CascadeAt(id, m, k + i);
      }
      err := DeleteEach(plan, before, k, "volumes", m.volumes);
    }

    /** The end of the deleting closure, once every child is gone: the Kube at the provider,
        then the record. */
    method DeleteTail(ghost plan: seq<Effect>, ghost before: seq<Effect>, id: int, m: Kube) returns (err: Outcome)
      requires plan == CascadePlan(id, m)
      requires core.effects == before + plan[..|plan| - 2] && Succeed(core.env, |before|, |before| + |plan| - 2)
      modifies core
      ensures core.effects == before + RunPlan(plan, core.env, |before|).0 && err == RunPlan(plan, core.env, |before|).1
    {
      var k := |m.entrypoints| + |m.nodes| + |m.volumes|;
      err := core.PerformPlanned(plan, before, k, Provider(DeleteKube(m.id)));
      if err != Ok {
        return;
      }
      err := core.PerformPlanned(plan, before, k + 1, DeleteRecord(Collection, id));
      if err == Ok {
        assert plan[..|plan|] == plan;
        RunPlanAll(plan, core.env, |before|);
      }
    }

    /** The deleting closure: delete every entrypoint, every node and every volume, then the
        Kube at the provider, then the record; the first error is returned as is. */
    method RunDelete(id: int, m: Kube) returns (err: Outcome)
      modifies core
      ensures core.effects == old(core.effects) + RunPlan(CascadePlan(id, m), core.env, |old(core.effects)|).0
      ensures err == RunPlan(CascadePlan(id, m), core.env, |old(core.effects)|).1
    {
      ghost var before := core.effects;
      ghost var plan := CascadePlan(id, m);
      err := DeleteEntrypoints(plan, before, id, m);
      if err != Ok {
        return;
      }
      err := DeleteNodes(plan, before, id, m);
      if err != Ok {
        return;
      }
      err := DeleteVolumes(plan, before, id, m);
      if err != Ok {
        return;
      }
      err := DeleteTail(plan, before, id, m);
    }
  }
}
