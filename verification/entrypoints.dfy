/** The Entrypoint lifecycle of pkg/core/entrypoints.go: Create inserts the record, loads the
    Kube with its nodes and cloud account and dispatches the provisioning Action
    asynchronously; Delete builds the deleting Action whose closure deletes the load balancer at
    the provider and then the record. */
module CoreEntrypoints {
  import opened Outcomes
  import opened Actions
  import ProviderDO
  import Cloud

  const Collection: string := "entrypoints"

  /** The preloads Create needs for the Kube the entrypoint belongs to. */
  const KubeScope: seq<string> := ["Nodes", "CloudAccount"]

  /** The preloads of the deleting Action's scope. */
  const DeleteScope: seq<string> := ["Kube.CloudAccount"]

  /** The provisioning Action: "provisioning", 5 retries, locked on the entrypoint's UUID,
      running the provider's CreateEntrypoint. */
  function ProvisionAction(r: Resource): (a: Action)
    ensures a.description == "provisioning" && a.maxRetries == 5
    ensures a.resourceID == Some(r.uuid) && a.fn == ProvisionEntrypoint(r)
    ensures a.id.None? && !a.cancelExisting
  {
    Action("provisioning", 5, Some(r.uuid), None, false, [], ProvisionEntrypoint(r))
  }

  /** What Create does: insert, load the Kube, dispatch asynchronously. */
  function CreatePlan(r: Resource, kubeID: int): seq<Effect>
  {
    [Insert(r), Preload(KubeScope, kubeID), Dispatch(ProvisionAction(r), Async)]
  }

  /** Delete: the deleting Action, built and not run: "deleting", 5 retries, the record id,
      neither a resource lock nor the cancelling of an Action in flight. */
  function DeleteAction(id: int, r: Resource): (a: Action)
    ensures a.description == "deleting" && a.maxRetries == 5
    ensures a.id == Some(id) && a.resourceID.None? && !a.cancelExisting
    ensures a.scope == DeleteScope && a.fn == RemoveEntrypoint(id, r)
  {
    Action("deleting", 5, None, Some(id), false, DeleteScope, RemoveEntrypoint(id, r))
  }

  /** The deleting closure: the provider's DeleteEntrypoint, then the record. */
  function DeletePlan(id: int, r: Resource): seq<Effect>
  {
    [Provider(DeleteEntrypoint(r.id)), DeleteRecord(Collection, id)]
  }

  /** Create dispatches the provisioning Action exactly when the insert and the load both
      succeeded; the Kube is loaded only after a successful insert; the error returned is that of
      the first effect that failed, and nil when none did. */
  lemma CreateOrder(r: Resource, kubeID: int, env: Env, at: nat)
    ensures var (performed, err) := RunPlan(CreatePlan(r, kubeID), env, at);
            && (Preload(KubeScope, kubeID) in performed <==> !env.fails(at))
            && (Dispatch(ProvisionAction(r), Async) in performed <==> Succeed(env, at, at + 2))
            && (env.fails(at) ==> err == Err(env.message(at)))
            && (!env.fails(at) && env.fails(at + 1) ==> err == Err(env.message(at + 1)))
            && (Succeed(env, at, at + 2) ==> err == Answer(env, at + 2))
  {
    var plan := CreatePlan(r, kubeID);
    if env.fails(at) {
      RunPlanStopsAt(plan, env, at, 0);
      assert RunPlan(plan, env, at).0 == [Insert(r)];
    } else if env.fails(at + 1) {
      RunPlanStopsAt(plan, env, at, 1);
      assert RunPlan(plan, env, at).0 == [Insert(r), Preload(KubeScope, kubeID)];
    } else if env.fails(at + 2) {
      RunPlanStopsAt(plan, env, at, 2);
      assert RunPlan(plan, env, at).0 == plan;
    } else {
      RunPlanAll(plan, env, at);
    }
  }

  /** The record is deleted only after the provider deleted the load balancer, and then the
      record delete's error is the one returned; a provider error is returned as is. */
  lemma DeleteRecordOnlyAfterProvider(id: int, r: Resource, env: Env, at: nat)
    ensures var (performed, err) := RunPlan(DeletePlan(id, r), env, at);
            && performed[0] == Provider(DeleteEntrypoint(r.id))
            && (DeleteRecord(Collection, id) in performed <==> !env.fails(at))
            && err == (if env.fails(at) then Err(env.message(at)) else Answer(env, at + 1))
  {
    var plan := DeletePlan(id, r);
    if env.fails(at) {
      RunPlanStopsAt(plan, env, at, 0);
      assert RunPlan(plan, env, at).0 == [plan[0]];
    } else if env.fails(at + 1) {
      RunPlanStopsAt(plan, env, at, 1);
      assert RunPlan(plan, env, at).0 == plan;
    } else {
      RunPlanAll(plan, env, at);
    }
  }

  /** On DigitalOcean the provider's DeleteEntrypoint always fails, so the deleting closure
      never gets to the record: it stops after the provider call with that error. */
  lemma NeverDeletedOnDigitalOcean(id: int, r: Resource, env: Env, at: nat, w: Cloud.World)
    requires Answer(env, at) == ProviderDO.VolumeOrEntrypoint(w, ProviderDO.DeleteEntrypoint).1
    ensures RunPlan(DeletePlan(id, r), env, at) == ([Provider(DeleteEntrypoint(r.id))], Err(ProviderDO.NotImplemented))
  {
    var plan := DeletePlan(id, r);
    RunPlanStopsAt(plan, env, at, 0);
    assert plan[..1] == [Provider(DeleteEntrypoint(r.id))];
  }

  class Entrypoints {
    const core: Core

    constructor (core: Core)
      ensures this.core == core
    {
      this.core := core;
    }

    /** Create: insert the record, load the Kube and its cloud account, dispatch the
        provisioning Action asynchronously; the first error is returned and nothing after it
        happens. */
    method Create(r: Resource, kubeID: int) returns (err: Outcome)
      modifies core
      ensures core.effects == old(core.effects) + RunPlan(CreatePlan(r, kubeID), core.env, |old(core.effects)|).0
      ensures err == RunPlan(CreatePlan(r, kubeID), core.env, |old(core.effects)|).1
    {
      ghost var before := core.effects;
      ghost var plan := CreatePlan(r, kubeID);
      assert plan[..0] == [];
      err := core.PerformPlanned(plan, before, 0, Insert(r));
      if err != Ok {
        return;
      }
      err := core.PerformPlanned(plan, before, 1, Preload(KubeScope, kubeID));
      if err != Ok {
        return;
      }
      err := core.PerformPlanned(plan, before, 2, Dispatch(ProvisionAction(r), Async));
      if err == Ok {
        assert plan[..3] == plan;
        RunPlanAll(plan, core.env, |before|);
      }
    }

    /** The deleting closure: delete the load balancer at the provider, then the record. */
    method RunDelete(id: int, r: Resource) returns (err: Outcome)
      modifies core
      ensures core.effects == old(core.effects) + RunPlan(DeletePlan(id, r), core.env, |old(core.effects)|).0
      ensures err == RunPlan(DeletePlan(id, r), core.env, |old(core.effects)|).1
    {
      ghost var before := core.effects;
      ghost var plan := DeletePlan(id, r);
      assert plan[..0] == [];
      err := core.PerformPlanned(plan, before, 0, Provider(DeleteEntrypoint(r.id)));
      if err != Ok {
        return;
      }
      err := core.PerformPlanned(plan, before, 1, DeleteRecord(Collection, id));
      if err == Ok {
        assert plan[..2] == plan;
        RunPlanAll(plan, core.env, |before|);
      }
    }
  }
}
