/** The EntrypointListener lifecycle of pkg/core/entrypoint_listeners.go: Create inserts the
    record, loads the entrypoint with its Kube and cloud account and runs the provisioning Action
    synchronously; Delete builds the deleting Action whose closure removes the listener at the
    provider only. */
module CoreEntrypointListeners {
  import opened Outcomes
  import opened Actions

  const Collection: string := "entrypoint_listeners"

  /** The preloads Create needs for the entrypoint the listener belongs to. */
  const EntrypointScope: seq<string> := ["Kube.CloudAccount"]

  /** The preloads of the deleting Action's scope. */
  const DeleteScope: seq<string> := ["Entrypoint.Kube.CloudAccount"]

  /** The provisioning Action: "provisioning", 5 retries, locked on the listener's UUID,
      running the provider's CreateEntrypointListener. */
  function ProvisionAction(r: Resource): (a: Action)
    ensures a.description == "provisioning" && a.maxRetries == 5
    ensures a.resourceID == Some(r.uuid) && a.fn == ProvisionListener(r)
    ensures a.id.None? && !a.cancelExisting
  {
    Action("provisioning", 5, Some(r.uuid), None, false, [], ProvisionListener(r))
  }

  /** What Create does: insert, load the entrypoint, run the Action now. */
  function CreatePlan(r: Resource, entrypointID: int): seq<Effect>
  {
    [Insert(r), Preload(EntrypointScope, entrypointID), Dispatch(ProvisionAction(r), Now)]
  }

  /** Delete: the deleting Action, built and not run: "deleting", 5 retries, the record id and
      the listener's UUID as its resource lock. */
  function DeleteAction(id: int, r: Resource): (a: Action)
    ensures a.description == "deleting" && a.maxRetries == 5
    ensures a.id == Some(id) && a.resourceID == Some(r.uuid) && !a.cancelExisting
    ensures a.scope == DeleteScope && a.fn == RemoveListener(id, r)
  {
    Action("deleting", 5, Some(r.uuid), Some(id), false, DeleteScope, RemoveListener(id, r))
  }

  /** The deleting closure: the provider's DeleteEntrypointListener and nothing else. */
  function DeletePlan(r: Resource): seq<Effect>
  {
    [Provider(DeleteEntrypointListener(r.id))]
  }

  /** Create returns the insert error, then the load error, and otherwise the result of running
      the provisioning Action: the Action is run exactly when both succeeded. */
  lemma CreateReturnsActionResult(r: Resource, entrypointID: int, env: Env, at: nat)
    ensures var (performed, err) := RunPlan(CreatePlan(r, entrypointID), env, at);
            && (Dispatch(ProvisionAction(r), Now) in performed <==> Succeed(env, at, at + 2))
            && err == (if env.fails(at) then Err(env.message(at))
                       else if env.fails(at + 1) then Err(env.message(at + 1))
                       else Answer(env, at + 2))
  {
    var plan := CreatePlan(r, entrypointID);
    if env.fails(at) {
      RunPlanStopsAt(plan, env, at, 0);
      assert RunPlan(plan, env, at).0 == [plan[0]];
    } else if env.fails(at + 1) {
      RunPlanStopsAt(plan, env, at, 1);
      assert RunPlan(plan, env, at).0 == plan[..2];
    } else if env.fails(at + 2) {
      RunPlanStopsAt(plan, env, at, 2);
      assert RunPlan(plan, env, at).0 == plan;
    } else {
      RunPlanAll(plan, env, at);
    }
  }

  /** Whatever the provider answers, the deleting closure performs the provider call and no
      record delete, and returns the provider's answer. */
  lemma DeleteKeepsRecord(r: Resource, env: Env, at: nat)
    ensures var (performed, err) := RunPlan(DeletePlan(r), env, at);
            && performed == [Provider(DeleteEntrypointListener(r.id))]
            && (forall e :: e in performed ==> !e.DeleteRecord?)
            && err == Answer(env, at)
  {
    var plan := DeletePlan(r);
    if env.fails(at) {
      RunPlanStopsAt(plan, env, at, 0);
      assert plan[..1] == plan;
    } else {
      RunPlanAll(plan, env, at);
    }
  }

  class EntrypointListeners {
    const core: Core

    constructor (core: Core)
      ensures this.core == core
    {
      this.core := core;
    }

    /** Create: insert the record, load the entrypoint, run the provisioning Action now and
        return its result; the first error is returned and nothing after it happens. */
    method Create(r: Resource, entrypointID: int) returns (err: Outcome)
      modifies core
      ensures core.effects == old(core.effects) + RunPlan(CreatePlan(r, entrypointID), core.env, |old(core.effects)|).0
      ensures err == RunPlan(CreatePlan(r, entrypointID), core.env, |old(core.effects)|).1
    {
      ghost var before := core.effects;
      ghost var plan := CreatePlan(r, entrypointID);
      assert plan[..0] == [];
      err := core.PerformPlanned(plan, before, 0, Insert(r));
      if err != Ok {
        return;
      }
      err := core.PerformPlanned(plan, before, 1, Preload(EntrypointScope, entrypointID));
      if err != Ok {
        return;
      }
      err := core.PerformPlanned(plan, before, 2, Dispatch(ProvisionAction(r), Now));
      if err == Ok {
        assert plan[..3] == plan;
        RunPlanAll(plan, core.env, |before|);
      }
    }

    /** The deleting closure: remove the listener at the provider and return its error. */
    method RunDelete(r: Resource) returns (err: Outcome)
      modifies core
      ensures core.effects == old(core.effects) + RunPlan(DeletePlan(r), core.env, |old(core.effects)|).0
      ensures err == RunPlan(DeletePlan(r), core.env, |old(core.effects)|).1
    {
      ghost var before := core.effects;
      ghost var plan := DeletePlan(r);
      assert plan[..0] == [];
      err := core.PerformPlanned(plan, before, 0, Provider(DeleteEntrypointListener(r.id)));
      if err == Ok {
        assert plan[..1] == plan;
        RunPlanAll(plan, core.env, |before|);
      }
    }
  }
}
