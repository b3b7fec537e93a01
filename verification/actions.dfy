/** The effects the resource lifecycles of pkg/core have on the rest of the system, and the Action
    records they build. The Action runtime itself (Now, Async, retries, cancellation) is outside
    the model: dispatching an Action is one effect whose answer is the error Now or Async
    returns. */
module Actions {
  import opened Outcomes
  import opened Model

  /** How an Action is started: Now runs it and returns its error, Async records it and
      returns. */
  datatype Mode = Now | Async

  /** A record of a collection, as the lifecycles refer to it. */
  datatype Resource = Resource(collection: string, id: int, uuid: string)

  /** The closure an Action runs, with the model it captured. */
  datatype Closure =
    | ProvisionKube(kube: Kube)
    | DeleteKubeTree(kubeID: int, kube: Kube)
    | ProvisionEntrypoint(entrypoint: Resource)
    | RemoveEntrypoint(entrypointID: int, entrypoint: Resource)
    | ProvisionListener(listener: Resource)
    | RemoveListener(listenerID: int, listener: Resource)

  /** The fields of an Action the lifecycles set: the status description and retry budget, the
      resource it locks, the record id, whether it cancels an Action in flight, the preloads of
      its scope and its closure. */
  datatype Action = Action(
    description: string,
    maxRetries: int,
    resourceID: Option<string>,
    id: Option<int>,
    cancelExisting: bool,
    scope: seq<string>,
    fn: Closure)

  /** The provider operations the lifecycles call. */
  datatype ProviderOp =
    | DeleteKube(kubeID: int)
    | DeleteEntrypoint(entrypointID: int)
    | DeleteEntrypointListener(listenerID: int)

  datatype Effect =
    | Insert(record: Resource)                      // Collection.Create
    | Preload(scope: seq<string>, id: int)          // DB.Preload(...).First
    | Dispatch(action: Action, mode: Mode)          // Action.Now / Action.Async
    | SubDelete(collection: string, id: int)        // Delete(id, child).Now() of another collection
    | Provider(op: ProviderOp)                      // a provider call
    | DeleteRecord(collection: string, id: int)     // Collection.Delete

  /** The system the lifecycles act on: the effects so far, in order, and the oracle that
      answers the effect at each position. */
  class Core {
    var effects: seq<Effect>
    const env: Env

    constructor (env: Env)
      ensures effects == [] && this.env == env
    {
      effects := [];
      this.env := env;
    }

    /** Perform one effect and return its answer. */
    method Perform(e: Effect) returns (err: Outcome)
      modifies this
      ensures effects == old(effects) + [e]
      ensures err == Answer(env, |old(effects)|)
    {
      err := Answer(env, |effects|);
      effects := effects + [e];
    }

    /** Perform the effect at position `pos` of `plan`, in a run of `plan` that began after
        `before` and in which every earlier effect succeeded: either the run goes on, or it
        ends here with this effect's error. */
    method PerformPlanned(ghost plan: seq<Effect>, ghost before: seq<Effect>, ghost pos: nat, e: Effect)
      returns (err: Outcome)
      requires pos < |plan| && plan[pos] == e
      requires effects == before + plan[..pos] && Succeed(env, |before|, |before| + pos)
      modifies this
      ensures err == Ok ==> effects == before + plan[..pos + 1] && Succeed(env, |before|, |before| + pos + 1)
      ensures err != Ok ==> effects == before + RunPlan(plan, env, |before|).0 && err == RunPlan(plan, env, |before|).1
    {
      err := Perform(e);
      assert plan[..pos + 1] == plan[..pos] + [plan[pos]];
      if err != Ok {
        RunPlanStopsAt(plan, env, |before|, pos);
      }
    }
  }

  /** The offset, from position `at`, of the first of the next n effects that fails; n when
      none does. */
  function FirstFailure(env: Env, at: nat, n: nat): (k: nat)
    ensures k <= n && Succeed(env, at, at + k)
    ensures k < n ==> env.fails(at + k)
    decreases n
  {
    if n == 0 || env.fails(at) then 0 else 1 + FirstFailure(env, at + 1, n - 1)
  }

  /** The first failure is the only offset with every effect before it succeeding and itself
      failing (or being the end). */
  lemma FirstFailureIs(env: Env, at: nat, n: nat, k: nat)
    requires k <= n && Succeed(env, at, at + k)
    requires k < n ==> env.fails(at + k)
    ensures FirstFailure(env, at, n) == k
  {
  }

  /** Performing `plan` in order from position `at`, stopping at the first effect that fails:
      the effects performed and the error returned. */
  function RunPlan(plan: seq<Effect>, env: Env, at: nat): (seq<Effect>, Outcome)
  {
    var k := FirstFailure(env, at, |plan|);
    if k == |plan| then (plan, Ok) else (plan[..k + 1], Err(env.message(at + k)))
  }

  /** What is performed is a prefix of the plan; every performed effect but the last succeeded;
      nil comes back exactly when the whole plan was performed and every effect succeeded;
      otherwise the error is that of the last effect performed, which failed. */
  lemma RunPlanFacts(plan: seq<Effect>, env: Env, at: nat)
    ensures var r := RunPlan(plan, env, at);
            && |r.0| <= |plan| && r.0 == plan[..|r.0|]
            && (0 < |r.0| ==> Succeed(env, at, at + |r.0| - 1))
            && (r.1 == Ok <==> r.0 == plan && Succeed(env, at, at + |plan|))
            && (r.1 != Ok ==> 0 < |r.0| && env.fails(at + |r.0| - 1) && r.1 == Err(env.message(at + |r.0| - 1)))
  {
  }

  /** The last effect of a plan is attempted exactly when every earlier one succeeded. */
  lemma LastAttemptedIff(plan: seq<Effect>, env: Env, at: nat)
    requires |plan| > 0
    ensures |RunPlan(plan, env, at).0| == |plan| <==> Succeed(env, at, at + |plan| - 1)
  {
    RunPlanFacts(plan, env, at);
    if Succeed(env, at, at + |plan| - 1) {
      if env.fails(at + |plan| - 1) {
        FirstFailureIs(env, at, |plan|, |plan| - 1);
      } else {
        FirstFailureIs(env, at, |plan|, |plan|);
      }
    }
  }

  /** When the effects before position k succeed and the one at k fails, the plan stops right
      after k with that error. */
  lemma RunPlanStopsAt(plan: seq<Effect>, env: Env, at: nat, k: nat)
    requires k < |plan| && Succeed(env, at, at + k) && env.fails(at + k)
    ensures RunPlan(plan, env, at) == (plan[..k + 1], Err(env.message(at + k)))
  {
    FirstFailureIs(env, at, |plan|, k);
  }

  /** When every effect succeeds, the whole plan is performed and nil returned. */
  lemma RunPlanAll(plan: seq<Effect>, env: Env, at: nat)
    requires Succeed(env, at, at + |plan|)
    ensures RunPlan(plan, env, at) == (plan, Ok)
  {
    FirstFailureIs(env, at, |plan|, |plan|);
  }

  /** Running two plans one after the other: the second starts only when the first returned
      nil. */
  lemma RunPlanAppend(a: seq<Effect>, b: seq<Effect>, env: Env, at: nat)
    ensures RunPlan(a, env, at).1 != Ok ==> RunPlan(a + b, env, at) == RunPlan(a, env, at)
    ensures RunPlan(a, env, at).1 == Ok ==>
              RunPlan(a + b, env, at) == (a + RunPlan(b, env, at + |a|).0, RunPlan(b, env, at + |a|).1)
  {
    var ka := FirstFailure(env, at, |a|);
    if ka < |a| {
      AppendStopsInFirst(a, b, env, at, ka);
    } else {
      AppendRunsSecond(a, b, env, at);
    }
  }

  lemma AppendStopsInFirst(a: seq<Effect>, b: seq<Effect>, env: Env, at: nat, ka: nat)
    requires ka == FirstFailure(env, at, |a|) < |a|
    ensures RunPlan(a + b, env, at) == RunPlan(a, env, at)
  {
    RunPlanStopsAt(a + b, env, at, ka);
    RunPlanStopsAt(a, env, at, ka);
    assert (a + b)[..ka + 1] == a[..ka + 1];
  }

  /** A prefix of a + b that reaches into b. */
  lemma TakeAppend<T>(a: seq<T>, b: seq<T>, k: nat)
    requires k <= |b|
    ensures (a + b)[..|a| + k] == a + b[..k]
  {
    assert forall i :: 0 <= i < |a| + k ==> (a + b)[..|a| + k][i] == (a + b[..k])[i];
  }

  lemma AppendRunsSecond(a: seq<Effect>, b: seq<Effect>, env: Env, at: nat)
    requires FirstFailure(env, at, |a|) == |a|
    ensures RunPlan(a + b, env, at) == (a + RunPlan(b, env, at + |a|).0, RunPlan(b, env, at + |a|).1)
  {
    var kb := FirstFailure(env, at + |a|, |b|);
    SucceedJoin(env, at, at + |a|, at + |a| + kb);
    if kb < |b| {
      AppendStopsInSecond(a, b, env, at, kb);
    } else {
      RunPlanAll(a + b, env, at);
      RunPlanAll(b, env, at + |a|);
    }
  }

  lemma AppendStopsInSecond(a: seq<Effect>, b: seq<Effect>, env: Env, at: nat, kb: nat)
    requires kb < |b| && Succeed(env, at, at + |a| + kb) && env.fails(at + |a| + kb)
    ensures RunPlan(a + b, env, at) == (a + RunPlan(b, env, at + |a|).0, RunPlan(b, env, at + |a|).1)
  {
    RunPlanStopsAt(a + b, env, at, |a| + kb);
    RunPlanStopsAt(b, env, at + |a|, kb);
    TakeAppend(a, b, kb + 1);
  }

  /** Two runs of successful calls, one after the other, make one. */
  lemma SucceedJoin(env: Env, lo: nat, mid: nat, hi: nat)
    requires lo <= mid <= hi && Succeed(env, lo, mid) && Succeed(env, mid, hi)
    ensures Succeed(env, lo, hi)
  {
  }
}
