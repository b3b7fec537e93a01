/** The step runner of pkg/core/procedure.go: an ordered list of steps run one after the other,
    with the owning model saved after every step that succeeds. A step's closure is a function
    from the state it can see (the model and the world around it) to the new state and its
    error; `save` is DB.Save applied to the model part of that state. */
module Procedures {
  import opened Outcomes

  datatype Step<!S> = Step(desc: string, fn: S -> (S, Outcome))

  /** What a run did, in order: a step was invoked, or the model was saved after step i. */
  datatype Event = Invoked(step: nat) | Saved(step: nat)

  /** Running steps[i..] from state s: the final state, the error returned and the events. */
  function Exec<S>(steps: seq<Step<S>>, save: S -> (S, Outcome), i: nat, s: S): (S, Outcome, seq<Event>)
    requires i <= |steps|
    decreases |steps| - i
  {
    if i == |steps| then (s, Ok, [])
    else
      var (s1, e1) := steps[i].fn(s);
      if e1 != Ok then (s1, e1, [Invoked(i)])
      else
        var (s2, e2) := save(s1);
        if e2 != Ok then (s2, e2, [Invoked(i), Saved(i)])
        else
          var (s3, e3, t) := Exec(steps, save, i + 1, s2);
          (s3, e3, [Invoked(i), Saved(i)] + t)
  }

  /** The events of steps lo..hi-1 all succeeding: each invoked once, then saved. */
  function Pattern(lo: nat, hi: nat): seq<Event>
    requires lo <= hi
    decreases hi - lo
  {
    if lo == hi then [] else [Invoked(lo), Saved(lo)] + Pattern(lo + 1, hi)
  }

  /** The event at position p of a pattern that starts at step `lo`. */
  function PatternAt(lo: nat, p: nat): Event
  {
    if p % 2 == 0 then Invoked(lo + p / 2) else Saved(lo + p / 2)
  }

  /** The state before step k when steps i..k-1 all succeeded and were saved. */
  function Checkpoint<S>(steps: seq<Step<S>>, save: S -> (S, Outcome), i: nat, k: nat, s: S): S
    requires i <= k <= |steps|
    decreases k - i
  {
    if i == k then s else Checkpoint(steps, save, i + 1, k, save(steps[i].fn(s).0).0)
  }

  /** Step j and the save after it both succeed from the checkpoint before j. */
  predicate StepSaved<S>(steps: seq<Step<S>>, save: S -> (S, Outcome), i: nat, j: nat, s: S)
    requires i <= j < |steps|
  {
    var before := Checkpoint(steps, save, i, j, s);
    steps[j].fn(before).1 == Ok && save(steps[j].fn(before).0).1 == Ok
  }

  /** The shape of every run: the steps before some k ran and were saved in list order; then
      either all steps are done and nil is returned, or step k failed and its own error is
      returned with no save, or the save after step k failed and the save's error is returned.
      Nothing after k runs. */
  lemma {:induction false} ExecShape<S>(steps: seq<Step<S>>, save: S -> (S, Outcome), i: nat, s: S)
    returns (k: nat)
    requires i <= |steps|
    ensures i <= k <= |steps|
    ensures forall j :: i <= j < k ==> StepSaved(steps, save, i, j, s)
    ensures var (_, e, t) := Exec(steps, save, i, s);
            var before := Checkpoint(steps, save, i, k, s);
            || (k == |steps| && e == Ok && t == Pattern(i, k))
            || (k < |steps| && steps[k].fn(before).1 != Ok
                && e == steps[k].fn(before).1 && t == Pattern(i, k) + [Invoked(k)])
            || (k < |steps| && steps[k].fn(before).1 == Ok && save(steps[k].fn(before).0).1 != Ok
                && e == save(steps[k].fn(before).0).1 && t == Pattern(i, k) + [Invoked(k), Saved(k)])
    decreases |steps| - i
  {
    if i == |steps| {
      k := i;
    } else {
      var (s1, e1) := steps[i].fn(s);
      if e1 != Ok {
        k := i;
      } else {
        var (s2, e2) := save(s1);
        if e2 != Ok {
          k := i;
        } else {
          k := ExecShape(steps, save, i + 1, s2);
          assert Checkpoint(steps, save, i, k, s) == Checkpoint(steps, save, i + 1, k, s2);
          forall j | i <= j < k
            ensures StepSaved(steps, save, i, j, s)
          {
            if j > i {
              assert Checkpoint(steps, save, i, j, s) == Checkpoint(steps, save, i + 1, j, s2);
              assert StepSaved(steps, save, i + 1, j, s2);
            }
          }
        }
      }
    }
  }

  /** Every event sequence a run can produce lists step j's invocation only at position 2j, so
      steps are invoked in order and at most once, and there are as many saves as steps that
      completed. */
  lemma {:induction false} PatternPositions(lo: nat, hi: nat)
    requires lo <= hi
    ensures |Pattern(lo, hi)| == 2 * (hi - lo)
    ensures forall p :: 0 <= p < |Pattern(lo, hi)| ==> Pattern(lo, hi)[p] == PatternAt(lo, p)
    decreases hi - lo
  {
    if lo < hi {
      PatternPositions(lo + 1, hi);
      var t := Pattern(lo, hi);
      forall p | 0 <= p < |t|
        ensures t[p] == PatternAt(lo, p)
      {
        if p >= 2 {
          assert t[p] == Pattern(lo + 1, hi)[p - 2];
        }
      }
    }
  }

  /** A procedure whose steps and saves all succeed returns nil after exactly one save per
      step; an empty procedure saves nothing. */
  lemma AllSucceed<S>(steps: seq<Step<S>>, save: S -> (S, Outcome), s: S)
    requires forall j :: 0 <= j < |steps| ==> StepSaved(steps, save, 0, j, s)
    ensures Exec(steps, save, 0, s).1 == Ok
    ensures Exec(steps, save, 0, s).2 == Pattern(0, |steps|)
    ensures |Exec(steps, save, 0, s).2| == 2 * |steps|
  {
    var k := ExecShape(steps, save, 0, s);
    assert k < |steps| ==> StepSaved(steps, save, 0, k, s);
    PatternPositions(0, |steps|);
  }

  /** A property every step and every save preserves holds of the state a run ends in,
      whatever the steps return. */
  lemma {:induction false} ExecPreserves<S>(steps: seq<Step<S>>, save: S -> (S, Outcome), i: nat, s: S,
                                            inv: S -> bool)
    requires i <= |steps|
    requires inv(s)
    requires forall j, x :: 0 <= j < |steps| && inv(x) ==> inv(steps[j].fn(x).0)
    requires forall x :: inv(x) ==> inv(save(x).0)
    ensures inv(Exec(steps, save, i, s).0)
    decreases |steps| - i
  {
    if i < |steps| {
      var (s1, e1) := steps[i].fn(s);
      if e1 == Ok {
        var (s2, e2) := save(s1);
        if e2 == Ok {
          ExecPreserves(steps, save, i + 1, s2, inv);
        }
      }
    }
  }

  class Procedure<S> {
    const name: string
    const save: S -> (S, Outcome)
    var steps: seq<Step<S>>

    constructor (name: string, save: S -> (S, Outcome))
      ensures this.name == name && this.save == save && steps == []
    {
      this.name := name;
      this.save := save;
      steps := [];
    }

    /** AddStep: append; the order of the calls is the order of execution, with no
        deduplication. */
    method AddStep(desc: string, fn: S -> (S, Outcome))
      modifies this
      ensures steps == old(steps) + [Step(desc, fn)]
    {
      steps := steps + [Step(desc, fn)];
    }

    /** Run: invoke each step in order; stop at the first step error or save error and return
        it unchanged; save after every successful step; nil when all succeed. */
    method Run(s0: S) returns (s: S, err: Outcome, trace: seq<Event>)
      ensures (s, err, trace) == Exec(steps, save, 0, s0)
    {
      s, trace := s0, [];
      var i := 0;
      assert trace + Exec(steps, save, i, s).2 == Exec(steps, save, i, s).2;
      while i < |steps|
        invariant 0 <= i <= |steps|
        invariant Exec(steps, save, 0, s0) ==
                  (Exec(steps, save, i, s).0, Exec(steps, save, i, s).1, trace + Exec(steps, save, i, s).2)
      {
        var r := steps[i].fn(s);
        if r.1 != Ok {
          return r.0, r.1, trace + [Invoked(i)];
        }
        var saved := save(r.0);
        if saved.1 != Ok {
          return saved.0, saved.1, trace + [Invoked(i), Saved(i)];
        }
        assert trace + ([Invoked(i), Saved(i)] + Exec(steps, save, i + 1, saved.0).2)
            == (trace + [Invoked(i), Saved(i)]) + Exec(steps, save, i + 1, saved.0).2;
        s, trace := saved.0, trace + [Invoked(i), Saved(i)];
        i := i + 1;
      }
      assert trace + Exec(steps, save, i, s).2 == trace;
      err := Ok;
    }
  }
}
