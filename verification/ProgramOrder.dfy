/** Which runs of the protocol are runs of the program: a thread that has left `mu` with a
    snapshot to save takes no further step until its save is done. */
module ProgramOrder {
  import opened Types
  import opened TableOps
  import opened Protocol

  /** The thread each pending save belongs to, after one more step. */
  function NextWaiting(w: World, v: World, step: Step, waiting: map<nat, Tid>): map<nat, Tid> {
    var kept := map k | k in waiting && (k in v.stateWrites || k in v.netWrites) :: waiting[k];
    if Threaded(step) && w.ticket < v.ticket then kept[w.ticket := step.t] else kept
  }

  function Waiting(w: World, steps: seq<Step>): map<nat, Tid> {
    if steps == [] then map[]
    else
      var init, step := steps[..|steps| - 1], steps[|steps| - 1];
      NextWaiting(After(w, init), After(w, steps), step, Waiting(w, init))
  }

  predicate MayStep(waiting: map<nat, Tid>, step: Step) {
    Threaded(step) ==> forall k | k in waiting :: waiting[k] != step.t
  }

  /** No thread goes on while its own save is pending. */
  predicate Ordered(w: World, steps: seq<Step>) {
    steps == [] ||
    (Ordered(w, steps[..|steps| - 1]) && MayStep(Waiting(w, steps[..|steps| - 1]), steps[|steps| - 1]))
  }

  lemma OrderedSnoc(w: World, steps: seq<Step>, step: Step)
    requires Ordered(w, steps) && MayStep(Waiting(w, steps), step)
    ensures Ordered(w, steps + [step])
    ensures var u := After(w, steps);
      Waiting(w, steps + [step]) == NextWaiting(u, Apply(u, step), step, Waiting(w, steps))
  {
    hide Apply, MayStep, NextWaiting;
    AfterSnoc(w, steps, step);
    assert (steps + [step])[..|steps|] == steps;
  }
}
