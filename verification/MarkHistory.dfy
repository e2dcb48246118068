/** Exactly when a left-mark or a cancel function is in its table, and so exactly which Joins
    a Leave stops. */
module MarkHistory {
  import opened Types
  import opened TableOps
  import opened Protocol
  import Latch

  /** A Leave of `ep` finds no manager and leaves its mark. */
  predicate SetsMark(w: World, step: Step, ep: EndpointId) {
    step.EnterLeaveStep? && CanEnterLeave(w, step.t) && w.roles[step.t].ep == ep && ep !in w.tables.managers
  }

  /** A removal of the endpoint, or a commit that takes the mark or would not see it. */
  predicate ClearsMark(w: World, step: Step, ep: EndpointId) {
    step.Crash? ||
    (Removes(w, step) && RemovedEndpoint(w, step) == ep) ||
    (step.CommitJoinStep? && CanCommitJoin(w, step.t) && w.holds[step.t].ep == ep) ||
    (step.CommitRestoreStep? && CanCommitRestore(w, step.t) && w.holds[step.t].ep == ep && ep !in w.tables.managers)
  }

  /** A Join thread of `ep` registers its cancel function. */
  predicate SetsCancel(w: World, step: Step, ep: EndpointId) {
    step.RegisterJoin? && Free(w, step.t) && BackAt(w, step.t, Spawned) && w.roles[step.t].req.ep == ep
  }

  /** Any Join thread of `ep` ends, or a Leave of `ep` finds no manager. */
  predicate ClearsCancel(w: World, step: Step, ep: EndpointId) {
    step.Crash? || SetsMark(w, step, ep) ||
    (step.ExitJoin? && Free(w, step.t) && BackAt(w, step.t, Exiting) && w.roles[step.t].req.ep == ep)
  }

  ghost predicate Effect(w: World, w': World, step: Step, ep: EndpointId) {
    (ep in w'.tables.left <==> SetsMark(w, step, ep) || (ep in w.tables.left && !ClearsMark(w, step, ep))) &&
    (ep in w'.tables.cancels <==> SetsCancel(w, step, ep) || (ep in w.tables.cancels && !ClearsCancel(w, step, ep)))
  }

  lemma CrashEffect(w: World, ep: EndpointId)
    ensures Effect(w, Apply(w, Crash), Crash, ep)
  {
    hide Only, RoleFrom, Started, KeepsLooking, KeepsRestoring, Moves, KeepsMarked, KeepsCreating;
  }

  lemma RegisterEffect(w: World, t: Tid, ep: EndpointId)
    ensures Effect(w, Apply(w, RegisterJoin(t)), RegisterJoin(t), ep)
  {
    hide Only, RoleFrom, Started, KeepsLooking, KeepsRestoring, Moves, KeepsMarked, KeepsCreating;
  }

  lemma ExitEffect(w: World, t: Tid, ep: EndpointId)
    ensures Effect(w, Apply(w, ExitJoin(t)), ExitJoin(t), ep)
  {
    hide Only, RoleFrom, Started, KeepsLooking, KeepsRestoring, Moves, KeepsMarked, KeepsCreating;
  }

  lemma EnterTables(t: Tables, l: EndpointId, ep: EndpointId)
    ensures ep in EnterLeave(t, l).left <==> (ep == l && l !in t.managers) || ep in t.left
    ensures ep in EnterLeave(t, l).cancels <==> ep in t.cancels && !(ep == l && l !in t.managers)
  {
  }

  lemma EnterEffect(w: World, t: Tid, ep: EndpointId)
    ensures Effect(w, Apply(w, EnterLeaveStep(t)), EnterLeaveStep(t), ep)
  {
    hide EnterLeave, Only, RoleFrom, Started, KeepsLooking, KeepsRestoring, Moves, KeepsMarked, KeepsCreating;
    if CanEnterLeave(w, t) {
      EnterTables(w.tables, w.roles[t].ep, ep);
    }
  }

  lemma CommitTables(t: Tables, c: EndpointId, m: ManagerId, ep: EndpointId)
    ensures ep in CommitJoin(t, c, m).left <==> ep in t.left && ep != c
    ensures ep in CommitRestore(t, c, m).left <==> ep in t.left && (ep == c ==> c in t.managers)
    ensures CommitJoin(t, c, m).cancels == CommitRestore(t, c, m).cancels == t.cancels
  {
  }

  lemma CommitJoinEffect(w: World, t: Tid, hostname: string, ep: EndpointId)
    ensures Effect(w, Apply(w, CommitJoinStep(t, hostname)), CommitJoinStep(t, hostname), ep)
  {
    hide CommitJoin, CommitRestore, Only, RoleFrom, Started, KeepsLooking, KeepsRestoring, Moves, KeepsMarked,
      KeepsCreating;
    if CanCommitJoin(w, t) {
      CommitTables(w.tables, w.holds[t].ep, w.holds[t].m, ep);
    }
  }

  lemma CommitRestoreEffect(w: World, t: Tid, ep: EndpointId)
    ensures Effect(w, Apply(w, CommitRestoreStep(t)), CommitRestoreStep(t), ep)
  {
    hide CommitJoin, CommitRestore, RestoreVerdict, Only, RoleFrom, Started, KeepsLooking, KeepsRestoring, Moves,
      KeepsMarked, KeepsCreating;
    if CanCommitRestore(w, t) {
      CommitTables(w.tables, w.holds[t].ep, w.holds[t].m, ep);
    }
  }

  lemma FinishLeaveEffect(w: World, t: Tid, ep: EndpointId)
    ensures Effect(w, Apply(w, FinishLeave(t)), FinishLeave(t), ep)
  {
    hide RemoveRecord, Only, RoleFrom, Started, KeepsLooking, KeepsRestoring, Moves, KeepsMarked, KeepsCreating;
  }

  lemma FinishDeleteEffect(w: World, t: Tid, ep: EndpointId)
    ensures Effect(w, Apply(w, FinishDelete(t)), FinishDelete(t), ep)
  {
    hide RemoveRecord, Only, RoleFrom, Started, KeepsLooking, KeepsRestoring, Moves, KeepsMarked, KeepsCreating;
  }

  lemma DropEffect(w: World, t: Tid, ep: EndpointId)
    ensures Effect(w, Apply(w, RestoreDrop(t)), RestoreDrop(t), ep)
  {
    hide RemoveRecord, Only, RoleFrom, Started, KeepsLooking, KeepsRestoring, Moves, KeepsMarked, KeepsCreating;
  }

  lemma QuietStep(w: World, step: Step, ep: EndpointId)
    requires !step.Crash? && Marks !in Touched(step)
    ensures !SetsMark(w, step, ep) && !ClearsMark(w, step, ep) && !SetsCancel(w, step, ep) && !ClearsCancel(w, step, ep)
  {
  }

  lemma QuietEffect(w: World, step: Step, ep: EndpointId)
    requires !step.Crash? && Marks !in Touched(step)
    ensures Effect(w, Apply(w, step), step, ep)
  {
    hide Apply, SetsMark, ClearsMark, SetsCancel, ClearsCancel, RoleFrom, KeepsLooking, KeepsRestoring, Moves,
      KeepsMarked, KeepsCreating;
    QuietStep(w, step, ep);
    StepFrame(w, step);
  }

  lemma StepEffect(w: World, step: Step, ep: EndpointId)
    ensures Effect(w, Apply(w, step), step, ep)
  {
    hide Apply, Effect;
    match step
    case Crash => CrashEffect(w, ep);
    case RegisterJoin(t) => RegisterEffect(w, t, ep);
    case ExitJoin(t) => ExitEffect(w, t, ep);
    case EnterLeaveStep(t) => EnterEffect(w, t, ep);
    case CommitJoinStep(t, hostname) => CommitJoinEffect(w, t, hostname, ep);
    case CommitRestoreStep(t) => CommitRestoreEffect(w, t, ep);
    case FinishLeave(t) => FinishLeaveEffect(w, t, ep);
    case FinishDelete(t) => FinishDeleteEffect(w, t, ep);
    case RestoreDrop(t) => DropEffect(w, t, ep);
    case _ => QuietEffect(w, step, ep);
  }

  // -------------------------------------------------------------------------
  // Runs
  // -------------------------------------------------------------------------

  /** A Leave of `ep` has marked it, and since then there was no removal, no commit and no crash. */
  ghost predicate MarkedSince(w: World, steps: seq<Step>, n: nat, ep: EndpointId) {
    Latch.On(n, At(w, steps, (v, s) => SetsMark(v, s, ep)), At(w, steps, (v, s) => ClearsMark(v, s, ep)))
  }

  ghost predicate CancellableSince(w: World, steps: seq<Step>, n: nat, ep: EndpointId) {
    Latch.On(n, At(w, steps, (v, s) => SetsCancel(v, s, ep)), At(w, steps, (v, s) => ClearsCancel(v, s, ep)))
  }

  /** In every state of every run, an endpoint is marked exactly if a Leave has marked it and
      nothing has taken the mark since, and its cancel function is registered exactly if a
      Join thread registered it and no Join thread of the endpoint has ended, and no Leave
      come, since. */
  lemma {:induction false} MarkIff(w: World, steps: seq<Step>, n: nat, ep: EndpointId)
    requires n <= |steps| && ep !in w.tables.left && ep !in w.tables.cancels
    ensures ep in After(w, steps[..n]).tables.left <==> MarkedSince(w, steps, n, ep)
    ensures ep in After(w, steps[..n]).tables.cancels <==> CancellableSince(w, steps, n, ep)
  {
    hide Apply, SetsMark, ClearsMark, SetsCancel, ClearsCancel, Latch.On;
    var sets, clears := At(w, steps, (v, s) => SetsMark(v, s, ep)), At(w, steps, (v, s) => ClearsMark(v, s, ep));
    var sets', clears' := At(w, steps, (v, s) => SetsCancel(v, s, ep)), At(w, steps, (v, s) => ClearsCancel(v, s, ep));
    if n == 0 {
      assert steps[..0] == [];
      Latch.Never(sets, clears);
      Latch.Never(sets', clears');
    } else {
      MarkIff(w, steps, n - 1, ep);
      assert steps[..n][..n - 1] == steps[..n - 1];
      StepEffect(After(w, steps[..n - 1]), steps[n - 1], ep);
      Latch.Next(n - 1, sets, clears);
      Latch.Next(n - 1, sets', clears');
    }
  }

  /** The commit of a Join thread discards its manager exactly if a Leave has marked the
      endpoint and neither that Leave's own removal nor anything else has cleared the mark;
      otherwise the manager is registered, even if the Leave came after the Join. */
  lemma DiscardedIffMarked(w: World, steps: seq<Step>, t: Tid, hostname: string)
    requires w.tables.left == {} && w.tables.cancels == map[]
    requires CanCommitJoin(After(w, steps), t)
    ensures var v := After(w, steps); var v' := Apply(v, CommitJoinStep(t, hostname)); var ep := v.holds[t].ep;
      if MarkedSince(w, steps, |steps|, ep) then
        BackAt(v', t, BackPoint.Discarding) && v'.tables.managers == v.tables.managers
      else
        v'.tables.managers == v.tables.managers[ep := v.holds[t].m] && t !in v'.holds &&
        BackAt(v', t, if hostname != "" then Naming(hostname) else Exiting)
  {
    hide Apply, After, MarkedSince;
    assert steps[..|steps|] == steps;
    var v := After(w, steps);
    MarkIff(w, steps, |steps|, v.holds[t].ep);
    JoinCommit(v, t, hostname);
  }

  lemma JoinCommit(v: World, t: Tid, hostname: string)
    requires CanCommitJoin(v, t)
    ensures var v' := Apply(v, CommitJoinStep(t, hostname)); var ep := v.holds[t].ep;
      if ep in v.tables.left then BackAt(v', t, BackPoint.Discarding) && v'.tables.managers == v.tables.managers
      else
        v'.tables.managers == v.tables.managers[ep := v.holds[t].m] && t !in v'.holds &&
        BackAt(v', t, if hostname != "" then Naming(hostname) else Exiting)
  {
    hide Only, RoleFrom, Started, KeepsLooking, KeepsRestoring, Moves, KeepsMarked, KeepsCreating;
  }

  /** The commit of a Restore finds the slot occupied exactly if a manager is there; otherwise
      it gives its manager up exactly if such a mark stands, and registers it exactly if none
      does, even if the endpoint has left, or was deleted, since Restore read its record. */
  lemma RestoredIffUnmarked(w: World, steps: seq<Step>, t: Tid)
    requires w.tables.left == {} && w.tables.cancels == map[]
    requires CanCommitRestore(After(w, steps), t)
    ensures var v := After(w, steps); var v' := Apply(v, CommitRestoreStep(t)); var ep := v.holds[t].ep;
      if ep in v.tables.managers then DiscardsRestored(v, v', t, true)
      else if MarkedSince(w, steps, |steps|, ep) then DiscardsRestored(v, v', t, false)
      else v'.tables.managers == v.tables.managers[ep := v.holds[t].m] && t !in v'.holds
  {
    hide Apply, After, MarkedSince, DiscardsRestored;
    assert steps[..|steps|] == steps;
    var v := After(w, steps);
    MarkIff(w, steps, |steps|, v.holds[t].ep);
    RestoreCommits(v, t);
  }

  /** The thread still holds its manager and will stop it; the endpoint counts as restored
      only if another manager serves it. */
  ghost predicate DiscardsRestored(v: World, v': World, t: Tid, restored: bool) {
    v'.tables.managers == v.tables.managers && v'.holds == v.holds && t in v'.roles &&
    v'.roles[t].Restoring? && v'.roles[t].restore.Discarding? && v'.roles[t].restore.restored == restored
  }

  lemma RestoreCommits(v: World, t: Tid)
    requires CanCommitRestore(v, t)
    ensures var v' := Apply(v, CommitRestoreStep(t)); var ep := v.holds[t].ep;
      if ep in v.tables.managers then DiscardsRestored(v, v', t, true)
      else if ep in v.tables.left then DiscardsRestored(v, v', t, false)
      else v'.tables.managers == v.tables.managers[ep := v.holds[t].m] && t !in v'.holds
  {
    hide CommitRestore, Only, RoleFrom, Started, KeepsLooking, KeepsRestoring, Moves, KeepsMarked, KeepsCreating;
    RestoreManagers(v.tables, v.holds[t].ep, v.holds[t].m);
  }

  lemma RestoreManagers(t: Tables, c: EndpointId, m: ManagerId)
    ensures CommitRestore(t, c, m).managers ==
      if RestoreVerdict(t, c).Registered? then t.managers[c := m] else t.managers
  {
  }
}
