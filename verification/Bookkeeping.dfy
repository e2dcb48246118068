/** Left-marks and cancel functions exist only while some thread is there to clean them up. */
module Bookkeeping {
  import opened Types
  import opened TableOps
  import opened Protocol

  /** A Leave of `ep` between its mark and its deferred removal. */
  ghost predicate LeaveInWindow(w: World, ep: EndpointId) {
    exists t :: t in w.roles && w.roles[t] == Leaving(ep, Marked)
  }

  predicate UnfinishedJoin(w: World, t: Tid, ep: EndpointId) {
    t in w.roles && w.roles[t].Background? && w.roles[t].req.ep == ep && w.roles[t].back != Spawned
  }

  ghost predicate Bounded(w: World) {
    (forall ep | ep in w.tables.left :: LeaveInWindow(w, ep)) &&
    (forall ep | ep in w.tables.cancels :: UnfinishedJoin(w, w.tables.cancels[ep], ep))
  }

  /** Marks and cancels may go, and threads that own some stay. */
  lemma BoundedKept(w: World, w': World, t: Tid)
    requires Bounded(w) && KeepsMarked(w, w', t)
    requires forall u | u != t && u in w.roles :: u in w'.roles && w'.roles[u] == w.roles[u]
    requires w'.tables.left <= w.tables.left
    requires forall ep | ep in w'.tables.cancels ::
      ep in w.tables.cancels && w'.tables.cancels[ep] == w.tables.cancels[ep]
    ensures Bounded(w')
  {
    forall ep | ep in w'.tables.left ensures LeaveInWindow(w', ep) {
      var u :| u in w.roles && w.roles[u] == Leaving(ep, Marked);
      assert u in w'.roles && w'.roles[u] == Leaving(ep, Marked);
    }
  }

  lemma RegisterBounded(w: World, t: Tid)
    requires Bounded(w)
    ensures Bounded(Apply(w, RegisterJoin(t)))
  {
    hide Only, RoleFrom, Started, KeepsLooking, KeepsRestoring, Moves, KeepsMarked, KeepsCreating;
    var w' := DoRegisterJoin(w, t);
    forall ep | ep in w'.tables.left ensures LeaveInWindow(w', ep) {
      var u :| u in w.roles && w.roles[u] == Leaving(ep, Marked);
      assert u in w'.roles && w'.roles[u] == Leaving(ep, Marked);
    }
  }

  lemma ExitBounded(w: World, t: Tid)
    requires Bounded(w)
    ensures Bounded(Apply(w, ExitJoin(t)))
  {
    hide Only, RoleFrom, Started, KeepsLooking, KeepsRestoring, Moves, KeepsMarked, KeepsCreating;
    var w' := DoExitJoin(w, t);
    forall ep | ep in w'.tables.left ensures LeaveInWindow(w', ep) {
      var u :| u in w.roles && w.roles[u] == Leaving(ep, Marked);
      assert u in w'.roles && w'.roles[u] == Leaving(ep, Marked);
    }
  }

  /** A Leave takes a cancel function away, and the mark it leaves is its own. */
  lemma OwnMark(w: World, w': World, t: Tid, ep: EndpointId)
    requires Bounded(w) && t in w.roles && w.roles[t].Leaving? && w.roles[t].leave == Entering
    requires forall u | u != t && u in w.roles :: u in w'.roles && w'.roles[u] == w.roles[u]
    requires forall e | e in w'.tables.cancels :: e in w.tables.cancels && w'.tables.cancels[e] == w.tables.cancels[e]
    requires w'.tables.left <= w.tables.left + {ep}
    requires ep in w'.tables.left && ep !in w.tables.left ==> t in w'.roles && w'.roles[t] == Leaving(ep, Marked)
    ensures Bounded(w')
  {
    forall e | e in w'.tables.left ensures LeaveInWindow(w', e) {
      if e in w.tables.left {
        var u :| u in w.roles && w.roles[u] == Leaving(e, Marked);
        assert u in w'.roles && w'.roles[u] == Leaving(e, Marked);
      } else {
        assert w'.roles[t] == Leaving(e, Marked);
      }
    }
  }

  lemma EnterLeaveBounded(w: World, t: Tid)
    requires Bounded(w)
    ensures Bounded(Apply(w, EnterLeaveStep(t)))
  {
    hide Bounded, Only, RoleFrom, Started, KeepsLooking, KeepsRestoring, Moves, KeepsMarked, KeepsCreating;
    if Free(w, t) && w.roles[t].Leaving? && w.roles[t].leave == Entering {
      OwnMark(w, DoEnterLeave(w, t), t, w.roles[t].ep);
    }
  }

  /** A Leave that ends takes the mark of its endpoint with it. */
  lemma MarkRemoved(w: World, w': World, t: Tid, ep: EndpointId)
    requires Bounded(w) && t in w.roles && w.roles[t].Leaving? && w.roles[t].ep == ep
    requires forall u | u != t && u in w.roles :: u in w'.roles && w'.roles[u] == w.roles[u]
    requires w'.tables.left == w.tables.left - {ep} && w'.tables.cancels == w.tables.cancels
    ensures Bounded(w')
  {
    forall e | e in w'.tables.left ensures LeaveInWindow(w', e) {
      var u :| u in w.roles && w.roles[u] == Leaving(e, Marked);
      assert u in w'.roles && w'.roles[u] == Leaving(e, Marked);
    }
  }

  lemma FinishLeaveBounded(w: World, t: Tid)
    requires Bounded(w)
    ensures Bounded(Apply(w, FinishLeave(t)))
  {
    hide RemoveRecord, Bounded, Only, RoleFrom, Started, KeepsLooking, KeepsRestoring, Moves, KeepsMarked,
      KeepsCreating;
    if CanFinishLeave(w, t) {
      MarkRemoved(w, DoFinishLeave(w, t), t, w.roles[t].ep);
    }
  }

  lemma CommitJoinBounded(w: World, t: Tid, hostname: string)
    requires Bounded(w)
    ensures Bounded(Apply(w, CommitJoinStep(t, hostname)))
  {
    hide CommitJoin, Bounded, Only, RoleFrom, Started, KeepsLooking, KeepsRestoring, Moves, KeepsCreating;
    if CanCommitJoin(w, t) {
      CommitMarks(w.tables, w.holds[t].ep, w.holds[t].m);
      BoundedKept(w, DoCommitJoin(w, t, hostname), t);
    }
  }

  /** A commit only ever takes a mark away. */
  lemma CommitMarks(t: Tables, ep: EndpointId, m: ManagerId)
    ensures CommitJoin(t, ep, m).left <= t.left && CommitJoin(t, ep, m).cancels == t.cancels
    ensures CommitRestore(t, ep, m).left <= t.left && CommitRestore(t, ep, m).cancels == t.cancels
  {
  }

  lemma CommitRestoreBounded(w: World, t: Tid)
    requires Bounded(w)
    ensures Bounded(Apply(w, CommitRestoreStep(t)))
  {
    hide CommitRestore, RestoreVerdict, Bounded, Only, RoleFrom, Started, KeepsLooking, KeepsRestoring, Moves,
      KeepsCreating;
    if CanCommitRestore(w, t) {
      CommitMarks(w.tables, w.holds[t].ep, w.holds[t].m);
      BoundedKept(w, DoCommitRestore(w, t), t);
    }
  }

  lemma FinishDeleteBounded(w: World, t: Tid)
    requires Bounded(w)
    ensures Bounded(Apply(w, FinishDelete(t)))
  {
    hide RemoveRecord, Bounded, Only, RoleFrom, Started, KeepsLooking, KeepsRestoring, Moves, KeepsCreating;
    if CanFinishDelete(w, t) {
      BoundedKept(w, DoFinishDelete(w, t), t);
    }
  }

  lemma DropBounded(w: World, t: Tid)
    requires Bounded(w)
    ensures Bounded(Apply(w, RestoreDrop(t)))
  {
    hide RemoveRecord, Bounded, Only, RoleFrom, Started, KeepsLooking, KeepsRestoring, Moves, KeepsCreating;
    if CanDrop(w, t) {
      BoundedKept(w, DoRestoreDrop(w, t), t);
    }
  }

  lemma QuietBounded(w: World, step: Step)
    requires Bounded(w) && !step.Crash? && Marks !in Touched(step)
    ensures Bounded(Apply(w, step))
  {
    hide Apply, Bounded, RoleFrom, Started, KeepsLooking, KeepsRestoring, Moves, KeepsMarked, KeepsCreating;
    StepFrame(w, step);
    BoundedKept(w, Apply(w, step), Actor(step));
  }

  lemma CrashBounded(w: World)
    ensures Bounded(Apply(w, Crash))
  {
    hide Only, RoleFrom, Started, KeepsLooking, KeepsRestoring, Moves, KeepsMarked, KeepsCreating;
  }

  lemma BoundedStep(w: World, step: Step)
    requires Bounded(w)
    ensures Bounded(Apply(w, step))
  {
    hide Apply, Bounded;
    match step
    case Crash => CrashBounded(w);
    case RegisterJoin(t) => RegisterBounded(w, t);
    case ExitJoin(t) => ExitBounded(w, t);
    case EnterLeaveStep(t) => EnterLeaveBounded(w, t);
    case FinishLeave(t) => FinishLeaveBounded(w, t);
    case CommitJoinStep(t, hostname) => CommitJoinBounded(w, t, hostname);
    case CommitRestoreStep(t) => CommitRestoreBounded(w, t);
    case FinishDelete(t) => FinishDeleteBounded(w, t);
    case RestoreDrop(t) => DropBounded(w, t);
    case _ => QuietBounded(w, step);
  }

  lemma {:induction false} BoundedRun(w: World, steps: seq<Step>)
    requires Bounded(w)
    ensures Bounded(After(w, steps))
  {
    hide Apply, Bounded;
    if steps != [] {
      BoundedRun(w, steps[..|steps| - 1]);
      BoundedStep(After(w, steps[..|steps| - 1]), steps[|steps| - 1]);
    }
  }

  /** A commit that meets a mark meets it inside the window of a Leave, and once nothing is
      in flight both tables are empty. */
  lemma MarksOnlyInWindow(w: World, steps: seq<Step>)
    requires Bounded(w)
    ensures var v := After(w, steps);
      (forall ep | ep in v.tables.left :: LeaveInWindow(v, ep)) &&
      (v.roles == map[] ==> v.tables.left == {} && v.tables.cancels == map[])
  {
    hide Apply, After;
    BoundedRun(w, steps);
    var v := After(w, steps);
    if v.roles == map[] {
      assert forall ep :: !LeaveInWindow(v, ep);
    }
  }
}
