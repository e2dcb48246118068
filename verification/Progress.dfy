/** Every handler, background thread and Restore can always take another step until it ends,
    and ends after a bounded number of its own steps, whatever the other threads do. */
module Progress {
  import opened Types
  import opened TableOps
  import opened Protocol
  import opened Ownership

  // -------------------------------------------------------------------------
  // Bounded
  // -------------------------------------------------------------------------

  /** `t` runs throughout. */
  ghost predicate Alive(w: World, steps: seq<Step>, t: Tid) {
    forall i | 0 <= i <= |steps| :: t in After(w, steps[..i]).roles
  }

  /** The steps of `t` in a run that changed anything. */
  ghost function Taken(w: World, steps: seq<Step>, t: Tid): nat {
    if steps == [] then 0
    else
      var init, step := steps[..|steps| - 1], steps[|steps| - 1];
      Taken(w, init, t) + Bit(Threaded(step) && Actor(step) == t && After(w, steps) != After(w, init))
  }

  function LeftOf(w: World, t: Tid): nat
    requires t in w.roles
  {
    Left(w.roles[t], PhaseOf(w, t))
  }

  lemma OthersStay(w: World, step: Step, t: Tid)
    requires !step.Crash? && !(Threaded(step) && Actor(step) == t)
    requires t in w.roles && t in Apply(w, step).roles
    ensures LeftOf(Apply(w, step), t) == LeftOf(w, t)
  {
    hide Apply, Left;
    if Threaded(step) {
      OtherThread(w, step, t);
    } else {
      NoThread(w, step);
    }
  }

  lemma OtherThread(w: World, step: Step, t: Tid)
    requires Threaded(step) && Actor(step) != t
    ensures t in w.roles <==> t in Apply(w, step).roles
    ensures t in w.roles ==> Apply(w, step).roles[t] == w.roles[t]
    ensures t in w.holds <==> t in Apply(w, step).holds
    ensures t in w.holds ==> Apply(w, step).holds[t] == w.holds[t]
  {
    hide Apply, RoleFrom, Started, KeepsLooking, KeepsRestoring, KeepsMarked, KeepsCreating, WellHeld, Left;
    StepFrame(w, step);
    MoveFrame(w, step);
  }

  lemma NoThread(w: World, step: Step)
    requires !Threaded(step) && !step.Crash?
    ensures Apply(w, step).roles == w.roles && Apply(w, step).holds == w.holds && Apply(w, step).lives == w.lives
  {
    hide Only, RoleFrom, Started, KeepsLooking, KeepsRestoring, Moves, KeepsMarked, KeepsCreating;
  }

  lemma OwnStep(w: World, step: Step)
    requires Threaded(step) && Actor(step) in w.roles && Actor(step) in Apply(w, step).roles && Apply(w, step) != w
    ensures LeftOf(Apply(w, step), Actor(step)) < LeftOf(w, Actor(step))
  {
    hide Apply, KeepsRestoring, WellHeld, Left;
    MoveFrame(w, step);
  }

  /** In every run within one life of the process, a thread that goes on all along has taken at
      most as many steps as it had left at the start. */
  lemma {:induction false} StepsBounded(w: World, steps: seq<Step>, t: Tid)
    requires NoCrash(steps) && Alive(w, steps, t)
    ensures t in w.roles && t in After(w, steps).roles
    ensures Taken(w, steps, t) + LeftOf(After(w, steps), t) <= LeftOf(w, t)
  {
    hide Apply, LeftOf;
    if steps == [] {
      assert steps[..0] == [];
    } else {
      var n := |steps| - 1;
      var init, step := steps[..n], steps[n];
      assert forall i | 0 <= i <= n :: init[..i] == steps[..i];
      StepsBounded(w, init, t);
      var u := After(w, init);
      assert After(w, steps[..|steps|]) == Apply(u, step) by { assert steps[..|steps|] == steps; }
      if Threaded(step) && Actor(step) == t {
        if Apply(u, step) != u {
          OwnStep(u, step);
        }
      } else {
        OthersStay(u, step, t);
      }
    }
  }

  /** A handler has at most sixteen steps before it, a Restore forty-two per endpoint and one. */
  lemma FewSteps(r: Role, phase: Option<Phase>)
    ensures !r.Restoring? ==> Left(r, phase) <= 16
    ensures r.Restoring? ==> Left(r, phase) <= 42 * |r.todo| + 42
    ensures r.Restoring? && r.restore == Next ==> Left(r, phase) == 42 * |r.todo| + 1
  {
  }

  // -------------------------------------------------------------------------
  // Never stuck
  // -------------------------------------------------------------------------

  /** What a thread needs to go on: it holds what fits its point, and what it holds is known. */
  ghost predicate Ready(w: World) {
    Owned(w) && forall t :: WellHeld(w, t)
  }

  lemma ReadyStep(w: World, step: Step)
    requires Ready(w)
    ensures Ready(Apply(w, step))
  {
    hide Apply, Owned, Lost;
    if step.Crash? {
      CrashReady(w);
    } else {
      StepKeeps(w, step);
      forall t ensures WellHeld(Apply(w, step), t) {
        assert WellHeld(w, t);
        if Threaded(step) && Actor(step) == t {
          OwnHeld(w, step);
        } else if Threaded(step) {
          OtherThread(w, step, t);
        } else {
          NoThread(w, step);
        }
      }
    }
  }

  lemma OwnHeld(w: World, step: Step)
    requires Threaded(step) && WellHeld(w, Actor(step))
    ensures WellHeld(Apply(w, step), Actor(step))
  {
    hide Apply, KeepsRestoring, WellHeld, Left;
    MoveFrame(w, step);
  }

  lemma CrashReady(w: World)
    ensures Ready(Apply(w, Crash))
  {
    hide Only, RoleFrom, Started, KeepsLooking, KeepsRestoring, Moves, KeepsMarked, KeepsCreating;
    BootOwned(w.stateFile, w.netFile);
  }

  lemma {:induction false} ReadyRun(w: World, steps: seq<Step>)
    requires Ready(w)
    ensures Ready(After(w, steps))
  {
    hide Apply, Ready;
    if steps != [] {
      ReadyRun(w, steps[..|steps| - 1]);
      ReadyStep(After(w, steps[..|steps| - 1]), steps[|steps| - 1]);
    }
  }

  /** `step` is a step of `t` that changes its role or what it holds. */
  ghost predicate Goes(w: World, step: Step, t: Tid) {
    Threaded(step) && Actor(step) == t &&
    (t !in Apply(w, step).roles || PhaseOf(Apply(w, step), t) != PhaseOf(w, t) ||
     (t in w.roles && Apply(w, step).roles[t] != w.roles[t]))
  }

  lemma LookupGoes(w: World, t: Tid) returns (step: Step)
    requires t in w.roles && w.roles[t].Resolving? && WellHeld(w, t)
    ensures Goes(w, step, t)
  {
    hide Only, RoleFrom, Started, KeepsLooking, KeepsRestoring, Moves, KeepsMarked, KeepsCreating;
    var net := w.roles[t].req.net;
    match w.roles[t].at
    case AskCache => step := LookInCache(t);
    case AskDocker => step := LookInDocker(t, net, Undecodable);
    case AskRecords =>
      if id :| id in w.tables.records && w.tables.records[id].networkID == net {
        step := LookInRecords(t, id);
      } else {
        step := LookInRecords(t, "");
      }
  }

  lemma CreateGoes(w: World, t: Tid) returns (step: Step)
    requires t in w.roles && w.roles[t].Creating? && WellHeld(w, t)
    ensures Goes(w, step, t)
  {
    hide PutIndex, PutV4, PutV6;
    hide Only, RoleFrom, Started, KeepsLooking, KeepsRestoring, Moves, KeepsMarked, KeepsCreating;
    match w.roles[t].create
    case AddLink => step := LinkAdded(t);
    case WriteIndex => step := IndexRead(t, 1);
    case GetV4 => step := GotV4(t, "", "");
    case GetV6 => step := GotV6(t, "");
    case Undo => step := CreateUndone(t);
  }

  lemma JoinGoes(w: World, t: Tid) returns (step: Step)
    requires t in w.roles && (w.roles[t].Joining? || w.roles[t].Persisting?) && WellHeld(w, t)
    ensures Goes(w, step, t)
  {
    hide Only, RoleFrom, Started, KeepsLooking, KeepsRestoring, Moves, KeepsMarked, KeepsCreating;
    step := if w.roles[t].Joining? then TakeHint(t) else Persist(t);
  }

  /** A manager number that is not in use. */
  lemma {:induction false} FreshManager(lives: map<ManagerId, Life>) returns (m: ManagerId)
    ensures m !in lives && forall k | k in lives :: k < m
  {
    if lives == map[] {
      m := 0;
    } else {
      var k :| k in lives;
      var rest := lives - {k};
      assert forall j | j in lives && j != k :: j in rest;
      var above := FreshManager(rest);
      m := if k < above then above else k + 1;
    }
  }

  lemma StartGoes(w: World, t: Tid) returns (step: Step)
    requires t in w.roles && IsStarting(w, t) && HoldsOk(w) && PhaseOf(w, t) != Some(Running)
    ensures Goes(w, step, t)
  {
    hide StartFailed, StartingFor, Locatable;
    hide Only, RoleFrom, Started, KeepsLooking, KeepsRestoring, Moves, KeepsMarked, KeepsCreating;
    match PhaseOf(w, t)
    case None =>
      var m := FreshManager(w.lives);
      step := OpenNs(t, m, true);
    case Some(NsOpen) => step := OpenNl(t, true);
    case Some(BothOpen) => step := GoesFromBoth(w, t);
  }

  lemma GoesFromBoth(w: World, t: Tid) returns (step: Step)
    requires t in w.roles && IsStarting(w, t) && HoldsOk(w) && PhaseOf(w, t) == Some(BothOpen)
    ensures Goes(w, step, t)
  {
    hide StartingFor, Locatable;
    hide Only, RoleFrom, Started, KeepsLooking, KeepsRestoring, Moves, KeepsMarked, KeepsCreating;
    step := StartClients(t, false);
  }

  lemma BackHolds(w: World, t: Tid)
    requires t in w.roles && w.roles[t].Background? && WellHeld(w, t)
    ensures w.roles[t].back == BackPoint.Discarding ==> PhaseOf(w, t) == Some(Running)
    ensures w.roles[t].back != BackPoint.Discarding && w.roles[t].back != Starting ==> Free(w, t)
  {
  }

  lemma RegisterGoes(w: World, t: Tid)
    requires Free(w, t) && BackAt(w, t, Spawned)
    ensures Goes(w, RegisterJoin(t), t)
  {
    hide SetHostname, CommitJoin, CommitRestore, EnterLeave, RemoveRecord;
    hide Only, RoleFrom, Started, KeepsLooking, KeepsRestoring, Moves, KeepsMarked, KeepsCreating;
  }

  lemma CommitGoes(w: World, t: Tid)
    requires CanCommitJoin(w, t)
    ensures Goes(w, CommitJoinStep(t, ""), t)
  {
    hide SetHostname, CommitJoin, CommitRestore, EnterLeave, RemoveRecord;
    hide Only, RoleFrom, Started, KeepsLooking, KeepsRestoring, Moves, KeepsMarked, KeepsCreating;
  }

  lemma NameGoes(w: World, t: Tid)
    requires Free(w, t) && w.roles[t].Background? && w.roles[t].back.Naming?
    ensures Goes(w, NameEntry(t), t)
  {
    hide SetHostname, CommitJoin, CommitRestore, EnterLeave, RemoveRecord;
    hide Only, RoleFrom, Started, KeepsLooking, KeepsRestoring, Moves, KeepsMarked, KeepsCreating;
  }

  lemma ExitGoes(w: World, t: Tid)
    requires Free(w, t) && BackAt(w, t, Exiting)
    ensures Goes(w, ExitJoin(t), t)
  {
    hide SetHostname, CommitJoin, CommitRestore, EnterLeave, RemoveRecord;
    hide Only, RoleFrom, Started, KeepsLooking, KeepsRestoring, Moves, KeepsMarked, KeepsCreating;
  }

  lemma BackGoes(w: World, t: Tid) returns (step: Step)
    requires t in w.roles && w.roles[t].Background? && WellHeld(w, t) && HoldsOk(w)
    ensures Goes(w, step, t)
  {
    hide Apply, Goes, WellHeld;
    BackHolds(w, t);
    match w.roles[t].back
    case Spawned =>
      step := RegisterJoin(t);
      RegisterGoes(w, t);
    case Starting =>
      if PhaseOf(w, t) == Some(Running) {
        step := CommitJoinStep(t, "");
        CommitGoes(w, t);
      } else {
        step := StartGoes(w, t);
      }
    case Discarding => step := StopGoes(w, t);
    case Naming(_) =>
      step := NameEntry(t);
      NameGoes(w, t);
    case Exiting =>
      step := ExitJoin(t);
      ExitGoes(w, t);
  }

  lemma StopGoes(w: World, t: Tid) returns (step: Step)
    requires t in w.roles && PhaseOf(w, t) == Some(Running) && HoldsOk(w) && CanStop(w, t)
    ensures Goes(w, step, t)
  {
    hide AfterStop, CanStop;
    hide Only, RoleFrom, Started, KeepsLooking, KeepsRestoring, Moves, KeepsMarked, KeepsCreating;
    step := StopHeld(t);
  }

  lemma EnterGoes(w: World, t: Tid)
    requires CanEnterLeave(w, t)
    ensures Goes(w, EnterLeaveStep(t), t)
  {
    hide SetHostname, CommitJoin, CommitRestore, EnterLeave, RemoveRecord;
    hide Only, RoleFrom, Started, KeepsLooking, KeepsRestoring, Moves, KeepsMarked, KeepsCreating;
  }

  lemma FinishGoes(w: World, t: Tid)
    requires CanFinishLeave(w, t)
    ensures Goes(w, FinishLeave(t), t)
  {
    hide SetHostname, CommitJoin, CommitRestore, EnterLeave, RemoveRecord;
    hide Only, RoleFrom, Started, KeepsLooking, KeepsRestoring, Moves, KeepsMarked, KeepsCreating;
  }

  lemma DeleteGoes(w: World, t: Tid)
    requires CanFinishDelete(w, t)
    ensures Goes(w, FinishDelete(t), t)
  {
    hide SetHostname, CommitJoin, CommitRestore, EnterLeave, RemoveRecord;
    hide Only, RoleFrom, Started, KeepsLooking, KeepsRestoring, Moves, KeepsMarked, KeepsCreating;
  }

  lemma LeaveGoes(w: World, t: Tid) returns (step: Step)
    requires t in w.roles && (w.roles[t].Leaving? || w.roles[t].Deleting?) && WellHeld(w, t) && HoldsOk(w)
    ensures Goes(w, step, t)
  {
    hide Apply, Goes;
    if w.roles[t].Deleting? {
      step := FinishDelete(t);
      DeleteGoes(w, t);
    } else {
      match w.roles[t].leave
      case Entering =>
        step := EnterLeaveStep(t);
        EnterGoes(w, t);
      case Stopping => step := StopGoes(w, t);
      case _ =>
        step := FinishLeave(t);
        FinishGoes(w, t);
    }
  }

  lemma NextGoes(w: World, t: Tid)
    requires Free(w, t) && w.roles[t].Restoring? && w.roles[t].restore == Next
    ensures Goes(w, RestoreNext(t), t)
  {
    hide SetHostname, CommitJoin, CommitRestore, EnterLeave, RemoveRecord;
    hide Only, RoleFrom, Started, KeepsLooking, KeepsRestoring, Moves, KeepsMarked, KeepsCreating;
  }

  lemma CheckGoes(w: World, t: Tid)
    requires Free(w, t) && RestoringAt(w, t) && w.roles[t].restore.Checking?
    ensures Goes(w, RestoreCheck(t), t)
  {
    hide SetHostname, CommitJoin, CommitRestore, EnterLeave, RemoveRecord;
    hide Only, RoleFrom, Started, KeepsLooking, KeepsRestoring, Moves, KeepsMarked, KeepsCreating;
  }

  lemma RecommitGoes(w: World, t: Tid)
    requires CanCommitRestore(w, t)
    ensures Goes(w, CommitRestoreStep(t), t)
  {
    hide SetHostname, CommitJoin, CommitRestore, EnterLeave, RemoveRecord;
    hide Only, RoleFrom, Started, KeepsLooking, KeepsRestoring, Moves, KeepsMarked, KeepsCreating;
  }

  lemma RetryGoes(w: World, t: Tid)
    requires RestoreFailedAt(w, t) && w.roles[t].restore.attempt < RETRIES
    ensures Goes(w, RestoreRetry(t), t)
  {
    hide SetHostname, CommitJoin, CommitRestore, EnterLeave, RemoveRecord;
    hide Only, RoleFrom, Started, KeepsLooking, KeepsRestoring, Moves, KeepsMarked, KeepsCreating;
  }

  lemma DropGoes(w: World, t: Tid)
    requires CanDrop(w, t)
    ensures Goes(w, RestoreDrop(t), t)
  {
    hide SetHostname, CommitJoin, CommitRestore, EnterLeave, RemoveRecord;
    hide Only, RoleFrom, Started, KeepsLooking, KeepsRestoring, Moves, KeepsMarked, KeepsCreating;
  }

  lemma RestoreGoes(w: World, t: Tid) returns (step: Step)
    requires t in w.roles && w.roles[t].Restoring? && WellHeld(w, t) && HoldsOk(w)
    ensures Goes(w, step, t)
  {
    hide Apply, Goes;
    match w.roles[t].restore
    case Next =>
      step := RestoreNext(t);
      NextGoes(w, t);
    case Checking(_) =>
      step := RestoreCheck(t);
      CheckGoes(w, t);
    case Opening(_) =>
      if PhaseOf(w, t) == Some(Running) {
        step := CommitRestoreStep(t);
        RecommitGoes(w, t);
      } else {
        step := StartGoes(w, t);
      }
    case Discarding(_, _) => step := StopGoes(w, t);
    case Failed(a) =>
      if a < RETRIES {
        step := RestoreRetry(t);
        RetryGoes(w, t);
      } else {
        step := RestoreDrop(t);
        DropGoes(w, t);
      }
  }

  lemma GoesOn(w: World, t: Tid) returns (step: Step)
    requires t in w.roles && WellHeld(w, t) && HoldsOk(w)
    ensures Goes(w, step, t)
  {
    hide Apply, Goes, HoldsOk, WellHeld;
    match w.roles[t]
    case Resolving(_, _) => step := LookupGoes(w, t);
    case Creating(_, _, _, _) => step := CreateGoes(w, t);
    case Joining(_, _) => step := JoinGoes(w, t);
    case Persisting(_, _, _) => step := JoinGoes(w, t);
    case Background(_, _, _, _) => step := BackGoes(w, t);
    case Leaving(_, _) => step := LeaveGoes(w, t);
    case Deleting(_) => step := LeaveGoes(w, t);
    case Restoring(_, _) => step := RestoreGoes(w, t);
  }

  /** In every state of every run, crashes included, every thread has a step to take: no handler
      waits for another, and with the bound above each ends if it is scheduled. */
  lemma NeverStuck(w: World, steps: seq<Step>, t: Tid)
    requires Ready(w) && t in After(w, steps).roles
    ensures exists step :: Goes(After(w, steps), step, t)
  {
    hide After, Goes;
    ReadyRun(w, steps);
    var step := GoesOn(After(w, steps), t);
  }

  /** In every state of every run, a thread that holds a manager is a Join's background thread, a
      Leave or a Restore at work on the endpoint of that manager. */
  lemma HoldsItsOwn(w: World, steps: seq<Step>, t: Tid)
    requires Ready(w) && t in After(w, steps).holds
    ensures var v := After(w, steps);
      t in v.roles && v.holds[t].m in v.lives && v.lives[v.holds[t].m].ep == v.holds[t].ep &&
      match v.roles[t]
      case Background(req, _, _, back) => v.holds[t].ep == req.ep && (back == Starting || back == BackPoint.Discarding)
      case Leaving(ep, leave) => v.holds[t].ep == ep && leave == Stopping
      case Restoring(todo, p) => todo != [] && v.holds[t].ep == todo[0].endpointID && (p.Opening? || p.Discarding?)
      case _ => false
  {
    hide After;
    ReadyRun(w, steps);
    assert WellHeld(After(w, steps), t);
  }

  /** A Join whose routes cannot be had may end after its hint is gone and before its record is
      there, and a Restore may be cancelled between endpoints and while it waits to retry; both
      leave everything else as it is. */
  lemma MayEndEarly(w: World, t: Tid)
    requires Free(w, t)
    ensures w.roles[t].Persisting? ==> Apply(w, RoutesFail(t)) == w.(roles := w.roles - {t})
    ensures w.roles[t].Restoring? && (w.roles[t].restore == Next || w.roles[t].restore.Failed?) ==>
      Apply(w, RestoreCancelled(t)) == w.(roles := w.roles - {t})
  {
    hide Only, RoleFrom, Started, KeepsLooking, KeepsRestoring, Moves, KeepsMarked, KeepsCreating;
  }

  lemma BootReady(stateFile: seq<EndpointRecord>, netFile: seq<NetworkRecord>)
    ensures Ready(Boot(stateFile, netFile))
  {
    BootOwned(stateFile, netFile);
  }
}
