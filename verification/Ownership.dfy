/** Who owns each running manager, and what has become of its handles, in every state of
    every run within one life of the plugin process. */
module Ownership {
  import opened Types
  import opened TableOps
  import opened Protocol

  function RunningLife(ep: EndpointId): Life {
    Life(ep, 0, 1, 0, true, 0)
  }

  /** The account of a manager that a thread holds. */
  function HeldLife(h: Hold): Life {
    match h.phase
    case NsOpen => Life(h.ep, 0, 0, 0, false, 0)
    case BothOpen => Life(h.ep, 0, 1, 0, false, 0)
    case Running => RunningLife(h.ep)
  }

  /** Everything opened was closed once; a manager that ran was stopped once. */
  predicate Ended(l: Life) {
    l.nsClosed == 1 && l.nlOpened == l.nlClosed <= 1 && (l.started ==> l.nlOpened == 1 && l.stops == 1) &&
    (!l.started ==> l.stops == 0)
  }

  ghost predicate Held(w: World, m: ManagerId) {
    exists t :: t in w.holds && w.holds[t].m == m
  }

  /** In the manager table, under its own endpoint. */
  predicate Registered(w: World, m: ManagerId) {
    m in w.lives && w.lives[m].ep in w.tables.managers && w.tables.managers[w.lives[m].ep] == m
  }

  predicate Runs(w: World, m: ManagerId) {
    m in w.lives && w.lives[m] == RunningLife(w.lives[m].ep)
  }

  /** A running manager that no thread and no table entry refers to any more. */
  ghost predicate Lost(w: World, m: ManagerId) {
    Runs(w, m) && !Held(w, m) && !Registered(w, m)
  }

  ghost predicate HoldsOk(w: World) {
    (forall t | t in w.holds :: t in w.roles) &&
    (forall t | t in w.holds :: w.holds[t].m in w.lives && w.lives[w.holds[t].m] == HeldLife(w.holds[t])) &&
    (forall t, u | t in w.holds && u in w.holds && t != u :: w.holds[t].m != w.holds[u].m)
  }

  ghost predicate TableOk(w: World) {
    (forall ep | ep in w.tables.managers ::
      w.tables.managers[ep] in w.lives && w.lives[w.tables.managers[ep]] == RunningLife(ep)) &&
    (forall t, ep | t in w.holds && ep in w.tables.managers :: w.holds[t].m != w.tables.managers[ep])
  }

  ghost predicate LivesOk(w: World) {
    forall m | m in w.lives :: Held(w, m) || Runs(w, m) || Ended(w.lives[m])
  }

  ghost predicate Owned(w: World) {
    HoldsOk(w) && TableOk(w) && LivesOk(w)
  }

  /** The one step that loses a manager: a Join commit onto an occupied slot. */
  predicate Displaces(w: World, step: Step) {
    step.CommitJoinStep? && CanCommitJoin(w, step.t) &&
    w.holds[step.t].ep !in w.tables.left && w.holds[step.t].ep in w.tables.managers
  }

  predicate DisplacesManager(w: World, step: Step, m: ManagerId) {
    Displaces(w, step) && w.tables.managers[w.holds[step.t].ep] == m
  }

  lemma SameOwnersKeep(w: World, w': World)
    requires Owned(w) && SameOwners(w, w')
    requires forall t | t in w.holds :: t in w'.roles
    ensures Owned(w')
    ensures forall m :: Lost(w', m) <==> Lost(w, m)
  {
    assert forall m :: Held(w, m) <==> Held(w', m);
  }

  /** A step by a thread that holds something and ends by closing it or passing it on. */
  ghost predicate OnlyThread(w: World, w': World, t: Tid, m: ManagerId) {
    (forall u | u != t :: u in w.holds <==> u in w'.holds) &&
    (forall u | u != t && u in w.holds :: w'.holds[u] == w.holds[u]) &&
    (forall u | u in w.holds && u != t :: u in w'.roles) &&
    (forall n | n != m :: n in w.lives <==> n in w'.lives) &&
    (forall n | n != m && n in w.lives :: w'.lives[n] == w.lives[n])
  }

  lemma OthersHeld(w: World, w': World, t: Tid, m: ManagerId)
    requires OnlyThread(w, w', t, m)
    requires t in w.holds ==> w.holds[t].m == m
    requires t in w'.holds ==> w'.holds[t].m == m
    ensures forall n | n != m :: Held(w, n) <==> Held(w', n)
  {
    forall n | n != m ensures Held(w, n) <==> Held(w', n) {
      if Held(w, n) {
        var u :| u in w.holds && w.holds[u].m == n;
        assert u in w'.holds && w'.holds[u].m == n;
      }
      if Held(w', n) {
        var u :| u in w'.holds && w'.holds[u].m == n;
        assert u in w.holds && w.holds[u].m == n;
      }
    }
  }

  lemma OpenNsKeeps(w: World, t: Tid, m: ManagerId, ok: bool)
    requires Owned(w)
    ensures Owned(DoOpenNs(w, t, m, ok))
    ensures forall n :: Lost(DoOpenNs(w, t, m, ok), n) <==> Lost(w, n)
  {
    var w' := DoOpenNs(w, t, m, ok);
    if Free(w, t) && IsStarting(w, t) && m !in w.lives && ok {
      FreshStep(w, w', t, m, StartingFor(w.roles[t]));
    } else {
      SameOwnersKeep(w, w');
    }
  }

  ghost predicate Fresh(w: World, w': World, t: Tid, m: ManagerId, ep: EndpointId) {
    t !in w.holds && m !in w.lives &&
    w'.holds == w.holds[t := Hold(m, ep, NsOpen)] &&
    w'.lives == w.lives[m := Life(ep, 0, 0, 0, false, 0)] &&
    w'.tables.managers == w.tables.managers &&
    forall u | u in w'.holds :: u in w'.roles
  }

  lemma FreshHolds(w: World, w': World, t: Tid, m: ManagerId, ep: EndpointId)
    requires HoldsOk(w) && Fresh(w, w', t, m, ep)
    ensures HoldsOk(w')
  {
  }

  lemma FreshTable(w: World, w': World, t: Tid, m: ManagerId, ep: EndpointId)
    requires TableOk(w) && Fresh(w, w', t, m, ep)
    ensures TableOk(w')
  {
  }

  /** A thread opens the namespace of a new manager. */
  lemma FreshStep(w: World, w': World, t: Tid, m: ManagerId, ep: EndpointId)
    requires Owned(w) && Fresh(w, w', t, m, ep)
    ensures Owned(w')
    ensures forall n :: Lost(w', n) <==> Lost(w, n)
  {
    FreshHolds(w, w', t, m, ep);
    FreshTable(w, w', t, m, ep);
    OthersHeld(w, w', t, m);
    assert w'.holds[t].m == m;
    assert Held(w', m);
    hide HoldsOk, TableOk, Held;
    assert forall n | n in w'.lives && n != m :: n in w.lives && w'.lives[n] == w.lives[n];
  }

  lemma OpenNlKeeps(w: World, t: Tid, ok: bool)
    requires Owned(w)
    ensures Owned(DoOpenNl(w, t, ok))
    ensures forall n :: Lost(DoOpenNl(w, t, ok), n) <==> Lost(w, n)
  {
    hide Owned, Lost, Only, RoleFrom, Started, KeepsLooking, KeepsRestoring, Moves, KeepsMarked, KeepsCreating;
    var w' := DoOpenNl(w, t, ok);
    HoldersRun(w);
    if SameOwners(w, w') {
      SameOwnersKeep(w, w');
    } else {
      HolderStep(w, w', t);
    }
  }

  lemma StartClientsKeeps(w: World, t: Tid, ok: bool)
    requires Owned(w)
    ensures Owned(DoStartClients(w, t, ok))
    ensures forall n :: Lost(DoStartClients(w, t, ok), n) <==> Lost(w, n)
  {
    hide Owned, Lost, Locatable, StartFailed, Only, RoleFrom, Started, KeepsLooking, KeepsRestoring, Moves,
      KeepsMarked, KeepsCreating;
    var w' := DoStartClients(w, t, ok);
    HoldersRun(w);
    if SameOwners(w, w') {
      SameOwnersKeep(w, w');
    } else {
      HolderStep(w, w', t);
    }
  }

  lemma StopHeldKeeps(w: World, t: Tid)
    requires Owned(w)
    ensures Owned(DoStopHeld(w, t))
    ensures forall n :: Lost(DoStopHeld(w, t), n) <==> Lost(w, n)
  {
    hide Owned, Lost, Only, RoleFrom, Started, KeepsLooking, KeepsRestoring, Moves, KeepsMarked, KeepsCreating;
    var w' := DoStopHeld(w, t);
    HoldersRun(w);
    if SameOwners(w, w') {
      SameOwnersKeep(w, w');
    } else {
      HolderStep(w, w', t);
    }
  }

  /** The holder of a manager has moved it to the next phase, or ended it and let go. */
  ghost predicate HolderMoved(w: World, w': World, t: Tid) {
    t in w.holds && t in w'.roles && OnlyThread(w, w', t, w.holds[t].m) &&
    w'.tables.managers == w.tables.managers && w.holds[t].m in w'.lives &&
    (t in w'.holds ==> w'.holds[t].m == w.holds[t].m && w'.lives[w.holds[t].m] == HeldLife(w'.holds[t])) &&
    (t !in w'.holds ==> Ended(w'.lives[w.holds[t].m]))
  }

  lemma HolderHolds(w: World, w': World, t: Tid)
    requires HoldsOk(w) && HolderMoved(w, w', t)
    ensures HoldsOk(w')
  {
    hide HeldLife, Ended;
  }

  lemma HolderTable(w: World, w': World, t: Tid)
    requires HoldsOk(w) && TableOk(w) && HolderMoved(w, w', t)
    ensures TableOk(w')
  {
    hide HeldLife, Ended, RunningLife;
  }

  lemma HolderLives(w: World, w': World, t: Tid)
    requires HoldsOk(w) && LivesOk(w) && HolderMoved(w, w', t)
    ensures LivesOk(w')
    ensures forall n :: Lost(w', n) <==> Lost(w, n)
  {
    var m := w.holds[t].m;
    OthersHeld(w, w', t, m);
    assert Held(w, m);
    if t in w'.holds {
      assert Held(w', m);
    } else {
      assert !Runs(w', m);
    }
    hide HoldsOk, Held;
    assert forall n | n in w'.lives && n != m :: n in w.lives && w'.lives[n] == w.lives[n];
  }

  lemma HolderStep(w: World, w': World, t: Tid)
    requires Owned(w) && HolderMoved(w, w', t)
    ensures Owned(w')
    ensures forall n :: Lost(w', n) <==> Lost(w, n)
  {
    HolderHolds(w, w', t);
    HolderTable(w, w', t);
    HolderLives(w, w', t);
    hide HoldsOk, TableOk, LivesOk, Lost, HolderMoved;
  }

  /** A thread has put the manager it held into the table and let go of it. */
  ghost predicate PutIn(w: World, w': World, t: Tid) {
    t in w.holds && w.holds[t].phase == Running &&
    w'.holds == w.holds - {t} && w'.lives == w.lives &&
    w'.tables.managers == w.tables.managers[w.holds[t].ep := w.holds[t].m]
  }

  lemma PutInInvariant(w: World, w': World, t: Tid)
    requires HoldsOk(w) && TableOk(w) && PutIn(w, w', t) && forall u | u in w'.holds :: u in w'.roles
    ensures HoldsOk(w') && TableOk(w')
  {
  }

  lemma PutInLives(w: World, w': World, t: Tid)
    requires HoldsOk(w) && TableOk(w) && LivesOk(w) && PutIn(w, w', t)
    ensures LivesOk(w')
    ensures forall n :: Lost(w', n) <==>
      Lost(w, n) || (w.holds[t].ep in w.tables.managers && n == w.tables.managers[w.holds[t].ep])
  {
    var m, ep := w.holds[t].m, w.holds[t].ep;
    assert forall u | u in w.holds && u != t :: u in w'.holds && w'.holds[u] == w.holds[u];
    assert !Held(w', m) && Runs(w', m);
    forall n | n != m ensures Held(w, n) <==> Held(w', n) {
      if Held(w, n) {
        var u :| u in w.holds && w.holds[u].m == n;
        assert u in w'.holds && w'.holds[u].m == n;
      }
    }
    assert Held(w, m) && Registered(w', m);
    forall n ensures Lost(w', n) <==> Lost(w, n) || (ep in w.tables.managers && n == w.tables.managers[ep]) {
      if n in w.lives && w.lives[n].ep == ep {
        assert Registered(w', n) <==> n == m;
        assert Registered(w, n) <==> ep in w.tables.managers && n == w.tables.managers[ep];
      } else {
        assert Registered(w, n) <==> Registered(w', n);
      }
    }
  }

  lemma RegisterStep(w: World, w': World, t: Tid)
    requires Owned(w) && PutIn(w, w', t) && forall u | u in w'.holds :: u in w'.roles
    ensures Owned(w')
    ensures forall n :: Lost(w', n) <==>
      Lost(w, n) || (w.holds[t].ep in w.tables.managers && n == w.tables.managers[w.holds[t].ep])
  {
    hide HoldsOk, TableOk, LivesOk, Lost;
    PutInInvariant(w, w', t);
    PutInLives(w, w', t);
  }

  /** A Leave has taken a manager out of the table and holds it. */
  ghost predicate HandedOver(w: World, w': World, t: Tid, ep: EndpointId) {
    t !in w.holds && ep in w.tables.managers &&
    w'.holds == w.holds[t := Hold(w.tables.managers[ep], ep, Running)] && w'.lives == w.lives &&
    w'.tables.managers == w.tables.managers - {ep}
  }

  lemma UnregisteredInvariant(w: World, w': World, t: Tid, ep: EndpointId)
    requires HoldsOk(w) && TableOk(w) && HandedOver(w, w', t, ep) && forall u | u in w'.holds :: u in w'.roles
    ensures HoldsOk(w') && TableOk(w')
  {
  }

  lemma UnregisteredLives(w: World, w': World, t: Tid, ep: EndpointId)
    requires TableOk(w) && LivesOk(w) && HandedOver(w, w', t, ep)
    ensures LivesOk(w')
    ensures forall n :: Lost(w', n) <==> Lost(w, n)
  {
    var m := w.tables.managers[ep];
    forall n | n != m ensures Held(w, n) <==> Held(w', n) {
      if Held(w, n) {
        var u :| u in w.holds && w.holds[u].m == n;
        assert u in w'.holds && w'.holds[u].m == n;
      }
    }
    assert w'.holds[t].m == m;
    assert Held(w', m) && Registered(w, m);
    hide Held;
    assert forall n | n != m :: Registered(w, n) <==> Registered(w', n);
  }

  lemma UnregisterStep(w: World, w': World, t: Tid, ep: EndpointId)
    requires Owned(w) && HandedOver(w, w', t, ep) && forall u | u in w'.holds :: u in w'.roles
    ensures Owned(w')
    ensures forall n :: Lost(w', n) <==> Lost(w, n)
  {
    hide HoldsOk, TableOk, LivesOk, Lost, HandedOver;
    UnregisteredInvariant(w, w', t, ep);
    UnregisteredLives(w, w', t, ep);
  }

  lemma CommitRestoreKeeps(w: World, t: Tid)
    requires Owned(w)
    ensures Owned(DoCommitRestore(w, t))
    ensures forall n :: Lost(DoCommitRestore(w, t), n) <==> Lost(w, n)
  {
    hide Owned, Lost, Only, RoleFrom, Started, KeepsLooking, KeepsRestoring, Moves, KeepsMarked, KeepsCreating;
    HoldersRun(w);
    var w' := DoCommitRestore(w, t);
    if CanCommitRestore(w, t) && RestoreVerdict(w.tables, w.holds[t].ep) == RestoreCommit.Registered {
      RegisterStep(w, w', t);
    } else {
      SameOwnersKeep(w, w');
    }
  }

  lemma CommitJoinKeeps(w: World, t: Tid, hostname: string)
    requires Owned(w)
    ensures var w' := DoCommitJoin(w, t, hostname);
      Owned(w') &&
      forall n :: Lost(w', n) <==>
        Lost(w, n) || DisplacesManager(w, CommitJoinStep(t, hostname), n)
  {
    hide Owned, Lost, Only, RoleFrom, Started, KeepsLooking, KeepsRestoring, Moves, KeepsMarked, KeepsCreating;
    HoldersRun(w);
    var w' := DoCommitJoin(w, t, hostname);
    if CanCommitJoin(w, t) && w.holds[t].ep !in w.tables.left {
      RegisterStep(w, w', t);
    } else {
      SameOwnersKeep(w, w');
    }
  }

  /** Leave's first section hands the registered manager, if there is one, to the leaving
      thread, and touches no manager otherwise. */
  lemma EnterLeaveKeeps(w: World, t: Tid)
    requires Owned(w)
    ensures var w' := DoEnterLeave(w, t);
      Owned(w') &&
      (forall n :: Lost(w', n) <==> Lost(w, n)) &&
      if CanEnterLeave(w, t) && w.roles[t].ep in w.tables.managers then HandedOver(w, w', t, w.roles[t].ep)
      else SameOwners(w, w')
  {
    hide EnterLeave, Owned, Lost, Only, RoleFrom, Started, KeepsLooking, KeepsRestoring, Moves, KeepsMarked,
      KeepsCreating;
    var w' := DoEnterLeave(w, t);
    HoldersRun(w);
    if CanEnterLeave(w, t) {
      EnterManagers(w.tables, w.roles[t].ep);
    }
    if CanEnterLeave(w, t) && w.roles[t].ep in w.tables.managers {
      UnregisterStep(w, w', t, w.roles[t].ep);
    } else {
      SameOwnersKeep(w, w');
    }
  }

  lemma EnterManagers(t: Tables, ep: EndpointId)
    ensures EnterLeave(t, ep).managers == t.managers - {ep}
  {
  }

  /** Holders run, and the account of what they hold is the one of its phase. */
  lemma HoldersRun(w: World)
    requires Owned(w)
    ensures forall t | t in w.holds :: t in w.roles
    ensures forall t | t in w.holds :: w.holds[t].m in w.lives && w.lives[w.holds[t].m] == HeldLife(w.holds[t])
  {
  }

  /** Every step keeps the ownership invariant, and exactly the displacing step loses a manager. */
  lemma StepKeeps(w: World, step: Step)
    requires Owned(w) && !step.Crash?
    ensures Owned(Apply(w, step))
    ensures forall n :: Lost(Apply(w, step), n) <==>
      Lost(w, n) || DisplacesManager(w, step, n)
  {
    hide Apply, Owned, Lost;
    if Owners in Touched(step) {
      OwningStepKeeps(w, step);
    } else {
      QuietStepKeeps(w, step);
    }
  }

  lemma QuietStepKeeps(w: World, step: Step)
    requires Owned(w) && !step.Crash? && Owners !in Touched(step)
    ensures Owned(Apply(w, step)) && !Displaces(w, step)
    ensures forall n :: Lost(Apply(w, step), n) <==> Lost(w, n)
  {
    hide Apply, Lost, TableOk, LivesOk, RoleFrom, KeepsLooking, KeepsRestoring, Moves, KeepsMarked, KeepsCreating;
    StepFrame(w, step);
    SameOwnersKeep(w, Apply(w, step));
  }

  lemma OwningStepKeeps(w: World, step: Step)
    requires Owned(w) && !step.Crash? && Owners in Touched(step)
    ensures Owned(Apply(w, step))
    ensures forall n :: Lost(Apply(w, step), n) <==>
      Lost(w, n) || DisplacesManager(w, step, n)
  {
    hide DoOpenNs, DoOpenNl, DoStartClients, DoStopHeld, DoCommitJoin, DoCommitRestore, DoEnterLeave, Owned, Lost;
    match step
    case OpenNs(t, m, ok) => OpenNsKeeps(w, t, m, ok);
    case OpenNl(t, ok) => OpenNlKeeps(w, t, ok);
    case StartClients(t, ok) => StartClientsKeeps(w, t, ok);
    case StopHeld(t) => StopHeldKeeps(w, t);
    case CommitJoinStep(t, hostname) => CommitJoinKeeps(w, t, hostname);
    case CommitRestoreStep(t) => CommitRestoreKeeps(w, t);
    case EnterLeaveStep(t) => EnterLeaveKeeps(w, t);
  }

  lemma {:induction false} RunKeeps(w: World, steps: seq<Step>)
    requires Owned(w) && NoCrash(steps)
    ensures Owned(After(w, steps))
  {
    if steps != [] {
      RunKeeps(w, steps[..|steps| - 1]);
      StepKeeps(After(w, steps[..|steps| - 1]), steps[|steps| - 1]);
    }
  }

  // -------------------------------------------------------------------------
  // What the invariant says of a run
  // -------------------------------------------------------------------------

  /** In every state of every run, a manager is in exactly one of four conditions: held by
      exactly one thread, registered under its own endpoint, lost, or ended with everything
      it opened closed exactly once and, if it ever ran, stopped exactly once. */
  lemma OneFate(w: World, steps: seq<Step>, m: ManagerId)
    requires Owned(w) && NoCrash(steps) && m in After(w, steps).lives
    ensures var v := After(w, steps);
      Bit(Held(v, m)) + Bit(Registered(v, m)) + Bit(Lost(v, m)) + Bit(Ended(v.lives[m])) == 1 &&
      (Held(v, m) ==>
        exists t :: t in v.holds && v.holds[t].m == m && forall u | u in v.holds && v.holds[u].m == m :: u == t) &&
      (forall ep | ep in v.tables.managers && v.tables.managers[ep] == m :: ep == v.lives[m].ep) &&
      v.lives[m].stops <= 1 && v.lives[m].nsClosed <= 1 && v.lives[m].nlClosed <= v.lives[m].nlOpened <= 1
  {
    hide Apply, After;
    RunKeeps(w, steps);
    var v := After(w, steps);
    if Held(v, m) {
      var t :| t in v.holds && v.holds[t].m == m;
      assert v.lives[m] == HeldLife(v.holds[t]);
    }
  }

  /** Step `i` of the run displaces `m` from the table. */
  ghost predicate DisplacedAt(w: World, steps: seq<Step>, i: nat, m: ManagerId)
    requires i < |steps|
  {
    DisplacesManager(After(w, steps[..i]), steps[i], m)
  }

  /** A manager is lost in a run exactly when some Join commit of the run displaced it. */
  lemma {:induction false} LostIffDisplaced(w: World, steps: seq<Step>, m: ManagerId)
    requires Owned(w) && NoCrash(steps) && !Lost(w, m)
    ensures Lost(After(w, steps), m) <==> exists i | 0 <= i < |steps| :: DisplacedAt(w, steps, i, m)
  {
    hide Apply, Lost, DisplacesManager;
    if steps != [] {
      var n := |steps| - 1;
      var init := steps[..n];
      LostIffDisplaced(w, init, m);
      RunKeeps(w, init);
      StepKeeps(After(w, init), steps[n]);
      assert DisplacedAt(w, steps, n, m) <==> DisplacesManager(After(w, init), steps[n], m);
      forall i | 0 <= i < n ensures DisplacedAt(w, init, i, m) <==> DisplacedAt(w, steps, i, m) {
        assert init[..i] == steps[..i];
      }
      hide After, DisplacedAt;
    }
  }

  /** A map without repeated values has as many values as keys. */
  lemma {:induction false} InjectiveSize<K, V>(m: map<K, V>)
    requires forall a, b | a in m && b in m && m[a] == m[b] :: a == b
    ensures |m.Values| == |m|
  {
    if m.Keys == {} {
      assert m.Values == {};
    } else {
      var k :| k in m;
      var rest := m - {k};
      InjectiveSize(rest);
      assert m.Values == rest.Values + {m[k]};
      assert |m.Keys| == |rest.Keys| + 1 by {
        assert rest.Keys == m.Keys - {k};
      }
    }
  }

  ghost function LostSet(w: World): set<ManagerId> {
    set m | m in w.lives && Lost(w, m)
  }

  /** Managers whose namespace handle is open. */
  function OpenNsSet(w: World): set<ManagerId> {
    set m | m in w.lives && w.lives[m].nsClosed == 0
  }

  function OpenNlSet(w: World): set<ManagerId> {
    set m | m in w.lives && w.lives[m].nlClosed < w.lives[m].nlOpened
  }

  function HoldersWithNl(w: World): map<Tid, ManagerId> {
    map t | t in w.holds && w.holds[t].phase != NsOpen :: w.holds[t].m
  }

  /** Handles opened and not yet closed are those of in-flight starts and stops, of the
      registered managers and of the lost ones: nothing else leaks. */
  lemma HandleBalance(w: World)
    requires Owned(w)
    ensures |OpenNsSet(w)| == |w.holds| + |w.tables.managers| + |LostSet(w)|
    ensures |OpenNlSet(w)| == |HoldersWithNl(w)| + |w.tables.managers| + |LostSet(w)|
  {
    hide Owned, Held, LostSet, OpenNsSet, OpenNlSet;
    var held := map t | t in w.holds :: w.holds[t].m;
    AllInjective(w);
    InjectiveSize(held);
    assert held.Keys == w.holds.Keys;
    InjectiveSize(HoldersWithNl(w));
    InjectiveSize(w.tables.managers);
    Partition(w);
    DisjointParts(w, held.Values);
    DisjointParts(w, HoldersWithNl(w).Values);
    var rest := w.tables.managers.Values + LostSet(w);
    assert |rest| == |w.tables.managers.Values| + |LostSet(w)|;
    assert |held.Values + rest| == |held.Values| + |rest|;
    assert |HoldersWithNl(w).Values + rest| == |HoldersWithNl(w).Values| + |rest|;
  }

  /** No two threads hold one manager, and no two endpoints have one. */
  lemma AllInjective(w: World)
    requires Owned(w)
    ensures forall t, u | t in w.holds && u in w.holds && w.holds[t].m == w.holds[u].m :: t == u
    ensures forall a, b | a in w.tables.managers && b in w.tables.managers &&
      w.tables.managers[a] == w.tables.managers[b] :: a == b
    ensures forall t | t in w.holds :: Held(w, w.holds[t].m)
  {
  }

  lemma DisjointParts(w: World, held: set<ManagerId>)
    requires Owned(w) && forall m | m in held :: Held(w, m)
    ensures held !! w.tables.managers.Values
    ensures held !! LostSet(w)
    ensures w.tables.managers.Values !! LostSet(w)
  {
  }

  lemma OpenMeans(w: World, m: ManagerId)
    requires Owned(w) && m in w.lives
    ensures m in OpenNsSet(w) <==> Held(w, m) || Registered(w, m) || Lost(w, m)
    ensures m in OpenNlSet(w) <==> m in HoldersWithNl(w).Values || Registered(w, m) || Lost(w, m)
  {
    if Held(w, m) {
      var t :| t in w.holds && w.holds[t].m == m;
      if w.holds[t].phase != NsOpen {
        assert t in HoldersWithNl(w) && HoldersWithNl(w)[t] == m;
      }
    }
  }

  lemma HeldValues(w: World, m: ManagerId)
    ensures Held(w, m) <==> m in (map t | t in w.holds :: w.holds[t].m).Values
  {
    var held := map t | t in w.holds :: w.holds[t].m;
    if Held(w, m) {
      var t :| t in w.holds && w.holds[t].m == m;
      assert held[t] == m;
    }
  }

  lemma RegisteredValues(w: World, m: ManagerId)
    requires Owned(w)
    ensures Registered(w, m) <==> m in w.tables.managers.Values
  {
    if Registered(w, m) {
      assert w.lives[m].ep in w.tables.managers;
    }
  }

  lemma Partition(w: World)
    requires Owned(w)
    ensures OpenNsSet(w) == (map t | t in w.holds :: w.holds[t].m).Values + (w.tables.managers.Values + LostSet(w))
    ensures OpenNlSet(w) == HoldersWithNl(w).Values + (w.tables.managers.Values + LostSet(w))
  {
    var held := map t | t in w.holds :: w.holds[t].m;
    forall m
      ensures m in OpenNsSet(w) <==> m in held.Values || m in w.tables.managers.Values || m in LostSet(w)
      ensures m in OpenNlSet(w) <==> m in HoldersWithNl(w).Values || m in w.tables.managers.Values || m in LostSet(w)
    {
      HeldValues(w, m);
      RegisteredValues(w, m);
      if m in w.lives {
        OpenMeans(w, m);
      }
      hide HeldLife, RunningLife, Runs, Ended;
    }
  }

  /** Without a displacing commit, the running managers are the in-flight and the registered ones. */
  lemma NoLeakWithoutDisplacement(w: World, steps: seq<Step>)
    requires Owned(w) && NoCrash(steps) && forall m :: !Lost(w, m)
    requires forall i | 0 <= i < |steps| :: !Displaces(After(w, steps[..i]), steps[i])
    ensures var v := After(w, steps);
      LostSet(v) == {} &&
      |OpenNsSet(v)| == |v.holds| + |v.tables.managers| &&
      |OpenNlSet(v)| == |HoldersWithNl(v)| + |v.tables.managers|
  {
    hide Apply, After, Lost;
    var v := After(w, steps);
    forall m ensures !Lost(v, m) {
      LostIffDisplaced(w, steps, m);
    }
    RunKeeps(w, steps);
    HandleBalance(v);
  }

  /** A process that has just started owns nothing. */
  lemma BootOwned(stateFile: seq<EndpointRecord>, netFile: seq<NetworkRecord>)
    ensures Owned(Boot(stateFile, netFile))
    ensures forall m :: !Lost(Boot(stateFile, netFile), m)
  {
  }
}
