/** What a Restore does with each endpoint of its snapshot, while anything else goes on: the
    endpoints are dealt with in order, each one served or, after four failures, dropped. */
module RestoreTale {
  import opened Types
  import opened TableOps
  import opened Protocol
  import StateFile
  import Progress

  /** An endpoint dealt with. */
  datatype Handled = Handled(entry: EndpointRecord, served: bool)

  /** The story of a Restore so far: its snapshot, the endpoints dealt with, the failures of the
      one it is working on, and whether the current attempt has looked for a manager. */
  datatype Tale = Tale(snapshot: seq<EndpointRecord>, done: seq<Handled>, failures: nat, looked: bool)

  // -------------------------------------------------------------------------
  // What can happen
  // -------------------------------------------------------------------------

  predicate Begun(w: World, step: Step, t: Tid) {
    step.BeginRestore? && step.t == t && Idle(w, t) && IsSnapshot(w, step.todo)
  }

  /** The thread is at work on an endpoint. */
  predicate At(w: World, t: Tid) {
    t in w.roles && w.roles[t].Restoring? && w.roles[t].todo != []
  }

  predicate Picks(w: World, step: Step, t: Tid) {
    step == RestoreNext(t) && At(w, t) && t !in w.holds && w.roles[t].restore == Next
  }

  /** A look at the table before the attempt finds a manager. */
  predicate FindsManager(w: World, step: Step, t: Tid) {
    step == RestoreCheck(t) && At(w, t) && t !in w.holds && w.roles[t].restore.Checking? &&
    w.roles[t].todo[0].endpointID in w.tables.managers
  }

  predicate FindsNone(w: World, step: Step, t: Tid) {
    step == RestoreCheck(t) && At(w, t) && t !in w.holds && w.roles[t].restore.Checking? &&
    w.roles[t].todo[0].endpointID !in w.tables.managers
  }

  /** The namespace or the netlink handle does not open, or the clients do not start: always so
      without an interface index off a bridge. */
  predicate StartFails(w: World, step: Step, t: Tid) {
    At(w, t) && w.roles[t].restore.Opening? &&
    match step
    case OpenNs(u, m, ok) => u == t && !ok && t !in w.holds && m !in w.lives
    case OpenNl(u, ok) => u == t && !ok && PhaseOf(w, t) == Some(NsOpen) && w.holds[t].m in w.lives
    case StartClients(u, ok) =>
      u == t && PhaseOf(w, t) == Some(BothOpen) && w.holds[t].m in w.lives &&
      (!ok || (NetMode(w.roles[t].todo[0].mode) != BRIDGE && w.roles[t].todo[0].ifIndex == 0))
    case _ => false
  }

  predicate Commits(w: World, step: Step, t: Tid) {
    step == CommitRestoreStep(t) && At(w, t) && w.roles[t].restore.Opening? && PhaseOf(w, t) == Some(Running)
  }

  /** The endpoint has a manager, an older one or this Restore's. */
  predicate Serves(w: World, step: Step, t: Tid) {
    FindsManager(w, step, t) ||
    (Commits(w, step, t) &&
     (w.roles[t].todo[0].endpointID in w.tables.managers || w.roles[t].todo[0].endpointID !in w.tables.left))
  }

  /** An attempt fails to start, or is given up to the mark of a Leave. */
  predicate Fails(w: World, step: Step, t: Tid) {
    StartFails(w, step, t) ||
    (Commits(w, step, t) &&
     w.roles[t].todo[0].endpointID !in w.tables.managers && w.roles[t].todo[0].endpointID in w.tables.left)
  }

  predicate Drops(w: World, step: Step, t: Tid) {
    step == RestoreDrop(t) && Removes(w, step) && At(w, t)
  }

  function NextTale(w: World, step: Step, t: Tid, tale: Tale): Tale {
    if Begun(w, step, t) then Tale(step.todo, [], 0, false)
    else if Picks(w, step, t) then tale.(failures := 0, looked := false)
    else if FindsNone(w, step, t) then tale.(looked := true)
    else if Serves(w, step, t) then tale.(done := tale.done + [Handled(w.roles[t].todo[0], true)])
    else if Drops(w, step, t) then tale.(done := tale.done + [Handled(w.roles[t].todo[0], false)])
    else if Fails(w, step, t) then tale.(failures := tale.failures + 1, looked := false)
    else tale
  }

  function TaleOf(w: World, steps: seq<Step>, t: Tid): Tale {
    if steps == [] then Tale([], [], 0, false)
    else
      var init := steps[..|steps| - 1];
      NextTale(After(w, init), steps[|steps| - 1], t, TaleOf(w, init, t))
  }

  // -------------------------------------------------------------------------
  // What the role of a Restore says of its story
  // -------------------------------------------------------------------------

  /** The endpoints dealt with are the first ones of the snapshot, and `todo` is the rest. */
  predicate Splits(snapshot: seq<EndpointRecord>, done: seq<Handled>, todo: seq<EndpointRecord>) {
    |done| + |todo| == |snapshot| && snapshot[|done|..] == todo &&
    forall i | 0 <= i < |done| :: done[i].entry == snapshot[i]
  }

  predicate Tells(r: Role, tale: Tale) {
    match r
    case Restoring(todo, Next) => Splits(tale.snapshot, tale.done, todo)
    case Restoring(todo, Checking(a)) =>
      Splits(tale.snapshot, tale.done, todo) && tale.failures == a <= 3 && !tale.looked
    case Restoring(todo, Opening(a)) =>
      Splits(tale.snapshot, tale.done, todo) && tale.failures == a <= 3 && tale.looked
    case Restoring(todo, Discarding(a, restored)) =>
      todo != [] &&
      if restored then Splits(tale.snapshot, tale.done, todo[1..])
      else Splits(tale.snapshot, tale.done, todo) && tale.failures == a + 1 <= 4 && !tale.looked
    case Restoring(todo, Failed(a)) =>
      Splits(tale.snapshot, tale.done, todo) && tale.failures == a + 1 <= 4 && !tale.looked
    case _ => true
  }

  ghost predicate GoesOn(w: World, v: World, step: Step, t: Tid, tale: Tale) {
    WellHeld(w, t) && (t in w.roles ==> Tells(w.roles[t], tale)) ==>
      t in v.roles ==> Tells(v.roles[t], NextTale(w, step, t, tale))
  }

  lemma OneMore(snapshot: seq<EndpointRecord>, done: seq<Handled>, todo: seq<EndpointRecord>, served: bool)
    requires Splits(snapshot, done, todo) && todo != []
    ensures Splits(snapshot, done + [Handled(todo[0], served)], todo[1..])
  {
    var n := |done|;
    assert snapshot[n] == snapshot[n..][0];
    assert snapshot[n + 1..] == snapshot[n..][1..];
  }

  lemma NextGoes(w: World, t: Tid, tale: Tale)
    ensures GoesOn(w, Apply(w, RestoreNext(t)), RestoreNext(t), t, tale)
  {
    hide Splits, Only, RoleFrom, Started, KeepsLooking, KeepsRestoring, Moves, KeepsMarked, KeepsCreating;
  }

  lemma CheckGoes(w: World, t: Tid, tale: Tale)
    ensures GoesOn(w, Apply(w, RestoreCheck(t)), RestoreCheck(t), t, tale)
  {
    hide Splits, Only, RoleFrom, Started, KeepsLooking, KeepsRestoring, Moves, KeepsMarked, KeepsCreating;
    if At(w, t) && Splits(tale.snapshot, tale.done, w.roles[t].todo) {
      OneMore(tale.snapshot, tale.done, w.roles[t].todo, true);
    }
  }

  lemma OpenNsGoes(w: World, t: Tid, m: ManagerId, ok: bool, tale: Tale)
    ensures GoesOn(w, Apply(w, OpenNs(t, m, ok)), OpenNs(t, m, ok), t, tale)
  {
    hide Splits, Only, RoleFrom, Started, KeepsLooking, KeepsRestoring, Moves, KeepsMarked, KeepsCreating;
  }

  lemma OpenNlGoes(w: World, t: Tid, ok: bool, tale: Tale)
    ensures GoesOn(w, Apply(w, OpenNl(t, ok)), OpenNl(t, ok), t, tale)
  {
    hide Splits, Only, RoleFrom, Started, KeepsLooking, KeepsRestoring, Moves, KeepsMarked, KeepsCreating;
  }

  lemma StartGoes(w: World, t: Tid, ok: bool, tale: Tale)
    ensures GoesOn(w, Apply(w, StartClients(t, ok)), StartClients(t, ok), t, tale)
  {
    hide Splits, Only, RoleFrom, Started, KeepsLooking, KeepsRestoring, Moves, KeepsMarked, KeepsCreating;
  }

  lemma CommitGoes(w: World, t: Tid, tale: Tale)
    ensures GoesOn(w, Apply(w, CommitRestoreStep(t)), CommitRestoreStep(t), t, tale)
  {
    hide CommitRestore, Splits, Only, RoleFrom, Started, KeepsLooking, KeepsRestoring, Moves, KeepsMarked,
      KeepsCreating;
    if At(w, t) && Splits(tale.snapshot, tale.done, w.roles[t].todo) {
      OneMore(tale.snapshot, tale.done, w.roles[t].todo, true);
    }
  }

  lemma StopGoes(w: World, t: Tid, tale: Tale)
    ensures GoesOn(w, Apply(w, StopHeld(t)), StopHeld(t), t, tale)
  {
    hide Splits, Only, RoleFrom, Started, KeepsLooking, KeepsRestoring, Moves, KeepsMarked, KeepsCreating;
  }

  lemma RetryGoes(w: World, t: Tid, tale: Tale)
    ensures GoesOn(w, Apply(w, RestoreRetry(t)), RestoreRetry(t), t, tale)
  {
    hide Splits, Only, RoleFrom, Started, KeepsLooking, KeepsRestoring, Moves, KeepsMarked, KeepsCreating;
  }

  lemma DropGoes(w: World, t: Tid, tale: Tale)
    ensures GoesOn(w, Apply(w, RestoreDrop(t)), RestoreDrop(t), t, tale)
  {
    hide RemoveRecord, Splits, Only, RoleFrom, Started, KeepsLooking, KeepsRestoring, Moves, KeepsMarked, KeepsCreating;
    if At(w, t) && Splits(tale.snapshot, tale.done, w.roles[t].todo) {
      OneMore(tale.snapshot, tale.done, w.roles[t].todo, false);
    }
  }

  lemma CancelGoes(w: World, t: Tid, tale: Tale)
    ensures GoesOn(w, Apply(w, RestoreCancelled(t)), RestoreCancelled(t), t, tale)
  {
    hide Splits, Only, RoleFrom, Started, KeepsLooking, KeepsRestoring, Moves, KeepsMarked, KeepsCreating;
  }

  /** No step of another thread, and no step but a Restore's own, happens to a story. */
  lemma NothingHappens(w: World, step: Step, t: Tid, tale: Tale)
    requires !Threaded(step) || t != Actor(step) || (!ByRestore(step) && !step.BeginRestore?)
    ensures NextTale(w, step, t, tale) == tale
  {
  }

  lemma ForeignGoes(w: World, step: Step, t: Tid, tale: Tale)
    requires Threaded(step) && t != Actor(step)
    ensures GoesOn(w, Apply(w, step), step, t, tale)
  {
    hide Apply, Tells, NextTale;
    NothingHappens(w, step, t, tale);
    Progress.OtherThread(w, step, t);
  }

  lemma UnrelatedGoes(w: World, step: Step, tale: Tale)
    requires Threaded(step) && !ByRestore(step) && !step.BeginRestore?
    ensures GoesOn(w, Apply(w, step), step, Actor(step), tale)
  {
    hide Apply, NextTale, Splits, Offered, IsSnapshot, Only, KeepsLooking, KeepsMarked, KeepsCreating, Moves;
    NothingHappens(w, step, Actor(step), tale);
    StepFrame(w, step);
    MoveFrame(w, step);
  }

  lemma BeginGoes(w: World, t: Tid, todo: seq<EndpointRecord>, tale: Tale)
    ensures GoesOn(w, Apply(w, BeginRestore(t, todo)), BeginRestore(t, todo), t, tale)
  {
    hide IsSnapshot, Splits, Only, RoleFrom, Started, KeepsLooking, KeepsRestoring, Moves, KeepsMarked, KeepsCreating;
    BeginSplits(BeginRestore(t, todo));
  }

  lemma BeginSplits(step: Step)
    ensures step.BeginRestore? ==> Splits(step.todo, [], step.todo)
  {
  }

  lemma QuietGoes(w: World, step: Step, t: Tid, tale: Tale)
    requires !Threaded(step)
    ensures GoesOn(w, Apply(w, step), step, t, tale)
  {
    hide Apply, Tells, NextTale;
    NothingHappens(w, step, t, tale);
    if step.Crash? {
      NoRoles(w);
    } else {
      Progress.NoThread(w, step);
    }
  }

  lemma NoRoles(w: World)
    ensures Apply(w, Crash).roles == map[]
  {
    hide Only, RoleFrom, Started, KeepsLooking, KeepsRestoring, Moves, KeepsMarked, KeepsCreating;
  }

  lemma TaleStep(w: World, step: Step, t: Tid, tale: Tale)
    ensures GoesOn(w, Apply(w, step), step, t, tale)
  {
    hide Apply, GoesOn;
    if !Threaded(step) {
      QuietGoes(w, step, t, tale);
    } else if t != Actor(step) {
      ForeignGoes(w, step, t, tale);
    } else {
      match step
      case BeginRestore(_, todo) => BeginGoes(w, t, todo, tale);
      case RestoreNext(_) => NextGoes(w, t, tale);
      case RestoreCheck(_) => CheckGoes(w, t, tale);
      case OpenNs(_, m, ok) => OpenNsGoes(w, t, m, ok, tale);
      case OpenNl(_, ok) => OpenNlGoes(w, t, ok, tale);
      case StartClients(_, ok) => StartGoes(w, t, ok, tale);
      case CommitRestoreStep(_) => CommitGoes(w, t, tale);
      case StopHeld(_) => StopGoes(w, t, tale);
      case RestoreRetry(_) => RetryGoes(w, t, tale);
      case RestoreDrop(_) => DropGoes(w, t, tale);
      case RestoreCancelled(_) => CancelGoes(w, t, tale);
      case _ => UnrelatedGoes(w, step, tale);
    }
  }

  /** In every state of every run, where a Restore stands is what its story says; in particular
      it starts a manager only after this attempt has looked for one and found none. */
  lemma {:induction false} TaleRun(w: World, steps: seq<Step>, t: Tid)
    requires Progress.Ready(w) && w.roles == map[]
    ensures var v := After(w, steps); t in v.roles ==> Tells(v.roles[t], TaleOf(w, steps, t))
  {
    hide Apply, Tells, NextTale, Progress.Ready;
    if steps != [] {
      var init := steps[..|steps| - 1];
      TaleRun(w, init, t);
      Progress.ReadyRun(w, init);
      HeldWell(After(w, init), t);
      TaleStep(After(w, init), steps[|steps| - 1], t, TaleOf(w, init, t));
    }
  }

  lemma HeldWell(w: World, t: Tid)
    requires Progress.Ready(w)
    ensures WellHeld(w, t)
  {
  }

  // -------------------------------------------------------------------------
  // What follows
  // -------------------------------------------------------------------------

  /** A Restore drops a record only after four attempts on that endpoint, each of which failed to
      start or was given up to a mark; and the record dropped is the one it was working on. */
  lemma DropsAfterFour(w: World, steps: seq<Step>, t: Tid)
    requires Progress.Ready(w) && w.roles == map[] && Removes(After(w, steps), RestoreDrop(t))
    ensures var tale := TaleOf(w, steps, t);
      tale.failures == 4 && |tale.done| < |tale.snapshot| &&
      RemovedEndpoint(After(w, steps), RestoreDrop(t)) == tale.snapshot[|tale.done|].endpointID
  {
    hide After, TaleOf;
    TaleRun(w, steps, t);
  }

  /** A Restore begins with each record of the table once. */
  lemma BeginsWithEachOnce(w: World, t: Tid, todo: seq<EndpointRecord>)
    requires Keyed(w.tables.records) && Apply(w, BeginRestore(t, todo)) != w
    ensures |todo| == |w.tables.records|
    ensures forall i | 0 <= i < |todo| :: Find(w.tables.records, todo[i].endpointID) == Some(todo[i])
    ensures forall id | id in w.tables.records :: w.tables.records[id] in todo
    ensures forall i, j | 0 <= i < j < |todo| :: todo[i].endpointID != todo[j].endpointID
  {
    hide Only, RoleFrom, Started, KeepsLooking, KeepsRestoring, Moves, KeepsMarked, KeepsCreating;
    StateFile.Distinct(todo, w.tables.records);
    assert forall i | 0 <= i < |todo| :: todo[i] in todo;
  }

  /** A Restore that comes to its end has dealt with every endpoint of its snapshot, in order. */
  lemma EndsWithAll(w: World, steps: seq<Step>, t: Tid)
    requires Progress.Ready(w) && w.roles == map[]
    requires var v := After(w, steps); t in v.roles && v.roles[t] == Restoring([], Next)
    ensures var tale := TaleOf(w, steps, t);
      |tale.done| == |tale.snapshot| && forall i | 0 <= i < |tale.done| :: tale.done[i].entry == tale.snapshot[i]
  {
    hide After, TaleOf;
    TaleRun(w, steps, t);
  }

  /** A Restore whose commit finds a manager there stops its own, goes on to the next endpoint,
      and leaves the record alone; one that finds a mark stops its own and has failed. */
  lemma LosesTheRace(w: World, t: Tid)
    requires CanCommitRestore(w, t) && WellHeld(w, t) && w.holds[t].m in w.lives
    ensures var todo := w.roles[t].todo; var ep := todo[0].endpointID;
      var v := Apply(Apply(w, CommitRestoreStep(t)), StopHeld(t));
      v.tables.records == w.tables.records && v.tables.managers.Keys == w.tables.managers.Keys + Added(w, ep) &&
      (ep in w.tables.managers ==> t in v.roles && v.roles[t] == Restoring(todo[1..], Next)) &&
      (ep !in w.tables.managers && ep in w.tables.left ==>
        t in v.roles && v.roles[t].Restoring? && v.roles[t].todo == todo && v.roles[t].restore.Failed?)
  {
    hide Apply;
    var u := CommitOutcome(w, t);
    StopOutcome(u, t);
  }

  /** The endpoint is new in the table. */
  function Added(w: World, ep: EndpointId): set<EndpointId> {
    if ep !in w.tables.managers && ep !in w.tables.left then {ep} else {}
  }

  lemma CommitOutcome(w: World, t: Tid) returns (u: World)
    requires CanCommitRestore(w, t) && WellHeld(w, t)
    ensures u == Apply(w, CommitRestoreStep(t))
    ensures var todo := w.roles[t].todo; var ep := todo[0].endpointID;
      u.tables.records == w.tables.records && u.tables.managers.Keys == w.tables.managers.Keys + Added(w, ep) &&
      u.lives == w.lives && t in u.roles &&
      if ep in w.tables.managers || ep in w.tables.left then
        u.holds == w.holds &&
        u.roles[t] == Restoring(todo, RestorePoint.Discarding(w.roles[t].restore.attempt, ep in w.tables.managers))
      else t !in u.holds && u.roles[t] == Restoring(todo[1..], Next)
  {
    hide CommitRestore, Only, RoleFrom, Started, KeepsLooking, KeepsRestoring, Moves, KeepsMarked, KeepsCreating;
    u := Apply(w, CommitRestoreStep(t));
    CommitTables(w.tables, w.holds[t].ep, w.holds[t].m);
  }

  lemma CommitTables(t: Tables, ep: EndpointId, m: ManagerId)
    ensures var v := CommitRestore(t, ep, m);
      v.records == t.records &&
      v.managers.Keys == t.managers.Keys + if ep !in t.managers && ep !in t.left then {ep} else {}
  {
  }

  lemma StopOutcome(u: World, t: Tid)
    requires t in u.roles && u.roles[t].Restoring?
    requires t in u.holds ==>
      u.roles[t].todo != [] && u.roles[t].restore.Discarding? && u.holds[t].phase == Running && u.holds[t].m in u.lives
    ensures var v := Apply(u, StopHeld(t));
      v.tables.records == u.tables.records && v.tables.managers == u.tables.managers && t in v.roles &&
      if t !in u.holds then v.roles[t] == u.roles[t]
      else if u.roles[t].restore.restored then v.roles[t] == Restoring(u.roles[t].todo[1..], Next)
      else v.roles[t] == Restoring(u.roles[t].todo, Failed(u.roles[t].restore.attempt))
  {
    hide Only, RoleFrom, Started, KeepsLooking, KeepsRestoring, Moves, KeepsMarked, KeepsCreating;
  }
}
