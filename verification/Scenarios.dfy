/** Runs of the program in which the code does less than its comments say. Each is a concrete
    interleaving from the first boot in which no thread goes on while its own save is pending. */
module Scenarios {
  import opened Types
  import opened TableOps
  import opened Protocol
  import opened ProgramOrder
  import StateFile
  import Ownership
  import Hints
  import Disk

  const NET: NetworkId := "n"
  const EP: EndpointId := "e"
  const OPTS := NetOptions("br0", BRIDGE, false, 0, false)
  const NETS := map[NET := NetworkRecordOf(NET, OPTS)]
  const REQ := ForJoin(NET, EP, "sandbox")
  const HINT := Hint(Some("10.0.0.2/24"), None, "", 0)
  const RECORD := EndpointRecord(0, NET, EP, "sandbox", BRIDGE, "br0", false, 0, "")

  /** The program reaches `v` from the first boot, with these saves still pending for these
      threads. */
  ghost predicate Reached(v: World, waiting: map<nat, Tid>) {
    exists steps ::
      NoCrash(steps) && Ordered(Boot([], []), steps) && After(Boot([], []), steps) == v &&
      Waiting(Boot([], []), steps) == waiting
  }

  /** ... and with none pending. */
  ghost predicate Calm(v: World) {
    Reached(v, map[]) && v.stateWrites == map[] && v.netWrites == map[]
  }

  lemma Go(v: World, waiting: map<nat, Tid>, step: Step)
    requires Reached(v, waiting) && !step.Crash? && MayStep(waiting, step)
    ensures Reached(Apply(v, step), NextWaiting(v, Apply(v, step), step, waiting))
  {
    hide Apply, Boot, MayStep, NextWaiting;
    var steps :|
      NoCrash(steps) && Ordered(Boot([], []), steps) && After(Boot([], []), steps) == v &&
      Waiting(Boot([], []), steps) == waiting;
    OrderedSnoc(Boot([], []), steps, step);
    AfterSnoc(Boot([], []), steps, step);
    assert NoCrash(steps + [step]);
  }

  /** A step that has nothing to save. */
  lemma Quiet(v: World, step: Step)
    requires Calm(v) && !step.Crash?
    requires var v' := Apply(v, step); v'.ticket == v.ticket && v'.stateWrites == map[] && v'.netWrites == map[]
    ensures Calm(Apply(v, step))
  {
    hide Apply, Reached;
    Go(v, map[], step);
    assert NextWaiting(v, Apply(v, step), step, map[]) == map[];
  }

  lemma BootCalm()
    ensures Calm(Boot([], []))
  {
    var w := Boot([], []);
    assert After(w, []) == w && Waiting(w, []) == map[] && NoCrash([]) && Ordered(w, []);
  }

  // -------------------------------------------------------------------------
  // A bridge network, an endpoint, a Join
  // -------------------------------------------------------------------------

  /** The network exists and nothing else has happened. */
  ghost predicate Networked(v: World) {
    Calm(v) && v.tables == Tables(map[], map[], map[], map[], {}, NETS) &&
    v.roles == map[] && v.holds == map[] && v.lives == map[] && v.stateFile == [] && v.ticket == 1
  }

  lemma CacheNetwork() returns (v: World)
    ensures Reached(v, map[]) && v.tables == Tables(map[], map[], map[], map[], {}, NETS)
    ensures v.roles == map[] && v.holds == map[] && v.lives == map[] && v.stateWrites == map[] && v.stateFile == []
    ensures v.netWrites == map[0 := NETS] && v.ticket == 1
  {
    hide Only, RoleFrom, Started, KeepsLooking, KeepsRestoring, Moves, KeepsMarked, KeepsCreating, Reached;
    BootCalm();
    var w := Boot([], []);
    var step := Step.CreateNetwork(NET, OPTS);
    Go(w, map[], step);
    v := Apply(w, step);
    assert NextWaiting(w, v, step, map[]) == map[];
  }

  lemma MakeNetwork() returns (v: World)
    ensures Networked(v)
  {
    hide Only, RoleFrom, Started, KeepsLooking, KeepsRestoring, Moves, KeepsMarked, KeepsCreating, Reached;
    var w := CacheNetwork();
    OneNetwork();
    hide StateFile.ListsNets;
    var step := WriteNets(0, true, [NetworkRecordOf(NET, OPTS)]);
    Go(w, map[], step);
    v := Apply(w, step);
    assert v.netWrites == map[];
    assert NextWaiting(w, v, step, map[]) == map[];
  }

  lemma OneNetwork()
    ensures StateFile.ListsNets([NetworkRecordOf(NET, OPTS)], NETS)
  {
    assert [NetworkRecordOf(NET, OPTS)][0] == NetworkRecordOf(NET, OPTS);
  }

  /** CreateEndpoint has succeeded. */
  lemma MakeEndpoint(w: World) returns (v: World)
    requires Networked(w)
    ensures Calm(v) && v == w.(tables := w.tables.(hints := map[EP := HINT]))
  {
    hide Only, RoleFrom, Started, KeepsLooking, KeepsRestoring, Moves, KeepsMarked, KeepsCreating, Reached;
    Quiet(w, BeginCreate(0, NET, EP));
    var a := Apply(w, BeginCreate(0, NET, EP));
    assert a.roles == map[0 := Resolving(ForCreate(NET, EP), AskCache)];
    Quiet(a, LookInCache(0));
    var b := Apply(a, LookInCache(0));
    assert b.roles == map[0 := Creating(NET, EP, OPTS, AddLink)];
    v := MakeHint(w, b);
  }

  lemma MakeHint(w: World, b: World) returns (v: World)
    requires Networked(w) && Calm(b) && b == w.(roles := map[0 := Creating(NET, EP, OPTS, AddLink)])
    ensures Calm(v) && v == w.(tables := w.tables.(hints := map[EP := HINT]))
  {
    hide Only, RoleFrom, Started, KeepsLooking, KeepsRestoring, Moves, KeepsMarked, KeepsCreating, Reached;
    Quiet(b, LinkAdded(0));
    var c := Apply(b, LinkAdded(0));
    assert c.roles == map[0 := Creating(NET, EP, OPTS, GetV4)];
    Quiet(c, GotV4(0, "10.0.0.2/24", ""));
    v := Apply(c, GotV4(0, "10.0.0.2/24", ""));
    assert v.roles == map[];
  }

  /** The world of a Join with its record in the table, this file, these saves and this role. */
  ghost predicate JoinWorld(v: World, back: BackPoint, cancels: map<EndpointId, Tid>) {
    v.roles == map[0 := Background(REQ, OPTS, HINT, back)] && v.holds == map[] && v.lives == map[] &&
    v.tables == Tables(map[], map[], map[EP := RECORD], cancels, {}, NETS) && v.netWrites == map[] && v.ticket == 2
  }

  /** A Join has added its record, and its save is pending. */
  ghost predicate Persisted(v: World) {
    Reached(v, map[1 := 0]) && JoinWorld(v, Spawned, map[]) && v.stateFile == [] &&
    v.stateWrites == map[1 := map[EP := RECORD]]
  }

  lemma TakeIt(w: World) returns (v: World)
    requires Calm(w) && w.roles == map[] && w.holds == map[]
    requires w.tables == Tables(map[EP := HINT], map[], map[], map[], {}, NETS)
    ensures Calm(v) && v == w.(tables := w.tables.(hints := map[]), roles := map[0 := Persisting(REQ, OPTS, HINT)])
  {
    hide Only, RoleFrom, Started, KeepsLooking, KeepsRestoring, Moves, KeepsMarked, KeepsCreating, Reached;
    Quiet(w, BeginJoin(0, NET, EP, "sandbox"));
    var a := Apply(w, BeginJoin(0, NET, EP, "sandbox"));
    assert a.roles == map[0 := Resolving(REQ, AskCache)];
    Quiet(a, LookInCache(0));
    var b := Apply(a, LookInCache(0));
    assert b.roles == map[0 := Joining(REQ, OPTS)];
    v := TakeHintOf(w, b);
  }

  lemma TakeHintOf(w: World, b: World) returns (v: World)
    requires w.roles == map[] && w.holds == map[] && w.tables == Tables(map[EP := HINT], map[], map[], map[], {}, NETS)
    requires Calm(b) && b == w.(roles := map[0 := Joining(REQ, OPTS)])
    ensures Calm(v) && v == w.(tables := w.tables.(hints := map[]), roles := map[0 := Persisting(REQ, OPTS, HINT)])
  {
    hide Only, RoleFrom, Started, KeepsLooking, KeepsRestoring, Moves, KeepsMarked, KeepsCreating, Reached;
    Quiet(b, TakeHint(0));
    v := Apply(b, TakeHint(0));
    assert v.roles == map[0 := Persisting(REQ, OPTS, HINT)];
    assert v.tables == w.tables.(hints := map[]);
  }

  lemma PersistIt(w: World) returns (v: World)
    requires Calm(w) && w.roles == map[0 := Persisting(REQ, OPTS, HINT)] && w.holds == map[] && w.lives == map[]
    requires w.tables == Tables(map[], map[], map[], map[], {}, NETS) && w.stateFile == [] && w.ticket == 1
    ensures Persisted(v)
  {
    hide Only, RoleFrom, Started, KeepsLooking, KeepsRestoring, Moves, KeepsMarked, KeepsCreating, Reached;
    Go(w, map[], Persist(0));
    v := Apply(w, Persist(0));
    assert v.roles == map[0 := Background(REQ, OPTS, HINT, Spawned)];
    assert v.stateWrites == map[1 := map[EP := RECORD]];
    assert NextWaiting(w, v, Persist(0), map[]) == map[1 := 0];
  }

  lemma ReachPersisted() returns (v: World)
    ensures Persisted(v)
  {
    hide Calm;
    var a := MakeNetwork();
    var b := MakeEndpoint(a);
    var c := TakeIt(b);
    v := PersistIt(c);
  }

  lemma OneListed()
    ensures StateFile.Lists([StateFile.Stamp(RECORD)], StateFile.StampAll(map[EP := RECORD]))
    ensures StateFile.Load([StateFile.Stamp(RECORD)]) == map[EP := StateFile.Stamp(RECORD)]
  {
    var entries := [StateFile.Stamp(RECORD)];
    assert entries[0] == StateFile.Stamp(RECORD);
    assert StateFile.StampAll(map[EP := RECORD]) == map[EP := StateFile.Stamp(RECORD)];
    StateFile.RoundTrip(entries, map[EP := RECORD]);
  }

  /** The save of the record is the only one pending, and succeeds. */
  lemma SaveRecord(w: World, t: Tid) returns (v: World)
    requires Reached(w, map[1 := t]) && w.stateWrites == map[1 := map[EP := RECORD]] && w.netWrites == map[]
    ensures Calm(v) && v == w.(stateWrites := map[], stateFile := [StateFile.Stamp(RECORD)])
  {
    hide StateFile.Lists, StateFile.StampAll, StateFile.Reloads, Only, RoleFrom, Started, KeepsLooking,
      KeepsRestoring, Moves,
      KeepsMarked, KeepsCreating,
      Reached;
    OneListed();
    var step := WriteState(1, true, [StateFile.Stamp(RECORD)]);
    Go(w, map[1 := t], step);
    v := Apply(w, step);
    assert v.stateWrites == map[];
    assert NextWaiting(w, v, step, map[1 := t]) == map[];
  }

  /** The record is on disk, and Join's background thread is starting a manager. */
  ghost predicate Joined(v: World) {
    Calm(v) && JoinWorld(v, Starting, map[EP := 0]) && v.stateFile == [StateFile.Stamp(RECORD)]
  }

  lemma ReachJoined() returns (v: World)
    ensures Joined(v)
  {
    hide Only, RoleFrom, Started, KeepsLooking, KeepsRestoring, Moves, KeepsMarked, KeepsCreating, Reached;
    var a := ReachPersisted();
    var b := SaveRecord(a, 0);
    Quiet(b, RegisterJoin(0));
    v := Apply(b, RegisterJoin(0));
    assert v.roles == map[0 := Background(REQ, OPTS, HINT, Starting)];
    assert v.tables.cancels == map[EP := 0];
  }

  /** A thread that holds nothing starts a manager all the way. */
  lemma StartManager(w: World, t: Tid, m: ManagerId, ep: EndpointId) returns (v: World)
    requires Calm(w) && Free(w, t) && IsStarting(w, t) && StartingFor(w.roles[t]) == ep && m !in w.lives
    requires w.roles[t].Restoring? ==> Locatable(w.roles[t].todo[0])
    ensures Calm(v)
    ensures v == w.(holds := w.holds[t := Hold(m, ep, Running)], lives := w.lives[m := Ownership.RunningLife(ep)])
  {
    hide Only, RoleFrom, Started, KeepsLooking, KeepsRestoring, Moves, KeepsMarked, KeepsCreating, Reached;
    Quiet(w, OpenNs(t, m, true));
    var a := Apply(w, OpenNs(t, m, true));
    assert a == w.(holds := w.holds[t := Hold(m, ep, NsOpen)], lives := w.lives[m := Life(ep, 0, 0, 0, false, 0)]);
    Quiet(a, OpenNl(t, true));
    var b := Apply(a, OpenNl(t, true));
    assert b.holds == w.holds[t := Hold(m, ep, BothOpen)];
    assert b.lives == w.lives[m := Life(ep, 0, 1, 0, false, 0)];
    v := StartBoth(w, b, t, m, ep);
  }

  lemma StartBoth(w: World, b: World, t: Tid, m: ManagerId, ep: EndpointId) returns (v: World)
    requires Calm(b) && Free(w, t) && IsStarting(w, t) && StartingFor(w.roles[t]) == ep
    requires w.roles[t].Restoring? ==> Locatable(w.roles[t].todo[0])
    requires b == w.(holds := w.holds[t := Hold(m, ep, BothOpen)], lives := w.lives[m := Life(ep, 0, 1, 0, false, 0)])
    ensures Calm(v)
    ensures v == w.(holds := w.holds[t := Hold(m, ep, Running)], lives := w.lives[m := Ownership.RunningLife(ep)])
  {
    hide Only, RoleFrom, Started, KeepsLooking, KeepsRestoring, Moves, KeepsMarked, KeepsCreating, Reached;
    Quiet(b, StartClients(t, true));
    v := Apply(b, StartClients(t, true));
    assert v.holds == w.holds[t := Hold(m, ep, Running)];
    assert v.lives == w.lives[m := Ownership.RunningLife(ep)];
  }

  // -------------------------------------------------------------------------
  // A Join commit displaces the manager Restore has just registered
  // -------------------------------------------------------------------------

  lemma OneSnapshot(w: World)
    requires w.tables.records == map[EP := RECORD]
    ensures IsSnapshot(w, [RECORD])
  {
    assert [RECORD][0] == RECORD;
  }

  lemma RestoreBegins(w: World) returns (v: World)
    requires Joined(w)
    ensures Calm(v) && v == w.(roles := w.roles[1 := Restoring([RECORD], Next)])
  {
    hide IsSnapshot, Only, RoleFrom, Started, KeepsLooking, KeepsRestoring, Moves, KeepsMarked, KeepsCreating, Reached;
    OneSnapshot(w);
    Quiet(w, BeginRestore(1, [RECORD]));
    v := Apply(w, BeginRestore(1, [RECORD]));
  }

  lemma RestorePicks(w: World) returns (v: World)
    requires Joined(w)
    ensures Calm(v) && v == w.(roles := w.roles[1 := Restoring([RECORD], Checking(0))])
  {
    hide Only, RoleFrom, Started, KeepsLooking, KeepsRestoring, Moves, KeepsMarked, KeepsCreating, Reached;
    var a := RestoreBegins(w);
    Quiet(a, RestoreNext(1));
    v := Apply(a, RestoreNext(1));
    assert v.roles == w.roles[1 := Restoring([RECORD], Checking(0))];
  }

  lemma RestoreOpens(w: World) returns (v: World)
    requires Joined(w)
    ensures Calm(v) && v == w.(roles := w.roles[1 := Restoring([RECORD], Opening(0))])
  {
    hide Only, RoleFrom, Started, KeepsLooking, KeepsRestoring, Moves, KeepsMarked, KeepsCreating, Reached;
    var b := RestorePicks(w);
    Quiet(b, RestoreCheck(1));
    v := Apply(b, RestoreCheck(1));
    assert v.roles == w.roles[1 := Restoring([RECORD], Opening(0))];
  }

  /** Restore has a manager running and is about to commit it. */
  lemma RestoreStarts(w: World) returns (v: World)
    requires Joined(w)
    ensures Calm(v) && v == w.(roles := w.roles[1 := Restoring([RECORD], Opening(0))],
      holds := map[1 := Hold(0, EP, Running)], lives := map[0 := Ownership.RunningLife(EP)])
  {
    hide Calm;
    var a := RestoreOpens(w);
    v := StartManager(a, 1, 0, EP);
  }

  /** Restore commits onto an empty, unmarked slot and has nothing left to do. */
  lemma RestoreCommits(b: World) returns (v: World)
    requires Calm(b) && 1 in b.roles && b.roles[1] == Restoring([RECORD], Opening(0))
    requires b.holds == map[1 := Hold(0, EP, Running)] && b.tables.managers == map[] && b.tables.left == {}
    ensures Calm(v)
    ensures v == b.(tables := b.tables.(managers := map[EP := 0]), holds := map[],
      roles := b.roles[1 := Restoring([], Next)])
  {
    hide Only, RoleFrom, Started, KeepsLooking, KeepsRestoring, Moves, KeepsMarked, KeepsCreating, Reached;
    Quiet(b, CommitRestoreStep(1));
    v := Apply(b, CommitRestoreStep(1));
    assert v.holds == map[];
    assert v.tables.managers == map[EP := 0];
    assert [RECORD][1..] == [];
  }

  /** Restore sees the record a Join has just added, restores the endpoint first, and the
      Join commit overwrites it: a running manager that nothing will ever stop. */
  lemma JoinDisplacesRestored()
    ensures exists v :: Calm(v) && Ownership.Lost(v, 0) && v.tables.managers == map[EP := 1]
  {
    hide Only, RoleFrom, Started, KeepsLooking, KeepsRestoring, Moves, KeepsMarked, KeepsCreating, Reached;
    var a := ReachJoined();
    var b := RestoreStarts(a);
    var c := RestoreCommits(b);
    var d := StartManager(c, 0, 1, EP);
    Quiet(d, CommitJoinStep(0, ""));
    var v := Apply(d, CommitJoinStep(0, ""));
    assert v.holds == map[];
    assert v.tables.managers == map[EP := 1];
    assert Ownership.Lost(v, 0);
  }

  // -------------------------------------------------------------------------
  // A Leave comes and goes before a commit
  // -------------------------------------------------------------------------

  /** A record is there, no manager and no mark, and thread `t` is unused. */
  ghost predicate Leavable(w: World, t: Tid) {
    Calm(w) && Idle(w, t) && w.tables.managers == map[] && w.tables.left == {} && w.tables.records == map[EP := RECORD]
  }

  lemma LeaveMarks(w: World, t: Tid) returns (v: World)
    requires Leavable(w, t)
    ensures Calm(v)
    ensures v == w.(tables := w.tables.(cancels := w.tables.cancels - {EP}, left := {EP}),
      roles := w.roles[t := Leaving(EP, Marked)])
  {
    hide Only, RoleFrom, Started, KeepsLooking, KeepsRestoring, Moves, KeepsMarked, KeepsCreating, Reached;
    Quiet(w, BeginLeave(t, EP));
    var a := Apply(w, BeginLeave(t, EP));
    Quiet(a, EnterLeaveStep(t));
    v := Apply(a, EnterLeaveStep(t));
    assert v.roles == w.roles[t := Leaving(EP, Marked)];
  }

  lemma LeaveRemoves(w: World, t: Tid) returns (v: World)
    requires Leavable(w, t)
    ensures Reached(v, map[w.ticket := t])
    ensures v == w.(tables := w.tables.(records := map[], cancels := w.tables.cancels - {EP}),
      stateWrites := map[w.ticket := map[]], ticket := w.ticket + 1)
  {
    hide Only, RoleFrom, Started, KeepsLooking, KeepsRestoring, Moves, KeepsMarked, KeepsCreating, Reached;
    var b := LeaveMarks(w, t);
    Go(b, map[], FinishLeave(t));
    v := Apply(b, FinishLeave(t));
    assert v.roles == w.roles;
    assert v.tables.records == map[];
    assert v.tables.left == {};
    assert v.stateWrites == map[w.ticket := map[]];
    assert NextWaiting(b, v, FinishLeave(t), map[]) == map[w.ticket := t];
  }

  lemma LeaveRuns(w: World, t: Tid) returns (v: World)
    requires Leavable(w, t)
    ensures Calm(v)
    ensures v == w.(tables := w.tables.(records := map[], cancels := w.tables.cancels - {EP}), stateFile := [],
      ticket := w.ticket + 1)
  {
    hide Only, RoleFrom, Started, KeepsLooking, KeepsRestoring, Moves, KeepsMarked, KeepsCreating, Reached;
    var b := LeaveRemoves(w, t);
    NothingListed();
    hide StateFile.Lists, StateFile.StampAll, StateFile.Reloads;
    var step := WriteState(w.ticket, true, []);
    Go(b, map[w.ticket := t], step);
    v := Apply(b, step);
    assert v.stateWrites == map[];
    assert NextWaiting(b, v, step, map[w.ticket := t]) == map[];
  }

  lemma NothingListed()
    ensures StateFile.Lists([], StateFile.StampAll(map[]))
  {
  }

  /** Join's background thread commits onto an empty, unmarked slot. */
  lemma LateCommit(c: World) returns (d: World)
    requires Calm(c) && c.roles == map[0 := Background(REQ, OPTS, HINT, Starting)]
    requires c.holds == map[0 := Hold(0, EP, Running)] && c.lives == map[0 := Ownership.RunningLife(EP)]
    requires c.tables.managers == map[] && c.tables.left == {} && c.tables.records == map[]
    ensures Calm(d) && d.roles == map[0 := Background(REQ, OPTS, HINT, Exiting)] && d.holds == map[] &&
      d.lives == c.lives
    ensures d.tables.managers == map[EP := 0] && d.tables.records == map[]
  {
    hide Only, RoleFrom, Started, KeepsLooking, KeepsRestoring, Moves, KeepsMarked, KeepsCreating, Reached;
    Quiet(c, CommitJoinStep(0, ""));
    d := Apply(c, CommitJoinStep(0, ""));
    assert d.roles == map[0 := Background(REQ, OPTS, HINT, Exiting)];
    assert d.holds == map[] && d.tables.managers == map[EP := 0];
  }

  lemma JoinEnds(d: World) returns (v: World)
    requires Calm(d) && 0 in d.roles && d.roles[0] == Background(REQ, OPTS, HINT, Exiting) && d.holds == map[]
    ensures Calm(v) && v == d.(roles := d.roles - {0}, tables := d.tables.(cancels := d.tables.cancels - {EP}))
  {
    hide Only, RoleFrom, Started, KeepsLooking, KeepsRestoring, Moves, KeepsMarked, KeepsCreating, Reached;
    Quiet(d, ExitJoin(0));
    v := Apply(d, ExitJoin(0));
  }

  /** No thread runs, no save is pending, and the endpoint has a running manager and no record. */
  ghost predicate Orphaned(v: World) {
    Calm(v) && v.roles == map[] && v.holds == map[] &&
    Ownership.Registered(v, 0) && v.tables.managers == map[EP := 0] && v.tables.records == map[]
  }

  /** Leave's mark is gone with its own deferred removal, so a Join thread that is slow to
      start registers a manager for an endpoint that has left. */
  lemma LateJoinSurvivesLeave()
    ensures exists v :: Orphaned(v)
  {
    hide Apply, Calm;
    var a := ReachJoined();
    var b := LeaveRuns(a, 1);
    var c := StartManager(b, 0, 0, EP);
    var d := LateCommit(c);
    var v := JoinEnds(d);
    assert Orphaned(v);
  }

  /** Join's background thread does not get its namespace, and ends. */
  lemma JoinGivesUp(w: World) returns (v: World)
    requires Calm(w) && 0 in w.roles && w.roles[0] == Background(REQ, OPTS, HINT, Starting)
    requires w.holds == map[] && 9 !in w.lives
    ensures Calm(v) && v == w.(roles := w.roles - {0}, tables := w.tables.(cancels := w.tables.cancels - {EP}))
  {
    hide Only, RoleFrom, Started, KeepsLooking, KeepsRestoring, Moves, KeepsMarked, KeepsCreating, Reached;
    Quiet(w, OpenNs(0, 9, false));
    var a := Apply(w, OpenNs(0, 9, false));
    assert a == w.(roles := w.roles[0 := Background(REQ, OPTS, HINT, Exiting)]);
    v := JoinEnds(a);
    assert v.roles == w.roles - {0};
  }

  lemma RestoreEnds(w: World) returns (v: World)
    requires Calm(w) && w.roles == map[1 := Restoring([], Next)] && w.holds == map[]
    ensures Calm(v) && v == w.(roles := map[])
  {
    hide Only, RoleFrom, Started, KeepsLooking, KeepsRestoring, Moves, KeepsMarked, KeepsCreating, Reached;
    Quiet(w, RestoreNext(1));
    v := Apply(w, RestoreNext(1));
    assert v.roles == map[];
  }

  /** Restore does the same: it read the record before a Leave removed it, and commits after
      the Leave's mark has gone. */
  lemma LateRestoreSurvivesLeave()
    ensures exists v :: Orphaned(v)
  {
    hide Apply, Reached;
    var a := ReachJoined();
    var b := RestoreStarts(a);
    var c := LeaveRuns(b, 2);
    var d := RestoreCommits(c);
    var e := JoinGivesUp(d);
    assert e.roles == map[1 := Restoring([], Next)];
    var v := RestoreEnds(e);
    assert Orphaned(v);
  }

  // -------------------------------------------------------------------------
  // Saves out of order
  // -------------------------------------------------------------------------

  lemma DeleteBegins(w: World) returns (v: World)
    requires Persisted(w)
    ensures Reached(v, map[1 := 0]) && v == w.(roles := w.roles[1 := Deleting(EP)])
  {
    hide Only, RoleFrom, Started, KeepsLooking, KeepsRestoring, Moves, KeepsMarked, KeepsCreating, Reached;
    Go(w, map[1 := 0], BeginDelete(1, EP));
    v := Apply(w, BeginDelete(1, EP));
    assert NextWaiting(w, v, BeginDelete(1, EP), map[1 := 0]) == map[1 := 0];
  }

  /** DeleteEndpoint has removed the record while Join still waits to save it. */
  lemma DeleteRemoves(w: World) returns (v: World)
    requires Persisted(w)
    ensures Reached(v, map[1 := 0, 2 := 1]) && v.tables.records == map[] && v.netWrites == map[]
    ensures v.stateWrites == map[1 := map[EP := RECORD], 2 := map[]]
  {
    hide Only, RoleFrom, Started, KeepsLooking, KeepsRestoring, Moves, KeepsMarked, KeepsCreating, Reached;
    var a := DeleteBegins(w);
    Go(a, map[1 := 0], FinishDelete(1));
    v := Apply(a, FinishDelete(1));
    assert v.tables.records == map[];
    assert v.stateWrites == map[1 := map[EP := RECORD], 2 := map[]];
    assert NextWaiting(a, v, FinishDelete(1), map[1 := 0]) == map[1 := 0, 2 := 1];
  }

  lemma NewerSaveFirst(b: World) returns (v: World)
    requires Reached(b, map[1 := 0, 2 := 1]) && b.stateWrites == map[1 := map[EP := RECORD], 2 := map[]] &&
      b.netWrites == map[]
    ensures Reached(v, map[1 := 0]) && v == b.(stateWrites := map[1 := map[EP := RECORD]], stateFile := [])
  {
    hide Only, RoleFrom, Started, KeepsLooking, KeepsRestoring, Moves, KeepsMarked, KeepsCreating, Reached,
      StateFile.Lists, StateFile.StampAll, StateFile.Reloads;
    NothingListed();
    var step := WriteState(2, true, []);
    Go(b, map[1 := 0, 2 := 1], step);
    v := Apply(b, step);
    assert v.stateWrites == map[1 := map[EP := RECORD]];
    assert NextWaiting(b, v, step, map[1 := 0, 2 := 1]) == map[1 := 0];
  }

  /** The snapshot that still has the record takes the save lock after the one that dropped
      it. No save is pending, yet the disk holds a record that memory has removed, and a
      restart brings it back. */
  lemma OlderSnapshotWins()
    ensures exists v :: (
      Calm(v) && v.tables.records == map[] && Apply(v, Crash).tables.records == map[EP := StateFile.Stamp(RECORD)])
  {
    hide Apply, Reached;
    var a := ReachPersisted();
    var b := DeleteRemoves(a);
    var c := NewerSaveFirst(b);
    var v := SaveRecord(c, 0);
    OneListed();
    Disk.CrashEffect(v);
  }

  // -------------------------------------------------------------------------
  // A Join overtakes CreateEndpoint
  // -------------------------------------------------------------------------

  const MAC_OPTS := NetOptions("eth0", MACVLAN, false, 0, false)

  /** The program reaches `v` from the first boot by a run with these many CreateEndpoint calls
      for the endpoint and these many Joins past the hint check. */
  ghost predicate ReachedWith(v: World, waiting: map<nat, Tid>, calls: nat, takes: nat) {
    exists steps ::
      NoCrash(steps) && Ordered(Boot([], []), steps) && After(Boot([], []), steps) == v &&
      Waiting(Boot([], []), steps) == waiting &&
      Hints.Count(Boot([], []), steps, (u, s) => Hints.Calls(u, s, EP)) == calls &&
      Hints.Count(Boot([], []), steps, (u, s) => Hints.Takes(u, s, EP)) == takes
  }

  lemma CountStep(v: World, waiting: map<nat, Tid>, calls: nat, takes: nat, step: Step)
    requires ReachedWith(v, waiting, calls, takes) && !step.Crash? && MayStep(waiting, step)
    ensures ReachedWith(Apply(v, step), NextWaiting(v, Apply(v, step), step, waiting),
      calls + Bit(Hints.Calls(v, step, EP)), takes + Bit(Hints.Takes(v, step, EP)))
  {
    hide Apply, Hints.Calls, Hints.Takes, Boot, MayStep, NextWaiting;
    var steps :|
      NoCrash(steps) && Ordered(Boot([], []), steps) && After(Boot([], []), steps) == v &&
      Waiting(Boot([], []), steps) == waiting &&
      Hints.Count(Boot([], []), steps, (u, s) => Hints.Calls(u, s, EP)) == calls &&
      Hints.Count(Boot([], []), steps, (u, s) => Hints.Takes(u, s, EP)) == takes;
    OrderedSnoc(Boot([], []), steps, step);
    AfterSnoc(Boot([], []), steps, step);
    assert (steps + [step])[..|steps|] == steps;
    assert NoCrash(steps + [step]);
  }

  /** A step after which no thread waits for a save. */
  lemma GoOn(v: World, calls: nat, takes: nat, step: Step) returns (u: World)
    requires ReachedWith(v, map[], calls, takes) && !step.Crash?
    requires Threaded(step) ==> Apply(v, step).ticket == v.ticket
    ensures u == Apply(v, step)
    ensures ReachedWith(u, map[], calls + Bit(Hints.Calls(v, step, EP)), takes + Bit(Hints.Takes(v, step, EP)))
  {
    hide Apply, ReachedWith, Hints.Calls, Hints.Takes;
    u := Apply(v, step);
    CountStep(v, map[], calls, takes, step);
    assert NextWaiting(v, u, step, map[]) == map[];
  }

  ghost predicate NoJoin(v: World) {
    v.holds == map[] && NET in v.tables.networks && CachedOptions(v.tables.networks[NET]) == MAC_OPTS
  }

  lemma BootReachedWith()
    ensures ReachedWith(Boot([], []), map[], 0, 0)
  {
    hide Apply, Boot;
    var w := Boot([], []);
    assert NoCrash([]) && Ordered(w, []) && Waiting(w, []) == map[];
    assert After(w, []) == w && Hints.Count(w, [], (u, s) => Hints.Calls(u, s, EP)) == 0 &&
      Hints.Count(w, [], (u, s) => Hints.Takes(u, s, EP)) == 0;
  }

  lemma MakeMacvlan() returns (v: World)
    ensures ReachedWith(v, map[], 0, 0) && NoJoin(v) && v.roles == map[] && v.tables.hints == map[]
  {
    hide Only, RoleFrom, Started, KeepsLooking, KeepsRestoring, Moves, KeepsMarked, KeepsCreating, ReachedWith;
    BootReachedWith();
    var w := Boot([], []);
    v := GoOn(w, 0, 0, Step.CreateNetwork(NET, MAC_OPTS));
  }

  /** CreateEndpoint has stored the interface index and waits for its lease. */
  lemma HalfHint() returns (v: World)
    ensures ReachedWith(v, map[], 1, 0) && NoJoin(v)
    ensures v.roles == map[0 := Creating(NET, EP, MAC_OPTS, GetV4)]
    ensures v.tables.hints == map[EP := Hint(None, None, "", 7)]
  {
    hide Only, RoleFrom, Started, KeepsLooking, KeepsRestoring, Moves, KeepsMarked, KeepsCreating, ReachedWith;
    var a := MakeMacvlan();
    var b := GoOn(a, 0, 0, BeginCreate(0, NET, EP));
    v := HalfHintFrom(b);
  }

  lemma HalfHintFrom(b: World) returns (v: World)
    requires ReachedWith(b, map[], 1, 0) && NoJoin(b) && b.roles == map[0 := Resolving(ForCreate(NET, EP), AskCache)]
    requires b.tables.hints == map[]
    ensures ReachedWith(v, map[], 1, 0) && NoJoin(v)
    ensures v.roles == map[0 := Creating(NET, EP, MAC_OPTS, GetV4)]
    ensures v.tables.hints == map[EP := Hint(None, None, "", 7)]
  {
    hide Only, RoleFrom, Started, KeepsLooking, KeepsRestoring, Moves, KeepsMarked, KeepsCreating, ReachedWith;
    var d := LinkUp(b);
    v := GoOn(d, 1, 0, IndexRead(0, 7));
    assert v.roles == map[0 := Creating(NET, EP, MAC_OPTS, GetV4)];
  }

  lemma LinkUp(b: World) returns (d: World)
    requires ReachedWith(b, map[], 1, 0) && NoJoin(b) && b.roles == map[0 := Resolving(ForCreate(NET, EP), AskCache)]
    requires b.tables.hints == map[]
    ensures ReachedWith(d, map[], 1, 0) && NoJoin(d) && d.roles == map[0 := Creating(NET, EP, MAC_OPTS, WriteIndex)]
    ensures d.tables.hints == map[]
  {
    hide Only, RoleFrom, Started, KeepsLooking, KeepsRestoring, Moves, KeepsMarked, KeepsCreating, ReachedWith;
    var c := GoOn(b, 1, 0, LookInCache(0));
    assert c.roles == map[0 := Creating(NET, EP, MAC_OPTS, AddLink)];
    d := GoOn(c, 1, 0, LinkAdded(0));
    assert d.roles == map[0 := Creating(NET, EP, MAC_OPTS, WriteIndex)];
  }

  /** A Join knows its options. */
  lemma JoinAsks(w: World, t: Tid, takes: nat) returns (v: World)
    requires ReachedWith(w, map[], 1, takes) && NoJoin(w) && t !in w.roles
    ensures ReachedWith(v, map[], 1, takes) && NoJoin(v) && v.tables.hints == w.tables.hints
    ensures v.roles == w.roles[t := Joining(REQ, MAC_OPTS)]
  {
    hide Only, RoleFrom, Started, KeepsLooking, KeepsRestoring, Moves, KeepsMarked, KeepsCreating, ReachedWith;
    var a := GoOn(w, 1, takes, BeginJoin(t, NET, EP, "sandbox"));
    v := GoOn(a, 1, takes, LookInCache(t));
    assert v.roles == w.roles[t := Joining(REQ, MAC_OPTS)];
  }

  /** A Join gets past the hint check. */
  lemma OneJoin(w: World, t: Tid, takes: nat, hint: Hint) returns (v: World)
    requires ReachedWith(w, map[], 1, takes) && NoJoin(w) && t !in w.roles && w.tables.hints == map[EP := hint]
    ensures ReachedWith(v, map[], 1, takes + 1) && NoJoin(v) && v.tables.hints == map[]
    ensures v.roles == w.roles[t := Persisting(REQ, MAC_OPTS, hint)]
  {
    hide Only, RoleFrom, Started, KeepsLooking, KeepsRestoring, Moves, KeepsMarked, KeepsCreating, ReachedWith;
    var b := JoinAsks(w, t, takes);
    v := GoOn(b, 1, takes, TakeHint(t));
    assert v.roles == w.roles[t := Persisting(REQ, MAC_OPTS, hint)];
    assert v.tables.hints == map[];
  }

  /** A Join has taken the half hint, and the lease that comes in afterwards makes another. */
  lemma HintAgain() returns (v: World)
    ensures ReachedWith(v, map[], 1, 1) && NoJoin(v) && 2 !in v.roles && v.tables.hints == map[EP := HINT]
  {
    hide Only, RoleFrom, Started, KeepsLooking, KeepsRestoring, Moves, KeepsMarked, KeepsCreating, ReachedWith;
    var a := HalfHint();
    var b := OneJoin(a, 1, 0, Hint(None, None, "", 7));
    v := GoOn(b, 1, 1, GotV4(0, "10.0.0.2/24", ""));
    assert v.tables.hints == map[EP := HINT];
  }

  /** Without the call order, one CreateEndpoint call serves two Joins, and the second one
      persists a macvlan record that no Restore can locate. */
  lemma OvertakingJoin()
    ensures exists v, waiting :: (
      ReachedWith(v, waiting, 1, 2) && EP in v.tables.records && !Locatable(v.tables.records[EP]))
  {
    hide Only, RoleFrom, Started, KeepsLooking, KeepsRestoring, Moves, KeepsMarked, KeepsCreating, ReachedWith,
      NextWaiting;
    var c := HintAgain();
    var d := OneJoin(c, 2, 1, HINT);
    CountStep(d, map[], 1, 2, Persist(2));
    var v := Apply(d, Persist(2));
    assert ReachedWith(v, NextWaiting(d, v, Persist(2), map[]), 1, 2);
    assert !Locatable(v.tables.records[EP]);
  }
}
