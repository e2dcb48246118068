/** Exactly when an endpoint has a manager in the table, in every state of every run. */
module ManagerHistory {
  import opened Types
  import opened TableOps
  import opened Protocol
  import Records
  import Latch

  /** A Join or Restore commit of `ep` registers its manager. */
  predicate Registers(w: World, step: Step, ep: EndpointId) {
    (step.CommitJoinStep? && CanCommitJoin(w, step.t) && w.holds[step.t].ep == ep && ep !in w.tables.left) ||
    (step.CommitRestoreStep? && CanCommitRestore(w, step.t) && w.holds[step.t].ep == ep &&
     RestoreVerdict(w.tables, ep).Registered?)
  }

  /** A Leave of `ep` goes through its first section, or the process dies. */
  predicate Unregisters(w: World, step: Step, ep: EndpointId) {
    step.Crash? || (step.EnterLeaveStep? && CanEnterLeave(w, step.t) && w.roles[step.t].ep == ep)
  }

  ghost predicate Effect(w: World, v: World, step: Step, ep: EndpointId) {
    ep in v.tables.managers <==>
      Registers(w, step, ep) || (ep in w.tables.managers && !Unregisters(w, step, ep))
  }

  lemma CrashEffect(w: World, ep: EndpointId)
    ensures Effect(w, Apply(w, Crash), Crash, ep)
  {
    hide Only, RoleFrom, Started, KeepsLooking, KeepsRestoring, Moves, KeepsMarked, KeepsCreating;
  }

  lemma OpenNsEffect(w: World, t: Tid, m: ManagerId, ok: bool, ep: EndpointId)
    ensures Effect(w, Apply(w, OpenNs(t, m, ok)), OpenNs(t, m, ok), ep)
  {
    hide Only, RoleFrom, Started, KeepsLooking, KeepsRestoring, Moves, KeepsMarked, KeepsCreating;
  }

  lemma OpenNlEffect(w: World, t: Tid, ok: bool, ep: EndpointId)
    ensures Effect(w, Apply(w, OpenNl(t, ok)), OpenNl(t, ok), ep)
  {
    hide Only, RoleFrom, Started, KeepsLooking, KeepsRestoring, Moves, KeepsMarked, KeepsCreating;
  }

  lemma StartEffect(w: World, t: Tid, ok: bool, ep: EndpointId)
    ensures Effect(w, Apply(w, StartClients(t, ok)), StartClients(t, ok), ep)
  {
    hide Locatable, Only, RoleFrom, Started, KeepsLooking, KeepsRestoring, Moves, KeepsMarked, KeepsCreating;
  }

  lemma StopEffect(w: World, t: Tid, ep: EndpointId)
    ensures Effect(w, Apply(w, StopHeld(t)), StopHeld(t), ep)
  {
    hide CanStop, AfterStop, Only, RoleFrom, Started, KeepsLooking, KeepsRestoring, Moves, KeepsMarked, KeepsCreating;
  }

  lemma TableEffects(t: Tables, c: EndpointId, m: ManagerId, ep: EndpointId)
    ensures ep in CommitJoin(t, c, m).managers <==> (ep == c && c !in t.left) || ep in t.managers
    ensures ep in CommitRestore(t, c, m).managers <==> (ep == c && RestoreVerdict(t, c).Registered?) || ep in t.managers
    ensures ep in EnterLeave(t, c).managers <==> ep in t.managers && ep != c
  {
  }

  lemma CommitJoinEffect(w: World, t: Tid, hostname: string, ep: EndpointId)
    ensures Effect(w, Apply(w, CommitJoinStep(t, hostname)), CommitJoinStep(t, hostname), ep)
  {
    hide CommitJoin, CommitRestore, EnterLeave, Only, RoleFrom, Started, KeepsLooking, KeepsRestoring, Moves,
      KeepsMarked, KeepsCreating;
    if CanCommitJoin(w, t) {
      TableEffects(w.tables, w.holds[t].ep, w.holds[t].m, ep);
    }
  }

  lemma CommitRestoreEffect(w: World, t: Tid, ep: EndpointId)
    ensures Effect(w, Apply(w, CommitRestoreStep(t)), CommitRestoreStep(t), ep)
  {
    hide CommitJoin, CommitRestore, EnterLeave, Only, RoleFrom, Started, KeepsLooking, KeepsRestoring, Moves,
      KeepsMarked, KeepsCreating;
    if CanCommitRestore(w, t) {
      TableEffects(w.tables, w.holds[t].ep, w.holds[t].m, ep);
    }
  }

  lemma EnterLeaveEffect(w: World, t: Tid, ep: EndpointId)
    ensures Effect(w, Apply(w, EnterLeaveStep(t)), EnterLeaveStep(t), ep)
  {
    hide CommitJoin, CommitRestore, EnterLeave, Only, RoleFrom, Started, KeepsLooking, KeepsRestoring, Moves,
      KeepsMarked, KeepsCreating;
    if CanEnterLeave(w, t) {
      TableEffects(w.tables, w.roles[t].ep, 0, ep);
    }
  }

  lemma QuietEffect(w: World, step: Step, ep: EndpointId)
    requires !step.Crash? && Owners !in Touched(step)
    ensures Effect(w, Apply(w, step), step, ep)
  {
    hide Apply, RoleFrom, Started, KeepsLooking, KeepsRestoring, Moves, KeepsMarked, KeepsCreating;
    StepFrame(w, step);
  }

  lemma StepEffect(w: World, step: Step, ep: EndpointId)
    ensures Effect(w, Apply(w, step), step, ep)
  {
    hide Apply, Effect;
    match step
    case Crash => CrashEffect(w, ep);
    case OpenNs(t, m, ok) => OpenNsEffect(w, t, m, ok, ep);
    case OpenNl(t, ok) => OpenNlEffect(w, t, ok, ep);
    case StartClients(t, ok) => StartEffect(w, t, ok, ep);
    case StopHeld(t) => StopEffect(w, t, ep);
    case CommitJoinStep(t, hostname) => CommitJoinEffect(w, t, hostname, ep);
    case CommitRestoreStep(t) => CommitRestoreEffect(w, t, ep);
    case EnterLeaveStep(t) => EnterLeaveEffect(w, t, ep);
    case _ => QuietEffect(w, step, ep);
  }

  /** A commit of `ep` registered a manager among the first `n` steps, and since then no Leave
      of it came, and no crash. */
  ghost predicate RegisteredSince(w: World, steps: seq<Step>, n: nat, ep: EndpointId) {
    Latch.On(n, At(w, steps, (v, s) => Registers(v, s, ep)), At(w, steps, (v, s) => Unregisters(v, s, ep)))
  }

  lemma {:induction false} ManagedUpTo(w: World, steps: seq<Step>, n: nat, ep: EndpointId)
    requires n <= |steps| && ep !in w.tables.managers
    ensures ep in After(w, steps[..n]).tables.managers <==> RegisteredSince(w, steps, n, ep)
  {
    hide Apply, Registers, Unregisters, Latch.On;
    var sets, clears := At(w, steps, (v, s) => Registers(v, s, ep)), At(w, steps, (v, s) => Unregisters(v, s, ep));
    if n == 0 {
      assert steps[..0] == [];
      Latch.Never(sets, clears);
    } else {
      ManagedUpTo(w, steps, n - 1, ep);
      assert steps[..n][..n - 1] == steps[..n - 1];
      StepEffect(After(w, steps[..n - 1]), steps[n - 1], ep);
      Latch.Next(n - 1, sets, clears);
    }
  }

  /** In every state of every run, an endpoint is managed exactly if a commit registered it and
      no Leave of it has come since; and it is managed without a record, as one that has left
      should never be, exactly if moreover the last word on its record is none: a removal, or
      nothing at all. */
  lemma ManagedIff(w: World, steps: seq<Step>, ep: EndpointId)
    requires ep !in w.tables.managers
    ensures var t := After(w, steps).tables;
      var managed := RegisteredSince(w, steps, |steps|, ep);
      (ep in t.managers <==> managed) &&
      (ep in t.managers && ep !in t.records <==> managed && Records.LastWord(w, steps, ep).None?)
  {
    hide After, RegisteredSince, Records.LastWord;
    assert steps[..|steps|] == steps;
    ManagedUpTo(w, steps, |steps|, ep);
    Records.RecordIsLastWord(w, steps, ep);
  }
}
