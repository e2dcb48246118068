/** Hints are linear: every hint put into an empty slot is taken by one Join, dropped, or
    still there. */
module Hints {
  import opened Types
  import opened TableOps
  import opened Protocol
  import opened Carry
  import Coherence

  /** A CreateEndpoint of `ep` writes a part of the hint. */
  predicate Writes(w: World, step: Step, ep: EndpointId) {
    match step
    case IndexRead(t, index) => CreatingAt(w, t, WriteIndex) && index > 0 && w.roles[t].ep == ep
    case GotV4(t, _, _) => CreatingAt(w, t, GetV4) && w.roles[t].ep == ep
    case GotV6(t, _) => CreatingAt(w, t, GetV6) && w.roles[t].ep == ep
    case _ => false
  }

  /** ... and finds none, so that a new hint comes into being. */
  predicate Inserts(w: World, step: Step, ep: EndpointId) {
    Writes(w, step, ep) && ep !in w.tables.hints
  }

  /** A Join of `ep` gets past the hint check. */
  predicate Takes(w: World, step: Step, ep: EndpointId) {
    step.TakeHint? && Free(w, step.t) && w.roles[step.t].Joining? && w.roles[step.t].req.ep == ep &&
    ep in w.tables.hints
  }

  /** A failed CreateEndpoint cleans up, or the process dies. */
  predicate Drops(w: World, step: Step, ep: EndpointId) {
    ep in w.tables.hints &&
    (step.Crash? || (step.CreateUndone? && CreatingAt(w, step.t, Undo) && w.roles[step.t].ep == ep))
  }

  /** A CreateEndpoint of `ep` is called. */
  predicate Calls(w: World, step: Step, ep: EndpointId) {
    step.BeginCreate? && step.ep == ep && Idle(w, step.t)
  }

  function Count(w: World, steps: seq<Step>, p: (World, Step) -> bool): nat {
    if steps == [] then 0
    else
      var init := steps[..|steps| - 1];
      Count(w, init, p) + Bit(p(After(w, init), steps[|steps| - 1]))
  }

  lemma HintStep(w: World, step: Step, ep: EndpointId)
    ensures Balanced(w, Apply(w, step), step, ep)
  {
    hide Apply, Balanced;
    match step
    case Crash => CrashHint(w, ep);
    case IndexRead(t, index) => IndexReadHint(w, t, index, ep);
    case GotV4(t, ip, gateway) => GotV4Hint(w, t, ip, gateway, ep);
    case GotV6(t, ip) => GotV6Hint(w, t, ip, ep);
    case CreateUndone(t) => UndoneHint(w, t, ep);
    case TakeHint(t) => TakenHint(w, t, ep);
    case _ => OtherHint(w, step, ep);
  }

  lemma CrashHint(w: World, ep: EndpointId)
    ensures Balanced(w, Apply(w, Crash), Crash, ep)
  {
    hide Only, RoleFrom, Started, KeepsLooking, KeepsRestoring, Moves, KeepsMarked, KeepsCreating;
  }

  ghost predicate Balanced(w: World, w': World, step: Step, ep: EndpointId) {
    Bit(ep in w.tables.hints) + Bit(Inserts(w, step, ep)) ==
    Bit(ep in w'.tables.hints) + Bit(Takes(w, step, ep)) + Bit(Drops(w, step, ep))
  }

  lemma IndexReadHint(w: World, t: Tid, index: int, ep: EndpointId)
    ensures Balanced(w, Apply(w, IndexRead(t, index)), IndexRead(t, index), ep)
  {
    hide Only, RoleFrom, Started, KeepsLooking, KeepsRestoring, Moves, KeepsMarked;
  }

  lemma GotV4Keys(w: World, t: Tid, ip: string, gateway: string)
    ensures Apply(w, GotV4(t, ip, gateway)).tables.hints.Keys ==
      w.tables.hints.Keys + if CreatingAt(w, t, GetV4) then {w.roles[t].ep} else {}
  {
    hide PutV4, PutV6, PutIndex, Only, RoleFrom, Started, KeepsLooking, KeepsRestoring, Moves, KeepsMarked,
      KeepsCreating;
    if CreatingAt(w, t, GetV4) {
      PutV4Keys(w.tables, w.roles[t].ep, ip, gateway);
    }
  }

  lemma PutV4Keys(t: Tables, ep: EndpointId, ip: string, gateway: string)
    ensures PutV4(t, ep, ip, gateway).hints.Keys == t.hints.Keys + {ep}
  {
  }

  lemma GotV4Hint(w: World, t: Tid, ip: string, gateway: string, ep: EndpointId)
    ensures Balanced(w, Apply(w, GotV4(t, ip, gateway)), GotV4(t, ip, gateway), ep)
  {
    hide Apply;
    GotV4Keys(w, t, ip, gateway);
  }

  lemma GotV6Hint(w: World, t: Tid, ip: string, ep: EndpointId)
    ensures Balanced(w, Apply(w, GotV6(t, ip)), GotV6(t, ip), ep)
  {
    hide Only, RoleFrom, Started, KeepsLooking, KeepsRestoring, Moves, KeepsMarked;
  }

  lemma UndoneHint(w: World, t: Tid, ep: EndpointId)
    ensures Balanced(w, Apply(w, CreateUndone(t)), CreateUndone(t), ep)
  {
    hide Only, RoleFrom, Started, KeepsLooking, KeepsRestoring, Moves, KeepsMarked;
  }

  lemma TakenHint(w: World, t: Tid, ep: EndpointId)
    ensures Balanced(w, Apply(w, TakeHint(t)), TakeHint(t), ep)
  {
    hide Only, RoleFrom, Started, KeepsLooking, KeepsRestoring, Moves, KeepsMarked, KeepsCreating;
  }

  lemma OtherHint(w: World, step: Step, ep: EndpointId)
    requires !step.Crash? && Part.Hints !in Touched(step)
    ensures Balanced(w, Apply(w, step), step, ep)
  {
    hide Apply, RoleFrom, Started, KeepsLooking, KeepsRestoring, Moves, KeepsMarked, KeepsCreating;
    StepFrame(w, step);
  }

  /** Conservation: in every run, hints present at the start plus hints inserted are hints
      taken by Joins plus hints dropped plus the hint present at the end. */
  lemma {:induction false} HintsConserved(w: World, steps: seq<Step>, ep: EndpointId)
    ensures Bit(ep in w.tables.hints) + Count(w, steps, (v, s) => Inserts(v, s, ep)) ==
            Count(w, steps, (v, s) => Takes(v, s, ep)) + Count(w, steps, (v, s) => Drops(v, s, ep)) +
            Bit(ep in After(w, steps).tables.hints)
  {
    hide Apply, Inserts, Takes, Drops;
    if steps != [] {
      var init := steps[..|steps| - 1];
      HintsConserved(w, init, ep);
      HintStep(After(w, init), steps[|steps| - 1], ep);
    }
  }

  // -------------------------------------------------------------------------
  // With orderly calls
  // -------------------------------------------------------------------------

  /** A CreateEndpoint of `ep` is in flight. */
  ghost predicate CreateCalled(w: World, ep: EndpointId) {
    exists t :: t in w.roles && ByCreator(w.roles[t], ep)
  }

  predicate ByCreator(r: Role, ep: EndpointId) {
    (r.Resolving? && r.req == ForCreate(r.req.net, ep)) || (r.Creating? && r.ep == ep)
  }

  /** Calls so far, against insertions so far: a call in flight that has left no hint has
      not used its insertion up. */
  ghost predicate Covered(w: World, ep: EndpointId, calls: nat, inserts: nat) {
    inserts <= calls && (CreateCalled(w, ep) && ep !in w.tables.hints ==> inserts < calls)
  }

  lemma CreateCalledStep(w: World, step: Step, ep: EndpointId)
    requires !step.Crash? && !Calls(w, step, ep)
    ensures CreateCalled(Apply(w, step), ep) ==> CreateCalled(w, ep)
  {
    hide Apply, RoleFrom, Started, KeepsLooking, KeepsRestoring, Moves, KeepsMarked, KeepsCreating;
    var w' := Apply(w, step);
    if CreateCalled(w', ep) {
      CreatorsOld(w, step, ep);
      StepFrame(w, step);
      var t :| t in w'.roles && ByCreator(w'.roles[t], ep);
      assert t in w.roles && ByCreator(w.roles[t], ep);
    }
  }

  lemma CreatorsOld(w: World, step: Step, ep: EndpointId)
    requires !step.Crash? && !Calls(w, step, ep)
    ensures var w' := Apply(w, step); var t := Actor(step);
      t in w'.roles && ByCreator(w'.roles[t], ep) ==> t in w.roles && ByCreator(w.roles[t], ep)
  {
    hide Apply, Only, KeepsLooking, KeepsRestoring, Moves, KeepsMarked, KeepsCreating;
    StepFrame(w, step);
  }

  lemma CoveredStep(w: World, step: Step, ep: EndpointId, calls: nat, inserts: nat)
    requires OneHandler(w) && Covered(w, ep, calls, inserts)
    ensures Covered(Apply(w, step), ep, calls + Bit(Calls(w, step, ep)), inserts + Bit(Inserts(w, step, ep)))
  {
    hide Apply, Inserts, Takes, Drops, Calls, CreateCalled, OneHandler;
    HintStep(w, step, ep);
    if step.Crash? {
      CrashCovered(w, ep);
    } else {
      if !Calls(w, step, ep) {
        CreateCalledStep(w, step, ep);
      }
      InsertsByCreate(w, step, ep);
      if Takes(w, step, ep) {
        TakenByJoin(w, step, ep);
      }
      if Drops(w, step, ep) {
        DroppedByCreate(w, step, ep);
      }
    }
  }

  lemma CrashCovered(w: World, ep: EndpointId)
    ensures !CreateCalled(Apply(w, Crash), ep) && !Inserts(w, Crash, ep)
  {
    hide Only, RoleFrom, Started, KeepsLooking, KeepsRestoring, Moves, KeepsMarked, KeepsCreating;
  }

  lemma InsertsByCreate(w: World, step: Step, ep: EndpointId)
    ensures Inserts(w, step, ep) ==> CreateCalled(w, ep) && ep !in w.tables.hints && !Calls(w, step, ep)
  {
    if Inserts(w, step, ep) {
      assert ByCreator(w.roles[step.t], ep);
    }
  }

  lemma TakenByJoin(w: World, step: Step, ep: EndpointId)
    requires OneHandler(w) && Takes(w, step, ep)
    ensures !CreateCalled(w, ep) && !Calls(w, step, ep)
  {
    JoinExcludesCreate(w, step.t, ep);
  }

  lemma DroppedByCreate(w: World, step: Step, ep: EndpointId)
    requires OneHandler(w) && Drops(w, step, ep) && !step.Crash?
    ensures !CreateCalled(Apply(w, step), ep)
  {
    hide Only, RoleFrom, Started, KeepsLooking, KeepsRestoring, Moves, KeepsMarked, KeepsCreating;
    UndoEndsCreate(w, step.t, ep);
  }

  lemma CreatorHandles(r: Role, ep: EndpointId)
    ensures ByCreator(r, ep) ==> HandlerOf(r) == Some(ep)
  {
  }

  lemma JoinExcludesCreate(w: World, t: Tid, ep: EndpointId)
    requires OneHandler(w) && Takes(w, TakeHint(t), ep)
    ensures !CreateCalled(w, ep)
  {
    assert HandlerOf(w.roles[t]) == Some(ep);
    forall u | u in w.roles ensures !ByCreator(w.roles[u], ep) {
      CreatorHandles(w.roles[u], ep);
    }
  }

  lemma UndoEndsCreate(w: World, t: Tid, ep: EndpointId)
    requires OneHandler(w) && Drops(w, CreateUndone(t), ep)
    ensures !CreateCalled(DoCreateUndone(w, t), ep)
  {
    var w' := DoCreateUndone(w, t);
    assert HandlerOf(w.roles[t]) == Some(ep);
    forall u | u in w'.roles ensures !ByCreator(w'.roles[u], ep) {
      CreatorHandles(w.roles[u], ep);
    }
  }

  lemma {:induction false} CoveredRun(netOf: Membership, w: World, steps: seq<Step>, ep: EndpointId)
    requires OneHandler(w) && OrderlyRun(netOf, w, steps) && !CreateCalled(w, ep)
    ensures OneHandler(After(w, steps))
    ensures Covered(After(w, steps), ep, Count(w, steps, (v, s) => Calls(v, s, ep)),
      Count(w, steps, (v, s) => Inserts(v, s, ep)))
  {
    hide Apply, Covered, Calls, Inserts, OneHandler;
    if steps != [] {
      var init := steps[..|steps| - 1];
      assert forall i | 0 <= i < |init| :: init[..i] == steps[..i];
      CoveredRun(netOf, w, init, ep);
      OneHandlerStep(netOf, After(w, init), steps[|steps| - 1]);
      CoveredStep(After(w, init), steps[|steps| - 1], ep,
        Count(w, init, (v, s) => Calls(v, s, ep)), Count(w, init, (v, s) => Inserts(v, s, ep)));
    } else {
      NothingCovered(w, ep);
    }
  }

  lemma NothingCovered(w: World, ep: EndpointId)
    requires !CreateCalled(w, ep)
    ensures Covered(w, ep, 0, 0)
  {
  }

  /** With orderly calls, Joins past the hint check never outnumber the CreateEndpoint calls
      of that endpoint, even together with the hints dropped and the one still there. */
  lemma JoinsNeverOutnumberCreates(netOf: Membership, w: World, steps: seq<Step>, ep: EndpointId)
    requires OneHandler(w) && OrderlyRun(netOf, w, steps) && !CreateCalled(w, ep) && ep !in w.tables.hints
    ensures Count(w, steps, (v, s) => Takes(v, s, ep)) + Count(w, steps, (v, s) => Drops(v, s, ep)) +
              Bit(ep in After(w, steps).tables.hints)
            <= Count(w, steps, (v, s) => Calls(v, s, ep))
  {
    HintsConserved(w, steps, ep);
    CoveredRun(netOf, w, steps, ep);
    hide Apply, After, Count;
  }
}
