/** Exactly when a hint, each of its fields, and so the record a Join makes of it, is there:
    for every run, with no assumption on the order of calls. */
module HintHistory {
  import opened Types
  import opened TableOps
  import opened Protocol
  import opened Hints
  import Latch

  // -------------------------------------------------------------------------
  // The fields of a hint
  // -------------------------------------------------------------------------

  predicate SetsIndex(w: World, step: Step, ep: EndpointId) {
    step.IndexRead? && Writes(w, step, ep)
  }

  predicate SetsV4(w: World, step: Step, ep: EndpointId) {
    step.GotV4? && Writes(w, step, ep)
  }

  predicate SetsV6(w: World, step: Step, ep: EndpointId) {
    step.GotV6? && Writes(w, step, ep)
  }

  /** A Join takes the hint, or a failed CreateEndpoint or a crash drops it. */
  predicate Clears(w: World, step: Step, ep: EndpointId) {
    Takes(w, step, ep) || Drops(w, step, ep)
  }

  predicate HasIndex(t: Tables, ep: EndpointId) {
    ep in t.hints && t.hints[ep].ifIndex != 0
  }

  predicate HasV4(t: Tables, ep: EndpointId) {
    ep in t.hints && t.hints[ep].ipv4.Some?
  }

  predicate HasV6(t: Tables, ep: EndpointId) {
    ep in t.hints && t.hints[ep].ipv6.Some?
  }

  ghost predicate Effect(w: World, t: Tables, step: Step, ep: EndpointId) {
    (ep in t.hints <==> Writes(w, step, ep) || (ep in w.tables.hints && !Clears(w, step, ep))) &&
    (HasIndex(t, ep) <==> SetsIndex(w, step, ep) || (HasIndex(w.tables, ep) && !Clears(w, step, ep))) &&
    (HasV4(t, ep) <==> SetsV4(w, step, ep) || (HasV4(w.tables, ep) && !Clears(w, step, ep))) &&
    (HasV6(t, ep) <==> SetsV6(w, step, ep) || (HasV6(w.tables, ep) && !Clears(w, step, ep)))
  }

  lemma CrashEffect(w: World, ep: EndpointId)
    ensures Effect(w, Apply(w, Crash).tables, Crash, ep)
  {
    hide Only, RoleFrom, Started, KeepsLooking, KeepsRestoring, Moves, KeepsMarked, KeepsCreating;
  }

  lemma IndexEffect(w: World, t: Tid, index: int, ep: EndpointId)
    ensures Effect(w, Apply(w, IndexRead(t, index)).tables, IndexRead(t, index), ep)
  {
    hide Effect, PutIndex, Only, RoleFrom, Started, KeepsLooking, KeepsRestoring, Moves, KeepsMarked, KeepsCreating;
    if CreatingAt(w, t, WriteIndex) && index > 0 {
      IndexPut(w, t, index, ep);
    } else {
      Unchanged(w, IndexRead(t, index), ep);
    }
  }

  lemma IndexPut(w: World, t: Tid, index: int, ep: EndpointId)
    requires CreatingAt(w, t, WriteIndex) && index > 0
    ensures Effect(w, PutIndex(w.tables, w.roles[t].ep, index), IndexRead(t, index), ep)
  {
  }

  lemma V4Effect(w: World, t: Tid, ip: string, gateway: string, ep: EndpointId)
    ensures Effect(w, Apply(w, GotV4(t, ip, gateway)).tables, GotV4(t, ip, gateway), ep)
  {
    hide Effect, PutV4, Only, RoleFrom, Started, KeepsLooking, KeepsRestoring, Moves, KeepsMarked, KeepsCreating;
    if CreatingAt(w, t, GetV4) {
      V4Put(w, t, ip, gateway, ep);
    } else {
      Unchanged(w, GotV4(t, ip, gateway), ep);
    }
  }

  lemma V4Put(w: World, t: Tid, ip: string, gateway: string, ep: EndpointId)
    requires CreatingAt(w, t, GetV4)
    ensures Effect(w, PutV4(w.tables, w.roles[t].ep, ip, gateway), GotV4(t, ip, gateway), ep)
  {
  }

  lemma V6Effect(w: World, t: Tid, ip: string, ep: EndpointId)
    ensures Effect(w, Apply(w, GotV6(t, ip)).tables, GotV6(t, ip), ep)
  {
    hide Effect, PutV6, Only, RoleFrom, Started, KeepsLooking, KeepsRestoring, Moves, KeepsMarked, KeepsCreating;
    if CreatingAt(w, t, GetV6) {
      V6Put(w, t, ip, ep);
    } else {
      Unchanged(w, GotV6(t, ip), ep);
    }
  }

  lemma V6Put(w: World, t: Tid, ip: string, ep: EndpointId)
    requires CreatingAt(w, t, GetV6)
    ensures Effect(w, PutV6(w.tables, w.roles[t].ep, ip), GotV6(t, ip), ep)
  {
  }

  lemma Unchanged(w: World, step: Step, ep: EndpointId)
    requires !Writes(w, step, ep) && !Clears(w, step, ep)
    ensures Effect(w, w.tables, step, ep)
  {
  }

  lemma UndoneEffect(w: World, t: Tid, ep: EndpointId)
    ensures Effect(w, Apply(w, CreateUndone(t)).tables, CreateUndone(t), ep)
  {
    hide Only, RoleFrom, Started, KeepsLooking, KeepsRestoring, Moves, KeepsMarked, KeepsCreating;
  }

  lemma TakenEffect(w: World, t: Tid, ep: EndpointId)
    ensures Effect(w, Apply(w, TakeHint(t)).tables, TakeHint(t), ep)
  {
    hide Effect, DropHint, Only, RoleFrom, Started, KeepsLooking, KeepsRestoring, Moves, KeepsMarked, KeepsCreating;
    if Free(w, t) && w.roles[t].Joining? && w.roles[t].req.ep in w.tables.hints {
      HintTaken(w, t, ep);
    } else {
      Unchanged(w, TakeHint(t), ep);
    }
  }

  lemma HintTaken(w: World, t: Tid, ep: EndpointId)
    requires Free(w, t) && w.roles[t].Joining? && w.roles[t].req.ep in w.tables.hints
    ensures Effect(w, DropHint(w.tables, w.roles[t].req.ep), TakeHint(t), ep)
  {
  }

  lemma OtherEffect(w: World, step: Step, ep: EndpointId)
    requires !step.Crash? && Part.Hints !in Touched(step)
    ensures Effect(w, Apply(w, step).tables, step, ep)
  {
    hide Apply, Writes, Clears, RoleFrom, Started, KeepsLooking, KeepsRestoring, Moves, KeepsMarked, KeepsCreating;
    QuietStep(w, step, ep);
    StepFrame(w, step);
  }

  lemma QuietStep(w: World, step: Step, ep: EndpointId)
    requires !step.Crash? && Part.Hints !in Touched(step)
    ensures !Writes(w, step, ep) && !Clears(w, step, ep)
  {
  }

  lemma StepEffect(w: World, step: Step, ep: EndpointId)
    ensures Effect(w, Apply(w, step).tables, step, ep)
  {
    hide Apply, Effect;
    match step
    case Crash => CrashEffect(w, ep);
    case IndexRead(t, index) => IndexEffect(w, t, index, ep);
    case GotV4(t, ip, gateway) => V4Effect(w, t, ip, gateway, ep);
    case GotV6(t, ip) => V6Effect(w, t, ip, ep);
    case CreateUndone(t) => UndoneEffect(w, t, ep);
    case TakeHint(t) => TakenEffect(w, t, ep);
    case _ => OtherEffect(w, step, ep);
  }

  /** A step that `sets` came among the first `n`, and no take and no drop since. */
  ghost predicate Since(w: World, steps: seq<Step>, n: nat, ep: EndpointId, sets: (World, Step, EndpointId) -> bool) {
    Latch.On(n, At(w, steps, (v, s) => sets(v, s, ep)), At(w, steps, (v, s) => Clears(v, s, ep)))
  }

  lemma SinceNext(w: World, steps: seq<Step>, n: nat, ep: EndpointId, sets: (World, Step, EndpointId) -> bool)
    requires n < |steps|
    ensures var u := After(w, steps[..n]);
      Since(w, steps, n + 1, ep, sets) <==>
        sets(u, steps[n], ep) || (Since(w, steps, n, ep, sets) && !Clears(u, steps[n], ep))
  {
    hide After, Clears, Latch.On;
    Latch.Next(n, At(w, steps, (v, s) => sets(v, s, ep)), At(w, steps, (v, s) => Clears(v, s, ep)));
  }

  lemma SinceNever(w: World, steps: seq<Step>, ep: EndpointId, sets: (World, Step, EndpointId) -> bool)
    ensures !Since(w, steps, 0, ep, sets)
  {
  }

  /** In every state of every run, a hint is there exactly if some part of it was written since
      the last take or drop, and has an interface index, an IPv4 or an IPv6 address exactly if
      that part was. */
  lemma {:induction false} HintIff(w: World, steps: seq<Step>, n: nat, ep: EndpointId)
    requires n <= |steps| && ep !in w.tables.hints
    ensures var t := After(w, steps[..n]).tables;
      (ep in t.hints <==> Since(w, steps, n, ep, Writes)) &&
      (HasIndex(t, ep) <==> Since(w, steps, n, ep, SetsIndex)) &&
      (HasV4(t, ep) <==> Since(w, steps, n, ep, SetsV4)) &&
      (HasV6(t, ep) <==> Since(w, steps, n, ep, SetsV6))
  {
    hide Apply, Writes, SetsIndex, SetsV4, SetsV6, Clears, HasIndex, HasV4, HasV6, Since;
    if n == 0 {
      NoFields(w, ep);
      SinceNever(w, steps, ep, Writes);
      SinceNever(w, steps, ep, SetsIndex);
      SinceNever(w, steps, ep, SetsV4);
      SinceNever(w, steps, ep, SetsV6);
    } else {
      HintIff(w, steps, n - 1, ep);
      assert steps[..n][..n - 1] == steps[..n - 1];
      StepEffect(After(w, steps[..n - 1]), steps[n - 1], ep);
      SinceNext(w, steps, n - 1, ep, Writes);
      SinceNext(w, steps, n - 1, ep, SetsIndex);
      SinceNext(w, steps, n - 1, ep, SetsV4);
      SinceNext(w, steps, n - 1, ep, SetsV6);
    }
  }

  lemma NoFields(w: World, ep: EndpointId)
    requires ep !in w.tables.hints
    ensures !HasIndex(w.tables, ep) && !HasV4(w.tables, ep) && !HasV6(w.tables, ep)
  {
  }

  // -------------------------------------------------------------------------
  // The values of the fields
  // -------------------------------------------------------------------------

  /** The index of the last IndexRead since the last take or drop, 0 if there was none. */
  function LastIndex(w: World, steps: seq<Step>, ep: EndpointId): int {
    if steps == [] then 0
    else
      var init, step := steps[..|steps| - 1], steps[|steps| - 1];
      NextIndex(After(w, init), step, ep, LastIndex(w, init, ep))
  }

  function NextIndex(w: World, step: Step, ep: EndpointId, before: int): int {
    if SetsIndex(w, step, ep) then step.index else if Clears(w, step, ep) then 0 else before
  }

  /** Address and gateway of the last GotV4 since the last take or drop. */
  function LastV4(w: World, steps: seq<Step>, ep: EndpointId): Option<(string, string)> {
    if steps == [] then None
    else
      var init, step := steps[..|steps| - 1], steps[|steps| - 1];
      NextV4(After(w, init), step, ep, LastV4(w, init, ep))
  }

  function NextV4(w: World, step: Step, ep: EndpointId, before: Option<(string, string)>): Option<(string, string)> {
    if SetsV4(w, step, ep) then Some((step.ip, step.gateway)) else if Clears(w, step, ep) then None else before
  }

  /** The address of the last GotV6 since the last take or drop. */
  function LastV6(w: World, steps: seq<Step>, ep: EndpointId): Option<string> {
    if steps == [] then None
    else
      var init, step := steps[..|steps| - 1], steps[|steps| - 1];
      NextV6(After(w, init), step, ep, LastV6(w, init, ep))
  }

  function NextV6(w: World, step: Step, ep: EndpointId, before: Option<string>): Option<string> {
    if SetsV6(w, step, ep) then Some(step.ip) else if Clears(w, step, ep) then None else before
  }

  /** The hint has these values; no hint counts as one with nothing in it. */
  predicate HasValues(h: Hint, index: int, v4: Option<(string, string)>, v6: Option<string>) {
    h.ifIndex == index && h.ipv6 == v6 &&
    if v4.Some? then h.ipv4 == Some(v4.value.0) && h.gateway == v4.value.1 else h.ipv4 == None && h.gateway == ""
  }

  predicate Valued(t: Tables, ep: EndpointId, index: int, v4: Option<(string, string)>, v6: Option<string>) {
    if ep in t.hints then HasValues(t.hints[ep], index, v4, v6) else index == 0 && v4.None? && v6.None?
  }

  /** The step takes the values along. */
  ghost predicate Follows(w: World, t: Tables, step: Step, ep: EndpointId) {
    forall index, v4, v6 | Valued(w.tables, ep, index, v4, v6) ::
      Valued(t, ep, NextIndex(w, step, ep, index), NextV4(w, step, ep, v4), NextV6(w, step, ep, v6))
  }

  lemma CrashFollows(w: World, ep: EndpointId)
    ensures Follows(w, Apply(w, Crash).tables, Crash, ep)
  {
    hide Only, RoleFrom, Started, KeepsLooking, KeepsRestoring, Moves, KeepsMarked, KeepsCreating;
  }

  lemma SameFollows(w: World, t: Tables, step: Step, ep: EndpointId)
    requires !Writes(w, step, ep) && !Clears(w, step, ep) && Find(t.hints, ep) == Find(w.tables.hints, ep)
    ensures Follows(w, t, step, ep)
  {
  }

  lemma IndexFollows(w: World, t: Tid, index: int, ep: EndpointId)
    ensures Follows(w, Apply(w, IndexRead(t, index)).tables, IndexRead(t, index), ep)
  {
    hide Follows, PutIndex, Only, RoleFrom, Started, KeepsLooking, KeepsRestoring, Moves, KeepsMarked, KeepsCreating;
    if CreatingAt(w, t, WriteIndex) && index > 0 {
      IndexWritten(w, t, index, ep);
    } else {
      SameFollows(w, w.tables, IndexRead(t, index), ep);
    }
  }

  lemma IndexWritten(w: World, t: Tid, index: int, ep: EndpointId)
    requires CreatingAt(w, t, WriteIndex) && index > 0
    ensures Follows(w, PutIndex(w.tables, w.roles[t].ep, index), IndexRead(t, index), ep)
  {
  }

  lemma V4Follows(w: World, t: Tid, ip: string, gateway: string, ep: EndpointId)
    ensures Follows(w, Apply(w, GotV4(t, ip, gateway)).tables, GotV4(t, ip, gateway), ep)
  {
    hide Follows, PutV4, Only, RoleFrom, Started, KeepsLooking, KeepsRestoring, Moves, KeepsMarked, KeepsCreating;
    if CreatingAt(w, t, GetV4) {
      V4Written(w, t, ip, gateway, ep);
    } else {
      SameFollows(w, w.tables, GotV4(t, ip, gateway), ep);
    }
  }

  lemma V4Written(w: World, t: Tid, ip: string, gateway: string, ep: EndpointId)
    requires CreatingAt(w, t, GetV4)
    ensures Follows(w, PutV4(w.tables, w.roles[t].ep, ip, gateway), GotV4(t, ip, gateway), ep)
  {
  }

  lemma V6Follows(w: World, t: Tid, ip: string, ep: EndpointId)
    ensures Follows(w, Apply(w, GotV6(t, ip)).tables, GotV6(t, ip), ep)
  {
    hide Follows, PutV6, Only, RoleFrom, Started, KeepsLooking, KeepsRestoring, Moves, KeepsMarked, KeepsCreating;
    if CreatingAt(w, t, GetV6) {
      V6Written(w, t, ip, ep);
    } else {
      SameFollows(w, w.tables, GotV6(t, ip), ep);
    }
  }

  lemma V6Written(w: World, t: Tid, ip: string, ep: EndpointId)
    requires CreatingAt(w, t, GetV6)
    ensures Follows(w, PutV6(w.tables, w.roles[t].ep, ip), GotV6(t, ip), ep)
  {
  }

  /** A step that writes nothing of the hint leaves it or takes it away. */
  lemma OtherFollows(w: World, step: Step, ep: EndpointId)
    requires !step.Crash? && !step.IndexRead? && !step.GotV4? && !step.GotV6?
    ensures Follows(w, Apply(w, step).tables, step, ep)
  {
    hide Apply, Effect, Clears, HasValues;
    StepEffect(w, step, ep);
    HintStays(w, step, ep);
    NoWrite(w, step, ep);
    Gone(w, Apply(w, step).tables, step, ep);
  }

  lemma NoWrite(w: World, step: Step, ep: EndpointId)
    requires !step.IndexRead? && !step.GotV4? && !step.GotV6?
    ensures !Writes(w, step, ep)
  {
  }

  lemma Gone(w: World, t: Tables, step: Step, ep: EndpointId)
    requires Effect(w, t, step, ep) && !Writes(w, step, ep)
    ensures ep in t.hints <==> ep in w.tables.hints && !Clears(w, step, ep)
  {
  }

  lemma HintStays(w: World, step: Step, ep: EndpointId)
    requires !step.Crash? && !step.IndexRead? && !step.GotV4? && !step.GotV6?
    ensures ep in w.tables.hints && ep in Apply(w, step).tables.hints ==>
      Apply(w, step).tables.hints[ep] == w.tables.hints[ep]
  {
    hide Apply;
    match step
    case CreateUndone(t) => UndoneStays(w, t, ep);
    case TakeHint(t) => TakenStays(w, t, ep);
    case _ => QuietStays(w, step);
  }

  lemma UndoneStays(w: World, t: Tid, ep: EndpointId)
    ensures var t' := Apply(w, CreateUndone(t)).tables;
      ep in w.tables.hints && ep in t'.hints ==> t'.hints[ep] == w.tables.hints[ep]
  {
    hide Only, RoleFrom, Started, KeepsLooking, KeepsRestoring, Moves, KeepsMarked, KeepsCreating;
  }

  lemma TakenStays(w: World, t: Tid, ep: EndpointId)
    ensures var t' := Apply(w, TakeHint(t)).tables;
      ep in w.tables.hints && ep in t'.hints ==> t'.hints[ep] == w.tables.hints[ep]
  {
    hide Only, RoleFrom, Started, KeepsLooking, KeepsRestoring, Moves, KeepsMarked, KeepsCreating;
  }

  lemma QuietStays(w: World, step: Step)
    requires !step.Crash? && Part.Hints !in Touched(step)
    ensures Apply(w, step).tables.hints == w.tables.hints
  {
    hide Apply, RoleFrom, Started, KeepsLooking, KeepsMarked, KeepsCreating;
    StepFrame(w, step);
  }

  lemma StepFollows(w: World, step: Step, ep: EndpointId)
    ensures Follows(w, Apply(w, step).tables, step, ep)
  {
    hide Apply, Follows;
    match step
    case Crash => CrashFollows(w, ep);
    case IndexRead(t, index) => IndexFollows(w, t, index, ep);
    case GotV4(t, ip, gateway) => V4Follows(w, t, ip, gateway, ep);
    case GotV6(t, ip) => V6Follows(w, t, ip, ep);
    case _ => OtherFollows(w, step, ep);
  }

  /** In every state of every run, the values in a hint are those of the last IndexRead, GotV4
      and GotV6 of its endpoint since the last take or drop. */
  lemma {:induction false} HintValues(w: World, steps: seq<Step>, ep: EndpointId)
    requires ep !in w.tables.hints
    ensures Valued(After(w, steps).tables, ep, LastIndex(w, steps, ep), LastV4(w, steps, ep), LastV6(w, steps, ep))
  {
    hide Apply, NextIndex, NextV4, NextV6, HasValues;
    if steps != [] {
      var init := steps[..|steps| - 1];
      HintValues(w, init, ep);
      StepFollows(After(w, init), steps[|steps| - 1], ep);
      hide Valued;
    }
  }

  // -------------------------------------------------------------------------
  // The record a Join makes of its hint
  // -------------------------------------------------------------------------

  /** A Join's thread `t` gets past the hint check. */
  predicate TakesBy(w: World, step: Step, t: Tid) {
    step == TakeHint(t) && Free(w, t) && w.roles[t].Joining? && w.roles[t].req.ep in w.tables.hints
  }

  /** The step of the run at which `t` last took a hint. */
  function TakenAt(w: World, steps: seq<Step>, t: Tid): Option<nat> {
    if steps == [] then None
    else
      var n := |steps| - 1;
      if TakesBy(After(w, steps[..n]), steps[n], t) then Some(n) else TakenAt(w, steps[..n], t)
  }

  predicate HasHint(r: Role) {
    r.Persisting? || r.Background?
  }

  /** Where `t` took the hint it carries. */
  ghost predicate TookIt(u: World, r: Role, t: Tid)
    requires HasHint(r)
  {
    t in u.roles && u.roles[t] == Joining(r.req, r.opts) && r.req.ep in u.tables.hints &&
    u.tables.hints[r.req.ep] == r.hint
  }

  /** The role of `t` carries the hint it took or carried before. */
  ghost predicate Carried(w: World, v: World, step: Step, t: Tid) {
    t in v.roles && HasHint(v.roles[t]) ==>
      var r := v.roles[t];
      if TakesBy(w, step, t) then TookIt(w, r, t)
      else
        t in w.roles && HasHint(w.roles[t]) &&
        w.roles[t].req == r.req && w.roles[t].opts == r.opts && w.roles[t].hint == r.hint
  }

  lemma HintCarried(w: World, step: Step, t: Tid)
    requires !step.Crash?
    ensures Carried(w, Apply(w, step), step, t)
  {
    hide Apply, Carried;
    if t == Actor(step) {
      OwnCarried(w, step);
    } else {
      OtherCarried(w, step, t);
    }
  }

  lemma OtherCarried(w: World, step: Step, t: Tid)
    requires !step.Crash? && t != Actor(step)
    ensures Carried(w, Apply(w, step), step, t)
  {
    hide Apply, RoleFrom, Started, KeepsLooking, KeepsRestoring, Moves, KeepsMarked, KeepsCreating;
    StepFrame(w, step);
  }

  lemma OwnCarried(w: World, step: Step)
    requires !step.Crash?
    ensures Carried(w, Apply(w, step), step, Actor(step))
  {
    hide Apply, Effect, Offered, IsSnapshot, Only, KeepsLooking, KeepsRestoring, Moves, KeepsMarked, KeepsCreating;
    StepFrame(w, step);
    var t := Actor(step);
    var v := Apply(w, step);
    if t in v.roles && v.roles[t].Persisting? && t in w.roles && w.roles[t].Joining? {
      OnlyTaken(w, step);
    }
  }

  /** Only its own take turns a Join's hint into none. */
  lemma OnlyTaken(w: World, step: Step)
    requires Actor(step) in w.roles && w.roles[Actor(step)].Joining? && !step.Crash?
    requires var ep := w.roles[Actor(step)].req.ep; ep in w.tables.hints && ep !in Apply(w, step).tables.hints
    ensures TakesBy(w, step, Actor(step))
  {
    hide Apply;
    StepEffect(w, step, w.roles[Actor(step)].req.ep);
  }

  lemma {:induction false} HintFrom(w: World, steps: seq<Step>, t: Tid)
    requires w.roles == map[]
    ensures var v := After(w, steps);
      t in v.roles && HasHint(v.roles[t]) ==>
        var i := TakenAt(w, steps, t);
        i.Some? && i.value < |steps| && TookIt(After(w, steps[..i.value]), v.roles[t], t)
  {
    hide Apply, TakesBy;
    if steps != [] {
      var n := |steps| - 1;
      var init := steps[..n];
      HintFrom(w, init, t);
      if steps[n].Crash? {
        CrashRoles(After(w, init));
      } else {
        HintCarried(After(w, init), steps[n], t);
        assert forall i | 0 <= i <= n :: init[..i] == steps[..i];
      }
    }
  }

  lemma CrashRoles(w: World)
    ensures Apply(w, Crash).roles == map[]
  {
    hide Only, RoleFrom, Started, KeepsLooking, KeepsRestoring, Moves, KeepsMarked, KeepsCreating;
  }

  /** What a Join, or its background thread, knows is exactly what was written of the hint
      between the take or drop before and the take by this Join. */
  lemma TakenHintExact(w: World, steps: seq<Step>, t: Tid)
    requires w.roles == map[] && w.tables.hints == map[]
    requires t in After(w, steps).roles && HasHint(After(w, steps).roles[t])
    ensures var r, at := After(w, steps).roles[t], TakenAt(w, steps, t);
      at.Some? && at.value < |steps| &&
      (r.hint.ifIndex != 0 <==> Since(w, steps, at.value, r.req.ep, SetsIndex)) &&
      (r.hint.ipv4.Some? <==> Since(w, steps, at.value, r.req.ep, SetsV4)) &&
      (r.hint.ipv6.Some? <==> Since(w, steps, at.value, r.req.ep, SetsV6))
  {
    hide After, Since, TakenAt;
    HintFrom(w, steps, t);
    HintIff(w, steps, TakenAt(w, steps, t).value, After(w, steps).roles[t].req.ep);
  }

  /** ... and with the very values written: the address and gateway of the last IPv4 lease, the
      last IPv6 address and the last index. */
  lemma TakenValues(w: World, steps: seq<Step>, t: Tid)
    requires w.roles == map[] && w.tables.hints == map[]
    requires t in After(w, steps).roles && HasHint(After(w, steps).roles[t])
    ensures var r, at := After(w, steps).roles[t], TakenAt(w, steps, t);
      at.Some? && at.value < |steps| &&
      var before := steps[..at.value];
      HasValues(r.hint, LastIndex(w, before, r.req.ep), LastV4(w, before, r.req.ep), LastV6(w, before, r.req.ep))
  {
    hide After, TakenAt, LastIndex, LastV4, LastV6, HasValues;
    HintFrom(w, steps, t);
    HintValues(w, steps[..TakenAt(w, steps, t).value], After(w, steps).roles[t].req.ep);
  }

  /** The record a Join is about to persist can be located after a restart if and only if it
      is bridged, or CreateEndpoint read the interface index after the previous take or drop
      and before this Join took the hint. */
  lemma LocatableIff(w: World, steps: seq<Step>, t: Tid)
    requires w.roles == map[] && w.tables.hints == map[] && CanPersist(After(w, steps), t)
    ensures var r, at := After(w, steps).roles[t], TakenAt(w, steps, t);
      at.Some? &&
      (Locatable(PersistedRecord(r)) <==>
        NetMode(r.opts.mode) == BRIDGE || Since(w, steps, at.value, r.req.ep, SetsIndex))
  {
    hide After, Since, TakenAt;
    TakenHintExact(w, steps, t);
    ModeKept(After(w, steps).roles[t].opts.mode);
  }

  lemma ModeKept(mode: string)
    ensures NetMode(NetMode(mode)) == NetMode(mode)
  {
  }

  // -------------------------------------------------------------------------
  // Joins against calls
  // -------------------------------------------------------------------------

  /** Thread `t` calls CreateEndpoint, for whatever endpoint. */
  predicate NewCall(w: World, step: Step, t: Tid) {
    step.BeginCreate? && step.t == t && Idle(w, t)
  }

  /** The current CreateEndpoint call of `t` has put a hint of `ep` into an empty slot. */
  function Inserted(w: World, steps: seq<Step>, t: Tid, ep: EndpointId): bool {
    if steps == [] then false
    else
      var init, step := steps[..|steps| - 1], steps[|steps| - 1];
      var u := After(w, init);
      if NewCall(u, step, t) then false
      else (Inserts(u, step, ep) && step.t == t) || Inserted(w, init, t, ep)
  }

  /** Step `n` is the first insertion of its call. */
  predicate ProducesAt(w: World, steps: seq<Step>, n: nat, ep: EndpointId)
    requires n < |steps|
  {
    Inserts(After(w, steps[..n]), steps[n], ep) && !Inserted(w, steps[..n], steps[n].t, ep)
  }

  /** Step `n` is a further insertion of its call: one call has produced two hints. */
  predicate TwiceAt(w: World, steps: seq<Step>, n: nat, ep: EndpointId)
    requires n < |steps|
  {
    Inserts(After(w, steps[..n]), steps[n], ep) && Inserted(w, steps[..n], steps[n].t, ep)
  }

  /** The calls that have produced a hint. */
  function Producers(w: World, steps: seq<Step>, ep: EndpointId): nat {
    if steps == [] then 0
    else
      var n := |steps| - 1;
      Producers(w, steps[..n], ep) + Bit(ProducesAt(w, steps, n, ep))
  }

  ghost predicate EverTwice(w: World, steps: seq<Step>, ep: EndpointId) {
    exists n | 0 <= n < |steps| :: TwiceAt(w, steps, n, ep)
  }

  /** The CreateEndpoint calls of `ep` in flight that have not produced a hint. */
  ghost function Unproductive(w: World, steps: seq<Step>, ep: EndpointId): set<Tid> {
    var v := After(w, steps);
    set t | t in v.roles && ByCreator(v.roles[t], ep) && !Inserted(w, steps, t, ep)
  }

  lemma ActorOnly(w: World, step: Step, ep: EndpointId)
    requires !step.Crash?
    ensures forall u | u != Actor(step) :: u in Apply(w, step).roles <==> u in w.roles
    ensures forall u | u != Actor(step) && u in w.roles :: Apply(w, step).roles[u] == w.roles[u]
    ensures Inserts(w, step, ep) ==>
      Actor(step) in w.roles && ByCreator(w.roles[Actor(step)], ep) && step.t == Actor(step)
    ensures Calls(w, step, ep) ==> Actor(step) !in w.roles && NewCall(w, step, Actor(step))
    ensures NewCall(w, step, Actor(step)) ==> Actor(step) !in w.roles
  {
    hide Apply, RoleFrom, Started, KeepsLooking, KeepsRestoring, Moves, KeepsMarked, KeepsCreating;
    StepFrame(w, step);
  }

  lemma NewCallOnly(w: World, step: Step, u: Tid)
    ensures NewCall(w, step, u) ==> u == Actor(step) && !step.Crash?
  {
  }

  /** Apart from the thread of the step, the same calls are unproductive after it. */
  lemma UnproductiveOthers(w: World, steps: seq<Step>, ep: EndpointId)
    requires steps != [] && !steps[|steps| - 1].Crash?
    ensures var t := Actor(steps[|steps| - 1]);
      Unproductive(w, steps, ep) - {t} == Unproductive(w, steps[..|steps| - 1], ep) - {t}
  {
    var init, step := steps[..|steps| - 1], steps[|steps| - 1];
    var t := Actor(step);
    ActorOnly(After(w, init), step, ep);
    forall u | u != t ensures Inserted(w, steps, u, ep) == Inserted(w, init, u, ep) {
      NewCallOnly(After(w, init), step, u);
    }
    hide Apply, Inserts, Calls, NewCall, ByCreator;
  }

  /** The thread of the step joins the unproductive calls only by calling, and leaves them
      when it produces a hint. */
  lemma UnproductiveOwn(w: World, steps: seq<Step>, ep: EndpointId)
    requires steps != [] && !steps[|steps| - 1].Crash?
    ensures var n := |steps| - 1; var t := Actor(steps[n]);
      Bit(t in Unproductive(w, steps, ep)) + Bit(ProducesAt(w, steps, n, ep)) <=
      Bit(t in Unproductive(w, steps[..n], ep)) + Bit(Calls(After(w, steps[..n]), steps[n], ep))
  {
    hide Apply, Inserts, ByCreator, Calls;
    var init, step := steps[..|steps| - 1], steps[|steps| - 1];
    var u := After(w, init);
    ActorOnly(u, step, ep);
    if !Calls(u, step, ep) {
      CreatorsOld(u, step, ep);
    }
  }

  lemma UnproductiveStep(w: World, steps: seq<Step>, ep: EndpointId)
    requires steps != []
    ensures var n := |steps| - 1;
      |Unproductive(w, steps, ep)| + Bit(ProducesAt(w, steps, n, ep)) <=
      |Unproductive(w, steps[..n], ep)| + Bit(Calls(After(w, steps[..n]), steps[n], ep))
  {
    hide Apply, Inserts, ByCreator, Calls;
    var n := |steps| - 1;
    if steps[n].Crash? {
      CrashRoles(After(w, steps[..n]));
      assert Unproductive(w, steps, ep) == {};
      CrashInserts(After(w, steps[..n]), ep);
    } else {
      UnproductiveOthers(w, steps, ep);
      UnproductiveOwn(w, steps, ep);
      SizeWithout(Unproductive(w, steps, ep), Actor(steps[n]));
      SizeWithout(Unproductive(w, steps[..n], ep), Actor(steps[n]));
      hide Unproductive, ProducesAt;
    }
  }

  lemma CrashInserts(w: World, ep: EndpointId)
    ensures !Inserts(w, Crash, ep)
  {
  }

  /** In every run, the calls that have produced a hint, plus those in flight that have not,
      never exceed the CreateEndpoint calls. */
  lemma {:induction false} ProducersWithinCalls(w: World, steps: seq<Step>, ep: EndpointId)
    requires w.roles == map[]
    ensures Producers(w, steps, ep) + |Unproductive(w, steps, ep)| <= Count(w, steps, (v, s) => Calls(v, s, ep))
  {
    hide Apply, Calls, ProducesAt, Unproductive;
    if steps == [] {
      NoneUnproductive(w, ep);
    } else {
      ProducersWithinCalls(w, steps[..|steps| - 1], ep);
      UnproductiveStep(w, steps, ep);
    }
  }

  lemma NoneUnproductive(w: World, ep: EndpointId)
    requires w.roles == map[]
    ensures |Unproductive(w, [], ep)| == 0
  {
    assert Unproductive(w, [], ep) == {};
  }

  /** Insertions outnumber the calls that made one exactly if some call made two. */
  lemma {:induction false} InsertsWithinProducersIff(w: World, steps: seq<Step>, ep: EndpointId)
    ensures Producers(w, steps, ep) <= Count(w, steps, (v, s) => Inserts(v, s, ep))
    ensures Count(w, steps, (v, s) => Inserts(v, s, ep)) <= Producers(w, steps, ep) <==> !EverTwice(w, steps, ep)
  {
    hide After, Inserts, Inserted;
    if steps != [] {
      var n := |steps| - 1;
      var init := steps[..n];
      InsertsWithinProducersIff(w, init, ep);
      forall i | 0 <= i < n ensures TwiceAt(w, init, i, ep) <==> TwiceAt(w, steps, i, ep) {
        assert init[..i] == steps[..i];
      }
      hide TwiceAt;
      assert EverTwice(w, steps, ep) <==> EverTwice(w, init, ep) || TwiceAt(w, steps, n, ep);
    }
  }

  /** Hints are linear. In every run, whatever the order of calls, the calls that produced a
      hint never exceed the CreateEndpoint calls; and Joins past the hint check, drops and the
      hint left stay within the calls that produced one if and only if no call produced two. */
  lemma JoinsWithinCallsIff(w: World, steps: seq<Step>, ep: EndpointId)
    requires ep !in w.tables.hints && w.roles == map[]
    ensures
      var used := Count(w, steps, (v, s) => Takes(v, s, ep)) + Count(w, steps, (v, s) => Drops(v, s, ep)) +
        Bit(ep in After(w, steps).tables.hints);
      var producers := Producers(w, steps, ep);
      producers <= used &&
      producers <= Count(w, steps, (v, s) => Calls(v, s, ep)) &&
      (used <= producers <==> forall n | 0 <= n < |steps| :: !TwiceAt(w, steps, n, ep))
  {
    hide After, Count, Producers, Unproductive, TwiceAt;
    HintsConserved(w, steps, ep);
    InsertsWithinProducersIff(w, steps, ep);
    ProducersWithinCalls(w, steps, ep);
  }

  /** A call produces a second hint exactly if it writes again after a Join has taken, or
      something has dropped, what it and others had written. */
  lemma TwiceIff(w: World, steps: seq<Step>, n: nat, ep: EndpointId)
    requires n < |steps| && ep !in w.tables.hints
    ensures TwiceAt(w, steps, n, ep) <==>
      Writes(After(w, steps[..n]), steps[n], ep) && Inserted(w, steps[..n], steps[n].t, ep) &&
      !Since(w, steps, n, ep, Writes)
  {
    hide After, Inserted, Since;
    HintIff(w, steps, n, ep);
  }
}
