/** Where a CreateEndpoint stands is what has happened in it: the link, the index, the leases, and
    a failure. */
module CreateTale {
  import opened Types
  import opened TableOps
  import opened Protocol
  import opened HintHistory

  /** What has happened in the current call of a thread. */
  datatype Tale = Tale(link: bool, index: bool, v4: bool, failed: bool)

  const NOTHING := Tale(false, false, false, false)

  function NextTale(w: World, step: Step, t: Tid, tale: Tale): Tale {
    if NewCall(w, step, t) then NOTHING
    else if t !in w.roles || !w.roles[t].Creating? || t in w.holds then tale
    else
      match step
      case LinkAdded(u) => if u == t && w.roles[t].create == AddLink then tale.(link := true) else tale
      case IndexRead(u, index) =>
        if u == t && w.roles[t].create == WriteIndex && index > 0 then tale.(index := true) else tale
      case GotV4(u, _, _) => if u == t && w.roles[t].create == GetV4 then tale.(v4 := true) else tale
      case CreateFails(u) => if u == t && w.roles[t].create != Undo then tale.(failed := true) else tale
      case _ => tale
  }

  function TaleOf(w: World, steps: seq<Step>, t: Tid): Tale {
    if steps == [] then NOTHING
    else
      var init := steps[..|steps| - 1];
      NextTale(After(w, init), steps[|steps| - 1], t, TaleOf(w, init, t))
  }

  /** The index is read first unless the network is bridged, the IPv6 lease is for networks with
      IPv6, and only a call that has made its link and failed since cleans up. */
  predicate Tells(r: Role, tale: Tale) {
    match r
    case Resolving(req, _) => req.ForCreate? ==> tale == NOTHING
    case Creating(_, _, opts, p) =>
      var bridged := NetMode(opts.mode) == "bridge";
      (match p
       case AddLink => tale == NOTHING
       case WriteIndex => tale == Tale(true, false, false, false) && !bridged
       case GetV4 => tale == Tale(true, !bridged, false, false)
       case GetV6 => tale == Tale(true, !bridged, true, false) && opts.ipv6
       case Undo => tale.link && tale.failed)
    case _ => true
  }

  ghost predicate GoesOn(w: World, v: World, step: Step, t: Tid, tale: Tale) {
    (t in w.roles ==> Tells(w.roles[t], tale)) ==> t in v.roles ==> Tells(v.roles[t], NextTale(w, step, t, tale))
  }

  lemma LinkGoes(w: World, t: Tid, tale: Tale)
    ensures GoesOn(w, Apply(w, LinkAdded(t)), LinkAdded(t), t, tale)
  {
    hide Only, RoleFrom, Started, KeepsLooking, KeepsRestoring, Moves, KeepsMarked, KeepsCreating;
  }

  lemma IndexGoes(w: World, t: Tid, index: int, tale: Tale)
    ensures GoesOn(w, Apply(w, IndexRead(t, index)), IndexRead(t, index), t, tale)
  {
    hide PutIndex, Only, RoleFrom, Started, KeepsLooking, KeepsRestoring, Moves, KeepsMarked, KeepsCreating;
  }

  lemma V4Goes(w: World, t: Tid, ip: string, gateway: string, tale: Tale)
    ensures GoesOn(w, Apply(w, GotV4(t, ip, gateway)), GotV4(t, ip, gateway), t, tale)
  {
    hide PutV4, Only, RoleFrom, Started, KeepsLooking, KeepsRestoring, Moves, KeepsMarked, KeepsCreating;
  }

  lemma V6Goes(w: World, t: Tid, ip: string, tale: Tale)
    ensures GoesOn(w, Apply(w, GotV6(t, ip)), GotV6(t, ip), t, tale)
  {
    hide PutV6, Only, RoleFrom, Started, KeepsLooking, KeepsRestoring, Moves, KeepsMarked, KeepsCreating;
  }

  lemma FailGoes(w: World, t: Tid, tale: Tale)
    ensures GoesOn(w, Apply(w, CreateFails(t)), CreateFails(t), t, tale)
  {
    hide Only, RoleFrom, Started, KeepsLooking, KeepsRestoring, Moves, KeepsMarked, KeepsCreating;
  }

  lemma UndoneGoes(w: World, t: Tid, tale: Tale)
    ensures GoesOn(w, Apply(w, CreateUndone(t)), CreateUndone(t), t, tale)
  {
    hide Only, RoleFrom, Started, KeepsLooking, KeepsRestoring, Moves, KeepsMarked, KeepsCreating;
  }

  lemma NothingHappens(w: World, step: Step, t: Tid, tale: Tale)
    requires !(ByCreate(step) && Actor(step) == t)
    ensures NextTale(w, step, t, tale) == if NewCall(w, step, t) then NOTHING else tale
  {
  }

  lemma OwnGoes(w: World, step: Step, tale: Tale)
    requires !step.Crash? && !ByCreate(step)
    ensures GoesOn(w, Apply(w, step), step, Actor(step), tale)
  {
    hide Apply, NextTale, Offered, IsSnapshot, Only, KeepsLooking, KeepsMarked;
    StepFrame(w, step);
    NothingHappens(w, step, Actor(step), tale);
  }

  lemma OtherGoes(w: World, step: Step, t: Tid, tale: Tale)
    requires !step.Crash? && t != Actor(step)
    ensures GoesOn(w, Apply(w, step), step, t, tale)
  {
    hide Apply, NextTale, Tells, RoleFrom, Started, KeepsLooking, KeepsMarked, KeepsCreating;
    StepFrame(w, step);
    NothingHappens(w, step, t, tale);
    NewCallOnly(w, step, t);
  }

  lemma CrashGoes(w: World, t: Tid, tale: Tale)
    ensures GoesOn(w, Apply(w, Crash), Crash, t, tale)
  {
    hide Only, RoleFrom, Started, KeepsLooking, KeepsRestoring, Moves, KeepsMarked, KeepsCreating;
  }

  lemma StepGoes(w: World, step: Step, t: Tid, tale: Tale)
    ensures GoesOn(w, Apply(w, step), step, t, tale)
  {
    hide Apply, GoesOn;
    if step.Crash? {
      CrashGoes(w, t, tale);
    } else if t != Actor(step) {
      OtherGoes(w, step, t, tale);
    } else {
      match step
      case LinkAdded(_) => LinkGoes(w, t, tale);
      case IndexRead(_, index) => IndexGoes(w, t, index, tale);
      case GotV4(_, ip, gateway) => V4Goes(w, t, ip, gateway, tale);
      case GotV6(_, ip) => V6Goes(w, t, ip, tale);
      case CreateFails(_) => FailGoes(w, t, tale);
      case CreateUndone(_) => UndoneGoes(w, t, tale);
      case _ => OwnGoes(w, step, tale);
    }
  }

  /** In every state of every run, where a CreateEndpoint stands is what has happened in it; in
      particular it drops a hint only if its link was made and something failed after that. */
  lemma {:induction false} TaleRun(w: World, steps: seq<Step>, t: Tid)
    requires w.roles == map[]
    ensures var v := After(w, steps); t in v.roles ==> Tells(v.roles[t], TaleOf(w, steps, t))
  {
    hide Apply, Tells, NextTale;
    if steps != [] {
      var init := steps[..|steps| - 1];
      TaleRun(w, init, t);
      StepGoes(After(w, init), steps[|steps| - 1], t, TaleOf(w, init, t));
    }
  }
}
