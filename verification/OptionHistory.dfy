/** Exactly which calls see a network's lease timeout and skip_routes: for every run, with no
    assumption on Docker or on the calls in flight. */
module OptionHistory {
  import opened Types
  import opened TableOps
  import opened Protocol
  import opened Coherence

  predicate HasOptions(r: Role) {
    r.Creating? || r.Joining? || r.Persisting? || r.Background?
  }

  /** Thread `t` calls CreateEndpoint or Join. */
  predicate Asks(w: World, step: Step, t: Tid) {
    (step.BeginCreate? || step.BeginJoin?) && step.t == t && Idle(w, t)
  }

  /** Thread `t` looks its network up in the cache. */
  predicate LooksInCache(w: World, step: Step, t: Tid) {
    step == LookInCache(t) && Free(w, t) && w.roles[t].Resolving? && w.roles[t].at == AskCache
  }

  /** Docker answers the lookup of thread `t` with options. */
  predicate Tells(w: World, step: Step, t: Tid) {
    DockerTells(w, step) && step.t == t
  }

  /** What Docker told the current call of `t`, if it was asked and answered. */
  function Told(w: World, steps: seq<Step>, t: Tid): Option<NetOptions> {
    if steps == [] then None
    else
      var init, step := steps[..|steps| - 1], steps[|steps| - 1];
      var u := After(w, init);
      if Asks(u, step, t) then None
      else if Tells(u, step, t) then Some(step.answer.opts)
      else Told(w, init, t)
  }

  /** The network was cached when the current call of `t` looked. */
  function FoundCached(w: World, steps: seq<Step>, t: Tid): bool {
    if steps == [] then false
    else
      var init, step := steps[..|steps| - 1], steps[|steps| - 1];
      var u := After(w, init);
      if Asks(u, step, t) then false
      else if LooksInCache(u, step, t) then u.roles[t].req.net in u.tables.networks
      else FoundCached(w, init, t)
  }

  /** What a role says about the lookup that led to it. */
  predicate Informed(r: Role, told: Option<NetOptions>, cached: bool) {
    (r.Resolving? ==> told.None? && !cached) &&
    (HasOptions(r) ==> (if told.Some? then !cached && r.opts == told.value else Plain(r.opts)))
  }

  function NextTold(w: World, step: Step, t: Tid, told: Option<NetOptions>): Option<NetOptions> {
    if Asks(w, step, t) then None else if Tells(w, step, t) then Some(step.answer.opts) else told
  }

  function NextCached(w: World, step: Step, t: Tid, cached: bool): bool {
    if Asks(w, step, t) then false
    else if LooksInCache(w, step, t) then w.roles[t].req.net in w.tables.networks
    else cached
  }

  ghost predicate StaysInformed(w: World, v: World, step: Step, t: Tid, told: Option<NetOptions>, cached: bool) {
    (t in w.roles ==> Informed(w.roles[t], told, cached)) ==>
      t in v.roles ==> Informed(v.roles[t], NextTold(w, step, t, told), NextCached(w, step, t, cached))
  }

  lemma InCache(w: World, t: Tid, told: Option<NetOptions>, cached: bool)
    ensures StaysInformed(w, Apply(w, LookInCache(t)), LookInCache(t), t, told, cached)
  {
    hide Only, RoleFrom, Started, KeepsLooking, KeepsRestoring, Moves, KeepsMarked, KeepsCreating;
  }

  lemma InDocker(w: World, t: Tid, net: NetworkId, answer: Answer, told: Option<NetOptions>, cached: bool)
    ensures StaysInformed(w, Apply(w, LookInDocker(t, net, answer)), LookInDocker(t, net, answer), t, told, cached)
  {
    hide Only, RoleFrom, Started, KeepsLooking, KeepsRestoring, Moves, KeepsMarked, KeepsCreating;
  }

  lemma InRecords(w: World, t: Tid, pick: EndpointId, told: Option<NetOptions>, cached: bool)
    ensures StaysInformed(w, Apply(w, LookInRecords(t, pick)), LookInRecords(t, pick), t, told, cached)
  {
    hide Only, RoleFrom, Started, KeepsLooking, KeepsRestoring, Moves, KeepsMarked, KeepsCreating;
  }

  lemma OtherOwn(w: World, step: Step, told: Option<NetOptions>, cached: bool)
    requires !step.Crash? && !step.LookInCache? && !step.LookInDocker? && !step.LookInRecords?
    ensures StaysInformed(w, Apply(w, step), step, Actor(step), told, cached)
  {
    hide Apply, Offered, IsSnapshot, Plain, Only, KeepsMarked, KeepsCreating;
    StepFrame(w, step);
  }

  lemma OtherThread(w: World, step: Step, t: Tid, told: Option<NetOptions>, cached: bool)
    requires !step.Crash? && t != Actor(step)
    ensures StaysInformed(w, Apply(w, step), step, t, told, cached)
  {
    hide Apply, Informed, RoleFrom, Started, KeepsLooking, KeepsRestoring, Moves, KeepsMarked, KeepsCreating;
    StepFrame(w, step);
  }

  lemma NoThread(w: World, t: Tid, told: Option<NetOptions>, cached: bool)
    ensures StaysInformed(w, Apply(w, Crash), Crash, t, told, cached)
  {
    hide Only, RoleFrom, Started, KeepsLooking, KeepsRestoring, Moves, KeepsMarked, KeepsCreating;
  }

  lemma StepInforms(w: World, step: Step, t: Tid, told: Option<NetOptions>, cached: bool)
    ensures StaysInformed(w, Apply(w, step), step, t, told, cached)
  {
    hide Apply, StaysInformed;
    if step.Crash? {
      NoThread(w, t, told, cached);
    } else if t != Actor(step) {
      OtherThread(w, step, t, told, cached);
    } else {
      match step
      case LookInCache(_) => InCache(w, t, told, cached);
      case LookInDocker(_, net, answer) => InDocker(w, t, net, answer, told, cached);
      case LookInRecords(_, pick) => InRecords(w, t, pick, told, cached);
      case _ => OtherOwn(w, step, told, cached);
    }
  }

  lemma {:induction false} InformedRun(w: World, steps: seq<Step>, t: Tid)
    requires w.roles == map[]
    ensures var v := After(w, steps);
      t in v.roles ==> Informed(v.roles[t], Told(w, steps, t), FoundCached(w, steps, t))
  {
    hide Apply, Asks, Tells, LooksInCache, Informed;
    if steps != [] {
      var init := steps[..|steps| - 1];
      InformedRun(w, init, t);
      StepInforms(After(w, init), steps[|steps| - 1], t, Told(w, init, t), FoundCached(w, init, t));
    }
  }

  /** In every state of every run, a call works with exactly the options Docker told it, if it
      was told any, and with a plain set otherwise. So it sees a lease timeout or skip_routes if
      and only if Docker answered this very call with one, and never if it found the network
      in the cache. */
  lemma SeenIff(w: World, steps: seq<Step>, t: Tid)
    requires w.roles == map[]
    requires t in After(w, steps).roles && HasOptions(After(w, steps).roles[t])
    ensures var opts, told := After(w, steps).roles[t].opts, Told(w, steps, t);
      (told.Some? ==> opts == told.value) &&
      (!Plain(opts) <==> told.Some? && !Plain(told.value)) &&
      (FoundCached(w, steps, t) ==> told.None? && Plain(opts))
  {
    hide After, Told, FoundCached, Plain;
    InformedRun(w, steps, t);
  }

  // -------------------------------------------------------------------------
  // The order of the sources
  // -------------------------------------------------------------------------

  /** Where the current CreateEndpoint or Join call of a thread stands with its options. */
  datatype Stage =
    | NoCall
    | Asking
    | Missed
    | DockerGone
    | NotFound
    | FromCache(n: NetworkRecord)
    | FromDocker(opts: NetOptions)
    | FromRecord(e: EndpointRecord)

  /** Docker is asked on behalf of thread `t`. */
  predicate AsksDocker(w: World, step: Step, t: Tid) {
    step.LookInDocker? && step.t == t && Free(w, t) && w.roles[t].Resolving? && w.roles[t].at == AskDocker &&
    w.roles[t].req.net == step.net
  }

  predicate LooksInRecords(w: World, step: Step, t: Tid) {
    step.LookInRecords? && step.t == t && Free(w, t) && w.roles[t].Resolving? && w.roles[t].at == AskRecords
  }

  ghost function NextStage(w: World, step: Step, t: Tid, stage: Stage): Stage {
    if step.Crash? then NoCall
    else if Asks(w, step, t) then Asking
    else if LooksInCache(w, step, t) then
      if w.roles[t].req.net in w.tables.networks then FromCache(w.tables.networks[w.roles[t].req.net]) else Missed
    else if AsksDocker(w, step, t) then
      match step.answer
      case Unreachable => DockerGone
      case Undecodable => NotFound
      case Options(opts) => FromDocker(opts)
    else if LooksInRecords(w, step, t) then
      var net := w.roles[t].req.net;
      if step.pick in w.tables.records && w.tables.records[step.pick].networkID == net then
        FromRecord(w.tables.records[step.pick])
      else if exists id :: id in w.tables.records && w.tables.records[id].networkID == net then stage
      else NotFound
    else stage
  }

  ghost function StageOf(w: World, steps: seq<Step>, t: Tid): Stage {
    if steps == [] then NoCall
    else
      var init := steps[..|steps| - 1];
      NextStage(After(w, init), steps[|steps| - 1], t, StageOf(w, init, t))
  }

  function NetOf(r: Role): NetworkId
    requires HasOptions(r)
  {
    if r.Creating? then r.net else r.req.net
  }

  /** The role of the thread is the one its stage says: still looking exactly while nothing is
      found, and then with the very fields of the source. */
  predicate Staged(r: Option<Role>, stage: Stage) {
    (stage == Asking <==> r.Some? && r.value.Resolving? && r.value.at == AskCache) &&
    (stage == Missed <==> r.Some? && r.value.Resolving? && r.value.at == AskDocker) &&
    (stage == DockerGone <==> r.Some? && r.value.Resolving? && r.value.at == AskRecords) &&
    (r.Some? && HasOptions(r.value) ==>
      var opts := r.value.opts;
      match stage
      case FromCache(n) =>
        opts.bridge == n.bridge && opts.mode == n.mode && opts.ipv6 == n.ipv6 && Plain(opts)
      case FromDocker(told) => opts == told
      case FromRecord(e) =>
        e.networkID == NetOf(r.value) &&
        opts.bridge == e.bridge && opts.mode == e.mode && opts.ipv6 == e.ipv6 && Plain(opts)
      case _ => false)
  }

  ghost predicate KeepsStage(w: World, v: World, step: Step, t: Tid, stage: Stage) {
    Staged(Find(w.roles, t), stage) ==> Staged(Find(v.roles, t), NextStage(w, step, t, stage))
  }

  lemma CacheStage(w: World, t: Tid, stage: Stage)
    ensures KeepsStage(w, Apply(w, LookInCache(t)), LookInCache(t), t, stage)
  {
    hide Only, RoleFrom, Started, KeepsLooking, KeepsRestoring, Moves, KeepsMarked, KeepsCreating;
  }

  lemma DockerStage(w: World, t: Tid, net: NetworkId, answer: Answer, stage: Stage)
    ensures KeepsStage(w, Apply(w, LookInDocker(t, net, answer)), LookInDocker(t, net, answer), t, stage)
  {
    hide Plain, NetworkRecordOf, AddNetwork;
    hide Only, RoleFrom, Started, KeepsLooking, KeepsRestoring, Moves, KeepsMarked, KeepsCreating;
  }

  lemma RecordStage(w: World, t: Tid, pick: EndpointId, stage: Stage)
    ensures KeepsStage(w, Apply(w, LookInRecords(t, pick)), LookInRecords(t, pick), t, stage)
  {
    hide Only, RoleFrom, Started, KeepsLooking, KeepsRestoring, Moves, KeepsMarked, KeepsCreating;
  }

  lemma SameStage(w: World, step: Step, t: Tid, stage: Stage)
    requires !step.Crash? && !step.LookInCache? && !step.LookInDocker? && !step.LookInRecords?
    ensures NextStage(w, step, t, stage) == if Asks(w, step, t) then Asking else stage
  {
  }

  lemma OwnStage(w: World, step: Step, stage: Stage)
    requires !step.Crash? && !step.LookInCache? && !step.LookInDocker? && !step.LookInRecords?
    ensures KeepsStage(w, Apply(w, step), step, Actor(step), stage)
  {
    hide Apply, KeepsStage;
    if Asks(w, step, Actor(step)) {
      AskingStage(w, step, stage);
    } else {
      LaterStage(w, step, stage);
    }
  }

  lemma AskingStage(w: World, step: Step, stage: Stage)
    requires Asks(w, step, Actor(step))
    ensures KeepsStage(w, Apply(w, step), step, Actor(step), stage)
  {
    hide Apply, NextStage;
    SameStage(w, step, Actor(step), stage);
    AskingBegins(w, step);
  }

  lemma LaterStage(w: World, step: Step, stage: Stage)
    requires !step.Crash? && !step.LookInCache? && !step.LookInDocker? && !step.LookInRecords?
    requires !Asks(w, step, Actor(step))
    ensures KeepsStage(w, Apply(w, step), step, Actor(step), stage)
  {
    hide Apply, NextStage, Plain, Offered, IsSnapshot, Only, KeepsMarked, KeepsCreating;
    StepFrame(w, step);
    SameStage(w, step, Actor(step), stage);
  }

  /** A call that begins is there to ask. */
  lemma AskingBegins(w: World, step: Step)
    requires Asks(w, step, Actor(step))
    ensures var v, t := Apply(w, step), Actor(step); t in v.roles && v.roles[t].Resolving? && v.roles[t].at == AskCache
  {
    hide Only, RoleFrom, Started, KeepsLooking, KeepsRestoring, Moves, KeepsMarked, KeepsCreating;
  }

  lemma OtherStage(w: World, step: Step, t: Tid, stage: Stage)
    requires !step.Crash? && t != Actor(step)
    ensures KeepsStage(w, Apply(w, step), step, t, stage)
  {
    hide Apply, Staged, RoleFrom, Started, KeepsLooking, KeepsMarked, KeepsCreating;
    StepFrame(w, step);
  }

  lemma NoStage(w: World, t: Tid, stage: Stage)
    ensures KeepsStage(w, Apply(w, Crash), Crash, t, stage)
  {
    hide Only, RoleFrom, Started, KeepsLooking, KeepsRestoring, Moves, KeepsMarked, KeepsCreating;
  }

  lemma StepStage(w: World, step: Step, t: Tid, stage: Stage)
    ensures KeepsStage(w, Apply(w, step), step, t, stage)
  {
    hide Apply, KeepsStage;
    if step.Crash? {
      NoStage(w, t, stage);
    } else if t != Actor(step) {
      OtherStage(w, step, t, stage);
    } else {
      match step
      case LookInCache(_) => CacheStage(w, t, stage);
      case LookInDocker(_, net, answer) => DockerStage(w, t, net, answer, stage);
      case LookInRecords(_, pick) => RecordStage(w, t, pick, stage);
      case _ => OwnStage(w, step, stage);
    }
  }

  /** In every state of every run, a call asks the cache first, Docker exactly if that missed, and
      the records exactly if Docker did not answer; it goes on exactly if one of them had the
      options, with the bridge, mode and IPv6 flag found there. */
  lemma {:induction false} SourcesInOrder(w: World, steps: seq<Step>, t: Tid)
    requires w.roles == map[]
    ensures Staged(Find(After(w, steps).roles, t), StageOf(w, steps, t))
  {
    hide Apply, Staged, NextStage;
    if steps == [] {
      NothingStaged();
    } else {
      var init := steps[..|steps| - 1];
      SourcesInOrder(w, init, t);
      StepStage(After(w, init), steps[|steps| - 1], t, StageOf(w, init, t));
    }
  }

  lemma NothingStaged()
    ensures Staged(None, NoCall)
  {
  }
}
