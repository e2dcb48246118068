/** What a call works on is what it was called with, and so what a record says of its Join. */
module JoinHistory {
  import opened Types
  import opened TableOps
  import opened Protocol

  /** What the last CreateEndpoint or Join call of a thread asked for. */
  function Asked(w: World, steps: seq<Step>, t: Tid): Option<Request> {
    if steps == [] then None
    else
      var init := steps[..|steps| - 1];
      NextAsked(After(w, init), steps[|steps| - 1], t, Asked(w, init, t))
  }

  function NextAsked(w: World, step: Step, t: Tid, before: Option<Request>): Option<Request> {
    match step
    case BeginCreate(u, net, ep) => if u == t && Idle(w, t) then Some(ForCreate(net, ep)) else before
    case BeginJoin(u, net, ep, sandbox) => if u == t && Idle(w, t) then Some(ForJoin(net, ep, sandbox)) else before
    case _ => before
  }

  /** The role works on what was asked. */
  predicate AsAsked(r: Role, asked: Option<Request>) {
    match r
    case Resolving(req, _) => asked == Some(req)
    case Creating(net, ep, _, _) => asked == Some(ForCreate(net, ep))
    case Joining(req, _) => asked == Some(req) && req.ForJoin?
    case Persisting(req, _, _) => asked == Some(req) && req.ForJoin?
    case Background(req, _, _, _) => asked == Some(req) && req.ForJoin?
    case _ => true
  }

  ghost predicate Keeps(w: World, v: World, step: Step, t: Tid, asked: Option<Request>) {
    (t in w.roles ==> AsAsked(w.roles[t], asked)) ==>
      t in v.roles ==> AsAsked(v.roles[t], NextAsked(w, step, t, asked))
  }

  lemma OwnKeeps(w: World, step: Step, asked: Option<Request>)
    requires !step.Crash?
    ensures Keeps(w, Apply(w, step), step, Actor(step), asked)
  {
    hide Apply, Offered, IsSnapshot, Only, KeepsLooking, KeepsMarked, KeepsCreating;
    StepFrame(w, step);
  }

  lemma OtherKeeps(w: World, step: Step, t: Tid, asked: Option<Request>)
    requires !step.Crash? && t != Actor(step)
    ensures Keeps(w, Apply(w, step), step, t, asked)
  {
    hide Apply, AsAsked, RoleFrom, Started, KeepsLooking, KeepsMarked, KeepsCreating;
    StepFrame(w, step);
  }

  lemma CrashKeeps(w: World, t: Tid, asked: Option<Request>)
    ensures Keeps(w, Apply(w, Crash), Crash, t, asked)
  {
    hide Only, RoleFrom, Started, KeepsLooking, KeepsRestoring, Moves, KeepsMarked, KeepsCreating;
  }

  /** In every state of every run, a thread works on the network, endpoint and sandbox its call
      named. */
  lemma {:induction false} AskedRun(w: World, steps: seq<Step>, t: Tid)
    requires w.roles == map[]
    ensures var v := After(w, steps); t in v.roles ==> AsAsked(v.roles[t], Asked(w, steps, t))
  {
    hide Apply, AsAsked, NextAsked;
    if steps != [] {
      var init, step := steps[..|steps| - 1], steps[|steps| - 1];
      AskedRun(w, init, t);
      if step.Crash? {
        CrashKeeps(After(w, init), t, Asked(w, init, t));
      } else if t == Actor(step) {
        OwnKeeps(After(w, init), step, Asked(w, init, t));
      } else {
        OtherKeeps(After(w, init), step, t, Asked(w, init, t));
      }
    }
  }

  /** The record a Join persists has the network, endpoint and sandbox of the call, the bridge and
      IPv6 flag of its options, their mode filled in, the index of its hint, and no hostname yet;
      and it is in the table. */
  lemma RecordAsAsked(w: World, steps: seq<Step>, t: Tid)
    requires w.roles == map[] && CanPersist(After(w, steps), t)
    ensures var v := After(w, steps); var r := v.roles[t];
      Asked(w, steps, t) == Some(r.req) &&
      var e := EndpointRecord(0, r.req.net, r.req.ep, r.req.sandbox, if r.opts.mode == "" then "bridge"
        else r.opts.mode,
        r.opts.bridge, r.opts.ipv6, r.hint.ifIndex, "");
      Apply(v, Persist(t)).tables.records == v.tables.records[r.req.ep := e]
  {
    hide After, Asked;
    hide Only, RoleFrom, Started, KeepsLooking, KeepsRestoring, Moves, KeepsMarked, KeepsCreating;
    AskedRun(w, steps, t);
  }
}
