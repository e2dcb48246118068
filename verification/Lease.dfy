/** The lease engine of one endpoint: what each udhcpc event does to the recorded address,
    the flags, the interface addresses and the default route, for both address families.

    The kernel is arbitrary: every address or route operation carries its outcome, and all
    that is assumed is that a successful call had its effect and a failed one had none. */
module Lease {
  import opened Types
  import Latch

  datatype Addr = Addr(v6: bool, ip: nat, prefix: nat)

  /** A gateway as parsed: text that is no address parses to nothing. */
  datatype Gateway = NoAddress | Via(ip: nat)

  /** The data of an event. `ip` is None when the text does not parse; `gateway` is None
      when the text is empty. */
  datatype Info = Info(ip: Option<Addr>, gateway: Option<Gateway>)

  datatype Event = Deconfig | Bound(info: Info) | Renew(info: Info) | LeaseFail | Nak | Unknown

  /** Outcomes of deleting the old address, adding the new one, putting the old one back,
      listing the default routes, and adding or replacing the route. */
  datatype Kernel = Kernel(del: bool, add: bool, undo: bool, list: bool, route: bool)

  datatype Attempt = StopWhileWaiting | NoClient | NoStart | Started

  /** What a loop receives: an event, the end of the event pipe with the outcomes of the
      restart attempts, or the stop signal with the outcome of terminating the client. */
  datatype Input =
    | Got(event: Event, k: Kernel)
    | PipeClosed(attempts: seq<Attempt>)
    | StopAsked(terminated: bool)

  /** What a loop leaves on its result channel. */
  datatype Result = Clean | Error

  datatype Family = Family(last: Option<Addr>, primed: bool, deconfigured: bool, result: Option<Result>)

  datatype Engine = Engine(v4: Family, v6: Family, addrs: set<Addr>, routes: seq<Gateway>)

  /** The number of restart attempts after the client dies. */
  const BACKOFFS := 3

  function Of(e: Engine, v6: bool): Family {
    if v6 then e.v6 else e.v4
  }

  function Put(e: Engine, v6: bool, f: Family): Engine {
    if v6 then e.(v6 := f) else e.(v4 := f)
  }

  function Send(f: Family, r: Result): Family {
    f.(result := Some(r))
  }

  /** Delete the old address, add the new one, and put the old one back if that fails. */
  function Replace(e: Engine, v6: bool, prev: Addr, ip: Addr, k: Kernel): Engine {
    var cleared := if k.del then e.addrs - {prev} else e.addrs;
    if k.add then
      Put(e, v6, Of(e, v6).(last := Some(ip), deconfigured := false)).(addrs := cleared + {ip})
    else e.(addrs := if k.undo then cleared + {prev} else cleared)
  }

  function SetGateway(routes: seq<Gateway>, gw: Gateway, k: Kernel): seq<Gateway> {
    if !k.list || !k.route then routes
    else if routes == [] then [gw]
    else routes[0 := gw]
  }

  predicate NeedsReplacing(f: Family, ip: Addr) {
    f.last.Some? && (ip != f.last.value || f.deconfigured)
  }

  /** `renew`. A missing last address is dereferenced, and the loop dies of it. */
  function Renewed(e: Engine, v6: bool, info: Info, k: Kernel): Engine {
    var f := Of(e, v6);
    if info.ip.None? then e
    else if f.last.None? then Put(e, v6, Send(f, Error))
    else if NeedsReplacing(f, info.ip.value) && !k.add then Replace(e, v6, f.last.value, info.ip.value, k)
    else
      var e' := if NeedsReplacing(f, info.ip.value) then Replace(e, v6, f.last.value, info.ip.value, k) else e;
      if !v6 && info.gateway.Some? then e'.(routes := SetGateway(e'.routes, info.gateway.value, k)) else e'
  }

  function Leased(e: Engine, v6: bool, info: Info, k: Kernel): Engine {
    Renewed(Put(e, v6, Of(e, v6).(primed := true)), v6, info, k)
  }

  datatype Restart = Restarted | Stopped | Exhausted

  /** The restart loop from attempt `n` on. */
  function TryRestart(attempts: seq<Attempt>, n: nat): Restart
    decreases BACKOFFS - n
  {
    if n >= BACKOFFS || n >= |attempts| then Exhausted
    else match attempts[n]
      case StopWhileWaiting => Stopped
      case Started => Restarted
      case _ => TryRestart(attempts, n + 1)
  }

  /** Attempt `i` is the first from `n` on that neither fails to create nor to start a client,
      and it comes before the attempts run out. */
  ghost predicate Decides(attempts: seq<Attempt>, n: nat, i: nat) {
    n <= i < 3 && i < |attempts| && (attempts[i].Started? || attempts[i].StopWhileWaiting?) &&
    forall h | n <= h < i :: attempts[h].NoClient? || attempts[h].NoStart?
  }

  /** The first attempt that starts a client or is told to stop decides, if it is among the
      first three. */
  lemma {:induction false} RestartDecided(attempts: seq<Attempt>, n: nat)
    ensures TryRestart(attempts, n).Restarted? <==> exists i: nat :: Decides(attempts, n, i) && attempts[i].Started?
    ensures TryRestart(attempts, n).Stopped? <==>
      exists i: nat :: Decides(attempts, n, i) && attempts[i].StopWhileWaiting?
    decreases BACKOFFS - n
  {
    if n < BACKOFFS && n < |attempts| {
      if attempts[n].NoClient? || attempts[n].NoStart? {
        RestartDecided(attempts, n + 1);
        forall i: nat ensures Decides(attempts, n, i) <==> Decides(attempts, n + 1, i) {
        }
      } else {
        assert Decides(attempts, n, n);
        assert forall i: nat | Decides(attempts, n, i) :: i == n;
      }
    }
  }

  function Handle(e: Engine, v6: bool, input: Input): Engine {
    var f := Of(e, v6);
    if f.result.Some? then e
    else match input
      case Got(Deconfig, _) => if f.primed then Put(e, v6, f.(deconfigured := true)) else e
      case Got(Bound(info), k) => Leased(e, v6, info, k)
      case Got(Renew(info), k) => Leased(e, v6, info, k)
      case Got(_, _) => e
      case PipeClosed(attempts) =>
        (match TryRestart(attempts, 0)
         case Restarted => Put(e, v6, f.(primed := false, deconfigured := false))
         case Stopped => Put(e, v6, Send(f, Clean))
         case Exhausted => Put(e, v6, Send(f, Error)))
      case StopAsked(terminated) => Put(e, v6, Send(f, if terminated then Clean else Error))
  }

  /** One family's loop run over a stream of inputs. */
  function Play(e: Engine, v6: bool, inputs: seq<Input>): Engine {
    if inputs == [] then e
    else Handle(Play(e, v6, inputs[..|inputs| - 1]), v6, inputs[|inputs| - 1])
  }

  // -------------------------------------------------------------------------
  // The last lease wins
  // -------------------------------------------------------------------------

  function InfoOf(input: Input): Option<Info> {
    match input
    case Got(Bound(info), _) => Some(info)
    case Got(Renew(info), _) => Some(info)
    case _ => None
  }

  /** The lease an input carries, if its address parses. */
  function LeaseOf(input: Input): Option<Info> {
    if InfoOf(input).Some? && InfoOf(input).value.ip.Some? then InfoOf(input) else None
  }

  /** The most recent leased address. */
  function LastAddress(inputs: seq<Input>, start: Addr): Addr {
    if inputs == [] then start
    else
      var x := LeaseOf(inputs[|inputs| - 1]);
      if x.Some? then x.value.ip.value else LastAddress(inputs[..|inputs| - 1], start)
  }

  /** The most recent gateway of a lease. */
  function LastGateway(inputs: seq<Input>, start: Option<Gateway>): Option<Gateway> {
    if inputs == [] then start
    else
      var x := LeaseOf(inputs[|inputs| - 1]);
      if x.Some? && x.value.gateway.Some? then x.value.gateway else LastGateway(inputs[..|inputs| - 1], start)
  }

  function DefaultGateway(routes: seq<Gateway>): Option<Gateway> {
    if routes == [] then None else Some(routes[0])
  }

  predicate AllOk(k: Kernel) {
    k.del && k.add && k.list && k.route
  }

  /** No kernel failure, no client crash, no stop, and no lease on an address that something
      else put on the interface (the kernel would refuse to add it). */
  predicate Smooth(input: Input, foreign: set<Addr>) {
    input.Got? && AllOk(input.k) && (LeaseOf(input).Some? ==> LeaseOf(input).value.ip.value !in foreign)
  }

  /** After any smooth stream the interface holds the foreign addresses and the address of the
      last lease, that address is the recorded one, and the default gateway is the last one
      leased. Startup deconfig, deferred deconfig, nak and leasefail leave no trace. */
  lemma {:induction false} LastLeaseWins(e: Engine, v6: bool, inputs: seq<Input>, start: Addr)
    requires Of(e, v6).last == Some(start) && Of(e, v6).result.None? && start in e.addrs
    requires forall i | 0 <= i < |inputs| :: Smooth(inputs[i], e.addrs - {start})
    ensures var v := Play(e, v6, inputs);
      Of(v, v6).last == Some(LastAddress(inputs, start)) && Of(v, v6).result.None? &&
      v.addrs == (e.addrs - {start}) + {LastAddress(inputs, start)} &&
      Of(v, !v6) == Of(e, !v6) &&
      (v6 ==> v.routes == e.routes) &&
      (!v6 ==> DefaultGateway(v.routes) == LastGateway(inputs, DefaultGateway(e.routes)))
  {
    if inputs != [] {
      var init, x := inputs[..|inputs| - 1], inputs[|inputs| - 1];
      LastLeaseWins(e, v6, init, start);
      LastIsFree(init, start, e.addrs - {start});
      SmoothStep(Play(e, v6, init), v6, x, e.addrs - {start}, LastAddress(init, start));
    }
  }

  lemma {:induction false} LastIsFree(inputs: seq<Input>, start: Addr, foreign: set<Addr>)
    requires start !in foreign && forall i | 0 <= i < |inputs| :: Smooth(inputs[i], foreign)
    ensures LastAddress(inputs, start) !in foreign
  {
    if inputs != [] {
      LastIsFree(inputs[..|inputs| - 1], start, foreign);
      assert Smooth(inputs[|inputs| - 1], foreign);
    }
  }

  lemma SmoothStep(e: Engine, v6: bool, x: Input, foreign: set<Addr>, last: Addr)
    requires Of(e, v6).last == Some(last) && Of(e, v6).result.None? && e.addrs == foreign + {last}
    requires last !in foreign && Smooth(x, foreign)
    ensures var v := Handle(e, v6, x);
      var next := if LeaseOf(x).Some? then LeaseOf(x).value.ip.value else last;
      Of(v, v6).last == Some(next) && Of(v, v6).result.None? && v.addrs == foreign + {next} &&
      Of(v, !v6) == Of(e, !v6) &&
      (v6 ==> v.routes == e.routes) &&
      (!v6 ==> DefaultGateway(v.routes) == LastGateway([x], DefaultGateway(e.routes)))
  {
    if LeaseOf(x).Some? {
      var ip := LeaseOf(x).value.ip.value;
      assert (foreign + {last}) - {last} + {ip} == foreign + {ip};
    }
  }

  // -------------------------------------------------------------------------
  // Address tracking when the kernel may fail
  // -------------------------------------------------------------------------

  /** The input makes `renew` try to replace the address. */
  predicate Replaces(e: Engine, v6: bool, x: Input) {
    Of(e, v6).result.None? && LeaseOf(x).Some? && Of(e, v6).last.Some? &&
    (LeaseOf(x).value.ip.value != Of(e, v6).last.value || Of(e, v6).deconfigured)
  }

  /** The recorded address is on the interface. */
  predicate Present(e: Engine, v6: bool) {
    Of(e, v6).last.Some? && Of(e, v6).last.value in e.addrs
  }

  predicate ReplacesAt(e: Engine, v6: bool, inputs: seq<Input>, i: nat)
    requires i < |inputs|
  {
    Replaces(Play(e, v6, inputs[..i]), v6, inputs[i])
  }

  /** Both the add and the rollback of a replacement failed. */
  predicate BothFailAt(e: Engine, v6: bool, inputs: seq<Input>, i: nat)
    requires i < |inputs|
  {
    ReplacesAt(e, v6, inputs, i) && !inputs[i].k.add && !inputs[i].k.undo
  }

  /** The replacement at `i` took the address away, and none since has put one on. */
  ghost predicate LostSince(e: Engine, v6: bool, inputs: seq<Input>, i: nat)
    requires i < |inputs|
  {
    BothFailAt(e, v6, inputs, i) && inputs[i].k.del &&
    forall j | i < j < |inputs| :: ReplacesAt(e, v6, inputs, j) ==> BothFailAt(e, v6, inputs, j)
  }

  lemma PresentStep(e: Engine, v6: bool, x: Input)
    requires Of(e, v6).last.Some?
    ensures Of(Handle(e, v6, x), v6).last.Some?
    ensures Present(Handle(e, v6, x), v6) <==>
      if Replaces(e, v6, x) then x.k.add || x.k.undo || (Present(e, v6) && !x.k.del) else Present(e, v6)
  {
    if LeaseOf(x).Some? {
      assert Of(Put(e, v6, Of(e, v6).(primed := true)), v6).last == Of(e, v6).last;
    }
  }

  ghost predicate EverLost(e: Engine, v6: bool, inputs: seq<Input>) {
    exists i | 0 <= i < |inputs| :: LostSince(e, v6, inputs, i)
  }

  /** How one more input changes the answer. */
  lemma LostStep(e: Engine, v6: bool, inputs: seq<Input>)
    requires inputs != []
    ensures var n := |inputs| - 1;
      EverLost(e, v6, inputs) <==>
        if ReplacesAt(e, v6, inputs, n) then
          BothFailAt(e, v6, inputs, n) && (inputs[n].k.del || EverLost(e, v6, inputs[..n]))
        else EverLost(e, v6, inputs[..n])
  {
    hide ReplacesAt;
    var n := |inputs| - 1;
    var init := inputs[..n];
    forall i | 0 <= i < n
      ensures ReplacesAt(e, v6, init, i) <==> ReplacesAt(e, v6, inputs, i)
    {
      SameReplaces(e, v6, inputs, i);
    }
    forall i | 0 <= i < n
      ensures LostSince(e, v6, inputs, i) <==>
        LostSince(e, v6, init, i) && (ReplacesAt(e, v6, inputs, n) ==> BothFailAt(e, v6, inputs, n))
    {
      assert forall j | i <= j < n :: BothFailAt(e, v6, init, j) <==> BothFailAt(e, v6, inputs, j);
    }
    if EverLost(e, v6, init) {
      var i :| 0 <= i < n && LostSince(e, v6, init, i);
      assert LostSince(e, v6, inputs, i) <==> (ReplacesAt(e, v6, inputs, n) ==> BothFailAt(e, v6, inputs, n));
    }
    GotToReplace(e, v6, inputs, n);
    assert LostSince(e, v6, inputs, n) <==> BothFailAt(e, v6, inputs, n) && inputs[n].k.del;
  }

  lemma GotToReplace(e: Engine, v6: bool, inputs: seq<Input>, i: nat)
    requires i < |inputs|
    ensures ReplacesAt(e, v6, inputs, i) ==> inputs[i].Got?
  {
  }

  lemma SameReplaces(e: Engine, v6: bool, inputs: seq<Input>, i: nat)
    requires i + 1 < |inputs|
    ensures ReplacesAt(e, v6, inputs[..|inputs| - 1], i) <==> ReplacesAt(e, v6, inputs, i)
  {
    assert inputs[..|inputs| - 1][..i] == inputs[..i];
  }

  /** Whatever the kernel does, and through any number of restarts, the recorded address is
      missing from the interface exactly when some replacement deleted it, failed to add and
      to roll back, and every replacement since has failed both. */
  lemma {:induction false} MissingIffLost(e: Engine, v6: bool, inputs: seq<Input>)
    requires Present(e, v6)
    ensures Of(Play(e, v6, inputs), v6).last.Some?
    ensures !Present(Play(e, v6, inputs), v6) <==> exists i | 0 <= i < |inputs| :: LostSince(e, v6, inputs, i)
  {
    if inputs != [] {
      var n := |inputs| - 1;
      MissingIffLost(e, v6, inputs[..n]);
      PresentStep(Play(e, v6, inputs[..n]), v6, inputs[n]);
      LostStep(e, v6, inputs);
      assert EverLost(e, v6, inputs[..n]) <==> !Present(Play(e, v6, inputs[..n]), v6);
      assert EverLost(e, v6, inputs) <==> !Present(Play(e, v6, inputs), v6) by {
        hide Handle, Present, EverLost, Replaces;
      }
    }
  }

  /** The address of the last replacement whose add succeeded. */
  function LastInstalled(e: Engine, v6: bool, inputs: seq<Input>): Option<Addr> {
    if inputs == [] then Of(e, v6).last
    else
      var init, x := inputs[..|inputs| - 1], inputs[|inputs| - 1];
      if Replaces(Play(e, v6, init), v6, x) && x.k.add then Some(LeaseOf(x).value.ip.value)
      else LastInstalled(e, v6, init)
  }

  /** The input brings the default gateway to the one it names: an IPv4 lease with a gateway, whose
      address is in place or gets there, with both route calls succeeding. */
  predicate SetsGateway(e: Engine, v6: bool, x: Input) {
    !v6 && Of(e, v6).result.None? && Of(e, v6).last.Some? && LeaseOf(x).Some? && LeaseOf(x).value.gateway.Some? &&
    (Replaces(e, v6, x) ==> x.k.add) && x.k.list && x.k.route
  }

  /** The gateway of the last such input. */
  function LastSet(e: Engine, v6: bool, inputs: seq<Input>): Option<Gateway> {
    if inputs == [] then DefaultGateway(e.routes)
    else
      var init, x := inputs[..|inputs| - 1], inputs[|inputs| - 1];
      if SetsGateway(Play(e, v6, init), v6, x) then LeaseOf(x).value.gateway else LastSet(e, v6, init)
  }

  function OtherRoutes(routes: seq<Gateway>): seq<Gateway> {
    if routes == [] then [] else routes[1..]
  }

  lemma InstallStep(e: Engine, v6: bool, x: Input)
    ensures Of(Handle(e, v6, x), v6).last ==
      if Replaces(e, v6, x) && x.k.add then Some(LeaseOf(x).value.ip.value) else Of(e, v6).last
    ensures DefaultGateway(Handle(e, v6, x).routes) ==
      if SetsGateway(e, v6, x) then LeaseOf(x).value.gateway else DefaultGateway(e.routes)
    ensures OtherRoutes(Handle(e, v6, x).routes) == OtherRoutes(e.routes)
  {
    if LeaseOf(x).Some? {
      assert Of(Put(e, v6, Of(e, v6).(primed := true)), v6).last == Of(e, v6).last;
    }
  }

  /** For any stream and kernel, the recorded address is that of the last replacement whose add
      succeeded, the default gateway is the one of the last lease that could set it, and no
      other route is touched. */
  lemma {:induction false} RecordedExactly(e: Engine, v6: bool, inputs: seq<Input>)
    ensures var v := Play(e, v6, inputs);
      Of(v, v6).last == LastInstalled(e, v6, inputs) &&
      DefaultGateway(v.routes) == LastSet(e, v6, inputs) &&
      OtherRoutes(v.routes) == OtherRoutes(e.routes)
  {
    hide Handle, Replaces, SetsGateway, DefaultGateway, OtherRoutes, LeaseOf;
    if inputs != [] {
      RecordedExactly(e, v6, inputs[..|inputs| - 1]);
      InstallStep(Play(e, v6, inputs[..|inputs| - 1]), v6, inputs[|inputs| - 1]);
    }
  }

  /** Replacements so far whose delete failed although the address was there. */
  function FailedDeletes(e: Engine, v6: bool, inputs: seq<Input>): nat {
    if inputs == [] then 0
    else
      var init, x := inputs[..|inputs| - 1], inputs[|inputs| - 1];
      var u := Play(e, v6, init);
      FailedDeletes(e, v6, init) + if Replaces(u, v6, x) && !x.k.del && Present(u, v6) then 1 else 0
  }

  /** The addresses the engine has put on the interface and not taken off never exceed one
      plus the number of failed deletes of a present address. */
  lemma {:induction false} FewAddresses(e: Engine, v6: bool, inputs: seq<Input>, foreign: set<Addr>)
    requires Of(e, v6).last.Some? && e.addrs - {Of(e, v6).last.value} <= foreign
    ensures var v := Play(e, v6, inputs);
      Of(v, v6).last.Some? &&
      |v.addrs - foreign - {Of(v, v6).last.value}| <= FailedDeletes(e, v6, inputs) &&
      |v.addrs - foreign| <= 1 + FailedDeletes(e, v6, inputs)
  {
    if inputs == [] {
      assert e.addrs - foreign - {Of(e, v6).last.value} == {};
    } else {
      var init, x := inputs[..|inputs| - 1], inputs[|inputs| - 1];
      FewAddresses(e, v6, init, foreign);
      FewStep(Play(e, v6, init), v6, x, foreign);
    }
    var v := Play(e, v6, inputs);
    hide Play, FailedDeletes;
    SizeWithout(v.addrs - foreign, Of(v, v6).last.value);
  }

  lemma FewStep(e: Engine, v6: bool, x: Input, foreign: set<Addr>)
    requires Of(e, v6).last.Some?
    ensures var v := Handle(e, v6, x);
      Of(v, v6).last.Some? &&
      |v.addrs - foreign - {Of(v, v6).last.value}| <=
        |e.addrs - foreign - {Of(e, v6).last.value}| + if Replaces(e, v6, x) && !x.k.del && Present(e, v6) then 1 else 0
  {
    PresentStep(e, v6, x);
    var v := Handle(e, v6, x);
    var prev := Of(e, v6).last.value;
    if Replaces(e, v6, x) {
      var now := Of(v, v6).last.value;
      Replaced(e, v6, x);
      var before, after := e.addrs - foreign - {prev}, v.addrs - foreign - {now};
      hide Handle, Replaces;
      if x.k.del || prev !in e.addrs {
        assert after <= before;
        SubsetSize(after, before);
      } else {
        assert after - {prev} <= before;
        SubsetSize(after - {prev}, before);
        SizeWithout(after, prev);
      }
    } else {
      NotReplaced(e, v6, x);
    }
  }

  /** What a replacement can leave on the interface. */
  lemma Replaced(e: Engine, v6: bool, x: Input)
    requires Replaces(e, v6, x)
    ensures var v := Handle(e, v6, x); var prev := Of(e, v6).last.value;
      Of(v, v6).last.Some? &&
      v.addrs <= (if x.k.del then e.addrs - {prev} else e.addrs) + {Of(v, v6).last.value}
  {
  }

  lemma NotReplaced(e: Engine, v6: bool, x: Input)
    requires Of(e, v6).last.Some? && !Replaces(e, v6, x)
    ensures Handle(e, v6, x).addrs == e.addrs && Of(Handle(e, v6, x), v6).last == Of(e, v6).last
  {
  }

  // -------------------------------------------------------------------------
  // The two families do not interfere
  // -------------------------------------------------------------------------

  /** Both loops over one manager and one interface, in some interleaving. */
  function PlayBoth(e: Engine, inputs: seq<(bool, Input)>): Engine {
    if inputs == [] then e
    else
      var x := inputs[|inputs| - 1];
      Handle(PlayBoth(e, inputs[..|inputs| - 1]), x.0, x.1)
  }

  function Project(inputs: seq<(bool, Input)>, v6: bool): seq<Input> {
    if inputs == [] then []
    else
      var init, x := Project(inputs[..|inputs| - 1], v6), inputs[|inputs| - 1];
      if x.0 == v6 then init + [x.1] else init
  }

  /** udhcpc leases IPv4 addresses and udhcpc6 leases IPv6 ones. */
  predicate Typed(v6: bool, x: Input) {
    LeaseOf(x).Some? ==> LeaseOf(x).value.ip.value.v6 == v6
  }

  predicate TypedEngine(e: Engine) {
    (e.v4.last.Some? ==> !e.v4.last.value.v6) && (e.v6.last.Some? ==> e.v6.last.value.v6)
  }

  function AddrsOf(e: Engine, v6: bool): set<Addr> {
    set a | a in e.addrs && a.v6 == v6
  }

  /** What belongs to one family; the default route is IPv4's. */
  ghost predicate SameView(a: Engine, b: Engine, v6: bool) {
    Of(a, v6) == Of(b, v6) && AddrsOf(a, v6) == AddrsOf(b, v6) && (!v6 ==> a.routes == b.routes)
  }

  lemma TypedStep(e: Engine, v6: bool, x: Input)
    requires TypedEngine(e) && Typed(v6, x)
    ensures TypedEngine(Handle(e, v6, x))
  {
  }

  /** A family's own step depends on its own view only. */
  lemma OwnStep(a: Engine, b: Engine, v6: bool, x: Input)
    requires TypedEngine(a) && TypedEngine(b) && Typed(v6, x) && SameView(a, b, v6)
    ensures SameView(Handle(a, v6, x), Handle(b, v6, x), v6)
  {
    hide Handle;
    OwnFlags(a, b, v6, x);
    forall y: Addr | y.v6 == v6 ensures y in Handle(a, v6, x).addrs <==> y in Handle(b, v6, x).addrs {
      assert y in AddrsOf(a, v6) <==> y in AddrsOf(b, v6);
      OwnAddress(a, b, v6, x, y);
    }
  }

  lemma OwnFlags(a: Engine, b: Engine, v6: bool, x: Input)
    requires Of(a, v6) == Of(b, v6) && (!v6 ==> a.routes == b.routes)
    ensures Of(Handle(a, v6, x), v6) == Of(Handle(b, v6, x), v6)
    ensures !v6 ==> Handle(a, v6, x).routes == Handle(b, v6, x).routes
  {
  }

  lemma OwnAddress(a: Engine, b: Engine, v6: bool, x: Input, y: Addr)
    requires Of(a, v6) == Of(b, v6) && (y in a.addrs <==> y in b.addrs)
    ensures y in Handle(a, v6, x).addrs <==> y in Handle(b, v6, x).addrs
  {
    hide Handle, Replaces;
    AddressAfter(a, v6, x, y);
    AddressAfter(b, v6, x, y);
    ReplacesAlike(a, b, v6, x);
  }

  lemma ReplacesAlike(a: Engine, b: Engine, v6: bool, x: Input)
    requires Of(a, v6) == Of(b, v6)
    ensures Replaces(a, v6, x) <==> Replaces(b, v6, x)
    ensures Replaces(a, v6, x) ==> x.Got? && Of(a, v6).last.Some? && LeaseOf(x).Some?
  {
  }

  /** What an input does to one address: only a replacement touches any. */
  lemma AddressAfter(e: Engine, v6: bool, x: Input, y: Addr)
    ensures Replaces(e, v6, x) ==> x.Got? && Of(e, v6).last.Some? && LeaseOf(x).Some?
    ensures var stays := y in e.addrs;
      y in Handle(e, v6, x).addrs <==>
        if Replaces(e, v6, x) then
          var prev, ip := Of(e, v6).last.value, LeaseOf(x).value.ip.value;
          (stays && !(x.k.del && y == prev)) || (if x.k.add then y == ip else x.k.undo && y == prev)
        else stays
  {
  }

  /** A step of one family leaves the other's view alone. */
  lemma OtherStep(e: Engine, v6: bool, x: Input)
    requires TypedEngine(e) && Typed(v6, x)
    ensures SameView(Handle(e, v6, x), e, !v6)
  {
  }

  /** For every interleaving of the two loops, each family ends with the flags, result, last
      address and interface addresses it would have reached alone, and only IPv4 inputs
      decide the default route. */
  lemma {:induction false} FamiliesIndependent(e: Engine, inputs: seq<(bool, Input)>, v6: bool)
    requires TypedEngine(e) && forall i | 0 <= i < |inputs| :: Typed(inputs[i].0, inputs[i].1)
    ensures TypedEngine(PlayBoth(e, inputs)) && TypedEngine(Play(e, v6, Project(inputs, v6)))
    ensures SameView(PlayBoth(e, inputs), Play(e, v6, Project(inputs, v6)), v6)
  {
    if inputs != [] {
      var init, x := inputs[..|inputs| - 1], inputs[|inputs| - 1];
      FamiliesIndependent(e, init, v6);
      var u := PlayBoth(e, init);
      TypedStep(u, x.0, x.1);
      if x.0 == v6 {
        var alone := Project(init, v6);
        assert (alone + [x.1])[..|alone|] == alone;
        TypedStep(Play(e, v6, alone), v6, x.1);
        OwnStep(u, Play(e, v6, alone), v6, x.1);
      } else {
        OtherStep(u, x.0, x.1);
      }
      hide Handle;
    }
  }

  predicate FlagsOk(f: Family) {
    f.deconfigured ==> f.primed
  }

  /** Throughout, a family that waits for a replacement has seen a lease since its client
      last started. */
  lemma {:induction false} DeconfiguredImpliesPrimed(e: Engine, inputs: seq<(bool, Input)>)
    requires FlagsOk(e.v4) && FlagsOk(e.v6)
    ensures FlagsOk(PlayBoth(e, inputs).v4) && FlagsOk(PlayBoth(e, inputs).v6)
  {
    if inputs != [] {
      DeconfiguredImpliesPrimed(e, inputs[..|inputs| - 1]);
    }
  }

  // -------------------------------------------------------------------------
  // What the flags say about the past
  // -------------------------------------------------------------------------

  predicate SetsPrimed(e: Engine, v6: bool, x: Input) {
    Of(e, v6).result.None? && InfoOf(x).Some?
  }

  /** A replacement client has started. */
  predicate Restarts(e: Engine, v6: bool, x: Input) {
    Of(e, v6).result.None? && x.PipeClosed? && TryRestart(x.attempts, 0).Restarted?
  }

  /** A deconfig that is not the one every client sends at startup. */
  predicate SetsWaiting(e: Engine, v6: bool, x: Input) {
    Of(e, v6).result.None? && x.Got? && x.event.Deconfig? && Of(e, v6).primed
  }

  predicate ClearsWaiting(e: Engine, v6: bool, x: Input) {
    Restarts(e, v6, x) || (Replaces(e, v6, x) && x.k.add)
  }

  /** `p` holds of input `i` of the stream, in the state it meets. */
  function At(e: Engine, v6: bool, inputs: seq<Input>, p: (Engine, bool, Input) -> bool): nat -> bool {
    (i: nat) => i < |inputs| && p(Play(e, v6, inputs[..i]), v6, inputs[i])
  }

  lemma FlagStep(e: Engine, v6: bool, x: Input)
    ensures var f, f' := Of(e, v6), Of(Handle(e, v6, x), v6);
      (f'.primed <==> SetsPrimed(e, v6, x) || (f.primed && !Restarts(e, v6, x))) &&
      (f'.deconfigured <==> SetsWaiting(e, v6, x) || (f.deconfigured && !ClearsWaiting(e, v6, x)))
  {
    if LeaseOf(x).Some? {
      assert Of(Put(e, v6, Of(e, v6).(primed := true)), v6).last == Of(e, v6).last;
    }
  }

  /** A family is primed exactly if a lease came since its client last started, and waits for
      a replacement exactly if a deconfig came while it was primed and there was neither a
      restart nor a successful replacement since. */
  lemma {:induction false} FlagsIff(e: Engine, v6: bool, inputs: seq<Input>, n: nat)
    requires n <= |inputs| && !Of(e, v6).primed && !Of(e, v6).deconfigured
    ensures var f := Of(Play(e, v6, inputs[..n]), v6);
      (f.primed <==> Latch.On(n, At(e, v6, inputs, SetsPrimed), At(e, v6, inputs, Restarts))) &&
      (f.deconfigured <==> Latch.On(n, At(e, v6, inputs, SetsWaiting), At(e, v6, inputs, ClearsWaiting)))
  {
    hide Handle, SetsPrimed, Restarts, SetsWaiting, ClearsWaiting, Latch.On;
    var primes, restarts := At(e, v6, inputs, SetsPrimed), At(e, v6, inputs, Restarts);
    var waits, ends := At(e, v6, inputs, SetsWaiting), At(e, v6, inputs, ClearsWaiting);
    if n == 0 {
      assert inputs[..0] == [];
      Latch.Never(primes, restarts);
      Latch.Never(waits, ends);
    } else {
      FlagsIff(e, v6, inputs, n - 1);
      assert inputs[..n][..n - 1] == inputs[..n - 1];
      FlagStep(Play(e, v6, inputs[..n - 1]), v6, inputs[n - 1]);
      Latch.Next(n - 1, primes, restarts);
      Latch.Next(n - 1, waits, ends);
    }
  }

  // -------------------------------------------------------------------------
  // How a loop ends
  // -------------------------------------------------------------------------

  /** The four exits: the panic on a missing last address, a stop during backoff, restarts
      exhausted, and a normal stop. */
  predicate Ends(e: Engine, v6: bool, x: Input) {
    match x
    case Got(_, _) => LeaseOf(x).Some? && Of(e, v6).last.None?
    case PipeClosed(attempts) => !TryRestart(attempts, 0).Restarted?
    case StopAsked(_) => true
  }

  predicate EndsAt(e: Engine, v6: bool, inputs: seq<Input>, i: nat)
    requires i < |inputs|
  {
    Ends(Play(e, v6, inputs[..i]), v6, inputs[i])
  }

  lemma EndsAtPrefix(e: Engine, v6: bool, inputs: seq<Input>, i: nat)
    requires i + 1 < |inputs|
    ensures EndsAt(e, v6, inputs[..|inputs| - 1], i) <==> EndsAt(e, v6, inputs, i)
  {
    assert inputs[..|inputs| - 1][..i] == inputs[..i];
  }

  // What a loop leaves, exit by exit.

  /** The loop ends here: a panic, a stop, or a dead client that is not restarted. */
  ghost predicate Leaves(e: Engine, v6: bool, x: Input) {
    match x
    case Got(_, _) => LeaseOf(x).Some? && Of(e, v6).last.None?
    case PipeClosed(attempts) => !exists i: nat :: Decides(attempts, 0, i) && attempts[i].Started?
    case StopAsked(_) => true
  }

  /** ... without an error: a stop whose client terminated, or one that came while the loop was
      waiting to restart its client. */
  ghost predicate LeavesCleanly(x: Input) {
    match x
    case Got(_, _) => false
    case PipeClosed(attempts) => exists i: nat :: Decides(attempts, 0, i) && attempts[i].StopWhileWaiting?
    case StopAsked(terminated) => terminated
  }

  ghost predicate LeavesAt(e: Engine, v6: bool, inputs: seq<Input>, i: nat)
    requires i < |inputs|
  {
    Leaves(Play(e, v6, inputs[..i]), v6, inputs[i])
  }

  /** Input `i` is the first at which the loop ends. */
  ghost predicate FirstLeave(e: Engine, v6: bool, inputs: seq<Input>, i: nat)
    requires i < |inputs|
  {
    LeavesAt(e, v6, inputs, i) && forall h | 0 <= h < i :: !LeavesAt(e, v6, inputs, h)
  }

  lemma LeaveStep(e: Engine, v6: bool, x: Input)
    requires Of(e, v6).result.None?
    ensures Of(Handle(e, v6, x), v6).result ==
      if !Leaves(e, v6, x) then None else if LeavesCleanly(x) then Some(Clean) else Some(Error)
  {
    if x.PipeClosed? {
      RestartDecided(x.attempts, 0);
    }
  }

  lemma LeaveKept(e: Engine, v6: bool, x: Input)
    requires Of(e, v6).result.Some?
    ensures Handle(e, v6, x) == e
  {
  }

  lemma {:induction false} ResultSoFar(e: Engine, v6: bool, inputs: seq<Input>)
    requires Of(e, v6).result.None?
    ensures var r := Of(Play(e, v6, inputs), v6).result;
      (r.None? <==> forall i | 0 <= i < |inputs| :: !LeavesAt(e, v6, inputs, i)) &&
      (forall i | 0 <= i < |inputs| && FirstLeave(e, v6, inputs, i) ::
        r == Some(if LeavesCleanly(inputs[i]) then Clean else Error))
  {
    hide Handle, Leaves, LeavesCleanly;
    hide Play, LeavesAt;
    if inputs == [] {
      assert Play(e, v6, inputs) == e by { PlayNothing(e, v6); }
    } else {
      var n := |inputs| - 1;
      var init := inputs[..n];
      ResultSoFar(e, v6, init);
      forall i | 0 <= i < n ensures LeavesAt(e, v6, init, i) <==> LeavesAt(e, v6, inputs, i) {
        SameLeave(e, v6, inputs, i);
      }
      forall i | 0 <= i < n ensures FirstLeave(e, v6, init, i) <==> FirstLeave(e, v6, inputs, i) {
      }
      LastStep(e, v6, inputs);
    }
  }

  lemma SameLeave(e: Engine, v6: bool, inputs: seq<Input>, i: nat)
    requires i + 1 < |inputs|
    ensures LeavesAt(e, v6, inputs[..|inputs| - 1], i) <==> LeavesAt(e, v6, inputs, i)
  {
    assert inputs[..|inputs| - 1][..i] == inputs[..i];
  }

  /** What the last input does to the result. */
  lemma LastStep(e: Engine, v6: bool, inputs: seq<Input>)
    requires inputs != []
    ensures var n := |inputs| - 1;
      var before, after := Of(Play(e, v6, inputs[..n]), v6).result, Of(Play(e, v6, inputs), v6).result;
      after ==
        if before.Some? then before
        else if !LeavesAt(e, v6, inputs, n) then None
        else if LeavesCleanly(inputs[n]) then Some(Clean)
        else Some(Error)
  {
    hide Handle, Leaves, LeavesCleanly;
    var n := |inputs| - 1;
    var u := Play(e, v6, inputs[..n]);
    if Of(u, v6).result.Some? {
      LeaveKept(u, v6, inputs[n]);
    } else {
      LeaveStep(u, v6, inputs[n]);
    }
  }

  /** For every stream, the result is clean if and only if the first exit met is a stop whose
      client terminated or a stop while waiting to restart, and an error if and only if the first
      exit met is any other: a panic, restarts exhausted, a client that did not terminate. */
  lemma ResultValueIff(e: Engine, v6: bool, inputs: seq<Input>)
    requires Of(e, v6).result.None?
    ensures var r := Of(Play(e, v6, inputs), v6).result;
      (r == Some(Clean) <==>
        exists i | 0 <= i < |inputs| :: FirstLeave(e, v6, inputs, i) && LeavesCleanly(inputs[i])) &&
      (r == Some(Error) <==>
        exists i | 0 <= i < |inputs| :: FirstLeave(e, v6, inputs, i) && !LeavesCleanly(inputs[i]))
  {
    hide Play, LeavesCleanly, LeavesAt;
    ResultSoFar(e, v6, inputs);
    if Of(Play(e, v6, inputs), v6).result.Some? {
      var i := Earliest(e, v6, inputs);
      assert FirstLeave(e, v6, inputs, i);
    }
  }

  lemma Earliest(e: Engine, v6: bool, inputs: seq<Input>) returns (i: nat)
    requires exists j | 0 <= j < |inputs| :: LeavesAt(e, v6, inputs, j)
    ensures i < |inputs| && FirstLeave(e, v6, inputs, i)
  {
    hide LeavesAt;
    i := 0;
    while !LeavesAt(e, v6, inputs, i)
      invariant i < |inputs| && forall h | 0 <= h < i :: !LeavesAt(e, v6, inputs, h)
      decreases |inputs| - i
    {
      i := i + 1;
    }
  }

  /** A loop leaves a result exactly when it meets one of its four exits. */
  lemma {:induction false} ResultIffExit(e: Engine, v6: bool, inputs: seq<Input>)
    requires Of(e, v6).result.None?
    ensures Of(Play(e, v6, inputs), v6).result.Some? <==> exists i | 0 <= i < |inputs| :: EndsAt(e, v6, inputs, i)
  {
    if inputs != [] {
      var n := |inputs| - 1;
      var init := inputs[..n];
      ResultIffExit(e, v6, init);
      EndStep(Play(e, v6, init), v6, inputs[n]);
      assert EndsAt(e, v6, inputs, n) <==> Ends(Play(e, v6, init), v6, inputs[n]);
      hide Handle, Ends, EndsAt;
      forall i | 0 <= i < n ensures EndsAt(e, v6, init, i) <==> EndsAt(e, v6, inputs, i) {
        EndsAtPrefix(e, v6, inputs, i);
      }
    }
  }

  /** ... and only once: after the first exit nothing changes any more. */
  lemma {:induction false} ResultOnce(e: Engine, v6: bool, inputs: seq<Input>, n: nat)
    requires n <= |inputs| && Of(Play(e, v6, inputs[..n]), v6).result.Some?
    ensures Play(e, v6, inputs) == Play(e, v6, inputs[..n])
  {
    if n == |inputs| {
      assert inputs[..n] == inputs;
    } else {
      var init := inputs[..|inputs| - 1];
      assert init[..n] == inputs[..n];
      ResultOnce(e, v6, init, n);
      EndStep(Play(e, v6, init), v6, inputs[|inputs| - 1]);
      hide Handle;
    }
  }

  lemma EndStep(e: Engine, v6: bool, x: Input)
    ensures Of(e, v6).result.Some? ==> Handle(e, v6, x) == e
    ensures Of(e, v6).result.None? ==> (Of(Handle(e, v6, x), v6).result.Some? <==> Ends(e, v6, x))
  {
  }

  /** The loop is told to stop, or runs out of restarts. */
  predicate OtherExit(x: Input) {
    x.StopAsked? || (x.PipeClosed? && !TryRestart(x.attempts, 0).Restarted?)
  }

  /** Input `i` is the one that ends the loop, in a panic, and it is a lease. */
  predicate DiesAt(e: Engine, v6: bool, inputs: seq<Input>, i: nat)
    requires i < |inputs|
  {
    LeaseOf(inputs[i]).Some? && Of(Play(e, v6, inputs[..i]), v6).result.None? &&
    Of(Handle(Play(e, v6, inputs[..i]), v6, inputs[i]), v6).result == Some(Error)
  }

  /** Input `i` is a lease, and there is neither a lease nor another exit before it. */
  ghost predicate FirstLease(inputs: seq<Input>, i: nat)
    requires i < |inputs|
  {
    LeaseOf(inputs[i]).Some? && forall h | 0 <= h < i :: LeaseOf(inputs[h]).None? && !OtherExit(inputs[h])
  }

  lemma {:induction false} NoAddress(e: Engine, v6: bool, inputs: seq<Input>)
    requires Of(e, v6).last.None? && Of(e, v6).result.None?
    ensures var v := Play(e, v6, inputs);
      Of(v, v6).last.None? && v.addrs == e.addrs && v.routes == e.routes &&
      (Of(v, v6).result.None? <==> forall h | 0 <= h < |inputs| :: LeaseOf(inputs[h]).None? && !OtherExit(inputs[h]))
  {
    hide Play, LeaseOf, OtherExit;
    if inputs == [] {
      PlayNothing(e, v6);
    } else {
      var n := |inputs| - 1;
      NoAddress(e, v6, inputs[..n]);
      PlayOne(e, v6, inputs);
      NoAddressStep(Play(e, v6, inputs[..n]), v6, inputs[n]);
    }
  }

  lemma PlayNothing(e: Engine, v6: bool)
    ensures Play(e, v6, []) == e
  {
  }

  lemma PlayOne(e: Engine, v6: bool, inputs: seq<Input>)
    requires inputs != []
    ensures Play(e, v6, inputs) == Handle(Play(e, v6, inputs[..|inputs| - 1]), v6, inputs[|inputs| - 1])
  {
  }

  lemma NoAddressStep(e: Engine, v6: bool, x: Input)
    requires Of(e, v6).last.None?
    ensures var v := Handle(e, v6, x);
      Of(v, v6).last.None? && v.addrs == e.addrs && v.routes == e.routes &&
      (Of(v, v6).result.None? <==> Of(e, v6).result.None? && LeaseOf(x).None? && !OtherExit(x)) &&
      (LeaseOf(x).Some? && Of(e, v6).result.None? ==> Of(v, v6).result == Some(Error))
  {
  }

  /** A family whose address was never found never gets one and never touches an address or a
      route; its loop dies of a lease if and only if one arrives before any other exit, and of
      the first one. */
  lemma MissingAddressPanics(e: Engine, v6: bool, inputs: seq<Input>)
    requires Of(e, v6).last.None? && Of(e, v6).result.None?
    ensures var v := Play(e, v6, inputs); Of(v, v6).last.None? && v.addrs == e.addrs && v.routes == e.routes
    ensures forall i | 0 <= i < |inputs| :: DiesAt(e, v6, inputs, i) <==> FirstLease(inputs, i)
  {
    hide Play, Handle, LeaseOf, OtherExit;
    NoAddress(e, v6, inputs);
    forall i | 0 <= i < |inputs| ensures DiesAt(e, v6, inputs, i) <==> FirstLease(inputs, i) {
      NoAddress(e, v6, inputs[..i]);
      NoAddressStep(Play(e, v6, inputs[..i]), v6, inputs[i]);
    }
  }
}
