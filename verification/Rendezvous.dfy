/** The hand-off between the event loops of one manager and Stop: a stop signal that is
    closed once, and one result slot per loop. */
module Rendezvous {
  import opened Types
  import opened Lease

  datatype Loop = Absent | Looping | Exited

  /** Where `startClients` stands. */
  datatype Stage = Fresh | HasV4 | GaveUp | Ready

  /** The four ways out of an event loop. */
  datatype Exit = Panic | StopInBackoff | RestartsExhausted | NormalStop(r: Result)

  datatype Stopper = WaitV4 | WaitV6 | Returned(r: Result)

  datatype State = State(
    ipv6: bool,
    stage: Stage,
    loop4: Loop,
    loop6: Loop,
    ch4: seq<Result>,
    ch6: seq<Result>,
    taken4: nat,
    taken6: nat,
    signalled: bool,
    stops: map<nat, Stopper>,
    handleCloses: nat)

  datatype Step =
    | SetupV4(ok: bool)
    | SetupV6(ok: bool)
    | ExitLoop(v6: bool, exit: Exit)
    | CallStop(t: nat)
    | ReceiveV4(t: nat)
    | ReceiveV6(t: nat)

  const CAPACITY := 1

  function Init(ipv6: bool): State {
    State(ipv6, Fresh, Absent, Absent, [], [], 0, 0, false, map[], 0)
  }

  function ResultOf(x: Exit): Result {
    match x
    case Panic => Error
    case StopInBackoff => Clean
    case RestartsExhausted => Error
    case NormalStop(r) => r
  }

  /** The loop may take this exit now; a stop needs the signal. */
  predicate MayExit(s: State, x: Exit) {
    x.StopInBackoff? || x.NormalStop? ==> s.signalled
  }

  /** A send needs a free slot. */
  predicate CanSend(s: State, v6: bool) {
    if v6 then s.loop6 == Looping && |s.ch6| < CAPACITY else s.loop4 == Looping && |s.ch4| < CAPACITY
  }

  function FinishStop(s: State, t: nat, r: Result): State {
    s.(stops := s.stops[t := Returned(r)], handleCloses := s.handleCloses + 1)
  }

  function Apply(s: State, step: Step): State {
    match step
    case SetupV4(ok) =>
      if s.stage != Fresh then s
      else if !ok then s.(stage := GaveUp, signalled := true)
      else s.(stage := if s.ipv6 then HasV4 else Ready, loop4 := Looping)
    case SetupV6(ok) =>
      if s.stage != HasV4 then s
      else if !ok then s.(stage := GaveUp, signalled := true)
      else s.(stage := Ready, loop6 := Looping)
    case ExitLoop(v6, x) =>
      if !MayExit(s, x) || !CanSend(s, v6) then s
      else if v6 then s.(loop6 := Exited, ch6 := s.ch6 + [ResultOf(x)])
      else s.(loop4 := Exited, ch4 := s.ch4 + [ResultOf(x)])
    case CallStop(t) =>
      if t in s.stops then s
      else if s.stage != Ready then s.(stops := s.stops[t := Returned(Clean)])
      else s.(signalled := true, stops := s.stops[t := WaitV4])
    case ReceiveV4(t) =>
      if t !in s.stops || s.stops[t] != WaitV4 || s.ch4 == [] then s
      else
        var s' := s.(ch4 := s.ch4[1..], taken4 := s.taken4 + 1);
        if s.ch4[0] == Error then FinishStop(s', t, Error)
        else if s.ipv6 then s'.(stops := s.stops[t := WaitV6])
        else FinishStop(s', t, Clean)
    case ReceiveV6(t) =>
      if t !in s.stops || s.stops[t] != WaitV6 || s.ch6 == [] then s
      else FinishStop(s.(ch6 := s.ch6[1..], taken6 := s.taken6 + 1), t, s.ch6[0])
  }

  function After(s: State, steps: seq<Step>): State {
    if steps == [] then s else Apply(After(s, steps[..|steps| - 1]), steps[|steps| - 1])
  }

  /** Each loop has sent one result if it has exited and none before: sent = in the slot + taken. */
  ghost predicate OneResultEach(s: State) {
    |s.ch4| + s.taken4 == Bit(s.loop4 == Exited) &&
    |s.ch6| + s.taken6 == Bit(s.loop6 == Exited) &&
    (s.stage == Ready ==> s.loop4 != Absent && (s.ipv6 ==> s.loop6 != Absent)) &&
    (!s.ipv6 ==> s.loop6 == Absent) &&
    (s.stage == Fresh ==> s.loop4 == s.loop6 == Absent) &&
    (s.stage == HasV4 ==> s.ipv6 && s.loop4 != Absent && s.loop6 == Absent) &&
    (forall t | t in s.stops && !s.stops[t].Returned? :: s.stage == Ready && s.signalled) &&
    (forall t | t in s.stops && s.stops[t] == WaitV6 :: s.ipv6 && s.taken4 == 1)
  }

  lemma StepKeeps(s: State, step: Step)
    requires OneResultEach(s)
    ensures OneResultEach(Apply(s, step))
  {
    match step
    case SetupV4(ok) =>
    case SetupV6(ok) =>
    case ExitLoop(v6, x) =>
    case CallStop(t) =>
    case ReceiveV4(t) =>
    case ReceiveV6(t) =>
  }

  lemma {:induction false} RunKeeps(s: State, steps: seq<Step>)
    requires OneResultEach(s)
    ensures OneResultEach(After(s, steps))
  {
    hide Apply, OneResultEach;
    if steps != [] {
      RunKeeps(s, steps[..|steps| - 1]);
      StepKeeps(After(s, steps[..|steps| - 1]), steps[|steps| - 1]);
    }
  }

  /** In every run with any number of Stop calls, across all four exits and failed starts, a
      loop sends exactly one result and never blocks on the send. */
  lemma SendNeverBlocks(ipv6: bool, steps: seq<Step>, v6: bool)
    ensures var s := After(Init(ipv6), steps);
      ((if v6 then s.loop6 else s.loop4) == Looping ==> CanSend(s, v6)) &&
      |s.ch4| + s.taken4 == Bit(s.loop4 == Exited) && |s.ch6| + s.taken6 == Bit(s.loop6 == Exited)
  {
    RunKeeps(Init(ipv6), steps);
  }

  /** At most one Stop call, by `t`. */
  ghost predicate OneStop(s: State, t: nat) {
    (forall u | u in s.stops :: u == t) &&
    (t !in s.stops || s.stops[t] == WaitV4 ==> s.taken4 == 0) &&
    (t !in s.stops || s.stops[t] == WaitV4 || s.stops[t] == WaitV6 ==> s.taken6 == 0 && s.handleCloses == 0) &&
    (t in s.stops && s.stops[t].Returned? ==> s.handleCloses <= 1) &&
    (t in s.stops && s.stops[t] == Returned(Clean) && s.handleCloses == 1 ==>
      s.loop4 == Exited && (s.ipv6 ==> s.loop6 == Exited))
  }

  ghost predicate OnlyStop(steps: seq<Step>, t: nat) {
    forall i | 0 <= i < |steps| && steps[i].CallStop? :: steps[i].t == t
  }

  lemma OneStopStep(s: State, step: Step, t: nat)
    requires OneResultEach(s) && OneStop(s, t) && (step.CallStop? ==> step.t == t)
    ensures OneStop(Apply(s, step), t)
  {
    match step
    case SetupV4(ok) =>
    case SetupV6(ok) =>
    case ExitLoop(v6, x) =>
    case CallStop(_) =>
    case ReceiveV4(_) =>
    case ReceiveV6(_) =>
  }

  lemma {:induction false} OneStopRun(ipv6: bool, steps: seq<Step>, t: nat)
    requires OnlyStop(steps, t)
    ensures OneResultEach(After(Init(ipv6), steps)) && OneStop(After(Init(ipv6), steps), t)
  {
    if steps != [] {
      hide Apply, OneResultEach, OneStop;
      var init, step := steps[..|steps| - 1], steps[|steps| - 1];
      OneStopRun(ipv6, init, t);
      StepKeeps(After(Init(ipv6), init), step);
      OneStopStep(After(Init(ipv6), init), step, t);
    }
  }

  /** With at most one Stop per manager, each receive is matched once its loop has exited,
      a loop that has not exited can, the handles are closed at most once, and a clean
      return means that every loop is gone. */
  lemma StopIsMatched(ipv6: bool, steps: seq<Step>, t: nat)
    requires OnlyStop(steps, t) && t in After(Init(ipv6), steps).stops
    ensures var s := After(Init(ipv6), steps);
      (s.stops[t] == WaitV4 ==> s.ch4 != [] || (CanSend(s, false) && MayExit(s, NormalStop(Clean)))) &&
      (s.stops[t] == WaitV6 ==> s.ch6 != [] || (CanSend(s, true) && MayExit(s, NormalStop(Clean)))) &&
      s.handleCloses <= 1 &&
      (s.stops[t] == Returned(Clean) && s.handleCloses == 1 ==> s.loop4 == Exited && (ipv6 ==> s.loop6 == Exited))
  {
    OneStopRun(ipv6, steps, t);
    SameFamily(ipv6, steps);
  }

  lemma {:induction false} SameFamily(ipv6: bool, steps: seq<Step>)
    ensures After(Init(ipv6), steps).ipv6 == ipv6
  {
    if steps != [] {
      SameFamily(ipv6, steps[..|steps| - 1]);
    }
  }

  // -------------------------------------------------------------------------
  // What Stop returns, and when
  // -------------------------------------------------------------------------

  /** What a loop has sent in a run: the result of the exit it took. */
  function Sent(s: State, steps: seq<Step>, v6: bool): Option<Result> {
    if steps == [] then None
    else
      var init, step := steps[..|steps| - 1], steps[|steps| - 1];
      var u := After(s, init);
      if step.ExitLoop? && step.v6 == v6 && MayExit(u, step.exit) && CanSend(u, v6) then Some(ResultOf(step.exit))
      else Sent(s, init, v6)
  }

  /** What has become of the results sent, when only `t` receives: they are in their slots, or
      `t` has gone on as they say. */
  ghost predicate Received(s: State, t: nat, sent4: Option<Result>, sent6: Option<Result>) {
    (sent4.Some? <==> s.loop4 == Exited) && (sent6.Some? <==> s.loop6 == Exited) &&
    (s.ch4 != [] ==> sent4 == Some(s.ch4[0])) && (s.ch6 != [] ==> sent6 == Some(s.ch6[0])) &&
    (t in s.stops && s.stops[t] == WaitV6 ==> s.ipv6 && sent4 == Some(Clean)) &&
    (t in s.stops && s.stops[t].Returned? && s.handleCloses > 0 ==>
      if sent4 == Some(Error) then s.taken6 == 0 && s.stops[t] == Returned(Error)
      else sent4 == Some(Clean) &&
           if s.ipv6 then s.taken6 == 1 && sent6 == Some(s.stops[t].r) else s.stops[t] == Returned(Clean))
  }

  lemma ReceivedStep(s: State, step: Step, t: nat, sent4: Option<Result>, sent6: Option<Result>)
    requires OneResultEach(s) && OneStop(s, t) && (step.CallStop? ==> step.t == t) && Received(s, t, sent4, sent6)
    ensures var effective := step.ExitLoop? && MayExit(s, step.exit) && CanSend(s, step.v6);
      Received(Apply(s, step), t,
        if effective && !step.v6 then Some(ResultOf(step.exit)) else sent4,
        if effective && step.v6 then Some(ResultOf(step.exit)) else sent6)
  {
    match step
    case SetupV4(ok) =>
    case SetupV6(ok) =>
    case ExitLoop(v6, x) =>
    case CallStop(_) =>
    case ReceiveV4(_) =>
    case ReceiveV6(_) =>
  }

  lemma {:induction false} ReceivedRun(ipv6: bool, steps: seq<Step>, t: nat)
    requires OnlyStop(steps, t)
    ensures var s := Init(ipv6);
      Received(After(s, steps), t, Sent(s, steps, false), Sent(s, steps, true))
  {
    hide Apply, OneResultEach, OneStop, Received, MayExit, CanSend;
    var s := Init(ipv6);
    if steps == [] {
      NothingSent(ipv6, t);
    } else {
      var init, step := steps[..|steps| - 1], steps[|steps| - 1];
      ReceivedRun(ipv6, init, t);
      OneStopRun(ipv6, init, t);
      ReceivedStep(After(s, init), step, t, Sent(s, init, false), Sent(s, init, true));
    }
  }

  lemma NothingSent(ipv6: bool, t: nat)
    ensures Received(Init(ipv6), t, None, None)
  {
  }

  /** A Stop that has returned and closed the handles did so without the IPv6 result if and
      only if the IPv4 loop sent an error; it then returns that error, and otherwise what the
      last loop sent. */
  lemma EarlyIff(steps: seq<Step>, t: nat)
    requires OnlyStop(steps, t)
    requires var s := After(Init(true), steps); t in s.stops && s.stops[t].Returned? && s.handleCloses > 0
    ensures var s := After(Init(true), steps);
      var sent4, sent6 := Sent(Init(true), steps, false), Sent(Init(true), steps, true);
      (s.taken6 == 0 <==> sent4 == Some(Error)) &&
      (sent4 == Some(Error) ==> s.stops[t] == Returned(Error)) &&
      (sent4 != Some(Error) ==> sent4 == Some(Clean) && sent6 == Some(s.stops[t].r))
  {
    hide After, Sent;
    ReceivedRun(true, steps, t);
    SameFamily(true, steps);
  }

  /** The exit that an input to the loop is. */
  function ExitOf(x: Input): Exit {
    match x
    case Got(_, _) => Panic
    case PipeClosed(attempts) => if TryRestart(attempts, 0).Stopped? then StopInBackoff else RestartsExhausted
    case StopAsked(terminated) => NormalStop(if terminated then Clean else Error)
  }

  /** A loop that ends sends what this hand-off says of its exit, and only a stop signal makes it
      leave by a stop. */
  lemma SendsItsResult(e: Engine, v6: bool, x: Input)
    requires Of(e, v6).result.None? && Ends(e, v6, x)
    ensures Of(Handle(e, v6, x), v6).result == Some(ResultOf(ExitOf(x)))
    ensures MayExit(Init(true), ExitOf(x)) <==>
      !x.StopAsked? && !(x.PipeClosed? && exists i: nat :: Decides(x.attempts, 0, i) && x.attempts[i].StopWhileWaiting?)
  {
    if x.PipeClosed? {
      RestartDecided(x.attempts, 0);
    }
  }

  // -------------------------------------------------------------------------
  // The stop signal and the handles
  // -------------------------------------------------------------------------

  /** A Stop of a manager that runs, or a start that fails, closes the signal. */
  predicate Signals(s: State, step: Step) {
    (step.CallStop? && step.t !in s.stops && s.stage == Ready) ||
    (step.SetupV4? && !step.ok && s.stage == Fresh) || (step.SetupV6? && !step.ok && s.stage == HasV4)
  }

  ghost predicate SignalsAt(s: State, steps: seq<Step>, i: nat)
    requires i < |steps|
  {
    Signals(After(s, steps[..i]), steps[i])
  }

  lemma SignalStep(s: State, step: Step)
    ensures Apply(s, step).signalled <==> s.signalled || Signals(s, step)
  {
  }

  /** The signal is closed exactly if somebody has closed it, so a loop leaves by a stop only after
      a Stop or a failed start. */
  lemma {:induction false} SignalIff(ipv6: bool, steps: seq<Step>)
    ensures After(Init(ipv6), steps).signalled <==> exists i | 0 <= i < |steps| :: SignalsAt(Init(ipv6), steps, i)
  {
    hide Apply, Signals;
    if steps != [] {
      var n := |steps| - 1;
      var init := steps[..n];
      SignalIff(ipv6, init);
      SignalStep(After(Init(ipv6), init), steps[n]);
      forall i | 0 <= i < n ensures SignalsAt(Init(ipv6), init, i) <==> SignalsAt(Init(ipv6), steps, i) {
        assert init[..i] == steps[..i];
      }
      assert SignalsAt(Init(ipv6), steps, n) <==> Signals(After(Init(ipv6), init), steps[n]);
      hide SignalsAt;
    }
  }

  /** The Stop calls that found the manager running. */
  ghost function Serious(s: State, steps: seq<Step>): set<nat> {
    if steps == [] then {}
    else
      var init, step := steps[..|steps| - 1], steps[|steps| - 1];
      var u := After(s, init);
      if step.CallStop? && step.t !in u.stops && u.stage == Ready then Serious(s, init) + {step.t} else Serious(s, init)
  }

  /** Of those, the ones that have returned. */
  ghost function Back(s: State, serious: set<nat>): set<nat> {
    set t | t in serious && t in s.stops && s.stops[t].Returned?
  }

  ghost predicate Closed(s: State, serious: set<nat>) {
    (forall t | t in serious :: t in s.stops) &&
    (forall t | t in s.stops && !s.stops[t].Returned? :: t in serious) &&
    s.handleCloses == |Back(s, serious)|
  }

  lemma ClosedSame(s: State, s': State, serious: set<nat>)
    requires Closed(s, serious) && s'.stops == s.stops && s'.handleCloses == s.handleCloses
    ensures Closed(s', serious)
  {
  }

  lemma ClosedCall(s: State, t: nat, serious: set<nat>)
    requires Closed(s, serious) && t !in s.stops
    ensures Closed(Apply(s, CallStop(t)), if s.stage == Ready then serious + {t} else serious)
  {
    var s' := Apply(s, CallStop(t));
    assert Back(s', if s.stage == Ready then serious + {t} else serious) == Back(s, serious);
  }

  lemma ClosedReturn(s: State, s': State, t: nat, r: Result, serious: set<nat>)
    requires Closed(s, serious) && t in s.stops && !s.stops[t].Returned?
    requires s'.stops == s.stops[t := Returned(r)] && s'.handleCloses == s.handleCloses + 1
    ensures Closed(s', serious)
  {
    assert Back(s', serious) == Back(s, serious) + {t};
  }

  lemma ClosedWait(s: State, s': State, t: nat, serious: set<nat>)
    requires Closed(s, serious) && t in s.stops && !s.stops[t].Returned?
    requires s'.stops == s.stops[t := WaitV6] && s'.handleCloses == s.handleCloses
    ensures Closed(s', serious)
  {
    assert Back(s', serious) == Back(s, serious);
  }

  lemma ClosedStep(s: State, step: Step, serious: set<nat>)
    requires Closed(s, serious)
    ensures Closed(Apply(s, step),
      if step.CallStop? && step.t !in s.stops && s.stage == Ready then serious + {step.t} else serious)
  {
    hide Closed;
    var s' := Apply(s, step);
    if s'.stops == s.stops && s'.handleCloses == s.handleCloses {
      ClosedSame(s, s', serious);
    } else {
      match step
      case CallStop(t) => ClosedCall(s, t, serious);
      case ReceiveV4(t) =>
        if s.ch4[0] == Clean && s.ipv6 {
          ClosedWait(s, s', t, serious);
        } else {
          ClosedReturn(s, s', t, s.ch4[0], serious);
        }
      case ReceiveV6(t) => ClosedReturn(s, s', t, s.ch6[0], serious);
    }
  }

  /** In every run, the handles have been closed once by each Stop that found the manager running
      and has returned, and by no other: a Stop before the start is complete closes nothing. */
  lemma {:induction false} ClosedByStops(ipv6: bool, steps: seq<Step>)
    ensures Closed(After(Init(ipv6), steps), Serious(Init(ipv6), steps))
  {
    hide Apply, Closed;
    if steps == [] {
      NothingClosed(ipv6);
    } else {
      ClosedByStops(ipv6, steps[..|steps| - 1]);
      ClosedStep(After(Init(ipv6), steps[..|steps| - 1]), steps[|steps| - 1],
        Serious(Init(ipv6), steps[..|steps| - 1]));
    }
  }

  lemma NothingClosed(ipv6: bool)
    ensures Closed(Init(ipv6), {})
  {
    assert Back(Init(ipv6), {}) == {};
  }

  /** A Stop waits for a result that another Stop has taken. */
  ghost predicate Stuck(s: State, t: nat) {
    OneResultEach(s) && t in s.stops && s.stops[t] == WaitV4 && s.loop4 == Exited && s.ch4 == []
  }

  lemma StuckStep(s: State, step: Step, t: nat)
    requires Stuck(s, t)
    ensures Stuck(Apply(s, step), t)
  {
    StepKeeps(s, step);
    hide OneResultEach;
    assert s.stage == Ready by {
      WaitsWhenReady(s, t);
    }
  }

  lemma WaitsWhenReady(s: State, t: nat)
    requires OneResultEach(s) && t in s.stops && s.stops[t] == WaitV4
    ensures s.stage == Ready
  {
  }

  /** A Stop that waits for the IPv4 result of an exited loop gets it exactly when no other
      Stop has taken it; otherwise it waits for ever. */
  lemma {:induction false} SecondStopWaitsForever(s: State, steps: seq<Step>, t: nat)
    requires OneResultEach(s) && t in s.stops && s.stops[t] == WaitV4 && s.loop4 == Exited
    ensures s.ch4 != [] <==> s.taken4 == 0
    ensures s.taken4 == 1 ==> Stuck(After(s, steps), t)
  {
    if s.taken4 == 1 {
      assert Stuck(s, t);
      if steps != [] {
        SecondStopWaitsForever(s, steps[..|steps| - 1], t);
        StuckStep(After(s, steps[..|steps| - 1]), steps[|steps| - 1], t);
        hide Apply;
      }
    }
  }

  /** Stop returns on an IPv4 error and closes the handles while the IPv6 loop still runs. */
  lemma EarlyReturn()
    ensures exists steps :: (
      OnlyStop(steps, 0) &&
      var s := After(Init(true), steps);
      0 in s.stops && s.stops[0] == Returned(Error) && s.handleCloses == 1 && s.loop6 == Looping)
  {
    var s0 := Init(true);
    var a := [SetupV4(true)];
    var b := a + [SetupV6(true)];
    var c := b + [CallStop(0)];
    var d := c + [ExitLoop(false, NormalStop(Error))];
    var e := d + [ReceiveV4(0)];
    assert After(s0, a) == Apply(s0, SetupV4(true)) by { assert a[..0] == []; }
    AfterSnoc(s0, a, SetupV6(true));
    AfterSnoc(s0, b, CallStop(0));
    AfterSnoc(s0, c, ExitLoop(false, NormalStop(Error)));
    AfterSnoc(s0, d, ReceiveV4(0));
    assert OnlyStop(e, 0);
  }

  lemma AfterSnoc(s: State, steps: seq<Step>, step: Step)
    ensures After(s, steps + [step]) == Apply(After(s, steps), step)
  {
    assert (steps + [step])[..|steps|] == steps;
  }
}
