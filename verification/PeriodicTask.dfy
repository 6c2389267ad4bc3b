/** The periodic task automaton, on a single-threaded executor whose code also calls start and stop, from
    inside the task's callback if it likes.

    Every critical section is one step, and so is the end of a call of the callback up to the settlement of
    its chain. An error reported to the executor has no effect here. */
module PeriodicTask {
  import opened Outcomes
  import Runs

  datatype Status = Stopped | Running | Stopping

  /** What will bring the callback about, or what it is doing. */
  datatype Phase = Timer | PostedCall | InCallback | CallbackPending

  /** Each chain of futures assigned to _future has a number, and lives as long as its tick. */
  datatype Tick = Tick(chain: nat, phase: Phase)

  /** How the future returned by the callback ends. */
  datatype End = Done | Canceled | Failed

  /** A call of stop: the chain its continuation is registered on, whether that continuation sets the state,
      and whether the returned future is ready. */
  datatype StopCall = StopCall(chain: nat, leaves: bool, ready: bool)

  /** chains counts the chains made, the last one being _future. calls counts calls of the callback, last is how
      the latest one since start() ended, and fault tells that an assertion failed. */
  datatype State = State(
    status: Status,
    callback: bool,
    ticks: seq<Tick>,
    chains: nat,
    stops: seq<StopCall>,
    calls: nat,
    last: Option<End>,
    fault: bool)

  datatype Action =
    | SetCallback
    | Start(immediately: bool)
    | Stop(answer: Option<End>)
    | Fire(i: nat)
    | Throw(i: nat)
    | Return(i: nat)
    | CallbackSettles(i: nat, end: End)

  const INIT := State(Stopped, false, [], 0, [], 0, None, false)

  function NewTick(s: State, phase: Phase): State {
    s.(ticks := s.ticks + [Tick(s.chains, phase)], chains := s.chains + 1)
  }

  /** reschedule() */
  function Reschedule(s: State): State {
    if s.status == Stopped then s.(fault := true)
    else if s.status == Stopping then s
    else NewTick(s, Timer)
  }

  predicate Waits(stop: StopCall, chain: nat) {
    stop.chain == chain && !stop.ready
  }

  /** The continuations registered by stop() on a chain that settles. */
  function RunStops(s: State, chain: nat): State {
    var leaves := exists i :: 0 <= i < |s.stops| && Waits(s.stops[i], chain) && s.stops[i].leaves;
    s.(stops := seq(|s.stops|, i requires 0 <= i < |s.stops| =>
                      if Waits(s.stops[i], chain) then s.stops[i].(ready := true) else s.stops[i]),
       status := if leaves then Stopped else s.status,
       fault := s.fault || (leaves && s.status == Running))
  }

  function Without(ticks: seq<Tick>, i: nat): seq<Tick>
    requires i < |ticks|
  {
    ticks[..i] + ticks[i + 1..]
  }

  /** The tick's chain settles. */
  function SettleChain(s: State, i: nat): State
    requires i < |s.ticks|
  {
    RunStops(s.(ticks := Without(s.ticks, i)), s.ticks[i].chain)
  }

  /** The chain that _future belongs to. */
  function Future(s: State): nat {
    if s.chains == 0 then 0 else s.chains - 1
  }

  /** Whether a chain is ready: no tick will settle it any more. */
  predicate Ready(s: State, chain: nat) {
    forall i :: 0 <= i < |s.ticks| ==> s.ticks[i].chain != chain
  }

  /** start(), which throws in the first two cases. */
  function StartCall(s: State, immediately: bool): State {
    if !s.callback || s.status == Stopping then s
    else if s.status == Running then s
    else NewTick(s.(status := Running, last := None), if immediately then PostedCall else Timer)
  }

  /** A continuation registered by stop() runs inline on a ready chain. */
  function Register(s: State, leaves: bool): State {
    var s1 := s.(stops := s.stops + [StopCall(Future(s), leaves, false)], fault := s.fault || s.chains == 0);
    if Ready(s, Future(s)) then RunStops(s1, Future(s)) else s1
  }

  /** What the continuation of the callback's future does. */
  function Ended(s: State, end: End): (s': State)
    ensures s'.ticks == s.ticks || s'.ticks == s.ticks + [Tick(s.chains, Timer)]
  {
    var s1 := s.(last := Some(end));
    match end
    case Done => Reschedule(s1)
    case Canceled => s1
    case Failed => s1.(status := Stopped)
  }

  /** The end of a call of the callback by its future, up to the settlement of its chain. */
  function EndOfCall(s: State, i: nat, end: End): State
    requires i < |s.ticks|
  {
    SettleChain(Ended(s, end), i)
  }

  /** A cancelation request on _future cancels its timer at once, and a posted call is not cancelable. The future of
      a callback in progress may settle inside the request, as answer tells, or later, or never for it. */
  function CancelFuture(s: State, answer: Option<End>): State {
    if s.ticks == [] || s.ticks[|s.ticks| - 1].chain != Future(s) then s
    else
      match s.ticks[|s.ticks| - 1].phase
      case Timer => SettleChain(s, |s.ticks| - 1)
      case CallbackPending => if answer.Some? then EndOfCall(s, |s.ticks| - 1, answer.value) else s
      case _ => s
  }

  /** stop() */
  function StopCallStep(s: State, answer: Option<End>): State {
    if s.status == Stopped then s.(stops := s.stops + [StopCall(s.chains, false, true)])
    else if s.status == Stopping then Register(s, false)
    else Register(CancelFuture(s.(status := Stopping), answer), true)
  }

  function Step(s: State, a: Action): Option<State> {
    match a
    case SetCallback => Some(s.(callback := true))
    case Start(immediately) => Some(StartCall(s, immediately))
    case Stop(answer) => Some(StopCallStep(s, answer))
    case Fire(i) =>
      if i < |s.ticks| && s.ticks[i].phase in {Timer, PostedCall} then
        Some(s.(ticks := s.ticks[i := s.ticks[i].(phase := InCallback)], calls := s.calls + 1))
      else None
    case Return(i) =>
      if i < |s.ticks| && s.ticks[i].phase == InCallback then
        Some(s.(ticks := s.ticks[i := s.ticks[i].(phase := CallbackPending)]))
      else None
    case Throw(i) =>
      if i < |s.ticks| && s.ticks[i].phase == InCallback then
        Some(SettleChain(s.(status := Stopped, last := Some(Failed)), i))
      else None
    case CallbackSettles(i, end) =>
      if i < |s.ticks| && s.ticks[i].phase == CallbackPending then Some(EndOfCall(s, i, end)) else None
  }

  // ----- the invariant -----

  /** A call of stop() that left Running and whose future is not ready. */
  ghost predicate Leaving(s: State) {
    exists i :: 0 <= i < |s.stops| && Waits(s.stops[i], Future(s)) && s.stops[i].leaves
  }

  ghost predicate Inv(s: State) {
    && !s.fault
    && |s.ticks| <= 1
    && (s.ticks != [] ==> s.ticks[0].chain == Future(s))
    && (s.status != Stopped ==> s.chains > 0)
    && (s.status == Stopped ==> s.ticks == [])
    && (s.status == Stopping ==> s.ticks != [] && Leaving(s))
    && (forall i :: 0 <= i < |s.stops| && !s.stops[i].ready ==> s.status == Stopping && s.stops[i].chain == Future(s))
    && (s.status == Running ==> (s.ticks == [] <==> s.last == Some(Canceled)))
  }

  /** The task is stopped, and so is everything that waited for it. */
  ghost predicate AllStopped(s: State) {
    s.status == Stopped && s.ticks == [] && forall i :: 0 <= i < |s.stops| ==> s.stops[i].ready
  }

  lemma RegisterKeepsInv(s: State, leaves: bool)
    requires !s.fault && s.chains > 0 && |s.ticks| <= 1
    requires s.status == Stopping || (s.status == Stopped && s.ticks == [])
    requires s.ticks != [] ==> s.ticks[0].chain == Future(s)
    requires leaves || (s.ticks != [] && Leaving(s))
    requires forall i :: 0 <= i < |s.stops| && !s.stops[i].ready ==> s.stops[i].chain == Future(s)
    ensures Inv(Register(s, leaves))
    ensures Register(s, leaves).ticks == s.ticks && |Register(s, leaves).stops| == |s.stops| + 1
    ensures if s.ticks == [] then AllStopped(Register(s, leaves))
            else Register(s, leaves).stops == s.stops + [StopCall(Future(s), leaves, false)]
  {
    var s1 := s.(stops := s.stops + [StopCall(Future(s), leaves, false)]);
    assert s1.stops[|s.stops|] == StopCall(Future(s), leaves, false);
    if !leaves {
      var i :| 0 <= i < |s.stops| && Waits(s.stops[i], Future(s)) && s.stops[i].leaves;
      assert s1.stops[i] == s.stops[i];
    }
  }

  lemma SettleKeepsInv(s: State, s1: State)
    requires Inv(s) && s.ticks != []
    requires
      || s1 == s.(last := s1.last, status := s1.status)
      || (s.status == Running && s1 == NewTick(s.(last := s1.last), Timer))
    requires s1.status == s.status || s1.status == Stopped
    requires s1.chains == s.chains && s1.status == Running ==> s1.last == Some(Canceled)
    requires s1.chains > s.chains ==> s1.last == Some(Done)
    ensures Inv(SettleChain(s1, 0))
    ensures SettleChain(s1, 0).ticks == (if s1.chains > s.chains then [Tick(s.chains, Timer)] else [])
    ensures SettleChain(s1, 0).stops == s.stops || AllStopped(SettleChain(s1, 0))
  {
    assert Without(s1.ticks, 0) == if s1.chains > s.chains then [Tick(s.chains, Timer)] else [];
    if s.status == Stopping {
      var i :| 0 <= i < |s.stops| && Waits(s.stops[i], Future(s)) && s.stops[i].leaves;
      assert Waits(s1.stops[i], s1.ticks[0].chain);
    }
  }

  /** What a cancelation request may do while stop() has set Stopping and not yet registered its continuation: the
      chain it settles has nobody waiting, and nothing new is scheduled. */
  lemma CancelLeaves(s: State, answer: Option<End>)
    requires Inv(s) && s.status == Running
    ensures var s1 := s.(status := Stopping); var s2 := CancelFuture(s1, answer);
      && !s2.fault && s2.stops == s.stops && s2.chains == s.chains
      && s2.status in {Stopping, Stopped} && (s2.status == Stopped ==> s2.ticks == [])
      && (s2.ticks == s.ticks || s2.ticks == [])
      && (s.ticks != [] && (s.ticks[0].phase == Timer || (s.ticks[0].phase == CallbackPending && answer.Some?)) ==>
            s2.ticks == [])
      && (s.ticks != [] && s.ticks[0].phase == CallbackPending && answer.Some? ==> s2.last == answer)
  {
    var s1 := s.(status := Stopping);
    if s.ticks != [] && s.ticks[0].phase == Timer {
      SettlesQuietly(s1);
    } else if s.ticks != [] && s.ticks[0].phase == CallbackPending && answer.Some? {
      SettlesQuietly(Ended(s1, answer.value));
    }
  }

  lemma SettlesQuietly(s: State)
    requires |s.ticks| == 1 && s.status != Running && forall i :: 0 <= i < |s.stops| ==> s.stops[i].ready
    ensures SettleChain(s, 0) == s.(ticks := [])
  {
    var s' := SettleChain(s, 0);
    assert s'.ticks == [] && s'.stops == s.stops;
  }

  lemma StopKeepsInv(s: State, answer: Option<End>)
    requires Inv(s)
    ensures Inv(StopCallStep(s, answer)) && |StopCallStep(s, answer).stops| == |s.stops| + 1
    ensures s.status == Stopped ==> AllStopped(StopCallStep(s, answer)) && StopCallStep(s, answer).ticks == s.ticks
    ensures s.status == Running && (s.ticks == [] || s.ticks[0].phase == Timer) ==> AllStopped(StopCallStep(s, answer))
    ensures s.status == Running && s.ticks != [] && s.ticks[0].phase == CallbackPending && answer.Some? ==>
      AllStopped(StopCallStep(s, answer))
    ensures AllStopped(StopCallStep(s, answer)) ||
      exists leaves :: StopCallStep(s, answer).stops == s.stops + [StopCall(Future(s), leaves, false)]
  {
    if s.status == Stopping {
      RegisterKeepsInv(s, false);
    } else if s.status == Running {
      CancelLeaves(s, answer);
      RegisterKeepsInv(CancelFuture(s.(status := Stopping), answer), true);
    }
  }

  lemma StepKeepsInv(s: State, a: Action)
    requires Inv(s) && Step(s, a).Some?
    ensures Inv(Step(s, a).value)
  {
    match a
    case Stop(answer) => StopKeepsInv(s, answer);
    case Throw(_) => SettleKeepsInv(s, s.(status := Stopped, last := Some(Failed)));
    case CallbackSettles(_, end) => SettleKeepsInv(s, Ended(s, end));
    case Start(_) => assert !s.callback || s.status != Stopped || forall i :: 0 <= i < |s.stops| ==> s.stops[i].ready;
    case _ =>
  }

  lemma RunKeepsInv(s: State, acts: seq<Action>)
    requires Inv(s)
    ensures Runs.Exec(Step, s, acts).Some? ==> Inv(Runs.Exec(Step, s, acts).value)
  {
    forall s, a | Inv(s) && Step(s, a).Some? ensures Inv(Step(s, a).value) { StepKeepsInv(s, a); }
    Runs.Invariance(Step, Inv, s, acts);
  }

  // ----- what every run guarantees -----

  ghost predicate Reachable(acts: seq<Action>, s: State) {
    Runs.Exec(Step, INIT, acts) == Some(s)
  }

  /** There is never more than one pending timer, posted call or callback in progress, no assertion fails, and
      a running task has none exactly when its last call ended with operation_canceled. */
  lemma AtMostOneTick(acts: seq<Action>, s: State)
    requires Reachable(acts, s)
    ensures !s.fault && |s.ticks| <= 1
    ensures s.status == Stopped ==> s.ticks == []
    ensures s.status == Running ==> (s.ticks == [] <==> s.last == Some(Canceled))
  {
    RunKeepsInv(INIT, acts);
  }

  /** A step that makes a future of stop() ready leaves everything stopped. */
  lemma ReadiesAll(s: State, a: Action)
    requires Inv(s) && Step(s, a).Some?
    ensures var s' := Step(s, a).value;
      || AllStopped(s') || s'.stops == s.stops
      || exists leaves :: s'.stops == s.stops + [StopCall(Future(s), leaves, false)]
  {
    match a
    case Stop(answer) => StopKeepsInv(s, answer);
    case Throw(_) => SettleKeepsInv(s, s.(status := Stopped, last := Some(Failed)));
    case CallbackSettles(_, end) => SettleKeepsInv(s, Ended(s, end));
    case _ =>
  }

  /** When the future of a call of stop() gets ready, whichever step does it, the task is stopped and nothing
      of it is left, and no other future of stop() is still waiting. */
  lemma StopFutureMeansStopped(acts: seq<Action>, s: State, a: Action, i: nat)
    requires Reachable(acts, s) && Step(s, a).Some?
    requires i < |Step(s, a).value.stops| && Step(s, a).value.stops[i].ready
    requires i >= |s.stops| || !s.stops[i].ready
    ensures Step(s, a).value.status == Stopped && Step(s, a).value.ticks == []
    ensures forall j :: 0 <= j < |Step(s, a).value.stops| ==> Step(s, a).value.stops[j].ready
  {
    RunKeepsInv(INIT, acts);
    ReadiesAll(s, a);
  }

  /** A step after which the task is stopped and the i-th future of stop() is ready. */
  predicate StopsBy(s: State, a: Action, i: nat) {
    match Step(s, a)
    case None => false
    case Some(s') => s'.status == Stopped && s'.ticks == [] && i < |s'.stops| && s'.stops[i].ready
  }

  /** A future of stop() that is not ready gets ready at the end of the tick: there is one, and its end stops
      the task. */
  lemma StopCompletes(acts: seq<Action>, s: State, i: nat, end: End)
    requires Reachable(acts, s) && i < |s.stops| && !s.stops[i].ready
    ensures s.status == Stopping && |s.ticks| == 1
    ensures match s.ticks[0].phase
      case InCallback => Step(s, Return(0)).Some? && StopsBy(s, Throw(0), i)
      case CallbackPending => StopsBy(s, CallbackSettles(0, end), i)
      case _ => Step(s, Fire(0)).Some?
  {
    RunKeepsInv(INIT, acts);
    if s.ticks[0].phase == CallbackPending {
      StepKeepsInv(s, CallbackSettles(0, end));
    }
    if s.ticks[0].phase == InCallback {
      StepKeepsInv(s, Throw(0));
    }
  }

  predicate NoStart(acts: seq<Action>) {
    forall i :: 0 <= i < |acts| ==> !acts[i].Start?
  }

  lemma StepKeepsStopped(s: State, a: Action)
    requires Inv(s) && s.status == Stopped && !a.Start? && Step(s, a).Some?
    ensures !a.Fire? && Step(s, a).value.calls == s.calls && Step(s, a).value.status == Stopped
  {
  }

  /** Once a task is stopped, its callback is not called before the next start(). */
  lemma {:induction false} NoCallUntilStart(s: State, acts: seq<Action>, s': State)
    requires Inv(s) && s.status == Stopped && NoStart(acts) && Runs.Exec(Step, s, acts) == Some(s')
    ensures forall i :: 0 <= i < |acts| ==> !acts[i].Fire?
    ensures s'.calls == s.calls && s'.status == Stopped && s'.ticks == []
    decreases |acts|
  {
    if acts != [] {
      StepKeepsInv(s, acts[0]);
      StepKeepsStopped(s, acts[0]);
      assert NoStart(acts[1..]);
      NoCallUntilStart(Step(s, acts[0]).value, acts[1..], s');
      assert forall i :: 0 < i < |acts| ==> acts[i] == acts[1..][i - 1];
    }
  }

  function Fires(acts: seq<Action>): nat {
    if acts == [] then 0 else (if acts[0].Fire? then 1 else 0) + Fires(acts[1..])
  }

  /** Every call of the callback is a tick that fires. */
  lemma {:induction false} CallsAreFires(s: State, acts: seq<Action>, s': State)
    requires Runs.Exec(Step, s, acts) == Some(s')
    ensures s'.calls == s.calls + Fires(acts)
    decreases |acts|
  {
    if acts != [] {
      if acts[0].Stop? {
        CallsAreKept(s, acts[0].answer);
      }
      CallsAreFires(Step(s, acts[0]).value, acts[1..], s');
    }
  }

  /** Without a callback start() throws and changes nothing, so nothing is ever called. */
  lemma {:induction false} NothingWithoutCallback(s: State, acts: seq<Action>, s': State)
    requires Inv(s) && s.status == Stopped && !s.callback
    requires SetCallback !in acts && Runs.Exec(Step, s, acts) == Some(s')
    ensures s'.status == Stopped && !s'.callback && s'.ticks == [] && s'.calls == s.calls && Fires(acts) == 0
    decreases |acts|
  {
    if acts != [] {
      StepKeepsInv(s, acts[0]);
      assert Step(s, acts[0]).value.status == Stopped;
      NothingWithoutCallback(Step(s, acts[0]).value, acts[1..], s');
    }
  }

  lemma CallsAreKept(s: State, answer: Option<End>)
    ensures StopCallStep(s, answer).calls == s.calls
  {
  }

  lemma StartLeavesOne(s: State, immediately: bool)
    requires Inv(s) && s.callback && s.status == Stopped
    ensures var s1 := StartCall(s, immediately);
      && s1 == s.(status := Running, last := None, ticks := s1.ticks, chains := s.chains + 1)
      && s1.ticks == [Tick(s.chains, if immediately then PostedCall else Timer)]
  {
  }

  /** A stop right after a delayed start ends everything at once, no call having been made. */
  lemma StopAfterDelayedStart(acts: seq<Action>, s: State, s1: State, answer: Option<End>, s': State)
    requires Reachable(acts, s) && s.callback && s.status == Stopped
    requires Step(s, Start(false)) == Some(s1) && Step(s1, Stop(answer)) == Some(s')
    ensures AllStopped(s') && s'.calls == s.calls
  {
    RunKeepsInv(INIT, acts);
    StepKeepsInv(s, Start(false));
    StartLeavesOne(s, false);
    CallsAreKept(s1, answer);
    StopKeepsInv(s1, answer);
  }

  /** Right after an immediate start the call is posted and will be made: the task stays Stopping until its end. */
  lemma StopAfterImmediateStart(acts: seq<Action>, s: State, s1: State, answer: Option<End>, s': State)
    requires Reachable(acts, s) && s.callback && s.status == Stopped
    requires Step(s, Start(true)) == Some(s1) && Step(s1, Stop(answer)) == Some(s')
    ensures s'.status == Stopping && |s'.ticks| == 1 && s'.ticks[0].phase == PostedCall && Step(s', Fire(0)).Some?
    ensures s'.stops != [] && !s'.stops[|s'.stops| - 1].ready
  {
    RunKeepsInv(INIT, acts);
    StartLeavesOne(s, true);
  }

  /** A task left running without a tick ignores start() for ever; stop() stops it at once. */
  lemma StuckUntilStop(acts: seq<Action>, s: State, immediately: bool, answer: Option<End>)
    requires Reachable(acts, s) && s.status == Running && s.last == Some(Canceled)
    ensures StartCall(s, immediately) == s
    ensures forall i :: Step(s, Fire(i)).None? && Step(s, Throw(i)).None? && Step(s, Return(i)).None?
    ensures StopCallStep(s, answer).status == Stopped
    ensures var stops := StopCallStep(s, answer).stops; stops != [] && stops[|stops| - 1].ready
  {
    RunKeepsInv(INIT, acts);
    StopKeepsInv(s, answer);
  }

  /** Such a state exists: a callback that ends with operation_canceled on its own. */
  lemma CanceledCallbackSticks() returns (acts: seq<Action>, s: State)
    ensures Reachable(acts, s) && s.status == Running && s.ticks == []
  {
    acts := [SetCallback, Start(false), Fire(0), Return(0), CallbackSettles(0, Canceled)];
    var s1 := Step(INIT, acts[0]).value;
    var s2 := Step(s1, acts[1]).value;
    var s3 := Step(s2, acts[2]).value;
    var s4 := Step(s3, acts[3]).value;
    s := Step(s4, acts[4]).value;
    Runs.ExecSnoc(Step, INIT, [], acts[0], INIT);
    Runs.ExecSnoc(Step, INIT, [acts[0]], acts[1], s1);
    Runs.ExecSnoc(Step, INIT, [acts[0]] + [acts[1]], acts[2], s2);
    Runs.ExecSnoc(Step, INIT, [acts[0]] + [acts[1]] + [acts[2]], acts[3], s3);
    Runs.ExecSnoc(Step, INIT, [acts[0]] + [acts[1]] + [acts[2]] + [acts[3]], acts[4], s4);
    assert [] + [acts[0]] == [acts[0]];
    assert [acts[0]] + [acts[1]] + [acts[2]] + [acts[3]] + [acts[4]] == acts;
  }

  // ----- the class -----

  class Task {
    var status: Status
    var callback: bool
    var ticks: seq<Tick>
    var chains: nat
    var stops: seq<StopCall>
    var calls: nat
    var last: Option<End>

    function View(): State
      reads this
    {
      State(status, callback, ticks, chains, stops, calls, last, false)
    }

    constructor ()
      ensures View() == INIT
    {
      status, callback, ticks, chains, stops, calls, last := Stopped, false, [], 0, [], 0, None;
    }

    method StartTask(immediately: bool) returns (threw: bool)
      modifies this
      ensures View() == StartCall(old(View()), immediately)
      ensures threw <==> !callback || old(status) == Stopping
      ensures !threw && old(status) == Stopped ==>
        && status == Running && last == None && |ticks| == |old(ticks)| + 1
        && ticks[|ticks| - 1].phase == if immediately then PostedCall else Timer
      ensures threw || old(status) == Running ==> ticks == old(ticks) && status == old(status)
    {
      threw := !callback || status == Stopping;
      if threw || status == Running {
        return;
      }
      status, last := Running, None;
      if immediately {
        ticks := ticks + [Tick(chains, PostedCall)];
        chains := chains + 1;
      } else {
        RescheduleTask();
      }
    }

    method RescheduleTask()
      requires status != Stopped
      modifies this`ticks, this`chains
      ensures View() == Reschedule(old(View()))
    {
      if status != Stopping {
        ticks := ticks + [Tick(chains, Timer)];
        chains := chains + 1;
      }
    }

    /** The continuations of a chain that settles, one after the other. */
    method RunContinuations(chain: nat)
      requires status == Running ==> forall i :: 0 <= i < |stops| && Waits(stops[i], chain) ==> !stops[i].leaves
      modifies this`stops, this`status
      ensures View() == RunStops(old(View()), chain)
    {
      ghost var stops0 := stops;
      var i := 0;
      while i < |stops|
        invariant i <= |stops| == |stops0|
        invariant forall j :: 0 <= j < i ==>
          stops[j] == if Waits(stops0[j], chain) then stops0[j].(ready := true) else stops0[j]
        invariant forall j :: i <= j < |stops| ==> stops[j] == stops0[j]
        invariant status ==
          if exists j :: 0 <= j < i && Waits(stops0[j], chain) && stops0[j].leaves then Stopped else old(status)
      {
        if Waits(stops[i], chain) {
          if stops[i].leaves {
            status := Stopped;
          }
          stops := stops[i := stops[i].(ready := true)];
        }
        i := i + 1;
      }
    }

    /** answer tells how the future of a callback in progress settles inside the cancelation request, if it does. */
    method StopTask(answer: Option<End>)
      requires Inv(View())
      modifies this
      ensures View() == StopCallStep(old(View()), answer) && Inv(View())
    {
      StopKeepsInv(View(), answer);
      if status == Stopped {
        stops := stops + [StopCall(chains, false, true)];
        return;
      }
      var leaves := status == Running;
      if leaves {
        CancelLeaves(View(), answer);
        status := Stopping;
        RequestCancel(answer);
      }
      RegisterStop(leaves);
    }

    /** The registration of stop()'s continuation on _future, which runs at once on a ready chain. */
    method RegisterStop(leaves: bool)
      requires chains > 0 && status != Running
      modifies this`stops, this`status
      ensures View() == Register(old(View()), leaves)
    {
      var future := chains - 1;
      stops := stops + [StopCall(future, leaves, false)];
      if forall i :: 0 <= i < |ticks| ==> ticks[i].chain != future {
        RunContinuations(future);
      }
    }

    /** _future.request_cancel() */
    method RequestCancel(answer: Option<End>)
      requires status == Stopping
      modifies this
      ensures View() == CancelFuture(old(View()), answer)
    {
      if ticks != [] && ticks[|ticks| - 1].chain == Future(View()) {
        var i := |ticks| - 1;
        match ticks[i].phase {
          case Timer =>
            var chain := ticks[i].chain;
            ticks := Without(ticks, i);
            RunContinuations(chain);
          case CallbackPending =>
            if answer.Some? {
              FinishCall(i, answer.value);
            }
          case _ =>
        }
      }
    }

    /** What do_call's continuation does, and the continuations of its chain. */
    method FinishCall(i: nat, end: End)
      requires i < |ticks| && status != Stopped
      requires status == Running && end != Failed ==>
        forall k :: 0 <= k < |stops| && Waits(stops[k], ticks[i].chain) ==> !stops[k].leaves
      modifies this
      ensures View() == EndOfCall(old(View()), i, end)
    {
      var chain := ticks[i].chain;
      last := Some(end);
      match end {
        case Done => RescheduleTask();
        case Canceled =>
        case Failed => status := Stopped;
      }
      ticks := Without(ticks, i);
      RunContinuations(chain);
    }

    /** The end of a call of the callback by its future, up to the settlement of its chain. */
    method EndCall(end: End)
      requires Inv(View()) && ticks != [] && ticks[0].phase == CallbackPending
      modifies this
      ensures Some(View()) == Step(old(View()), CallbackSettles(0, end)) && Inv(View())
    {
      StepKeepsInv(View(), CallbackSettles(0, end));
      FinishCall(0, end);
    }
  }
}
