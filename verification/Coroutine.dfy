/** Stackful coroutines on one single-threaded executor: suspension, resumption and abort.

    A context switch is a step. User code in a coroutine, in work dispatched on the thread context, in an
    executor task or in the submission of an awaited sender takes any steps it likes. A cancelation only hits
    coroutines that are suspended and off the stack, and an awaited thing completes at most once. */
module Coroutine {
  import opened Outcomes
  import Runs

  type CoroutineId = nat
  type AwaitId = nat

  /** The C++ stack as nested calls of run_coroutine, the innermost first: the coroutine, the local copy of the
      previous current coroutine, and whether it runs work on the thread context. */
  datatype Stack = Bottom | Call(c: CoroutineId, saved: Option<CoroutineId>, onThread: bool, below: Stack)

  /** Created is a control block after the first jump to it and back. */
  datatype Phase = Created | Running | Suspended(at: AwaitId) | Deleted

  /** coroutine_status, what run_coroutine returns. */
  datatype Status = StillWaiting | Finished | Aborted

  /** A control block: where the coroutine is, its previous_coroutine field, and whether abort_coroutine is
      being thrown in it. */
  datatype Control = Control(phase: Phase, previous: Option<CoroutineId>, aborting: bool)

  /** One co_await: its coroutine, its shared aborted flag, whether what it awaits has completed, and how many
      times it was resumed. */
  datatype Await = Await(c: CoroutineId, aborted: bool, completed: bool, resumed: nat)

  /** queue holds the resumptions posted to the executor. fault stands for a failed assertion and for any
      access to a deleted control block or to a dead await frame. */
  datatype State = State(
    stack: Stack,
    current: Option<CoroutineId>,
    controls: seq<Control>,
    awaits: seq<Await>,
    queue: multiset<AwaitId>,
    fault: bool)

  datatype Action =
    | Spawn
    | Suspend
    | EndSetup
    | Complete(w: AwaitId)
    | Resume(w: AwaitId)
    | Cancel(c: CoroutineId)
    | Finish(status: Status)
    | Dispatch
    | EndDispatch

  const INIT := State(Bottom, None, [], [], multiset{}, false)

  function OnStack(stack: Stack): set<CoroutineId> {
    if stack.Bottom? then {} else {stack.c} + OnStack(stack.below)
  }

  /** The coroutine whose code is running. */
  function Runner(s: State): Option<CoroutineId> {
    if s.stack.Call? && !s.stack.onThread && s.stack.c < |s.controls| && s.controls[s.stack.c].phase == Running
    then Some(s.stack.c) else None
  }

  /** The entry of run_coroutine. */
  function Enter(s: State, c: CoroutineId): State {
    if c >= |s.controls| || s.controls[c].phase == Deleted || s.controls[c].previous != None then s.(fault := true)
    else
      s.(stack := Call(c, s.current, false, s.stack), current := Some(c),
         controls := s.controls[c := s.controls[c].(phase := Running, previous := s.current)])
  }

  /** The exit of run_coroutine, which leaves the coroutine suspended, or deletes it when it is done. */
  function Exit(s: State, phase: Phase): State
    requires s.stack.Call? && s.stack.c < |s.controls|
  {
    var c := s.stack.c;
    s.(stack := s.stack.below, current := s.stack.saved,
       controls := s.controls[c := s.controls[c].(phase := phase, previous := None)])
  }

  function Resumed(s: State, w: AwaitId, aborted: bool): State
    requires w < |s.awaits|
  {
    s.(awaits := s.awaits[w := s.awaits[w].(aborted := aborted, resumed := s.awaits[w].resumed + 1)])
  }

  /** The canceler's assertion on the status that its run_coroutine returns: an aborting coroutine has been aborted. */
  predicate AbortFails(s: State, c: CoroutineId, status: Status)
    requires c < |s.controls|
  {
    s.controls[c].aborting && status != Aborted
  }

  /** The continuation given to the awaited thing, run by the executor: it touches the await frame and runs the
      coroutine unless the aborted flag is set. */
  function Continue(s: State, w: AwaitId): State
    requires w < |s.awaits|
  {
    var c := s.awaits[w].c;
    if s.awaits[w].aborted then s
    else if c >= |s.controls| || s.controls[c].phase != Suspended(w) then s.(fault := true)
    else Enter(Resumed(s, w, false), c)
  }

  /** The callback on the coroutine's cancelation token, once it has passed the request on. */
  function Abort(s: State, c: CoroutineId): State
    requires c < |s.controls| && s.controls[c].phase.Suspended? && s.controls[c].phase.at < |s.awaits|
  {
    var s1 := Resumed(s, s.controls[c].phase.at, true);
    Enter(s1.(controls := s.controls[c := s.controls[c].(aborting := true)]), c)
  }

  predicate CanCancel(s: State, c: CoroutineId) {
    c < |s.controls| && s.controls[c].phase.Suspended? && s.controls[c].phase.at < |s.awaits| && c !in OnStack(s.stack)
  }

  function Step(s: State, a: Action): Option<State> {
    match a
    case Spawn => Some(Enter(s.(controls := s.controls + [Control(Created, None, false)]), |s.controls|))
    case Suspend =>
      // its run_coroutine goes on with coroutine_exit_post_setup, which submits the awaited thing
      (match Runner(s)
       case None => None
       case Some(c) =>
         if AbortFails(s, c, StillWaiting) then Some(s.(fault := true))
         else Some(s.(controls := s.controls[c := s.controls[c].(phase := Suspended(|s.awaits|))],
                      awaits := s.awaits + [Await(c, false, false, 0)])))
    case EndSetup =>
      if s.stack.Call? && s.stack.c < |s.controls| && s.controls[s.stack.c].phase.Suspended? then
        Some(Exit(s, s.controls[s.stack.c].phase))
      else None
    case Complete(w) =>
      if w < |s.awaits| && !s.awaits[w].completed then
        Some(s.(awaits := s.awaits[w := s.awaits[w].(completed := true)], queue := s.queue + multiset{w}))
      else None
    case Resume(w) =>
      // tasks of a single-threaded executor do not nest
      if s.stack.Bottom? && w in s.queue && w < |s.awaits| then
        Some(Continue(s.(queue := s.queue - multiset{w}), w))
      else None
    case Cancel(c) => if CanCancel(s, c) then Some(Abort(s, c)) else None
    case Finish(status) =>
      // ctrl->aborted is set where abort_coroutine gets out of the body, which only an aborting coroutine can throw
      (match Runner(s)
       case None => None
       case Some(c) =>
         if status == StillWaiting || (status == Aborted && !s.controls[c].aborting) then None
         else Some(Exit(s, Deleted).(fault := s.fault || AbortFails(s, c, status))))
    case Dispatch =>
      if Runner(s).Some? then Some(s.(stack := s.stack.(onThread := true), current := None)) else None
    case EndDispatch =>
      if s.stack.Call? && s.stack.onThread then
        Some(s.(stack := s.stack.(onThread := false), current := Some(s.stack.c)))
      else None
  }

  // ----- the invariant -----

  /** The current coroutine that a stack implies: none while its top works on the thread context. */
  function CurrentOf(stack: Stack): Option<CoroutineId> {
    if stack.Call? && !stack.onThread then Some(stack.c) else None
  }

  /** Every call on the stack saved the coroutine that was current below it, which is also in the
      previous_coroutine field of its own coroutine, and no coroutine is there twice. */
  ghost predicate Linked(stack: Stack, controls: seq<Control>) {
    stack.Call? ==>
      && stack.c < |controls|
      && stack.saved == CurrentOf(stack.below) == controls[stack.c].previous
      && stack.c !in OnStack(stack.below)
      && (controls[stack.c].phase == Running || (controls[stack.c].phase.Suspended? && !stack.onThread))
      && Linked(stack.below, controls)
  }

  lemma {:induction false} LinkedFrame(stack: Stack, controls: seq<Control>, controls': seq<Control>)
    requires Linked(stack, controls) && |controls| <= |controls'|
    requires forall c :: c in OnStack(stack) && c < |controls| ==> controls'[c] == controls[c]
    ensures Linked(stack, controls')
  {
    if stack.Call? {
      LinkedFrame(stack.below, controls, controls');
    }
  }

  /** A coroutine that is not on the stack is not running and has no previous coroutine. */
  ghost predicate Resting(s: State, c: CoroutineId)
    requires c < |s.controls|
  {
    c !in OnStack(s.stack) ==> s.controls[c].previous == None && s.controls[c].phase != Running
  }

  ghost predicate ChainOk(s: State) {
    && s.current == CurrentOf(s.stack)
    && Linked(s.stack, s.controls)
    && forall c :: 0 <= c < |s.controls| ==> Resting(s, c)
  }

  /** An await has been resumed, by completion or by abort, exactly when its coroutine is no longer suspended at
      it, and its completion is queued until then. */
  ghost predicate AwaitOk(s: State, w: AwaitId)
    requires w < |s.awaits|
  {
    var a := s.awaits[w];
    && a.c < |s.controls|
    && var waiting := s.controls[a.c].phase == Suspended(w);
    && a.resumed == (if waiting then 0 else 1)
    && s.queue[w] <= 1
    && (w in s.queue ==> a.completed && (a.aborted || waiting))
    && (waiting ==> !a.aborted && (a.completed ==> w in s.queue))
    && (!waiting ==> a.aborted || a.completed)
  }

  ghost predicate ControlOk(s: State, c: CoroutineId)
    requires c < |s.controls|
  {
    && (s.controls[c].phase.Suspended? ==>
          s.controls[c].phase.at < |s.awaits| && s.awaits[s.controls[c].phase.at].c == c)
    && (s.controls[c].aborting ==> s.controls[c].phase in {Running, Deleted})
    && s.controls[c].phase != Created
  }

  ghost predicate Inv(s: State) {
    && ChainOk(s)
    && (forall w :: 0 <= w < |s.awaits| ==> AwaitOk(s, w))
    && (forall w :: w in s.queue ==> w < |s.awaits|)
    && (forall c :: 0 <= c < |s.controls| ==> ControlOk(s, c))
  }

  lemma EnterKeepsChain(s: State, c: CoroutineId)
    requires ChainOk(s) && c < |s.controls| && c !in OnStack(s.stack) && s.controls[c].phase != Deleted
    ensures ChainOk(Enter(s, c)) && Enter(s, c).fault == s.fault
    ensures Enter(s, c).stack == Call(c, s.current, false, s.stack)
  {
    assert Resting(s, c);
    LinkedFrame(s.stack, s.controls, Enter(s, c).controls);
    forall d | 0 <= d < |s.controls| ensures Resting(Enter(s, c), d) { assert Resting(s, d); }
  }

  lemma ExitKeepsChain(s: State, phase: Phase)
    requires ChainOk(s) && s.stack.Call? && phase != Running
    ensures ChainOk(Exit(s, phase))
  {
    var s' := Exit(s, phase);
    LinkedFrame(s.stack.below, s.controls, s'.controls);
    forall d | 0 <= d < |s.controls| ensures Resting(s', d) { assert Resting(s, d); }
  }

  /** The running coroutine has caught abort_coroutine: it awaits again, or it ends by returning or throwing something
      else. */
  predicate CatchesAbort(s: State, a: Action) {
    && Runner(s).Some? && s.controls[Runner(s).value].aborting
    && (a.Suspend? || a == Finish(Finished))
  }

  lemma FaultIsNoChain(s: State, fault: bool)
    requires ChainOk(s)
    ensures ChainOk(s.(fault := fault))
  {
    forall c | 0 <= c < |s.controls| ensures Resting(s.(fault := fault), c) { assert Resting(s, c); }
  }

  lemma ResumeKeepsChain(s: State, w: AwaitId)
    requires Inv(s) && Step(s, Resume(w)).Some?
    ensures ChainOk(Step(s, Resume(w)).value) && Step(s, Resume(w)).value.fault == s.fault
  {
    assert AwaitOk(s, w);
    var s1 := s.(queue := s.queue - multiset{w});
    if s.awaits[w].aborted {
      forall d | 0 <= d < |s.controls| ensures Resting(s1, d) { assert Resting(s, d); }
    } else {
      var s2 := Resumed(s1, w, false);
      forall d | 0 <= d < |s.controls| ensures Resting(s2, d) { assert Resting(s, d); }
      EnterKeepsChain(s2, s.awaits[w].c);
    }
  }

  lemma CancelKeepsChain(s: State, c: CoroutineId)
    requires Inv(s) && Step(s, Cancel(c)).Some?
    ensures ChainOk(Step(s, Cancel(c)).value) && Step(s, Cancel(c)).value.fault == s.fault
  {
    var s1 := Resumed(s, s.controls[c].phase.at, true).(controls := s.controls[c := s.controls[c].(aborting := true)]);
    LinkedFrame(s.stack, s.controls, s1.controls);
    forall d | 0 <= d < |s.controls| ensures Resting(s1, d) { assert Resting(s, d); }
    EnterKeepsChain(s1, c);
  }

  lemma StepKeepsChain(s: State, a: Action)
    requires Inv(s) && Step(s, a).Some?
    ensures ChainOk(Step(s, a).value)
    ensures Step(s, a).value.fault <==> s.fault || CatchesAbort(s, a)
  {
    var s' := Step(s, a).value;
    match a
    case Spawn =>
      var s1 := s.(controls := s.controls + [Control(Created, None, false)]);
      LinkedFrame(s.stack, s.controls, s1.controls);
      OnStackExist(s.stack, s.controls);
      forall d | 0 <= d < |s1.controls| ensures Resting(s1, d) { assert d < |s.controls| ==> Resting(s, d); }
      EnterKeepsChain(s1, |s.controls|);
    case Suspend =>
      if !CatchesAbort(s, a) {
        LinkedFrame(s.stack.below, s.controls, s'.controls);
      }
      forall d | 0 <= d < |s.controls| ensures Resting(s', d) { assert Resting(s, d); }
    case EndSetup => ExitKeepsChain(s, s.controls[s.stack.c].phase);
    case Complete(_) => forall d | 0 <= d < |s.controls| ensures Resting(s', d) { assert Resting(s, d); }
    case Resume(w) => ResumeKeepsChain(s, w);
    case Cancel(c) => CancelKeepsChain(s, c);
    case Finish(_) =>
      ExitKeepsChain(s, Deleted);
      FaultIsNoChain(Exit(s, Deleted), s'.fault);
    case Dispatch => forall d | 0 <= d < |s.controls| ensures Resting(s', d) { assert Resting(s, d); }
    case EndDispatch => forall d | 0 <= d < |s.controls| ensures Resting(s', d) { assert Resting(s, d); }
  }

  lemma {:induction false} OnStackExist(stack: Stack, controls: seq<Control>)
    requires Linked(stack, controls)
    ensures forall c :: c in OnStack(stack) ==> c < |controls|
  {
    if stack.Call? {
      OnStackExist(stack.below, controls);
    }
  }

  /** A queued resumption that is not aborted enters a coroutine that waits for it, off the stack. */
  lemma ResumeEnters(s: State, v: AwaitId)
    requires Inv(s) && Step(s, Resume(v)).Some? && !s.awaits[v].aborted
    ensures var s2 := Resumed(s.(queue := s.queue - multiset{v}), v, false); var c := s.awaits[v].c;
      && c < |s.controls| && s.controls[c].phase == Suspended(v) && s.controls[c].previous == None
      && Step(s, Resume(v)) == Some(Enter(s2, c))
      && Enter(s2, c).controls == s.controls[c := s.controls[c].(phase := Running, previous := s.current)]
      && Enter(s2, c).awaits == s2.awaits && Enter(s2, c).queue == s2.queue
  {
    assert AwaitOk(s, v) && Resting(s, s.awaits[v].c);
  }

  /** So does a cancelation. */
  lemma CancelEnters(s: State, c: CoroutineId)
    requires Inv(s) && Step(s, Cancel(c)).Some?
    ensures var s' := Step(s, Cancel(c)).value;
      && s'.controls == s.controls[c := Control(Running, s.current, true)]
      && s'.awaits == Resumed(s, s.controls[c].phase.at, true).awaits && s'.queue == s.queue
  {
    assert Resting(s, c);
  }

  lemma ResumeKeepsAwaits(s: State, v: AwaitId, w: AwaitId)
    requires Inv(s) && Step(s, Resume(v)).Some? && w < |s.awaits|
    ensures w < |Step(s, Resume(v)).value.awaits| && AwaitOk(Step(s, Resume(v)).value, w)
  {
    assert AwaitOk(s, w) && AwaitOk(s, v);
    if !s.awaits[v].aborted {
      ResumeEnters(s, v);
    }
  }

  lemma CancelKeepsAwaits(s: State, c: CoroutineId, w: AwaitId)
    requires Inv(s) && Step(s, Cancel(c)).Some? && w < |s.awaits|
    ensures w < |Step(s, Cancel(c)).value.awaits| && AwaitOk(Step(s, Cancel(c)).value, w)
  {
    CancelEnters(s, c);
    assert ControlOk(s, c) && AwaitOk(s, w) && AwaitOk(s, s.controls[c].phase.at);
  }

  /** A step that makes or ends a coroutine, or suspends the running one. */
  lemma RunnerKeepsAwaits(s: State, a: Action, w: AwaitId)
    requires Inv(s) && Step(s, a).Some? && (a.Spawn? || a.Suspend? || a.Finish?) && w < |Step(s, a).value.awaits|
    ensures AwaitOk(Step(s, a).value, w)
  {
    assert w < |s.awaits| ==> AwaitOk(s, w);
  }

  lemma StepKeepsAwaits(s: State, a: Action, w: AwaitId)
    requires Inv(s) && Step(s, a).Some? && w < |Step(s, a).value.awaits|
    ensures AwaitOk(Step(s, a).value, w)
  {
    match a
    case Resume(v) => ResumeKeepsAwaits(s, v, w);
    case Cancel(c) => CancelKeepsAwaits(s, c, w);
    case Spawn => RunnerKeepsAwaits(s, a, w);
    case Suspend => RunnerKeepsAwaits(s, a, w);
    case Finish(_) => RunnerKeepsAwaits(s, a, w);
    case _ => assert AwaitOk(s, w);
  }

  lemma ResumeKeepsControls(s: State, v: AwaitId, c: CoroutineId)
    requires Inv(s) && Step(s, Resume(v)).Some? && c < |s.controls|
    ensures c < |Step(s, Resume(v)).value.controls| && ControlOk(Step(s, Resume(v)).value, c)
  {
    assert ControlOk(s, c) && AwaitOk(s, v);
    if !s.awaits[v].aborted {
      ResumeEnters(s, v);
      assert ControlOk(s, s.awaits[v].c);
    }
  }

  lemma CancelKeepsControls(s: State, d: CoroutineId, c: CoroutineId)
    requires Inv(s) && Step(s, Cancel(d)).Some? && c < |s.controls|
    ensures c < |Step(s, Cancel(d)).value.controls| && ControlOk(Step(s, Cancel(d)).value, c)
  {
    CancelEnters(s, d);
    assert ControlOk(s, c);
  }

  lemma RunnerKeepsControls(s: State, a: Action, c: CoroutineId)
    requires Inv(s) && Step(s, a).Some? && (a.Spawn? || a.Suspend? || a.Finish?) && c < |Step(s, a).value.controls|
    ensures ControlOk(Step(s, a).value, c)
  {
    assert c < |s.controls| ==> ControlOk(s, c);
  }

  lemma StepKeepsControls(s: State, a: Action, c: CoroutineId)
    requires Inv(s) && Step(s, a).Some? && c < |Step(s, a).value.controls|
    ensures ControlOk(Step(s, a).value, c)
  {
    match a
    case Resume(v) => ResumeKeepsControls(s, v, c);
    case Cancel(d) => CancelKeepsControls(s, d, c);
    case Spawn => RunnerKeepsControls(s, a, c);
    case Suspend => RunnerKeepsControls(s, a, c);
    case Finish(_) => RunnerKeepsControls(s, a, c);
    case _ => assert ControlOk(s, c);
  }

  lemma StepKeepsInv(s: State, a: Action)
    requires Inv(s) && Step(s, a).Some?
    ensures Inv(Step(s, a).value)
  {
    StepKeepsChain(s, a);
    var s' := Step(s, a).value;
    forall w | 0 <= w < |s'.awaits| ensures AwaitOk(s', w) { StepKeepsAwaits(s, a, w); }
    forall c | 0 <= c < |s'.controls| ensures ControlOk(s', c) { StepKeepsControls(s, a, c); }
  }

  lemma FaultIsNoInv(s: State, fault: bool)
    requires Inv(s)
    ensures Inv(s.(fault := fault))
  {
    var s' := s.(fault := fault);
    FaultIsNoChain(s, fault);
    forall w | 0 <= w < |s.awaits| ensures AwaitOk(s', w) { assert AwaitOk(s, w); }
    forall c | 0 <= c < |s.controls| ensures ControlOk(s', c) { assert ControlOk(s, c); }
  }

  ghost predicate Reachable(acts: seq<Action>, s: State) {
    Runs.Exec(Step, INIT, acts) == Some(s)
  }

  lemma RunKeepsInv(s: State, acts: seq<Action>)
    requires Inv(s)
    ensures Runs.Exec(Step, s, acts).Some? ==> Inv(Runs.Exec(Step, s, acts).value)
  {
    forall s, a | Inv(s) && Step(s, a).Some? ensures Inv(Step(s, a).value) { StepKeepsInv(s, a); }
    Runs.Invariance(Step, Inv, s, acts);
  }

  // ----- what every run guarantees -----

  /** Somewhere in a run a coroutine that is being aborted catches abort_coroutine. */
  predicate AbortIsCaught(s: State, acts: seq<Action>)
    decreases |acts|
  {
    acts != [] && match Step(s, acts[0])
                  case None => false
                  case Some(s') => CatchesAbort(s, acts[0]) || AbortIsCaught(s', acts[1..])
  }

  lemma {:induction false} FaultsIfCaught(s: State, acts: seq<Action>, s': State)
    requires Inv(s) && Runs.Exec(Step, s, acts) == Some(s')
    ensures s'.fault <==> s.fault || AbortIsCaught(s, acts)
    decreases |acts|
  {
    if acts != [] {
      StepKeepsInv(s, acts[0]);
      StepKeepsChain(s, acts[0]);
      FaultsIfCaught(Step(s, acts[0]).value, acts[1..], s');
    }
  }

  /** The assertion that abort_coroutine is never caught fails if and only if some coroutine catches it, and then awaits
      again or ends otherwise; no other assertion of run_coroutine fails, and no resumption or cancelation callback
      touches a deleted control block or a dead await frame. */
  lemma NoFault(acts: seq<Action>, s: State)
    requires Reachable(acts, s)
    ensures s.fault <==> AbortIsCaught(INIT, acts)
  {
    FaultsIfCaught(INIT, acts, s);
  }

  /** The only coroutine, suspended at its only await; and inside the cancelation that follows. */
  const SUSPENDED :=
    State(Bottom, None, [Control(Suspended(0), None, false)], [Await(0, false, false, 0)], multiset{}, false)

  const ABORTING :=
    State(Call(0, None, false, Bottom), Some(0), [Control(Running, None, true)], [Await(0, true, false, 1)],
          multiset{}, false)

  lemma ReachesAborting()
    ensures Reachable([Spawn, Suspend, EndSetup, Cancel(0)], ABORTING)
  {
    var top := Call(0, None, false, Bottom);
    var created, running := Control(Created, None, false), Control(Running, None, false);
    var suspended, waiting := Control(Suspended(0), None, false), Await(0, false, false, 0);
    var s1 := State(top, Some(0), [running], [], multiset{}, false);
    var s2 := State(top, Some(0), [suspended], [waiting], multiset{}, false);
    assert [] + [created] == [created] && [created][0 := running] == [running];
    assert Step(INIT, Spawn) == Some(s1);
    assert [running][0 := suspended] == [suspended] && [] + [waiting] == [waiting];
    assert Step(s1, Suspend) == Some(s2);
    assert [suspended][0 := suspended] == [suspended];
    assert Step(s2, EndSetup) == Some(SUSPENDED);
    CancelsOnly(SUSPENDED, ABORTING);
    Runs.ExecFour(Step, INIT, Spawn, Suspend, EndSetup, Cancel(0), s1, s2, SUSPENDED, ABORTING);
  }

  /** Both ways exist: a canceled coroutine that catches abort_coroutine and awaits, and one that returns. */
  lemma CaughtAbortFaults(a: Action) returns (s: State)
    requires a == Suspend || a == Finish(Finished)
    ensures Reachable([Spawn, Suspend, EndSetup, Cancel(0)] + [a], s) && s.fault
  {
    ReachesAborting();
    s := Step(ABORTING, a).value;
    Runs.ExecSnoc(Step, INIT, [Spawn, Suspend, EndSetup, Cancel(0)], a, ABORTING);
  }

  /** And one that lets it through is aborted without fault. */
  lemma UncaughtAbortEnds() returns (s: State)
    ensures Reachable([Spawn, Suspend, EndSetup, Cancel(0)] + [Finish(Aborted)], s)
    ensures !s.fault && s.stack == Bottom && s.current == None && |s.controls| == 1 && s.controls[0].phase == Deleted
  {
    ReachesAborting();
    s := Step(ABORTING, Finish(Aborted)).value;
    Runs.ExecSnoc(Step, INIT, [Spawn, Suspend, EndSetup, Cancel(0)], Finish(Aborted), ABORTING);
  }

  /** The cancelation of the only coroutine. */
  lemma CancelsOnly(s: State, s': State)
    requires s == SUSPENDED && s' == ABORTING
    ensures Step(s, Cancel(0)) == Some(s')
  {
    var marked := Control(Suspended(0), None, true);
    assert s.controls[0 := marked] == [marked] && [marked][0 := s'.controls[0]] == s'.controls;
    assert s.awaits[0 := s'.awaits[0]] == s'.awaits;
  }

  /** A suspension is resumed at most once, by its completion or by an abort, and it has been exactly when the
      coroutine has left it; a completion that has not resumed it is queued, so none is lost. */
  lemma ResumedExactlyOnce(acts: seq<Action>, s: State, w: AwaitId)
    requires Reachable(acts, s) && w < |s.awaits|
    ensures var a := s.awaits[w];
      && a.c < |s.controls|
      && a.resumed == (if s.controls[a.c].phase == Suspended(w) then 0 else 1)
      && (a.resumed == 1 ==> a.aborted || a.completed)
      && (a.resumed == 0 && a.completed ==> s.queue[w] == 1)
  {
    RunKeepsInv(INIT, acts);
    assert AwaitOk(s, w);
  }

  /** Running a queued resumption either does nothing, after an abort, or runs a coroutine that is suspended
      right there. */
  lemma QueuedResumptionIsSafe(acts: seq<Action>, s: State, w: AwaitId)
    requires Reachable(acts, s) && s.stack.Bottom? && w in s.queue
    ensures Step(s, Resume(w)).Some? && w < |s.awaits|
    ensures var s' := Step(s, Resume(w)).value;
      if s.awaits[w].aborted then s' == s.(queue := s.queue - multiset{w})
      else
        && s.awaits[w].c < |s.controls| && s.controls[s.awaits[w].c].phase == Suspended(w)
        && Runner(s') == Some(s.awaits[w].c)
  {
    RunKeepsInv(INIT, acts);
    assert AwaitOk(s, w);
    assert Resting(s, s.awaits[w].c);
  }

  /** The callback of a suspended coroutine runs it once more, and a coroutine that is being aborted stays on
      the stack until its control block is deleted. */
  lemma AbortRunsToTheEnd(acts: seq<Action>, s: State, c: CoroutineId)
    requires Reachable(acts, s) && c < |s.controls|
    ensures CanCancel(s, c) ==>
      Runner(Step(s, Cancel(c)).value) == Some(c) && Step(s, Cancel(c)).value.controls[c].aborting
    ensures s.controls[c].aborting && c !in OnStack(s.stack) ==> s.controls[c].phase == Deleted
  {
    RunKeepsInv(INIT, acts);
    assert Resting(s, c) && ControlOk(s, c);
  }

  lemma {:induction false} LinkedPrevious(stack: Stack, controls: seq<Control>, controls': seq<Control>)
    requires Linked(stack, controls) && Linked(stack, controls')
    ensures forall c :: c in OnStack(stack) ==>
      c < |controls| && c < |controls'| && controls[c].previous == controls'[c].previous
  {
    if stack.Call? {
      LinkedPrevious(stack.below, controls, controls');
    }
  }

  /** When the calls of run_coroutine made since a state have returned, whatever they nested, the current
      pointer and the previous_coroutine chain are as they were. */
  lemma RunCoroutineRestores(acts: seq<Action>, s: State, more: seq<Action>, s': State)
    requires Reachable(acts, s) && Runs.Exec(Step, s, more) == Some(s') && s'.stack == s.stack
    ensures s'.current == s.current
    ensures forall c :: c in OnStack(s.stack) ==>
      c < |s.controls| && c < |s'.controls| && s'.controls[c].previous == s.controls[c].previous
    ensures forall c :: 0 <= c < |s'.controls| && c !in OnStack(s.stack) ==> s'.controls[c].previous == None
  {
    RunKeepsInv(INIT, acts);
    RunKeepsInv(s, more);
    LinkedPrevious(s.stack, s.controls, s'.controls);
    forall c | 0 <= c < |s'.controls| && c !in OnStack(s.stack) ensures s'.controls[c].previous == None {
      assert Resting(s', c);
    }
  }

  /** With an empty stack and an empty queue, every live coroutine waits for something that has not completed. */
  lemma AtRest(acts: seq<Action>, s: State, c: CoroutineId)
    requires Reachable(acts, s) && s.stack.Bottom? && s.queue == multiset{} && c < |s.controls|
    ensures s.current == None
    ensures s.controls[c].phase == Deleted || s.controls[c].phase.Suspended?
    ensures s.controls[c].phase.Suspended? ==>
      s.controls[c].phase.at < |s.awaits| && !s.awaits[s.controls[c].phase.at].completed
  {
    RunKeepsInv(INIT, acts);
    assert Resting(s, c) && ControlOk(s, c);
    if s.controls[c].phase.Suspended? {
      assert AwaitOk(s, s.controls[c].phase.at);
    }
  }

  // ----- the class -----

  /** The thread's current coroutine, its control blocks and await frames, and its executor's queue. */
  class Scheduler {
    var stack: Stack
    var current: Option<CoroutineId>
    var controls: seq<Control>
    var awaits: seq<Await>
    var queue: multiset<AwaitId>

    function View(): State
      reads this
    {
      State(stack, current, controls, awaits, queue, false)
    }

    constructor ()
      ensures View() == INIT
    {
      stack, current, controls, awaits, queue := Bottom, None, [], [], multiset{};
    }

    /** run_coroutine up to the jump; its precondition is its assertion. */
    method RunCoroutine(c: CoroutineId)
      requires c < |controls| && controls[c].phase != Deleted && controls[c].previous == None
      modifies this`stack, this`current, this`controls
      ensures View() == Enter(old(View()), c)
    {
      var previous := current;
      controls := controls[c := controls[c].(previous := previous)];
      current := Some(c);
      stack := Call(c, previous, false, stack);
      controls := controls[c := controls[c].(phase := Running)];
    }

    /** run_coroutine from the jump back to its scope exit, with the status it returns. ended tells that the
        coroutine is through, and byAbort that abort_coroutine got out of its body. */
    method LeaveCoroutine(ended: bool, byAbort: bool) returns (status: Status)
      requires stack.Call? && stack.c < |controls|
      modifies this`stack, this`current, this`controls
      ensures View() == Exit(old(View()), if ended then Deleted else old(controls[stack.c].phase))
      ensures status == if !ended then StillWaiting else if byAbort then Aborted else Finished
    {
      var c, previous := stack.c, stack.saved;
      status := StillWaiting;
      if ended {
        status := if byAbort then Aborted else Finished;
        controls := controls[c := controls[c].(phase := Deleted)];
      }
      current := previous;
      controls := controls[c := controls[c].(previous := None)];
      stack := stack.below;
    }

    /** The end of the running coroutine. A canceler that runs it gets its status back and asserts that it is aborted:
        exactly the machine's fault. */
    method EndCoroutine(byAbort: bool) returns (status: Status, holds: bool)
      requires Inv(View()) && Runner(View()).Some? && (byAbort ==> controls[stack.c].aborting)
      modifies this`stack, this`current, this`controls
      ensures status == if byAbort then Aborted else Finished
      ensures holds == !(old(controls[stack.c].aborting) && status != Aborted)
      ensures Step(old(View()), Finish(status)) == Some(View().(fault := !holds)) && Inv(View())
    {
      StepKeepsInv(View(), Finish(if byAbort then Aborted else Finished));
      FaultIsNoInv(Step(View(), Finish(if byAbort then Aborted else Finished)).value, false);
      var aborting := controls[stack.c].aborting;
      status := LeaveCoroutine(true, byAbort);
      holds := aborting ==> status == Aborted;
    }

    /** run_resumable_sender::submit, after the first jump to the new coroutine and back. */
    method Submit() returns (c: CoroutineId)
      requires Inv(View())
      modifies this
      ensures Step(old(View()), Spawn) == Some(View()) && Inv(View()) && Runner(View()) == Some(c)
    {
      StepKeepsInv(View(), Spawn);
      c := |controls|;
      controls := controls + [Control(Created, None, false)];
      RunCoroutine(c);
    }

    /** await up to the jump out of the coroutine. */
    method SuspendRunning() returns (w: AwaitId)
      requires Inv(View()) && Runner(View()).Some? && !controls[stack.c].aborting
      modifies this`controls, this`awaits
      ensures Step(old(View()), Suspend) == Some(View()) && Inv(View())
      ensures controls[stack.c].phase == Suspended(w) && awaits[w].resumed == 0
    {
      StepKeepsInv(View(), Suspend);
      w := |awaits|;
      controls := controls[stack.c := controls[stack.c].(phase := Suspended(w))];
      awaits := awaits + [Await(stack.c, false, false, 0)];
    }

    /** What is awaited completes, on any thread: its continuation is posted. */
    method PostCompletion(w: AwaitId)
      requires Inv(View()) && w < |awaits| && !awaits[w].completed
      modifies this`awaits, this`queue
      ensures Step(old(View()), Complete(w)) == Some(View()) && Inv(View())
    {
      StepKeepsInv(View(), Complete(w));
      awaits := awaits[w := awaits[w].(completed := true)];
      queue := queue + multiset{w};
    }

    /** dispatch_on_thread_context: run_coroutine is about to run the work, with no current coroutine. */
    method BeginWork()
      requires Inv(View()) && Runner(View()).Some?
      modifies this`stack, this`current
      ensures Step(old(View()), Dispatch) == Some(View()) && Inv(View()) && current == None
    {
      StepKeepsInv(View(), Dispatch);
      current := None;
      stack := stack.(onThread := true);
    }

    /** The work has returned, whatever it ran: run_coroutine goes back into its coroutine. */
    method EndWork()
      requires Inv(View()) && stack.Call? && stack.onThread
      modifies this`stack, this`current
      ensures Step(old(View()), EndDispatch) == Some(View()) && Inv(View()) && Runner(View()) == Some(stack.c)
    {
      StepKeepsInv(View(), EndDispatch);
      current := Some(stack.c);
      stack := stack.(onThread := false);
    }

    /** The executor runs a queued resumption. */
    method RunTask(w: AwaitId)
      requires Inv(View()) && stack.Bottom? && w in queue
      modifies this
      ensures Step(old(View()), Resume(w)) == Some(View()) && Inv(View())
    {
      assert AwaitOk(View(), w) && Resting(View(), awaits[w].c);
      StepKeepsInv(View(), Resume(w));
      queue := queue - multiset{w};
      if !awaits[w].aborted {
        var c := awaits[w].c;
        awaits := awaits[w := awaits[w].(resumed := awaits[w].resumed + 1)];
        RunCoroutine(c);
      }
    }

    /** The cancelation callback of a suspended coroutine, up to the jump; EndCoroutine is what it then asserts of. */
    method CallCanceler(c: CoroutineId)
      requires Inv(View()) && CanCancel(View(), c)
      modifies this
      ensures Step(old(View()), Cancel(c)) == Some(View()) && Inv(View())
      ensures Runner(View()) == Some(c) && controls[c].aborting
      ensures forall status :: AbortFails(View(), c, status) <==> status != Aborted
    {
      assert Resting(View(), c);
      StepKeepsInv(View(), Cancel(c));
      var w := controls[c].phase.at;
      awaits := awaits[w := awaits[w].(aborted := true, resumed := awaits[w].resumed + 1)];
      controls := controls[c := controls[c].(aborting := true)];
      RunCoroutine(c);
    }
  }
}
