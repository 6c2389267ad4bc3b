/** unwrap under cancelation, on a linear chain.

    The result of unwrap shares the token of the outer future; an inner future with a token of its own gets a
    callback on that token's stack that passes the request on. The outer future settles by a task that pops
    its own callback first when it is cancelable, and so does an inner future that the outer task made on the
    same token: its callback is on the stack from its creation to its start or cancelation. Any number of threads
    request a cancelation of the result, and every critical section of the token, every call of a callback and
    every settlement is a step. */
module Unwrap {
  import opened Outcomes
  import Runs

  type Result = Outcome<int>

  /** The callbacks on the token: those of whatever the chain began with, that of the outer task, the one that
      unwrap pushes for an inner future with its own token, and that of an inner task on the same token. */
  datatype Entry = Below | OfOuter | OfInner | OfTask

  /** An inner task on the same token: there is none, it waits to be started, or it was started or canceled. */
  datatype Task = Absent | Queued | Started

  /** How far the chain is: the outer task not started, won by its runner, settled, the inner future
      attached, its callback popped, or the result set. */
  datatype Phase = Pending | Running | Settled | Attached | Detached | Finished

  /** outer is how the outer future settled, with an exception or with the inner future. ownToken tells whether
      the inner future has a token of its own; inner is its outcome, and innerRequested whether its cancelation
      was requested; task is the inner task on the same token, if it is one. chain, worker and requesters hold the
      callback that the thread of the chain, that of the inner task, or one requesting a cancelation, has copied
      and is about to call. belowCalled tells whether a callback below the chain's was called. failed tells that a
      pop found the wrong callback or none, or that the result was set twice. */
  datatype State = State(
    cancelable: bool,
    ownToken: bool,
    requested: bool,
    stack: seq<Entry>,
    phase: Phase,
    outer: Option<Option<Error>>,
    inner: Option<Result>,
    innerRequested: bool,
    task: Task,
    chain: Option<Entry>,
    worker: Option<Entry>,
    requesters: seq<Option<Entry>>,
    belowCalled: bool,
    result: Option<Result>,
    failed: bool)

  datatype Action =
    | Request(i: nat)
    | CallRequested(i: nat)
    | CallChained
    | CallWorker
    | StartOuter
    | CreateInner
    | EndOuter(e: Option<Error>)
    | Attach
    | StartInner
    | InnerSettles(o: Result)
    | Detach
    | SetResult

  /** depth callbacks are on the token before the chain's own. */
  function Init(depth: nat, cancelable: bool, ownToken: bool, n: nat): State {
    State(cancelable, ownToken, false, Base(depth) + if cancelable then [OfOuter] else [], Pending, None, None, false,
          Absent, None, None, seq(n, _ => None), false, None, false)
  }

  function Base(depth: nat): seq<Entry> {
    seq(depth, _ => Below)
  }

  function Top(stack: seq<Entry>): Option<Entry> {
    if stack == [] then None else Some(stack[|stack| - 1])
  }

  /** The critical section of pop_cancelation_callback, when the popped callback should be e. */
  function Pop(s: State, e: Entry): (State, Option<Entry>) {
    if Top(s.stack) != Some(e) then (s.(failed := true), None)
    else
      var rest := s.stack[..|s.stack| - 1];
      (s.(stack := rest), if s.requested then Top(rest) else None)
  }

  /** A call of a copied callback: the new state, and the callback it makes its thread call next. */
  function Called(s: State, e: Entry): (State, Option<Entry>) {
    match e
    case Below => (s.(belowCalled := true), None)
    case OfOuter =>
      if s.phase != Pending then (s, None)
      else
        var (s1, next) := Pop(s, OfOuter);
        (s1.(phase := Settled, outer := Some(Some(OperationCanceled))), next)
    case OfInner => (if s.inner.None? then s.(innerRequested := true) else s, None)
    case OfTask =>
      if s.task != Queued then (s, None)
      else
        var (s1, next) := Pop(s, OfTask);
        (s1.(task := Started, inner := Some(Exception(OperationCanceled))), next)
  }

  function Step(s: State, a: Action): Option<State> {
    match a
    case Request(i) =>
      if i < |s.requesters| && s.requesters[i].None? then
        Some(s.(requested := true, requesters := s.requesters[i := Top(s.stack)]))
      else None
    case CallRequested(i) =>
      if i < |s.requesters| && s.requesters[i].Some? then
        var (s1, next) := Called(s, s.requesters[i].value);
        Some(s1.(requesters := s.requesters[i := next]))
      else None
    case CallChained =>
      if s.chain.Some? then
        var (s1, next) := Called(s, s.chain.value);
        Some(s1.(chain := next))
      else None
    case CallWorker =>
      if s.worker.Some? then
        var (s1, next) := Called(s, s.worker.value);
        Some(s1.(worker := next))
      else None
    case StartInner =>
      if s.task == Queued && s.worker.None? then
        var (s1, next) := Pop(s, OfTask);
        Some(s1.(task := Started, worker := next))
      else None
    case InnerSettles(o) =>
      if s.inner.None? && s.task != Queued && s.worker.None? then Some(s.(inner := Some(o))) else None
    case _ =>
      if s.chain.Some? then None
      else StepChain(s, a)
  }

  /** The thread of the chain goes on, having called what it had to. */
  function StepChain(s: State, a: Action): Option<State> {
    match a
    case StartOuter =>
      if s.phase != Pending then None
      else if !s.cancelable then Some(s.(phase := Running))
      else
        var (s1, next) := Pop(s, OfOuter);
        Some(s1.(phase := Running, chain := next))
    case CreateInner =>
      // push_cancelation_callback calls the callback at once after a request
      if s.phase == Running && !s.ownToken && s.task == Absent && s.inner.None? then
        Some(s.(task := Queued, stack := s.stack + [OfTask], chain := if s.requested then Some(OfTask) else None))
      else None
    case EndOuter(e) =>
      // the chain is linear: an outer callback that throws leaves no inner task behind
      if s.phase == Running && (e.Some? ==> s.task != Queued) then Some(s.(phase := Settled, outer := Some(e)))
      else None
    case Attach =>
      if s.phase != Settled || s.outer != Some(None) then None
      else if !s.ownToken then Some(s.(phase := Attached))
      else
        Some(s.(phase := Attached, stack := s.stack + [OfInner],
                chain := if s.requested then Some(OfInner) else None))
    case Detach =>
      if s.phase != Attached || s.inner.None? then None
      else if !s.ownToken then Some(s.(phase := Detached))
      else
        var (s1, next) := Pop(s, OfInner);
        Some(s1.(phase := Detached, chain := next))
    case SetResult =>
      if s.phase == Settled && s.outer.Some? && s.outer.value.Some? then
        Some(s.(phase := Finished, result := Some(Exception(s.outer.value.value)),
                failed := s.failed || s.result.Some?))
      else if s.phase == Detached && s.inner.Some? then
        Some(s.(phase := Finished, result := s.inner, failed := s.failed || s.result.Some?))
      else None
    case _ => None
  }

  // ----- the invariant -----

  /** The callbacks that the chain itself has on the token. */
  function Own(s: State): seq<Entry> {
    if s.phase == Pending && s.cancelable then [OfOuter]
    else if s.phase == Attached && s.ownToken then [OfInner]
    else if s.task == Queued then [OfTask]
    else []
  }

  /** Some thread has copied the callback and is about to call it. */
  ghost predicate Held(s: State, e: Entry) {
    s.chain == Some(e) || s.worker == Some(e) || exists i :: 0 <= i < |s.requesters| && s.requesters[i] == Some(e)
  }

  /** What a request owes: its call of the callback that is on the token, unless that call has nothing to do. */
  ghost predicate Passed(s: State) {
    && (s.requested && s.phase == Attached && s.ownToken ==> s.inner.Some? || s.innerRequested || Held(s, OfInner))
    && (s.requested && s.phase == Pending && s.cancelable ==> Held(s, OfOuter))
    && (s.requested && s.task == Queued ==> Held(s, OfTask))
    && (s.requested && Own(s) == [] && s.stack != [] ==> s.belowCalled || Held(s, Below))
  }

  ghost predicate TaskOk(s: State) {
    && (s.task != Absent ==> !s.ownToken && s.phase != Pending)
    && (s.task == Queued ==> s.inner.None? && (s.phase == Running || s.outer == Some(None)))
  }

  ghost predicate Inv(depth: nat, s: State) {
    && !s.failed
    && s.stack == Base(depth) + Own(s)
    && (s.outer.None? <==> s.phase in {Pending, Running})
    && (s.result.Some? <==> s.phase == Finished)
    && (s.phase in {Attached, Detached} ==> s.outer == Some(None))
    && (s.phase == Detached ==> s.inner.Some?)
    && (s.phase == Finished ==>
          s.result == if s.outer.value.Some? then Some(Exception(s.outer.value.value)) else s.inner)
    && Passed(s) && TaskOk(s)
    && (!s.cancelable ==> !Held(s, OfOuter))
  }

  lemma PopOwn(depth: nat, s: State, e: Entry)
    requires s.stack == Base(depth) + [e]
    ensures Top(s.stack) == Some(e) && Pop(s, e).0 == s.(stack := Base(depth) + [])
    ensures Pop(s, e).1 == if s.requested && depth > 0 then Some(Below) else None
  {
    assert s.stack[..|s.stack| - 1] == Base(depth) + [];
    assert Base(depth) + [] == Base(depth) && (depth > 0 ==> Base(depth)[depth - 1] == Below);
  }

  /** A call of a copied callback does what it owes, and copies nothing of the chain's own. */
  ghost predicate Owed(depth: nat, s: State, e: Entry, s1: State, next: Option<Entry>) {
    && !s1.failed && s1.stack == Base(depth) + Own(s1) && next in {None, Some(Below)}
    && s1 == s.(stack := s1.stack, phase := s1.phase, outer := s1.outer, innerRequested := s1.innerRequested,
                task := s1.task, inner := s1.inner, belowCalled := s1.belowCalled)
    && (s1.belowCalled <==> s.belowCalled || e == Below)
    && (Own(s1) == Own(s) || (Own(s1) == [] && (s.requested && depth > 0 ==> next == Some(Below))))
    && TaskOk(s1) && (s1.task == s.task || s1.task == Started) && (s.inner.Some? ==> s1.inner == s.inner)
    && (e == OfTask ==> s1.task != Queued)
    && (s.innerRequested ==> s1.innerRequested)
    && (e == OfInner && s.inner.None? ==> s1.innerRequested)
    && ((s1.phase == s.phase && s1.outer == s.outer) ||
        (s.phase == Pending && s1.phase == Settled && s1.outer == Some(Some(OperationCanceled))))
    && (e == OfOuter ==> s1.phase != Pending)
  }

  lemma CallKeepsInv(depth: nat, s: State, e: Entry)
    requires Inv(depth, s) && Held(s, e)
    ensures Owed(depth, s, e, Called(s, e).0, Called(s, e).1)
  {
    if e == OfOuter && s.phase == Pending {
      PopOwn(depth, s, OfOuter);
    } else if e == OfTask && s.task == Queued {
      PopOwn(depth, s, OfTask);
    }
  }

  /** So it keeps the invariant, the thread that made it holding now what it has copied. */
  lemma CalledKeepsInv(depth: nat, s: State, e: Entry, s1: State, next: Option<Entry>, s': State)
    requires Inv(depth, s) && Held(s, e) && Owed(depth, s, e, s1, next)
    requires s' == s1.(chain := s'.chain, worker := s'.worker, requesters := s'.requesters)
    requires forall f :: f != e && Held(s, f) ==> Held(s', f)
    requires next.Some? ==> Held(s', next.value)
    requires Held(s', OfOuter) ==> Held(s, OfOuter)
    ensures Inv(depth, s')
  {
    assert |s.stack| == depth + |Own(s)| && |s'.stack| == depth + |Own(s')|;
  }

  lemma CallRequestedKeepsInv(depth: nat, s: State, i: nat)
    requires Inv(depth, s) && Step(s, CallRequested(i)).Some?
    ensures Inv(depth, Step(s, CallRequested(i)).value)
  {
    var e, s' := s.requesters[i].value, Step(s, CallRequested(i)).value;
    assert Held(s, e);
    CallKeepsInv(depth, s, e);
    assert s' == Called(s, e).0.(requesters := s.requesters[i := Called(s, e).1]);
    assert s'.requesters[i] == Called(s, e).1 && s'.chain == s.chain && s'.worker == s.worker;
    forall j | 0 <= j < |s.requesters| && j != i ensures s'.requesters[j] == s.requesters[j] {}
    forall f | f != e && Held(s, f) ensures Held(s', f) {
      if j :| 0 <= j < |s.requesters| && s.requesters[j] == Some(f) {
        assert s'.requesters[j] == Some(f);
      }
    }
    CalledKeepsInv(depth, s, e, Called(s, e).0, Called(s, e).1, s');
  }

  lemma CallChainedKeepsInv(depth: nat, s: State)
    requires Inv(depth, s) && Step(s, CallChained).Some?
    ensures Inv(depth, Step(s, CallChained).value)
  {
    var e, s' := s.chain.value, Step(s, CallChained).value;
    assert Held(s, e);
    CallKeepsInv(depth, s, e);
    forall f | f != e && Held(s, f) ensures Held(s', f) {}
    CalledKeepsInv(depth, s, e, Called(s, e).0, Called(s, e).1, s');
  }

  lemma CallWorkerKeepsInv(depth: nat, s: State)
    requires Inv(depth, s) && Step(s, CallWorker).Some?
    ensures Inv(depth, Step(s, CallWorker).value)
  {
    var e, s' := s.worker.value, Step(s, CallWorker).value;
    assert Held(s, e);
    CallKeepsInv(depth, s, e);
    forall f | f != e && Held(s, f) ensures Held(s', f) {}
    CalledKeepsInv(depth, s, e, Called(s, e).0, Called(s, e).1, s');
  }

  lemma StartInnerKeepsInv(depth: nat, s: State)
    requires Inv(depth, s) && Step(s, StartInner).Some?
    ensures Inv(depth, Step(s, StartInner).value)
  {
    PopOwn(depth, s, OfTask);
    var s' := Step(s, StartInner).value;
    assert s'.requesters == s.requesters && s'.chain == s.chain && s'.worker != Some(OfOuter);
  }

  lemma CreateInnerKeepsInv(depth: nat, s: State)
    requires Inv(depth, s) && s.chain.None? && StepChain(s, CreateInner).Some?
    ensures Inv(depth, StepChain(s, CreateInner).value)
  {
    assert Base(depth) + [] + [OfTask] == Base(depth) + [OfTask];
  }

  lemma RequestKeepsInv(depth: nat, s: State, i: nat)
    requires Inv(depth, s) && Step(s, Request(i)).Some?
    ensures Inv(depth, Step(s, Request(i)).value)
  {
    var s' := Step(s, Request(i)).value;
    assert s' == s.(requested := true, requesters := s.requesters[i := Top(s.stack)]);
    assert s'.requesters[i] == Top(s.stack) && Own(s') == Own(s);
    if Own(s) == [] {
      assert s.stack == Base(depth) + [];
      assert Top(s.stack) in {None, Some(Below)};
    } else {
      var e := Own(s)[0];
      assert Own(s) == [e];
      PopOwn(depth, s, e);
      assert Held(s', e);
    }
    forall j | 0 <= j < |s.requesters| && j != i ensures s'.requesters[j] == s.requesters[j] {}
  }

  lemma StartKeepsInv(depth: nat, s: State)
    requires Inv(depth, s) && s.chain.None? && StepChain(s, StartOuter).Some?
    ensures Inv(depth, StepChain(s, StartOuter).value)
  {
    if s.cancelable {
      PopOwn(depth, s, OfOuter);
    }
    var s' := StepChain(s, StartOuter).value;
    assert s'.requesters == s.requesters && s'.chain != Some(OfOuter);
  }

  lemma AttachKeepsInv(depth: nat, s: State)
    requires Inv(depth, s) && s.chain.None? && StepChain(s, Attach).Some?
    ensures Inv(depth, StepChain(s, Attach).value)
  {
    assert Base(depth) + [] + [OfInner] == Base(depth) + [OfInner];
  }

  lemma DetachKeepsInv(depth: nat, s: State)
    requires Inv(depth, s) && s.chain.None? && StepChain(s, Detach).Some?
    ensures Inv(depth, StepChain(s, Detach).value)
  {
    if s.ownToken {
      PopOwn(depth, s, OfInner);
    }
    var s' := StepChain(s, Detach).value;
    assert s'.requesters == s.requesters && s'.chain != Some(OfOuter);
  }

  lemma StepKeepsInv(depth: nat, s: State, a: Action)
    requires Inv(depth, s) && Step(s, a).Some?
    ensures Inv(depth, Step(s, a).value)
  {
    match a
    case Request(i) => RequestKeepsInv(depth, s, i);
    case CallRequested(i) => CallRequestedKeepsInv(depth, s, i);
    case CallChained => CallChainedKeepsInv(depth, s);
    case CallWorker => CallWorkerKeepsInv(depth, s);
    case StartInner => StartInnerKeepsInv(depth, s);
    case CreateInner => CreateInnerKeepsInv(depth, s);
    case InnerSettles(_) =>
    case StartOuter => StartKeepsInv(depth, s);
    case Attach => AttachKeepsInv(depth, s);
    case Detach => DetachKeepsInv(depth, s);
    case _ => EndKeepsInv(depth, s, a);
  }

  lemma EndKeepsInv(depth: nat, s: State, a: Action)
    requires Inv(depth, s) && s.chain.None? && (a.EndOuter? || a.SetResult?) && StepChain(s, a).Some?
    ensures Inv(depth, StepChain(s, a).value)
  {
    var s' := StepChain(s, a).value;
    assert s' == s.(phase := s'.phase, outer := s'.outer, result := s'.result, failed := s'.failed);
  }

  lemma ReachableInv(depth: nat, cancelable: bool, ownToken: bool, n: nat, acts: seq<Action>, s: State)
    requires Runs.Exec(Step, Init(depth, cancelable, ownToken, n), acts) == Some(s)
    ensures Inv(depth, s)
  {
    var inv := (u: State) => Inv(depth, u);
    forall u, a | inv(u) && Step(u, a).Some? ensures inv(Step(u, a).value) { StepKeepsInv(depth, u, a); }
    Runs.Invariance(Step, inv, Init(depth, cancelable, ownToken, n), acts);
  }

  // ----- what every interleaving guarantees -----

  /** The result is set at most once, to the exception of the outer future or to the outcome of the inner one; no
      pop takes a callback of somebody else; and then the token's stack is back to its depth. */
  lemma JoinsUnderCancelation(depth: nat, cancelable: bool, ownToken: bool, n: nat, acts: seq<Action>, s: State)
    requires Runs.Exec(Step, Init(depth, cancelable, ownToken, n), acts) == Some(s)
    ensures !s.failed
    ensures s.result.Some? ==> s.outer.Some? && s.stack == Base(depth)
    ensures s.result.Some? ==> s.result == match s.outer.value case Some(e) => Some(Exception(e)) case None => s.inner
  {
    ReachableInv(depth, cancelable, ownToken, n, acts, s);
    assert Base(depth) + [] == Base(depth);
  }

  /** A cancelation of the result, before or after the inner future arrived, reaches that future if it is not
      settled and has a token of its own, or is about to; and an inner task on the same token is about to be
      canceled as long as it has not started, like the outer one. Once nothing of the chain is on the token, the
      callback below is called. */
  lemma CancelReachesInner(depth: nat, cancelable: bool, ownToken: bool, n: nat, acts: seq<Action>, s: State)
    requires Runs.Exec(Step, Init(depth, cancelable, ownToken, n), acts) == Some(s)
    requires s.requested
    ensures s.phase == Attached && s.ownToken && s.inner.None? ==> s.innerRequested || Held(s, OfInner)
    ensures s.task == Queued ==> Held(s, OfTask)
    ensures s.phase == Pending && s.cancelable ==> Held(s, OfOuter)
    ensures s.stack == Base(depth) && depth > 0 ==> s.belowCalled || Held(s, Below)
    ensures (forall i :: 0 <= i < |s.requesters| ==> s.requesters[i].None?) && s.chain.None? && s.worker.None? ==>
      s.task != Queued && (s.phase == Attached && s.ownToken && s.inner.None? ==> s.innerRequested)
  {
    ReachableInv(depth, cancelable, ownToken, n, acts, s);
    assert |s.stack| == depth + |Own(s)|;
  }

  /** A thread that calls the callback of an inner task that has not started settles it with operation_canceled. */
  ghost predicate CallsTask(s: State, a: Action) {
    || (a == CallChained && s.chain == Some(OfTask))
    || (a == CallWorker && s.worker == Some(OfTask))
    || (a.CallRequested? && a.i < |s.requesters| && s.requesters[a.i] == Some(OfTask))
  }

  /** An inner task on the shared token settles only so before it starts. */
  lemma QueuedTaskIsCanceled(depth: nat, cancelable: bool, ownToken: bool, n: nat, acts: seq<Action>, s: State,
                             a: Action, s': State)
    requires Runs.Exec(Step, Init(depth, cancelable, ownToken, n), acts) == Some(s) && s.task == Queued
    requires Step(s, a) == Some(s')
    ensures CallsTask(s, a) ==> s'.inner == Some(Exception(OperationCanceled)) && s'.task == Started
    ensures s'.inner.Some? ==> CallsTask(s, a) && s'.inner == Some(Exception(OperationCanceled))
  {
    ReachableInv(depth, cancelable, ownToken, n, acts, s);
    PopOwn(depth, s, OfTask);
    assert Called(s, OfTask).0.inner == Some(Exception(OperationCanceled)) && Called(s, OfTask).0.task == Started;
    if OfChain(a) {
      ChainEffect(s, a);
    } else if IsCall(a) {
      forall e | e != OfTask ensures Called(s, e).0.inner == s.inner { CalledEffect(s, e); }
    }
  }

  /** So does the outer task, while it has not started. */
  lemma PendingOuterIsCanceled(depth: nat, cancelable: bool, ownToken: bool, n: nat, acts: seq<Action>, s: State,
                               a: Action, s': State)
    requires Runs.Exec(Step, Init(depth, cancelable, ownToken, n), acts) == Some(s) && s.phase == Pending
    requires Step(s, a) == Some(s') && s'.outer.Some?
    ensures s'.outer == Some(Some(OperationCanceled)) && s.requested
  {
    ReachableInv(depth, cancelable, ownToken, n, acts, s);
    CalledIsRequested(depth, cancelable, ownToken, n, acts, s);
  }

  /** No callback is copied before a cancelation was requested. */
  lemma CalledIsRequested(depth: nat, cancelable: bool, ownToken: bool, n: nat, acts: seq<Action>, s: State)
    requires Runs.Exec(Step, Init(depth, cancelable, ownToken, n), acts) == Some(s)
    ensures !s.requested ==>
      s.chain.None? && s.worker.None? && forall i :: 0 <= i < |s.requesters| ==> s.requesters[i].None?
  {
    var inv := (u: State) => Unasked(u);
    forall u, a | inv(u) && Step(u, a).Some? ensures inv(Step(u, a).value) { StepKeepsUnasked(u, a); }
    Runs.Invariance(Step, inv, Init(depth, cancelable, ownToken, n), acts);
  }

  /** What stays the same: the request, and what the threads that do not act have copied. */
  predicate SameFrame(s: State, s1: State) {
    && s1.requested == s.requested && s1.worker == s.worker && s1.requesters == s.requesters
    && (s.inner.Some? && s.task != Queued ==> s1.inner == s.inner && s1.task != Queued)
  }

  lemma PopFrame(s: State, e: Entry)
    ensures Pop(s, e).0 == s.(stack := Pop(s, e).0.stack, failed := Pop(s, e).0.failed)
    ensures !s.requested ==> Pop(s, e).1.None?
  {
  }

  /** Nothing but the settlement of a future itself and the cancelation of a task on the token decides outcomes. */
  ghost predicate Given(s: State, acts: seq<Action>, s': State) {
    && (s'.inner == s.inner || s'.inner == Some(Exception(OperationCanceled))
        || (s'.inner.Some? && InnerSettles(s'.inner.value) in acts))
    && (s'.outer == s.outer || s'.outer == Some(Some(OperationCanceled))
        || (s'.outer.Some? && EndOuter(s'.outer.value) in acts))
  }

  /** How many steps the futures and the chain have left. */
  function Left(s: State): nat {
    (match s.phase
     case Pending => 5
     case Running => 4
     case Settled => 3
     case Attached => 2
     case Detached => 1
     case Finished => 0)
    + (if s.task == Absent then 2 else if s.task == Queued then 1 else 0)
    + if s.inner.None? then 1 else 0
  }

  /** What a step of the chain, or a call of a copied callback, does: it copies nothing before a request, leaves the
      other threads and a settled inner future alone, settles futures for a reason, and goes on. */
  ghost predicate Effect(s: State, acts: seq<Action>, s1: State, next: Option<Entry>) {
    && SameFrame(s, s1) && (!s.requested ==> next.None?) && Given(s, acts, s1)
    && 2 * Left(s1) + (if next.Some? then 1 else 0) <= 2 * Left(s)
    && (acts != [] ==> 2 * Left(s1) + (if next.Some? then 1 else 0) < 2 * Left(s))
  }

  lemma CalledEffect(s: State, e: Entry)
    ensures Effect(s, [], Called(s, e).0, Called(s, e).1) && Called(s, e).0.chain == s.chain
    ensures e != OfTask ==> Called(s, e).0.inner == s.inner
  {
    match e
    case Below =>
    case OfOuter => PopFrame(s, OfOuter);
    case OfInner =>
    case OfTask => PopFrame(s, OfTask);
  }

  lemma StartOuterEffect(s: State)
    requires s.chain.None? && StepChain(s, StartOuter).Some?
    ensures var s1 := StepChain(s, StartOuter).value; Effect(s, [StartOuter], s1, s1.chain) && s1.inner == s.inner
  {
    PopFrame(s, OfOuter);
  }

  lemma CreateInnerEffect(s: State)
    requires s.chain.None? && StepChain(s, CreateInner).Some?
    ensures var s1 := StepChain(s, CreateInner).value; Effect(s, [CreateInner], s1, s1.chain) && s1.inner == s.inner
  {
  }

  lemma EndOuterEffect(s: State, e: Option<Error>)
    requires s.chain.None? && StepChain(s, EndOuter(e)).Some?
    ensures var s1 := StepChain(s, EndOuter(e)).value; Effect(s, [EndOuter(e)], s1, s1.chain) && s1.inner == s.inner
  {
  }

  lemma AttachEffect(s: State)
    requires s.chain.None? && StepChain(s, Attach).Some?
    ensures var s1 := StepChain(s, Attach).value; Effect(s, [Attach], s1, s1.chain) && s1.inner == s.inner
  {
  }

  lemma DetachEffect(s: State)
    requires s.chain.None? && StepChain(s, Detach).Some?
    ensures var s1 := StepChain(s, Detach).value; Effect(s, [Detach], s1, s1.chain) && s1.inner == s.inner
  {
    PopFrame(s, OfInner);
  }

  lemma SetResultEffect(s: State)
    requires s.chain.None? && StepChain(s, SetResult).Some?
    ensures var s1 := StepChain(s, SetResult).value; Effect(s, [SetResult], s1, s1.chain) && s1.inner == s.inner
  {
  }

  lemma ChainEffect(s: State, a: Action)
    requires s.chain.None? && StepChain(s, a).Some?
    ensures var s1 := StepChain(s, a).value; Effect(s, [a], s1, s1.chain) && s1.inner == s.inner
  {
    match a
    case StartOuter => StartOuterEffect(s);
    case CreateInner => CreateInnerEffect(s);
    case EndOuter(e) => EndOuterEffect(s, e);
    case Attach => AttachEffect(s);
    case Detach => DetachEffect(s);
    case SetResult => SetResultEffect(s);
    case _ =>
  }

  predicate IsCall(a: Action) {
    a.CallRequested? || a.CallChained? || a.CallWorker?
  }

  predicate OfChain(a: Action) {
    a.StartOuter? || a.CreateInner? || a.EndOuter? || a.Attach? || a.Detach? || a.SetResult?
  }

  ghost predicate Unasked(s: State) {
    !s.requested ==> s.chain.None? && s.worker.None? && forall i :: 0 <= i < |s.requesters| ==> s.requesters[i].None?
  }

  lemma StepKeepsUnasked(s: State, a: Action)
    requires Unasked(s) && Step(s, a).Some?
    ensures Unasked(Step(s, a).value)
  {
    if OfChain(a) {
      ChainEffect(s, a);
    } else if a.CallChained? {
      CalledEffect(s, s.chain.value);
    } else if a.CallWorker? {
      CalledEffect(s, s.worker.value);
    } else if a.CallRequested? {
      CalledEffect(s, s.requesters[a.i].value);
    }
  }

  /** How the outer and the inner future settled stays, and so what the result will be: that of a canceled inner task
      is operation_canceled, whatever happens afterwards. */
  lemma SettledStays(s: State, acts: seq<Action>, s': State)
    requires Runs.Exec(Step, s, acts) == Some(s') && s.inner.Some? && s.task != Queued
    ensures s'.inner == s.inner
  {
    var inv := (u: State) => u.inner == s.inner && u.task != Queued;
    forall u, a | inv(u) && Step(u, a).Some? ensures inv(Step(u, a).value) { StepKeepsInner(u, a); }
    Runs.Invariance(Step, inv, s, acts);
  }

  lemma StepKeepsInner(s: State, a: Action)
    requires s.inner.Some? && s.task != Queued && Step(s, a).Some?
    ensures Step(s, a).value.inner == s.inner && Step(s, a).value.task != Queued
  {
    if OfChain(a) {
      ChainEffect(s, a);
    } else if a.CallChained? {
      CalledEffect(s, s.chain.value);
    } else if a.CallWorker? {
      CalledEffect(s, s.worker.value);
    } else if a.CallRequested? {
      CalledEffect(s, s.requesters[a.i].value);
    }
  }

  lemma StepGives(s: State, a: Action)
    requires Step(s, a).Some?
    ensures Given(s, [a], Step(s, a).value)
  {
    if OfChain(a) {
      ChainEffect(s, a);
    } else if a.CallChained? {
      CalledEffect(s, s.chain.value);
    } else if a.CallWorker? {
      CalledEffect(s, s.worker.value);
    } else if a.CallRequested? {
      CalledEffect(s, s.requesters[a.i].value);
    }
  }

  /** Each future holds what it settled with itself, or operation_canceled. */
  lemma {:induction false} OutcomesAreGiven(s: State, acts: seq<Action>, s': State)
    requires Runs.Exec(Step, s, acts) == Some(s')
    ensures Given(s, acts, s')
    decreases |acts|
  {
    if acts != [] {
      StepGives(s, acts[0]);
      OutcomesAreGiven(Step(s, acts[0]).value, acts[1..], s');
      assert forall a :: a in acts <==> a in [acts[0]] || a in acts[1..];
    }
  }

  /** So the result of a chain whose inner task was canceled is operation_canceled. */
  lemma CanceledTaskIsTheResult(depth: nat, cancelable: bool, ownToken: bool, n: nat, acts: seq<Action>, s: State,
                                a: Action, more: seq<Action>, s': State)
    requires Runs.Exec(Step, Init(depth, cancelable, ownToken, n), acts) == Some(s) && s.task == Queued
    requires CallsTask(s, a) && Runs.Exec(Step, s, [a] + more) == Some(s') && s'.result.Some?
    requires s'.outer == Some(None)
    ensures s'.result == Some(Exception(OperationCanceled))
  {
    assert ([a] + more)[1..] == more;
    var s1 := Step(s, a).value;
    QueuedTaskIsCanceled(depth, cancelable, ownToken, n, acts, s, a, s1);
    SettledStays(s1, more, s');
    Runs.ExecSplit(Step, Init(depth, cancelable, ownToken, n), acts, [a] + more);
    JoinsUnderCancelation(depth, cancelable, ownToken, n, acts + ([a] + more), s');
  }

  /** Once the outer task and the inner future are through, the chain goes on to its result. */
  lemma NoDeadlock(depth: nat, cancelable: bool, ownToken: bool, n: nat, acts: seq<Action>, s: State)
    returns (a: Action)
    requires Runs.Exec(Step, Init(depth, cancelable, ownToken, n), acts) == Some(s) && s.result.None?
    ensures Step(s, a).Some? && !a.Request? && !a.CallRequested?
  {
    ReachableInv(depth, cancelable, ownToken, n, acts, s);
    a := if s.chain.Some? then CallChained
         else match s.phase
              case Pending => StartOuter
              case Running => EndOuter(None)
              case Settled => (if s.outer == Some(None) then Attach else SetResult)
              case Attached =>
                (if s.inner.Some? then Detach
                 else if s.worker.Some? then CallWorker
                 else if s.task == Queued then StartInner
                 else InnerSettles(Value(0)))
              case _ => SetResult;
  }

  // ----- the chain ends -----

  function Copies(copied: seq<Option<Entry>>): nat {
    if copied == [] then 0 else (if copied[0].Some? then 1 else 0) + Copies(copied[1..])
  }

  lemma {:induction false} CopiesUpdate(copied: seq<Option<Entry>>, i: nat, c: Option<Entry>)
    requires i < |copied|
    ensures Copies(copied[i := c]) ==
      Copies(copied) - (if copied[i].Some? then 1 else 0) + (if c.Some? then 1 else 0)
  {
    if i == 0 {
      assert copied[i := c][1..] == copied[1..];
    } else {
      assert copied[i := c][1..] == copied[1..][i - 1 := c];
      CopiesUpdate(copied[1..], i - 1, c);
    }
  }

  /** A step of the chain or of a future makes a thread copy one callback at most. */
  function Rank(s: State): nat {
    2 * Left(s) + (if s.chain.Some? then 1 else 0) + (if s.worker.Some? then 1 else 0) + Copies(s.requesters)
  }

  lemma EffectDescends(s: State, s1: State, next: Option<Entry>)
    requires Effect(s, [], s1, next) && s1.chain == s.chain
    ensures s.chain.Some? ==> Rank(s1.(chain := next)) < Rank(s)
    ensures s.worker.Some? ==> Rank(s1.(worker := next)) < Rank(s)
    ensures forall i :: 0 <= i < |s.requesters| && s.requesters[i].Some? ==>
              Rank(s1.(requesters := s.requesters[i := next])) < Rank(s)
  {
    forall i | 0 <= i < |s.requesters| && s.requesters[i].Some?
      ensures Rank(s1.(requesters := s.requesters[i := next])) < Rank(s)
    {
      CopiesUpdate(s.requesters, i, next);
    }
  }

  lemma CallDescends(s: State, a: Action)
    requires IsCall(a) && Step(s, a).Some?
    ensures Rank(Step(s, a).value) < Rank(s)
  {
    var e := if a.CallChained? then s.chain.value else if a.CallWorker? then s.worker.value
             else s.requesters[a.i].value;
    CalledEffect(s, e);
    EffectDescends(s, Called(s, e).0, Called(s, e).1);
  }

  lemma StartInnerDescends(s: State)
    requires Step(s, StartInner).Some?
    ensures Rank(Step(s, StartInner).value) < Rank(s)
  {
    PopFrame(s, OfTask);
    var s' := Step(s, StartInner).value;
    assert s'.phase == s.phase && s'.inner == s.inner && s'.task == Started;
    assert s'.chain == s.chain && s'.requesters == s.requesters;
    assert Left(s') == Left(s) - 1;
  }

  lemma StepDescends(s: State, a: Action)
    requires Step(s, a).Some?
    ensures Rank(Step(s, a).value) < Rank(s) + if a.Request? then 2 else 0
  {
    if OfChain(a) {
      ChainEffect(s, a);
    } else if IsCall(a) {
      CallDescends(s, a);
    } else if a.Request? {
      CopiesUpdate(s.requesters, a.i, Top(s.stack));
    } else if a.StartInner? {
      StartInnerDescends(s);
    }
  }

  function Requests(acts: seq<Action>): nat {
    if acts == [] then 0 else (if acts[0].Request? then 1 else 0) + Requests(acts[1..])
  }

  /** Requests aside, a run has no more steps than its rank and one for each request; so with NoDeadlock the result
      is set in the end. */
  lemma {:induction false} ChainEnds(s: State, acts: seq<Action>, s': State)
    requires Runs.Exec(Step, s, acts) == Some(s')
    ensures |acts| - Requests(acts) + Rank(s') <= Rank(s) + Requests(acts)
    decreases |acts|
  {
    if acts != [] {
      StepDescends(s, acts[0]);
      ChainEnds(Step(s, acts[0]).value, acts[1..], s');
    }
  }

  /** The inner future has arrived, and was asked to cancel if the request came before it. */
  function AttachedState(s: State): State {
    if s.ownToken then
      s.(phase := Attached, stack := s.stack + [OfInner],
         innerRequested := s.innerRequested || (s.requested && s.inner.None?))
    else s.(phase := Attached)
  }

  /** The chain's thread pushes the callback for the inner future and calls it after a request. */
  lemma AttachIsRun(depth: nat, s: State) returns (acts: seq<Action>)
    requires Inv(depth, s) && s.chain.None? && s.phase == Settled && s.outer == Some(None)
    ensures Runs.Exec(Step, s, acts) == Some(AttachedState(s)) && Inv(depth, AttachedState(s))
  {
    AttachKeepsInv(depth, s);
    var s1 := Step(s, Attach).value;
    acts := [] + [Attach];
    Runs.ExecSnoc(Step, s, [], Attach, s);
    if s1.chain.Some? {
      CallChainedKeepsInv(depth, s1);
      Runs.ExecSnoc(Step, s, acts, CallChained, s1);
      acts := acts + [CallChained];
    }
  }

  /** The canceler is off the token, and after a request the callback below it was called. */
  function DetachedState(depth: nat, s: State): State {
    s.(phase := Detached, stack := Base(depth),
       belowCalled := s.belowCalled || (s.ownToken && s.requested && depth > 0))
  }

  /** After the inner future's settlement the chain's thread pops its callback and calls what a request makes it
      call. */
  lemma DetachIsRun(depth: nat, s: State) returns (acts: seq<Action>)
    requires Inv(depth, s) && s.chain.None? && s.phase == Attached && s.inner.Some?
    ensures Runs.Exec(Step, s, acts) == Some(DetachedState(depth, s)) && Inv(depth, DetachedState(depth, s))
  {
    if s.ownToken {
      PopOwn(depth, s, OfInner);
    }
    assert Base(depth) + [] == Base(depth);
    var s1 := Step(s, Detach).value;
    DetachKeepsInv(depth, s);
    acts := [] + [Detach];
    Runs.ExecSnoc(Step, s, [], Detach, s);
    if s1.chain.Some? {
      CallChainedKeepsInv(depth, s1);
      Runs.ExecSnoc(Step, s, acts, CallChained, s1);
      acts := acts + [CallChained];
    }
  }

  // ----- the class -----

  /** The shared state that unwrap makes, the token it shares and the two futures, while no worker is inside a pop.
      Its methods are the two lambdas of unwrap, each as an uninterrupted run of the thread of the chain. */
  class Chain {
    const cancelable: bool
    const ownToken: bool
    var requested: bool
    var stack: seq<Entry>
    var phase: Phase
    var outer: Option<Option<Error>>
    var inner: Option<Result>
    var innerRequested: bool
    var task: Task
    var requesters: seq<Option<Entry>>
    var belowCalled: bool
    var result: Option<Result>

    function View(): State
      reads this
    {
      State(cancelable, ownToken, requested, stack, phase, outer, inner, innerRequested, task, None, None, requesters,
            belowCalled, result, false)
    }

    constructor (depth: nat, cancelable: bool, ownToken: bool, n: nat)
      ensures View() == Init(depth, cancelable, ownToken, n)
    {
      this.cancelable, this.ownToken, requested := cancelable, ownToken, false;
      stack := Base(depth) + if cancelable then [OfOuter] else [];
      phase, outer, inner, innerRequested, task := Pending, None, None, false, Absent;
      requesters, belowCalled, result := seq(n, _ => None), false, None;
    }

    /** The continuation of the outer future: it passes an exception on, or goes on to the inner future, whose
        canceler it pushes and which is asked to cancel at once if the request came before. */
    method ContinueOuter(ghost depth: nat) returns (ghost acts: seq<Action>)
      requires Inv(depth, View()) && phase == Settled
      modifies this
      ensures Runs.Exec(Step, old(View()), acts) == Some(View()) && Inv(depth, View())
      ensures match old(outer)
        case Some(Some(e)) => result == Some(Exception(e)) && stack == Base(depth)
        case _ => phase == Attached && result.None? && (requested && ownToken && inner.None? ==> innerRequested)
    {
      if outer.value.Some? {
        acts := [] + [SetResult];
        Runs.ExecSnoc(Step, View(), [], SetResult, View());
        StepKeepsInv(depth, View(), SetResult);
        phase, result := Finished, Some(Exception(outer.value.value));
        assert Base(depth) + [] == Base(depth);
      } else {
        acts := AttachIsRun(depth, View());
        phase := Attached;
        if ownToken {
          stack := stack + [OfInner];
          if requested && inner.None? {
            innerRequested := true;
          }
        }
      }
    }

    /** The pop of the canceler, which calls the callback below after a request. That one belongs to what the
        chain began with. */
    method PopCanceler(ghost depth: nat) returns (ghost acts: seq<Action>)
      requires Inv(depth, View()) && phase == Attached && inner.Some?
      modifies this`stack, this`phase, this`belowCalled
      ensures Runs.Exec(Step, old(View()), acts) == Some(View()) && Inv(depth, View())
      ensures phase == Detached && stack == Base(depth)
      ensures ownToken && requested && depth > 0 ==> belowCalled
    {
      acts := DetachIsRun(depth, View());
      ghost var s' := DetachedState(depth, View());
      if ownToken {
        PopOwn(depth, View(), OfInner);
        stack := stack[..|stack| - 1];
        if requested && stack != [] {
          belowCalled := true;
        }
      }
      phase := Detached;
      assert Base(depth) + [] == Base(depth);
      assert View() == s';
    }

    /** The continuation of the inner future: it pops the canceler and sets the result. */
    method ContinueInner(ghost depth: nat) returns (ghost acts: seq<Action>)
      requires Inv(depth, View()) && phase == Attached && inner.Some?
      modifies this`stack, this`phase, this`belowCalled, this`result
      ensures Runs.Exec(Step, old(View()), acts) == Some(View()) && Inv(depth, View())
      ensures result == inner && stack == Base(depth)
    {
      ghost var s0 := View();
      acts := PopCanceler(depth);
      StepKeepsInv(depth, View(), SetResult);
      Runs.ExecSnoc(Step, s0, acts, SetResult, View());
      acts := acts + [SetResult];
      phase, result := Finished, inner;
    }
  }
}
