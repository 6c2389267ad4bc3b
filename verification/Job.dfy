/** The job scheduler: at most one run at a time, and at most one scheduled run after it.

    The n-th run scheduled by triggerImpl has slot n. Its phase follows the chain
    _future.then(...).unwrap(), whose links are separate critical sections, executor tasks and
    settlements, so any thread may trigger in between. A continuation that triggers the job while
    the fulfilling loop runs is such a trigger. Slot 0 is the ready future the job starts with. */
module Job {
  import opened Outcomes
  import Runs

  type Result = Outcome<()>

  datatype Phase =
    | Waiting                            // for the previous slot's future
    | Posted                             // reschedule() posted its task
    | Calling(pending: nat)              // the task body is inside _cb()
    | Awaiting(pending: nat)             // the future returned by _cb is not ready
    | Fulfilling(pending: nat, next: nat) // the loop over the success promises
    | Ending(o: Result)                  // the outcome travels through the unwraps
    | Settled(o: Result)

  /** A record of the past: for each promise the number of runs started before it was pushed, the number
      of runs started, the runs that succeeded, and by which run each promise was fulfilled. */
  datatype History = History(born: seq<nat>, starts: nat, successes: set<nat>, fulfilledBy: map<nat, nat>)

  /** promises is _successPromises, a promise being known by the order in which it was pushed. failed tells
      that an assertion failed, an index was out of range, a promise was set twice, an empty vector was read, or
      the moved-out _future was used. */
  datatype State = State(
    scheduled: bool,
    stopping: bool,
    running: bool,
    slots: seq<Phase>,
    promises: seq<nat>,
    failed: bool,
    past: History)

  datatype Action =
    | Trigger(success: bool)
    | Dispatch(k: nat)
    | Start(k: nat)
    | Throw(k: nat, e: Error)
    | Return(k: nat)
    | CallbackSettles(k: nat, o: Result)
    | FulfillNext(k: nat)
    | Erase(k: nat)
    | Settle(k: nat)
    | CancelPosted(k: nat)
    | Stop

  const CANCELED := Exception(OperationCanceled)

  const INIT := State(false, false, false, [Settled(Value(()))], [], false, History([], 0, {}, map[]))

  /** The lambda given to _future.then, when it runs under the lock. */
  function Continue(s: State): Phase {
    if s.stopping then Ending(CANCELED) else Posted
  }

  /** triggerImpl. When the previous future is ready its continuation runs inline. The destructor has moved _future
      out when the job is stopping, so scheduling a run then uses a null future. */
  function TriggerImpl(s: State, setPromise: bool): State {
    if s.scheduled then s
    else if s.stopping then s.(failed := true)
    else
      var phase := if |s.slots| > 0 && s.slots[|s.slots| - 1].Settled? then Posted else Waiting;
      var s1 := s.(scheduled := true, slots := s.slots + [phase]);
      if setPromise then
        s1.(promises := s.promises + [|s.past.born|], past := s.past.(born := s.past.born + [s.past.starts]))
      else s1
  }

  /** trigger, and trigger_success with its look at the last promise. */
  function TriggerCall(s: State, success: bool): State {
    var s1 := TriggerImpl(s, success);
    if success && s1.promises == [] then s1.(failed := true) else s1
  }

  /** The locked section of the task posted by reschedule. */
  function Begin(s: State, k: nat): State
    requires k < |s.slots|
  {
    if !s.scheduled then s.(failed := true)
    else if s.stopping then s.(scheduled := false, slots := s.slots[k := Ending(CANCELED)])
    else if s.running then s.(scheduled := false, failed := true)
    else s.(scheduled := false, running := true, slots := s.slots[k := Calling(|s.promises|)],
            past := s.past.(starts := s.past.starts + 1))
  }

  /** One iteration of the loop that fulfils the success promises. */
  function Fulfill(s: State, k: nat): State
    requires k < |s.slots| && s.slots[k].Fulfilling?
  {
    var i := s.slots[k].next;
    if i >= |s.promises| || s.promises[i] in s.past.fulfilledBy then s.(failed := true)
    else s.(slots := s.slots[k := s.slots[k].(next := i + 1)],
            past := s.past.(fulfilledBy := s.past.fulfilledBy[s.promises[i] := s.past.starts]))
  }

  /** The steps of the run in slot k. */
  function StepRun(s: State, a: Action, k: nat): Option<State>
    requires k < |s.slots|
  {
    var phase := s.slots[k];
    match a
    case Dispatch(_) =>
      if phase == Waiting && k > 0 && s.slots[k - 1].Settled? then
        Some(if s.scheduled then s.(slots := s.slots[k := Continue(s)]) else s.(failed := true))
      else None
    case Start(_) => if phase == Posted then Some(Begin(s, k)) else None
    case Throw(_, e) =>
      if phase.Calling? then Some(s.(running := false, slots := s.slots[k := Ending(Exception(e))])) else None
    case Return(_) =>
      if phase.Calling? then Some(s.(slots := s.slots[k := Awaiting(phase.pending)])) else None
    case CallbackSettles(_, o) =>
      if !phase.Awaiting? then None
      else if o.Exception? then Some(s.(running := false, slots := s.slots[k := Ending(o)]))
      else Some(s.(running := false, slots := s.slots[k := Fulfilling(phase.pending, 0)],
                   past := s.past.(successes := s.past.successes + {s.past.starts})))
    case FulfillNext(_) =>
      if phase.Fulfilling? && phase.next < phase.pending then Some(Fulfill(s, k)) else None
    case Erase(_) =>
      if !(phase.Fulfilling? && phase.next >= phase.pending) then None
      else if phase.pending > |s.promises| then Some(s.(failed := true))
      else Some(s.(promises := s.promises[phase.pending..], slots := s.slots[k := Ending(Value(()))]))
    case Settle(_) =>
      if phase.Ending? then Some(s.(slots := s.slots[k := Settled(phase.o)])) else None
    case CancelPosted(_) =>
      if phase == Posted then Some(s.(slots := s.slots[k := Ending(CANCELED)])) else None
    case Trigger(_) => None
    case Stop => None
  }

  function Step(s: State, a: Action): Option<State> {
    if a.Trigger? then Some(TriggerCall(s, a.success))
    else if a.Stop? then Some(s.(stopping := true))
    else if a.k < |s.slots| then StepRun(s, a, a.k)
    else None
  }

  // ----- the invariant -----

  predicate NotStarted(phase: Phase) {
    phase == Waiting || phase == Posted
  }

  /** _cb has been called and the future it returns is not settled. */
  predicate InFlight(phase: Phase) {
    phase.Calling? || phase.Awaiting?
  }

  predicate Active(phase: Phase) {
    InFlight(phase) || phase.Fulfilling?
  }

  function Last(s: State): Phase
    requires s.slots != []
  {
    s.slots[|s.slots| - 1]
  }

  /** The last run that has started or will not start, and its phase. */
  function Current(s: State): (k: nat)
    requires s.slots != []
    ensures k < |s.slots|
  {
    if NotStarted(Last(s)) && |s.slots| > 1 then |s.slots| - 2 else |s.slots| - 1
  }

  function CurrentPhase(s: State): Phase
    requires s.slots != []
  {
    s.slots[Current(s)]
  }

  /** Runs follow each other: all runs before the current one are settled, and only the last slot can be
      not started, waiting for the current one or posted after it. */
  ghost predicate Chained(s: State) {
    && s.slots != [] && s.slots[0].Settled?
    && (forall i :: 0 <= i < Current(s) ==> s.slots[i].Settled?)
    && !NotStarted(CurrentPhase(s))
    && (NotStarted(Last(s)) ==> s.scheduled)
    && (Last(s) == Posted ==> CurrentPhase(s).Settled?)
    && (s.running <==> InFlight(CurrentPhase(s)))
  }

  function FulfilledSoFar(phase: Phase): nat {
    if phase.Fulfilling? then phase.next else 0
  }

  /** Promises are kept in the order of their push until they are fulfilled, and the active run takes
      exactly those pushed before it started. cur is the phase of the current run. */
  ghost predicate Kept(promises: seq<nat>, past: History, cur: Phase) {
    && (forall i, j :: 0 <= i < j < |promises| ==> promises[i] < promises[j])
    && (forall j :: 0 <= j < |promises| ==> promises[j] < |past.born|)
    && (forall q :: q in past.fulfilledBy ==> q < |past.born|)
    && (forall q :: 0 <= q < |past.born| ==> past.born[q] <= past.starts)
    && (forall q :: 0 <= q < |past.born| ==> q in promises || q in past.fulfilledBy)
    && (forall j :: 0 <= j < |promises| ==> (promises[j] in past.fulfilledBy <==> j < FulfilledSoFar(cur)))
    && (Active(cur) ==> cur.pending <= |promises| && FulfilledSoFar(cur) <= cur.pending)
    && (Active(cur) ==> forall j :: 0 <= j < |promises| ==>
          (j < cur.pending <==> past.born[promises[j]] < past.starts))
  }

  /** Each promise belongs to the first successful run started after its push. */
  ghost predicate Earned(past: History, cur: Phase) {
    && (forall r :: r in past.successes ==> r <= past.starts)
    && (cur.Fulfilling? ==> past.starts in past.successes)
    && (InFlight(cur) ==> past.starts !in past.successes)
    && (forall q :: q in past.fulfilledBy && q < |past.born| ==>
          FirstSuccess(past, past.born[q], past.fulfilledBy[q]))
    && (forall q, r :: 0 <= q < |past.born| && q !in past.fulfilledBy && r in past.successes && past.born[q] < r ==>
          cur.Fulfilling? && r == past.starts)
  }

  /** r is the first successful run started after n runs had started. */
  ghost predicate FirstSuccess(past: History, n: nat, r: nat) {
    r in past.successes && n < r && forall r' :: r' in past.successes && n < r' ==> r <= r'
  }

  ghost predicate Accounted(promises: seq<nat>, past: History, cur: Phase) {
    Kept(promises, past, cur) && Earned(past, cur)
  }

  ghost predicate Inv(s: State) {
    Chained(s) && Accounted(s.promises, s.past, CurrentPhase(s))
  }

  // ----- every change of the promises and of the current run's phase keeps the account -----

  /** A run that does not succeed: it starts no other one, and takes and fulfils nothing. */
  lemma QuietChange(promises: seq<nat>, past: History, cur: Phase, cur': Phase)
    requires Accounted(promises, past, cur) && !cur.Fulfilling?
    requires !Active(cur') || (InFlight(cur) && InFlight(cur') && cur.pending == cur'.pending)
    ensures Accounted(promises, past, cur')
  {
  }

  lemma PushKeeps(promises: seq<nat>, past: History, cur: Phase)
    requires Kept(promises, past, cur)
    ensures Kept(promises + [|past.born|], past.(born := past.born + [past.starts]), cur)
  {
    var promises', q := promises + [|past.born|], |past.born|;
    assert promises'[|promises|] == q;
    forall p | 0 <= p < |past.born| && p in promises ensures p in promises' {}
  }

  lemma PushEarns(past: History, cur: Phase)
    requires Earned(past, cur) && forall q :: q in past.fulfilledBy ==> q < |past.born|
    ensures Earned(past.(born := past.born + [past.starts]), cur)
  {
  }

  lemma PushChange(promises: seq<nat>, past: History, cur: Phase, cur': Phase)
    requires Accounted(promises, past, cur) && (cur == cur' || (cur.Settled? && cur'.Settled?))
    ensures Accounted(promises + [|past.born|], past.(born := past.born + [past.starts]), cur')
  {
    if cur != cur' {
      QuietChange(promises, past, cur, cur');
    }
    PushKeeps(promises, past, cur');
    PushEarns(past, cur');
  }

  lemma StartChange(promises: seq<nat>, past: History, cur: Phase)
    requires Accounted(promises, past, cur) && !Active(cur)
    ensures Accounted(promises, past.(starts := past.starts + 1), Calling(|promises|))
  {
  }

  lemma SuccessChange(promises: seq<nat>, past: History, pending: nat)
    requires Accounted(promises, past, Awaiting(pending))
    ensures Accounted(promises, past.(successes := past.successes + {past.starts}), Fulfilling(pending, 0))
  {
  }

  lemma FulfillChange(promises: seq<nat>, past: History, pending: nat, i: nat)
    requires Accounted(promises, past, Fulfilling(pending, i)) && i < pending
    ensures i < |promises| && promises[i] !in past.fulfilledBy
    ensures Accounted(promises, past.(fulfilledBy := past.fulfilledBy[promises[i] := past.starts]),
                      Fulfilling(pending, i + 1))
  {
    assert FirstSuccess(past, past.born[promises[i]], past.starts);
  }

  /** A promise that is not fulfilled was not taken by the run that succeeded, so it was pushed later. */
  lemma EraseLeaves(promises: seq<nat>, past: History, pending: nat, q: nat)
    requires Accounted(promises, past, Fulfilling(pending, pending)) && q < |past.born| && q !in past.fulfilledBy
    ensures pending <= |promises| && q in promises[pending..] && past.born[q] >= past.starts
  {
    var j :| 0 <= j < |promises| && promises[j] == q;
    assert promises[pending..][j - pending] == q;
  }

  lemma EraseEarns(promises: seq<nat>, past: History, pending: nat, o: Result)
    requires Accounted(promises, past, Fulfilling(pending, pending))
    ensures Earned(past, Ending(o))
  {
    forall q | 0 <= q < |past.born| && q !in past.fulfilledBy ensures past.born[q] >= past.starts {
      EraseLeaves(promises, past, pending, q);
    }
  }

  lemma EraseChange(promises: seq<nat>, past: History, pending: nat, o: Result)
    requires Accounted(promises, past, Fulfilling(pending, pending))
    ensures pending <= |promises| && Accounted(promises[pending..], past, Ending(o))
  {
    EraseEarns(promises, past, pending, o);
    forall q | 0 <= q < |past.born| && q !in past.fulfilledBy ensures q in promises[pending..] {
      EraseLeaves(promises, past, pending, q);
    }
  }

  // ----- every step keeps the invariant -----

  /** Steps that concern the slot that has not started, and steps of the current run. */
  predicate Pending(a: Action) {
    a.Dispatch? || a.Start? || a.CancelPosted?
  }

  lemma WhoSteps(s: State, a: Action)
    requires Chained(s) && Step(s, a).Some? && !a.Trigger? && !a.Stop?
    ensures if Pending(a) then NotStarted(Last(s)) && a.k == |s.slots| - 1 && |s.slots| > 1 else a.k == Current(s)
    ensures a.Dispatch? ==> CurrentPhase(s).Settled?
  {
  }

  lemma TriggerKeepsChained(s: State, success: bool)
    requires Chained(s)
    ensures var s' := TriggerImpl(s, success);
      Chained(s') && (CurrentPhase(s') == CurrentPhase(s) || (CurrentPhase(s).Settled? && CurrentPhase(s').Settled?))
  {
  }

  lemma PendingKeepsChained(s: State, a: Action)
    requires Chained(s) && Step(s, a).Some? && Pending(a)
    ensures Chained(Step(s, a).value) && Step(s, a).value.failed == s.failed
    ensures CurrentPhase(s).Settled? && !Active(CurrentPhase(s))
    ensures var s' := Step(s, a).value;
      if s'.past.starts > s.past.starts then CurrentPhase(s') == Calling(|s.promises|) else !Active(CurrentPhase(s'))
  {
    WhoSteps(s, a);
  }

  /** Moving the current run to another phase. */
  lemma AdvanceKeepsChained(s: State, s': State, phase: Phase)
    requires Chained(s) && !CurrentPhase(s).Settled? && !NotStarted(phase)
    requires s'.slots == s.slots[Current(s) := phase] && s'.scheduled == s.scheduled
    requires s'.running <==> InFlight(phase)
    ensures Chained(s') && Current(s') == Current(s) && CurrentPhase(s') == phase
  {
  }

  /** The current run never fails: the promises its loop reaches are there and not fulfilled yet. */
  lemma CurrentIsSafe(s: State, a: Action)
    requires Inv(s) && Step(s, a).Some? && !a.Trigger? && !a.Stop? && !Pending(a)
    ensures a.k == Current(s) && !CurrentPhase(s).Settled? && Step(s, a).value.failed == s.failed
  {
    WhoSteps(s, a);
    if a.FulfillNext? {
      FulfillChange(s.promises, s.past, CurrentPhase(s).pending, CurrentPhase(s).next);
    }
  }

  /** The loop over the promises, and the erase after it. */
  lemma LoopKeepsChained(s: State, a: Action)
    requires Inv(s) && Step(s, a).Some? && (a.FulfillNext? || a.Erase?)
    ensures CurrentMoved(s, a, Step(s, a).value)
  {
    CurrentIsSafe(s, a);
    AdvanceKeepsChained(s, Step(s, a).value, Step(s, a).value.slots[a.k]);
  }

  lemma CallKeepsChained(s: State, a: Action)
    requires Inv(s) && Step(s, a).Some? && (a.Throw? || a.Return? || a.CallbackSettles? || a.Settle?)
    ensures CurrentMoved(s, a, Step(s, a).value)
  {
    WhoSteps(s, a);
    AdvanceKeepsChained(s, Step(s, a).value, Step(s, a).value.slots[a.k]);
  }

  /** The current run has moved to another phase, without failing. */
  ghost predicate CurrentMoved(s: State, a: Action, s': State)
    requires s.slots != [] && !a.Trigger? && !a.Stop?
  {
    && s'.failed == s.failed && Chained(s') && a.k == Current(s) == Current(s') && !CurrentPhase(s).Settled?
    && CurrentPhase(s') == s'.slots[a.k]
  }

  lemma CurrentKeepsChained(s: State, a: Action)
    requires Inv(s) && Step(s, a).Some? && !a.Trigger? && !a.Stop? && !Pending(a)
    ensures CurrentMoved(s, a, Step(s, a).value)
  {
    if a.FulfillNext? || a.Erase? {
      LoopKeepsChained(s, a);
    } else {
      CallKeepsChained(s, a);
    }
  }

  lemma PendingKeepsInv(s: State, a: Action)
    requires Inv(s) && Step(s, a).Some? && Pending(a)
    ensures Inv(Step(s, a).value)
  {
    PendingKeepsChained(s, a);
    var s' := Step(s, a).value;
    if s'.past.starts > s.past.starts {
      StartChange(s.promises, s.past, CurrentPhase(s));
    } else {
      QuietChange(s.promises, s.past, CurrentPhase(s), CurrentPhase(s'));
    }
  }

  lemma TriggerKeepsInv(s: State, success: bool)
    requires Inv(s)
    ensures Inv(TriggerImpl(s, success))
  {
    TriggerKeepsChained(s, success);
    var s' := TriggerImpl(s, success);
    if s'.past != s.past {
      PushChange(s.promises, s.past, CurrentPhase(s), CurrentPhase(s'));
    }
  }

  /** Looking at the last promise changes nothing. */
  lemma CallKeepsInv(s: State, success: bool)
    requires Inv(s)
    ensures Inv(TriggerCall(s, success))
    ensures TriggerCall(s, success) == TriggerImpl(s, success).(failed := TriggerCall(s, success).failed)
  {
    TriggerKeepsInv(s, success);
    var s1 := TriggerImpl(s, success);
    SameButFailed(s1, TriggerCall(s, success));
  }

  lemma SameButFailed(s: State, s': State)
    requires Inv(s) && s' == s.(failed := s'.failed)
    ensures Inv(s') && CurrentPhase(s') == CurrentPhase(s)
  {
  }

  /** What a step of the current run makes of the promises and of the past. */
  ghost predicate KeepsAccount(s: State, a: Action)
    requires !a.Trigger? && !a.Stop?
  {
    match Step(s, a)
    case None => true
    case Some(s') => a.k < |s'.slots| && Accounted(s'.promises, s'.past, s'.slots[a.k])
  }

  lemma FulfillKeepsAccount(s: State, k: nat)
    requires Inv(s) && k == Current(s)
    ensures KeepsAccount(s, FulfillNext(k))
  {
    if Step(s, FulfillNext(k)).Some? {
      FulfillChange(s.promises, s.past, CurrentPhase(s).pending, CurrentPhase(s).next);
    }
  }

  lemma EraseKeepsAccount(s: State, k: nat)
    requires Inv(s) && k == Current(s)
    ensures KeepsAccount(s, Erase(k))
  {
    if Step(s, Erase(k)).Some? {
      EraseChange(s.promises, s.past, CurrentPhase(s).pending, Value(()));
    }
  }

  lemma EndKeepsAccount(s: State, k: nat, o: Result)
    requires Inv(s) && k == Current(s)
    ensures KeepsAccount(s, CallbackSettles(k, o))
  {
    if CurrentPhase(s).Awaiting? {
      SuccessChange(s.promises, s.past, CurrentPhase(s).pending);
      QuietChange(s.promises, s.past, CurrentPhase(s), Ending(o));
    }
  }

  lemma CurrentKeepsAccount(s: State, a: Action)
    requires Inv(s) && Step(s, a).Some? && !a.Trigger? && !a.Stop? && !Pending(a) && a.k == Current(s)
    ensures KeepsAccount(s, a)
  {
    if a.FulfillNext? {
      FulfillKeepsAccount(s, a.k);
    } else if a.Erase? {
      EraseKeepsAccount(s, a.k);
    } else if a.CallbackSettles? {
      EndKeepsAccount(s, a.k, a.o);
    } else {
      QuietChange(s.promises, s.past, CurrentPhase(s), Step(s, a).value.slots[a.k]);
    }
  }

  lemma CurrentKeepsInv(s: State, a: Action)
    requires Inv(s) && Step(s, a).Some? && !a.Trigger? && !a.Stop? && !Pending(a)
    ensures Inv(Step(s, a).value)
  {
    CurrentKeepsChained(s, a);
    CurrentKeepsAccount(s, a);
  }

  lemma StepKeepsInv(s: State, a: Action)
    requires Inv(s) && Step(s, a).Some?
    ensures Inv(Step(s, a).value)
  {
    if a.Trigger? {
      CallKeepsInv(s, a.success);
    } else if Pending(a) {
      PendingKeepsInv(s, a);
    } else if !a.Stop? {
      CurrentKeepsInv(s, a);
    }
  }

  lemma RunKeepsInv(s: State, acts: seq<Action>)
    requires Inv(s)
    ensures Runs.Exec(Step, s, acts).Some? ==> Inv(Runs.Exec(Step, s, acts).value)
  {
    forall s, a | Inv(s) && Step(s, a).Some? ensures Inv(Step(s, a).value) { StepKeepsInv(s, a); }
    Runs.Invariance(Step, Inv, s, acts);
  }

  // ----- mutual exclusion and success promises -----

  lemma InFlightIsCurrent(s: State)
    requires Chained(s)
    ensures forall i :: 0 <= i < |s.slots| && InFlight(s.slots[i]) ==> i == Current(s)
  {
  }

  /** A trigger of a job whose destructor has moved _future out, unless a run is scheduled; or a trigger_success that
      pushes no promise and finds none. */
  predicate Misuse(s: State, a: Action) {
    a.Trigger? && ((s.stopping && !s.scheduled) || (a.success && s.scheduled && s.promises == []))
  }

  lemma StepFails(s: State, a: Action)
    requires Inv(s) && Step(s, a).Some?
    ensures Step(s, a).value.failed <==> s.failed || Misuse(s, a)
  {
    if Pending(a) {
      PendingKeepsChained(s, a);
    } else if !a.Trigger? && !a.Stop? {
      CurrentIsSafe(s, a);
    }
  }

  /** Some call in a run is such a misuse. */
  predicate Misused(s: State, acts: seq<Action>)
    decreases |acts|
  {
    acts != [] && match Step(s, acts[0])
                  case None => false
                  case Some(s') => Misuse(s, acts[0]) || Misused(s', acts[1..])
  }

  lemma {:induction false} FailsIfMisused(s: State, acts: seq<Action>, s': State)
    requires Inv(s) && Runs.Exec(Step, s, acts) == Some(s')
    ensures s'.failed <==> s.failed || Misused(s, acts)
    decreases |acts|
  {
    if acts != [] {
      StepKeepsInv(s, acts[0]);
      StepFails(s, acts[0]);
      FailsIfMisused(Step(s, acts[0]).value, acts[1..], s');
    }
  }

  /** In every run at most one call of _cb, counted until the future it returns settles, is in flight; and no
      assertion fails, no index is out of range, no promise is set twice, and no null future or empty vector is
      used, if and only if no call in it is a misuse. */
  lemma MutualExclusion(acts: seq<Action>, s: State, i: nat, j: nat)
    requires Runs.Exec(Step, INIT, acts) == Some(s)
    ensures s.failed <==> Misused(INIT, acts)
    ensures i < |s.slots| && j < |s.slots| && InFlight(s.slots[i]) && InFlight(s.slots[j]) ==> i == j
    ensures s.running <==> exists i :: 0 <= i < |s.slots| && InFlight(s.slots[i])
  {
    RunKeepsInv(INIT, acts);
    FailsIfMisused(INIT, acts, s);
    InFlightIsCurrent(s);
    assert s.running ==> InFlight(s.slots[Current(s)]);
  }

  /** A callback that triggers its job while the destructor waits for it uses the null future. */
  lemma TriggerAfterStopFails() returns (acts: seq<Action>, s: State)
    ensures acts == [Trigger(false), Start(1), Stop, Trigger(false)] && Runs.Exec(Step, INIT, acts) == Some(s)
    ensures s.failed && |s.slots| == 2 && InFlight(s.slots[1])
  {
    var ready := Settled(Value(()));
    var s1 := INIT.(scheduled := true, slots := [ready, Posted]);
    var s2 := INIT.(running := true, slots := [ready, Calling(0)], past := INIT.past.(starts := 1));
    var s3 := s2.(stopping := true);
    s := s3.(failed := true);
    acts := [Trigger(false), Start(1), Stop, Trigger(false)];
    assert INIT.slots + [Posted] == s1.slots && s1.slots[1 := Calling(0)] == s2.slots;
    Runs.ExecFour(Step, INIT, Trigger(false), Start(1), Stop, Trigger(false), s1, s2, s3, s);
  }

  /** A success promise is fulfilled only by the first successful run started after its push; until then it
      keeps its place among the others, and it misses no such run. */
  lemma FirstSuccessFulfills(acts: seq<Action>, s: State, q: nat)
    requires Runs.Exec(Step, INIT, acts) == Some(s) && q < |s.past.born|
    ensures q in s.past.fulfilledBy ==> FirstSuccess(s.past, s.past.born[q], s.past.fulfilledBy[q])
    ensures q !in s.past.fulfilledBy ==> q in s.promises
    ensures q !in s.past.fulfilledBy && (forall i :: 0 <= i < |s.slots| ==> !s.slots[i].Fulfilling?) ==>
      forall r :: r in s.past.successes ==> r <= s.past.born[q]
    ensures forall i, j :: 0 <= i < j < |s.promises| ==> s.promises[i] < s.promises[j]
  {
    RunKeepsInv(INIT, acts);
    assert CurrentPhase(s) == s.slots[Current(s)];
  }

  // ----- coverage -----

  /** The job was canceled before its scheduled run started: _scheduled stays true with nothing scheduled. */
  predicate Dead(s: State)
    requires s.slots != []
  {
    s.scheduled && !NotStarted(Last(s))
  }

  predicate Uncanceled(acts: seq<Action>) {
    forall i :: 0 <= i < |acts| ==> !acts[i].CancelPosted? && !acts[i].Stop?
  }

  predicate NoStart(acts: seq<Action>) {
    forall i :: 0 <= i < |acts| ==> !acts[i].Start?
  }

  predicate NoStop(acts: seq<Action>) {
    forall i :: 0 <= i < |acts| ==> !acts[i].Stop?
  }

  /** Some run was canceled when its task had been posted and had not started. */
  predicate CanceledPending(acts: seq<Action>) {
    exists i :: 0 <= i < |acts| && acts[i].CancelPosted?
  }

  lemma StepKeepsAlive(s: State, a: Action)
    requires Inv(s) && !s.stopping && !Dead(s) && !a.CancelPosted? && !a.Stop? && Step(s, a).Some?
    ensures Step(s, a).value.slots != [] && !Step(s, a).value.stopping && !Dead(Step(s, a).value)
  {
    if a.Trigger? {
      TriggerKeepsChained(s, a.success);
    } else {
      WhoSteps(s, a);
    }
  }

  /** Only a cancelation of a posted run kills a job. */
  lemma {:induction false} UncanceledIsAlive(s: State, acts: seq<Action>, s': State)
    requires Inv(s) && !s.stopping && !Dead(s) && Uncanceled(acts)
    requires Runs.Exec(Step, s, acts) == Some(s')
    ensures s'.slots != [] && !s'.stopping && !Dead(s')
    decreases |acts|
  {
    if acts != [] {
      var a, s1 := acts[0], Step(s, acts[0]).value;
      StepKeepsInv(s, a);
      StepKeepsAlive(s, a);
      assert Uncanceled(acts[1..]);
      UncanceledIsAlive(s1, acts[1..], s');
    }
  }

  lemma CancelKills(acts: seq<Action>, s: State, k: nat)
    requires Runs.Exec(Step, INIT, acts) == Some(s) && Step(s, CancelPosted(k)).Some?
    ensures Step(s, CancelPosted(k)).value.slots != [] && Dead(Step(s, CancelPosted(k)).value)
  {
    RunKeepsInv(INIT, acts);
    CancelPostedKills(s, CancelPosted(k));
  }

  lemma CancelPostedKills(s: State, a: Action)
    requires Inv(s) && a.CancelPosted? && Step(s, a).Some?
    ensures Step(s, a).value.slots != [] && !NotStarted(Last(Step(s, a).value)) && Step(s, a).value.scheduled
    ensures Step(s, a).value.stopping == s.stopping
  {
    WhoSteps(s, a);
  }

  lemma StepKeepsDead(s: State, a: Action)
    requires Inv(s) && Dead(s) && Step(s, a).Some?
    ensures var s' := Step(s, a).value;
      && |s'.slots| == |s.slots| && Dead(s') && s'.past.starts == s.past.starts && s'.past.born == s.past.born
  {
    if !a.Trigger? && !a.Stop? {
      WhoSteps(s, a);
      CurrentKeepsChained(s, a);
    }
  }

  /** A dead job stays dead: no trigger schedules anything or pushes a promise, and no run ever starts. */
  lemma DeadForever(s: State, acts: seq<Action>, s': State)
    requires Inv(s) && Dead(s) && Runs.Exec(Step, s, acts) == Some(s')
    ensures s'.slots != [] && Dead(s') && |s'.slots| == |s.slots|
    ensures s'.past.starts == s.past.starts && s'.past.born == s.past.born
  {
    var inv := (u: State) => Inv(u) && Dead(u) && |u.slots| == |s.slots|
      && u.past.starts == s.past.starts && u.past.born == s.past.born;
    forall u, a | inv(u) && Step(u, a).Some? ensures inv(Step(u, a).value) {
      StepKeepsInv(u, a);
      StepKeepsDead(u, a);
    }
    Runs.Invariance(Step, inv, s, acts);
  }

  /** Which steps of a job that is not stopping leave it dead. */
  lemma StepKills(s: State, a: Action)
    requires Inv(s) && !s.stopping && !a.Stop? && Step(s, a).Some?
    ensures Step(s, a).value.slots != [] && !Step(s, a).value.stopping
    ensures Dead(Step(s, a).value) <==> Dead(s) || a.CancelPosted?
  {
    if Dead(s) {
      StepKeepsDead(s, a);
      StepKeepsRunning(s, a);
    } else if a.CancelPosted? {
      CancelPostedKills(s, a);
    } else {
      StepKeepsAlive(s, a);
    }
  }

  lemma StepKeepsRunning(s: State, a: Action)
    requires Step(s, a).Some? && !a.Stop?
    ensures Step(s, a).value.stopping == s.stopping
  {
  }

  lemma {:induction false} DeadIffCanceled(s: State, acts: seq<Action>, s': State)
    requires Inv(s) && !s.stopping && NoStop(acts) && Runs.Exec(Step, s, acts) == Some(s')
    ensures s'.slots != [] && !s'.stopping
    ensures Dead(s') <==> Dead(s) || CanceledPending(acts)
    decreases |acts|
  {
    if acts != [] {
      StepKeepsInv(s, acts[0]);
      StepKills(s, acts[0]);
      assert NoStop(acts[1..]);
      DeadIffCanceled(Step(s, acts[0]).value, acts[1..], s');
      assert CanceledPending(acts) <==> acts[0].CancelPosted? || CanceledPending(acts[1..]);
    }
  }

  lemma TriggerUnstarted(s: State, success: bool)
    requires Inv(s) && !s.stopping && !Dead(s)
    ensures Inv(TriggerImpl(s, success)) && !TriggerImpl(s, success).stopping
    ensures NotStarted(Last(TriggerImpl(s, success)))
  {
    TriggerKeepsInv(s, success);
  }

  /** In a job that is not being destroyed, trigger() returns the future of a run that has not started if and only
      if no posted run was ever canceled. */
  lemma TriggerReturnsUnstartedRun(acts: seq<Action>, s: State, success: bool)
    requires Runs.Exec(Step, INIT, acts) == Some(s) && NoStop(acts)
    ensures TriggerImpl(s, success).slots != []
    ensures NotStarted(Last(TriggerImpl(s, success))) <==> !CanceledPending(acts)
  {
    RunKeepsInv(INIT, acts);
    DeadIffCanceled(INIT, acts, s);
    if Dead(s) {
      assert TriggerImpl(s, success) == s;
    } else {
      TriggerUnstarted(s, success);
    }
  }

  /** A new job, triggered once and canceled before its run starts: from then on trigger() schedules nothing and
      returns the canceled future. */
  lemma CanceledJobIsDead() returns (acts: seq<Action>, s: State)
    ensures acts == [Trigger(false), CancelPosted(1), Settle(1)] && Runs.Exec(Step, INIT, acts) == Some(s)
    ensures s.slots == [Settled(Value(())), Settled(CANCELED)]
    ensures forall success :: TriggerImpl(s, success) == s
  {
    var ready := Settled(Value(()));
    var s1 := INIT.(scheduled := true, slots := [ready, Posted]);
    var s2 := s1.(slots := [ready, Ending(CANCELED)]);
    s := s1.(slots := [ready, Settled(CANCELED)]);
    acts := [Trigger(false), CancelPosted(1)] + [Settle(1)];
    assert INIT.slots + [Posted] == s1.slots && s1.slots[1 := Ending(CANCELED)] == s2.slots;
    Runs.ExecTwo(Step, INIT, Trigger(false), CancelPosted(1), s1, s2);
    assert s2.slots[1 := Settled(CANCELED)] == s.slots;
    Runs.ExecSnoc(Step, INIT, [Trigger(false), CancelPosted(1)], Settle(1), s2);
  }

  lemma StepKeepsScheduled(s: State, a: Action)
    requires Inv(s) && s.scheduled && !a.Start? && Step(s, a).Some?
    ensures Step(s, a).value.scheduled && |Step(s, a).value.slots| == |s.slots|
  {
  }

  /** Until a run starts, every trigger returns the future of the same slot. */
  lemma {:induction false} TriggersCoalesce(s: State, acts: seq<Action>, s': State)
    requires Inv(s) && s.scheduled && NoStart(acts)
    requires Runs.Exec(Step, s, acts) == Some(s')
    ensures s'.scheduled && |s'.slots| == |s.slots|
    ensures forall success :: TriggerImpl(s', success) == s'
    decreases |acts|
  {
    if acts != [] {
      StepKeepsInv(s, acts[0]);
      StepKeepsScheduled(s, acts[0]);
      assert NoStart(acts[1..]);
      TriggersCoalesce(Step(s, acts[0]).value, acts[1..], s');
    }
  }

  /** Nothing can start in a job that is being destroyed and has no run scheduled. */
  lemma {:induction false} NothingStarts(s: State, acts: seq<Action>, s': State)
    requires Inv(s) && s.stopping && !s.scheduled && Runs.Exec(Step, s, acts) == Some(s')
    ensures Inv(s') && s'.stopping && !s'.scheduled
    decreases |acts|
  {
    if acts != [] {
      StepKeepsInv(s, acts[0]);
      StepKeepsIdle(s, acts[0]);
      NothingStarts(Step(s, acts[0]).value, acts[1..], s');
    }
  }

  lemma StepKeepsIdle(s: State, a: Action)
    requires Inv(s) && s.stopping && !s.scheduled && Step(s, a).Some?
    ensures Step(s, a).value.stopping && !Step(s, a).value.scheduled && !a.Start?
  {
    if !a.Trigger? && !a.Stop? {
      WhoSteps(s, a);
    }
  }

  /** The first run that starts after a trigger is the one whose future the trigger returned. */
  lemma FirstStartServes(s: State, success: bool, before: seq<Action>, j: nat, s': State)
    requires Inv(s) && NoStart(before)
    requires Runs.Exec(Step, TriggerImpl(s, success), before + [Start(j)]) == Some(s')
    ensures j == |TriggerImpl(s, success).slots| - 1
  {
    var t := TriggerImpl(s, success);
    TriggerKeepsInv(s, success);
    Runs.ExecSplit(Step, t, before, [Start(j)]);
    var m := Runs.Exec(Step, t, before).value;
    assert Runs.Exec(Step, m, [Start(j)]).Some?;
    if t.scheduled {
      TriggersCoalesce(t, before, m);
      RunKeepsInv(t, before);
      WhoSteps(m, Start(j));
    } else {
      NothingStarts(t, before, m);
      StepKeepsIdle(m, Start(j));
    }
  }

  /** The run in slot k ended with o: its call threw, or the future it returned settled. */
  predicate Ran(acts: seq<Action>, k: nat, o: Result) {
    CallbackSettles(k, o) in acts || (o.Exception? && Throw(k, o.error) in acts)
  }

  /** How a phase moves; a stopping job and a cancelation end what has not started. */
  predicate Moves(k: nat, stopping: bool, a: Action, from: Phase, to: Phase) {
    || from == to
    || match from
       case Waiting => to == if stopping then Ending(CANCELED) else Posted
       case Posted =>
         || (a == Start(k) && to.Calling? && !stopping)
         || (to == Ending(CANCELED) && (a == CancelPosted(k) || (a == Start(k) && stopping)))
       case Calling(_) => to.Awaiting? || (to.Ending? && to.o.Exception? && a == Throw(k, to.o.error))
       case Awaiting(_) =>
         || (to.Ending? && a == CallbackSettles(k, to.o))
         || (to.Fulfilling? && a == CallbackSettles(k, Value(())))
       case Fulfilling(_, _) => to.Fulfilling? || to == Ending(Value(()))
       case Ending(o) => to == Settled(o)
       case Settled(_) => false
  }

  /** A step of a run changes no slot but its own. */
  lemma StepIsLocal(s: State, a: Action)
    requires Step(s, a).Some? && !a.Trigger? && !a.Stop?
    ensures var s' := Step(s, a).value;
      && a.k < |s.slots| == |s'.slots| && s'.slots == s.slots[a.k := s'.slots[a.k]] && s'.stopping == s.stopping
  {
  }

  /** How the slot of the step moves. */
  lemma OwnSlotMoves(s: State, a: Action)
    requires Inv(s) && Step(s, a).Some? && !a.Trigger? && !a.Stop?
    ensures a.k < |s.slots| == |Step(s, a).value.slots|
    ensures Moves(a.k, s.stopping, a, s.slots[a.k], Step(s, a).value.slots[a.k])
  {
    if a.CallbackSettles? && a.o.Value? {
      assert a.o.value == ();
    }
  }

  lemma StepMoves(s: State, a: Action, k: nat)
    requires Inv(s) && Step(s, a).Some? && k < |s.slots|
    ensures k < |Step(s, a).value.slots|
    ensures Step(s, a).value.stopping <==> s.stopping || a == Stop
    ensures Moves(k, s.stopping, a, s.slots[k], Step(s, a).value.slots[k])
  {
    if !a.Trigger? && !a.Stop? {
      StepIsLocal(s, a);
      OwnSlotMoves(s, a);
    }
  }

  /** The future of a run is canceled for a reason: its posted task was, or the job is being destroyed. */
  predicate CanceledFor(s: State, acts: seq<Action>, k: nat) {
    CancelPosted(k) in acts || s.stopping || Stop in acts
  }

  /** In every run the future of a slot settles with the outcome of the run that started, or, if none did, with
      operation_canceled and for a reason. */
  lemma {:induction false} SettlesForAReason(s: State, k: nat, acts: seq<Action>, s': State)
    requires Inv(s) && Runs.Exec(Step, s, acts) == Some(s')
    requires k < |s.slots| <= |s'.slots| && s'.slots[k].Settled?
    ensures NotStarted(s.slots[k]) ==>
      || (Start(k) in acts && Ran(acts, k, s'.slots[k].o))
      || (s'.slots[k].o == CANCELED && CanceledFor(s, acts, k))
    ensures InFlight(s.slots[k]) ==> Ran(acts, k, s'.slots[k].o)
    ensures s.slots[k].Fulfilling? ==> s'.slots[k].o == Value(())
    ensures s.slots[k].Ending? || s.slots[k].Settled? ==> s'.slots[k].o == s.slots[k].o
    decreases |acts|
  {
    if acts != [] {
      var a, s1, rest := acts[0], Step(s, acts[0]).value, acts[1..];
      StepKeepsInv(s, a);
      StepMoves(s, a, k);
      RunKeepsSettled(s1, k, rest, s');
      SettlesForAReason(s1, k, rest, s');
      assert forall b :: b in acts <==> b == a || b in rest;
    }
  }

  /** While a job is being destroyed no run starts, its last one included. */
  lemma StoppingStartsNothing(s: State, acts: seq<Action>, s': State)
    requires Inv(s) && s.stopping && Runs.Exec(Step, s, acts) == Some(s')
    ensures s'.stopping && s'.past.starts == s.past.starts && |s'.slots| == |s.slots|
    ensures forall k :: 0 <= k < |s.slots| && NotStarted(s.slots[k]) ==> !Active(s'.slots[k])
  {
    var inv := (u: State) =>
      && Inv(u) && u.stopping && u.past.starts == s.past.starts && |u.slots| == |s.slots|
      && forall k :: 0 <= k < |s.slots| && NotStarted(s.slots[k]) ==> !Active(u.slots[k]);
    forall u, a | inv(u) && Step(u, a).Some? ensures inv(Step(u, a).value) {
      StepKeepsInv(u, a);
      StoppingStep(u, a);
    }
    Runs.Invariance(Step, inv, s, acts);
  }

  lemma StoppingStep(s: State, a: Action)
    requires Inv(s) && s.stopping && Step(s, a).Some?
    ensures var s' := Step(s, a).value;
      && s'.stopping && s'.past.starts == s.past.starts && |s'.slots| == |s.slots|
      && forall k :: 0 <= k < |s.slots| && !Active(s.slots[k]) ==> !Active(s'.slots[k])
  {
    if !a.Trigger? && !a.Stop? {
      StepIsLocal(s, a);
      OwnSlotMoves(s, a);
    }
  }

  /** And what has not started then settles with operation_canceled, if at all. */
  lemma {:induction false} StoppingCancels(s: State, k: nat, acts: seq<Action>, s': State)
    requires Inv(s) && s.stopping && Runs.Exec(Step, s, acts) == Some(s')
    requires k < |s.slots| <= |s'.slots| && s'.slots[k].Settled?
    requires NotStarted(s.slots[k]) || s.slots[k] == Ending(CANCELED)
    ensures s'.slots[k].o == CANCELED
    decreases |acts|
  {
    if acts != [] {
      var a, s1 := acts[0], Step(s, acts[0]).value;
      StepKeepsInv(s, a);
      StepMoves(s, a, k);
      RunKeepsSettled(s1, k, acts[1..], s');
      if !s1.slots[k].Settled? {
        StoppingCancels(s1, k, acts[1..], s');
      }
    }
  }

  /** Without cancelation, the future of a slot settles only after its run started, with that run's outcome. */
  lemma SettlesWithItsRun(s: State, k: nat, acts: seq<Action>, s': State)
    requires Inv(s) && !s.stopping && Uncanceled(acts)
    requires Runs.Exec(Step, s, acts) == Some(s')
    requires k < |s.slots| <= |s'.slots| && s'.slots[k].Settled?
    ensures NotStarted(s.slots[k]) ==> Start(k) in acts && Ran(acts, k, s'.slots[k].o)
    ensures InFlight(s.slots[k]) ==> Ran(acts, k, s'.slots[k].o)
    ensures s.slots[k].Fulfilling? ==> s'.slots[k].o == Value(())
    ensures s.slots[k].Ending? || s.slots[k].Settled? ==> s'.slots[k].o == s.slots[k].o
  {
    SettlesForAReason(s, k, acts, s');
  }

  lemma StepKeepsSlots(s: State, a: Action, k: nat)
    requires Inv(s) && Step(s, a).Some? && k < |s.slots|
    ensures |s.slots| <= |Step(s, a).value.slots|
    ensures a.Trigger? || a.Stop? || a.k != k ==> Step(s, a).value.slots[k] == s.slots[k]
    ensures s.slots[k].Settled? ==> Step(s, a).value.slots[k] == s.slots[k]
  {
    if !a.Trigger? && !a.Stop? {
      StepIsLocal(s, a);
      OwnSlotMoves(s, a);
    }
  }

  lemma RunKeepsSettled(s: State, k: nat, acts: seq<Action>, s': State)
    requires Inv(s) && k < |s.slots| && Runs.Exec(Step, s, acts) == Some(s')
    ensures |s.slots| <= |s'.slots|
    ensures s.slots[k].Settled? ==> s'.slots[k] == s.slots[k]
  {
    var inv := (u: State) => Inv(u) && |s.slots| <= |u.slots| && (s.slots[k].Settled? ==> u.slots[k] == s.slots[k]);
    forall u, a | inv(u) && Step(u, a).Some? ensures inv(Step(u, a).value) {
      StepKeepsInv(u, a);
      StepKeepsSlots(u, a, k);
    }
    Runs.Invariance(Step, inv, s, acts);
  }

  /** The last slot of t, whose run has not started, settles only with the outcome of that run, or with
      operation_canceled and for a reason. */
  predicate LastIsAnswered(t: State, more: seq<Action>, s': State) {
    var k := |t.slots| - 1;
    && 0 <= k < |s'.slots| && NotStarted(t.slots[k])
    && (s'.slots[k].Settled? ==>
          || (Start(k) in more && Ran(more, k, s'.slots[k].o))
          || (s'.slots[k].o == CANCELED && CanceledFor(t, more, k)))
  }

  lemma UnstartedIsAnswered(t: State, more: seq<Action>, s': State)
    requires Inv(t) && NotStarted(Last(t)) && Runs.Exec(Step, t, more) == Some(s')
    ensures LastIsAnswered(t, more, s')
  {
    var k := |t.slots| - 1;
    RunKeepsSettled(t, k, more, s');
    if s'.slots[k].Settled? {
      SettlesForAReason(t, k, more, s');
    }
  }

  /** The promise of trigger(), in every run in which no posted run was canceled before the call: its future
      settles with the outcome of a run that started after the call, or with operation_canceled if its own posted
      run is canceled or the job destroyed. */
  lemma TriggerIsAnswered(acts: seq<Action>, s: State, success: bool, more: seq<Action>, s': State)
    requires Runs.Exec(Step, INIT, acts) == Some(s) && NoStop(acts) && !CanceledPending(acts)
    requires Runs.Exec(Step, TriggerImpl(s, success), more) == Some(s')
    ensures LastIsAnswered(TriggerImpl(s, success), more, s') && !TriggerImpl(s, success).stopping
  {
    RunKeepsInv(INIT, acts);
    DeadIffCanceled(INIT, acts, s);
    TriggerUnstarted(s, success);
    UnstartedIsAnswered(TriggerImpl(s, success), more, s');
  }

  /** The last slot of t settles only with the outcome of its run. */
  predicate LastIsServed(t: State, more: seq<Action>, s': State) {
    var k := |t.slots| - 1;
    && 0 <= k < |s'.slots| && NotStarted(t.slots[k])
    && (s'.slots[k].Settled? ==> Start(k) in more && Ran(more, k, s'.slots[k].o))
  }

  /** So without any cancelation it is the outcome of such a run. */
  lemma TriggerIsServed(acts: seq<Action>, s: State, success: bool, more: seq<Action>, s': State)
    requires Runs.Exec(Step, INIT, acts) == Some(s) && Uncanceled(acts) && Uncanceled(more)
    requires Runs.Exec(Step, TriggerImpl(s, success), more) == Some(s')
    ensures LastIsServed(TriggerImpl(s, success), more, s')
  {
    TriggerIsAnswered(acts, s, success, more, s');
  }

  // ----- no deadlock, and what holds at rest -----

  lemma CurrentCanMove(s: State) returns (a: Action)
    requires Chained(s) && !CurrentPhase(s).Settled?
    ensures !a.Trigger? && !a.Stop? && !a.CancelPosted? && Step(s, a).Some?
  {
    var k := Current(s);
    match s.slots[k]
    case Calling(_) => a := Return(k);
    case Awaiting(_) => a := CallbackSettles(k, Value(()));
    case Fulfilling(pending, next) => a := if next < pending then FulfillNext(k) else Erase(k);
    case Ending(_) => a := Settle(k);
  }

  /** While a slot is not settled, some step of a run can be taken, callback futures settling in the end. */
  lemma NoDeadlock(acts: seq<Action>, s: State, i: nat) returns (a: Action)
    requires Runs.Exec(Step, INIT, acts) == Some(s) && i < |s.slots| && !s.slots[i].Settled?
    ensures !a.Trigger? && !a.Stop? && !a.CancelPosted? && Step(s, a).Some?
  {
    RunKeepsInv(INIT, acts);
    if CurrentPhase(s).Settled? {
      a := if Last(s) == Waiting then Dispatch(|s.slots| - 1) else Start(|s.slots| - 1);
    } else {
      a := CurrentCanMove(s);
    }
  }

  /** When every slot is settled, without cancelation, nothing is scheduled or running, and the promises
      left are those after whose push no run has succeeded. */
  lemma AtRest(acts: seq<Action>, s: State)
    requires Runs.Exec(Step, INIT, acts) == Some(s) && Uncanceled(acts)
    requires forall i :: 0 <= i < |s.slots| ==> s.slots[i].Settled?
    ensures !s.scheduled && !s.running
    ensures forall q :: 0 <= q < |s.past.born| ==>
      (q in s.promises <==> forall r :: r in s.past.successes ==> r <= s.past.born[q])
  {
    RunKeepsInv(INIT, acts);
    UncanceledIsAlive(INIT, acts, s);
    assert Last(s).Settled? && CurrentPhase(s).Settled?;
    forall q | 0 <= q < |s.past.born|
      ensures q in s.promises <==> forall r :: r in s.past.successes ==> r <= s.past.born[q]
    {
      if q in s.promises {
        var j :| 0 <= j < |s.promises| && s.promises[j] == q;
        assert q !in s.past.fulfilledBy;
      } else {
        assert FirstSuccess(s.past, s.past.born[q], s.past.fulfilledBy[q]);
      }
    }
  }

  // ----- trigger_success when the job is already scheduled -----

  /** How many promises the active run will fulfil if it succeeds. */
  function Taken(s: State): nat
    requires s.slots != []
  {
    if Active(CurrentPhase(s)) then CurrentPhase(s).pending else 0
  }

  /** trigger_success returns the future of a promise that the active run has not taken. */
  predicate ReturnsUntakenPromise(s: State)
    requires s.slots != []
  {
    if s.scheduled then |s.promises| > Taken(s) else !s.stopping
  }

  /** The promise whose future trigger_success returns, None when it reads an empty vector. */
  function Back(s: State): Option<nat> {
    if s.promises == [] then None else Some(s.promises[|s.promises| - 1])
  }

  /** No run among the first n has fulfilled q, and the active run, if it is one of them, has not taken it. */
  ghost predicate Untaken(n: nat, q: nat, promises: seq<nat>, past: History, cur: Phase) {
    && q < |past.born| && past.born[q] <= n <= past.starts
    && (q in past.fulfilledBy ==> past.fulfilledBy[q] > n)
    && (n == past.starts && Active(cur) ==> cur.pending <= |promises| && q !in promises[..cur.pending])
  }

  ghost predicate UntakenSince(n: nat, q: nat, s: State)
    requires s.slots != []
  {
    Untaken(n, q, s.promises, s.past, CurrentPhase(s))
  }

  lemma TriggerKeepsUntaken(s: State, success: bool, n: nat, q: nat)
    requires Inv(s) && UntakenSince(n, q, s)
    ensures TriggerImpl(s, success).slots != [] && UntakenSince(n, q, TriggerImpl(s, success))
  {
    TriggerKeepsChained(s, success);
    var cur, s' := CurrentPhase(s), TriggerImpl(s, success);
    if Active(cur) && s'.promises != s.promises {
      assert s'.promises[..cur.pending] == s.promises[..cur.pending];
    }
  }

  lemma PendingKeepsUntaken(s: State, a: Action, n: nat, q: nat)
    requires Inv(s) && Step(s, a).Some? && Pending(a) && UntakenSince(n, q, s)
    ensures Step(s, a).value.slots != [] && UntakenSince(n, q, Step(s, a).value)
  {
    PendingKeepsChained(s, a);
  }

  lemma FulfillKeepsUntaken(promises: seq<nat>, past: History, pending: nat, i: nat, n: nat, q: nat)
    requires Untaken(n, q, promises, past, Fulfilling(pending, i)) && i < pending <= |promises|
    ensures Untaken(n, q, promises, past.(fulfilledBy := past.fulfilledBy[promises[i] := past.starts]),
                    Fulfilling(pending, i + 1))
  {
    assert promises[..pending][i] == promises[i];
  }

  lemma CurrentKeepsUntaken(s: State, a: Action, n: nat, q: nat)
    requires Inv(s) && Step(s, a).Some? && !a.Trigger? && !a.Stop? && !Pending(a) && UntakenSince(n, q, s)
    ensures Step(s, a).value.slots != [] && UntakenSince(n, q, Step(s, a).value)
  {
    CurrentKeepsChained(s, a);
    if a.FulfillNext? {
      FulfillKeepsUntaken(s.promises, s.past, CurrentPhase(s).pending, CurrentPhase(s).next, n, q);
    }
  }

  lemma StepKeepsUntaken(s: State, a: Action, n: nat, q: nat)
    requires Inv(s) && Step(s, a).Some? && UntakenSince(n, q, s)
    ensures Step(s, a).value.slots != [] && UntakenSince(n, q, Step(s, a).value)
  {
    if a.Trigger? {
      TriggerKeepsUntaken(s, a.success, n, q);
    } else if Pending(a) {
      PendingKeepsUntaken(s, a, n, q);
    } else if !a.Stop? {
      CurrentKeepsUntaken(s, a, n, q);
    }
  }

  lemma FreshIsUntaken(s: State)
    requires Inv(s) && ReturnsUntakenPromise(s)
    ensures var t := TriggerImpl(s, true);
      t.slots != [] && t.promises != [] && UntakenSince(s.past.starts, t.promises[|t.promises| - 1], t)
  {
    TriggerKeepsChained(s, true);
    TriggerKeepsInv(s, true);
    var t := TriggerImpl(s, true);
    var q := t.promises[|t.promises| - 1];
    assert q !in t.past.fulfilledBy;
  }

  lemma RunKeepsUntaken(s: State, acts: seq<Action>, s': State, n: nat, q: nat)
    requires Inv(s) && UntakenSince(n, q, s) && Runs.Exec(Step, s, acts) == Some(s')
    ensures Inv(s') && UntakenSince(n, q, s')
  {
    var inv := (u: State) => Inv(u) && UntakenSince(n, q, u);
    forall u, a | inv(u) && Step(u, a).Some? ensures inv(Step(u, a).value) {
      StepKeepsInv(u, a);
      StepKeepsUntaken(u, a, n, q);
    }
    Runs.Invariance(Step, inv, s, acts);
  }

  /** When it does, the future gets ready only by the first successful run started after the call. */
  lemma UntakenPromiseWaits(acts: seq<Action>, s: State, more: seq<Action>, s': State)
    requires Runs.Exec(Step, INIT, acts) == Some(s) && s.slots != [] && ReturnsUntakenPromise(s)
    requires Runs.Exec(Step, TriggerImpl(s, true), more) == Some(s')
    ensures Back(TriggerImpl(s, true)).Some?
    ensures var q := Back(TriggerImpl(s, true)).value;
      q in s'.past.fulfilledBy ==> FirstSuccess(s'.past, s.past.starts, s'.past.fulfilledBy[q])
  {
    RunKeepsInv(INIT, acts);
    FreshIsUntaken(s);
    TriggerKeepsInv(s, true);
    var q := Back(TriggerImpl(s, true)).value;
    RunKeepsUntaken(TriggerImpl(s, true), more, s', s.past.starts, q);
    if q in s'.past.fulfilledBy {
      assert FirstSuccess(s'.past, s'.past.born[q], s'.past.fulfilledBy[q]);
    }
  }

  /** When it does not, the call is a misuse, or the run that had started before the call makes the returned
      future ready if it succeeds. */
  lemma TakenPromiseMayComeEarly(acts: seq<Action>, s: State) returns (more: seq<Action>, s': State)
    requires Runs.Exec(Step, INIT, acts) == Some(s) && s.slots != [] && !ReturnsUntakenPromise(s)
    ensures Misuse(s, Trigger(true)) <==> (s.scheduled ==> Back(TriggerImpl(s, true)).None?)
    ensures !Misuse(s, Trigger(true)) ==>
      var q := Back(TriggerImpl(s, true));
      && Runs.Exec(Step, TriggerImpl(s, true), more) == Some(s')
      && q.Some? && q.value in s'.past.fulfilledBy && s'.past.fulfilledBy[q.value] <= s.past.starts
  {
    RunKeepsInv(INIT, acts);
    more, s' := [], s;
    if !Misuse(s, Trigger(true)) {
      more, s' := RunToSuccess(s);
    }
  }

  /** The next step of the active run on its way to success. */
  function TowardsSuccess(k: nat, phase: Phase): Action {
    if phase.Calling? then Return(k) else if phase.Awaiting? then CallbackSettles(k, Value(())) else FulfillNext(k)
  }

  /** How many such steps are left. */
  function StepsLeft(phase: Phase): int
    requires Active(phase)
  {
    if phase.Calling? then phase.pending + 2
    else if phase.Awaiting? then phase.pending + 1
    else phase.pending - phase.next
  }

  /** What that step does, when the promise the loop reaches is there and unfulfilled. */
  lemma SuccessPhase(s: State, k: nat)
    requires k < |s.slots| && Active(s.slots[k]) && StepsLeft(s.slots[k]) > 0
    requires s.slots[k].Fulfilling? ==>
      s.slots[k].next < |s.promises| && s.promises[s.slots[k].next] !in s.past.fulfilledBy
    ensures var o := Step(s, TowardsSuccess(k, s.slots[k]));
      && o.Some? && o.value.promises == s.promises && o.value.past.starts == s.past.starts
      && |o.value.slots| == |s.slots| && Active(o.value.slots[k]) && o.value.slots[k].pending == s.slots[k].pending
      && StepsLeft(o.value.slots[k]) == StepsLeft(s.slots[k]) - 1
  {
  }

  lemma SuccessStep(s: State)
    requires Inv(s) && Active(CurrentPhase(s)) && StepsLeft(CurrentPhase(s)) > 0
    ensures var o := Step(s, TowardsSuccess(Current(s), CurrentPhase(s)));
      && o.Some? && Inv(o.value)
      && o.value.promises == s.promises && o.value.past.starts == s.past.starts
      && Active(CurrentPhase(o.value)) && CurrentPhase(o.value).pending == CurrentPhase(s).pending
      && StepsLeft(CurrentPhase(o.value)) == StepsLeft(CurrentPhase(s)) - 1
  {
    var a := TowardsSuccess(Current(s), CurrentPhase(s));
    if CurrentPhase(s).Fulfilling? {
      FulfillChange(s.promises, s.past, CurrentPhase(s).pending, CurrentPhase(s).next);
    }
    SuccessPhase(s, Current(s));
    CurrentKeepsInv(s, a);
    CurrentKeepsChained(s, a);
  }

  /** Lets the active run succeed and fulfil all the promises it took. */
  lemma {:induction false} RunToSuccess(s: State) returns (acts: seq<Action>, s': State)
    requires Inv(s) && Active(CurrentPhase(s)) && 0 < CurrentPhase(s).pending == |s.promises|
    ensures Runs.Exec(Step, s, acts) == Some(s')
    ensures s.promises[|s.promises| - 1] in s'.past.fulfilledBy
    ensures s'.past.fulfilledBy[s.promises[|s.promises| - 1]] <= s.past.starts
    decreases StepsLeft(CurrentPhase(s))
  {
    if StepsLeft(CurrentPhase(s)) == 0 {
      acts, s' := [], s;
      var q := s.promises[|s.promises| - 1];
      assert q in s.past.fulfilledBy;
      assert FirstSuccess(s.past, s.past.born[q], s.past.fulfilledBy[q]);
    } else {
      SuccessStep(s);
      var a := TowardsSuccess(Current(s), CurrentPhase(s));
      var rest;
      rest, s' := RunToSuccess(Step(s, a).value);
      acts := [a] + rest;
      assert acts[1..] == rest;
    }
  }

  /** trigger_success, start, trigger on a new job. */
  function TakenState(): State {
    State(true, false, true, [Settled(Value(())), Calling(1), Waiting], [0], false, History([0], 1, {}, map[]))
  }

  lemma ReachesTakenState()
    ensures Runs.Exec(Step, INIT, [Trigger(true), Start(1), Trigger(false)]) == Some(TakenState())
  {
    var ready := Settled(Value(()));
    var s1 := State(true, false, false, [ready, Posted], [0], false, History([0], 0, {}, map[]));
    var s2 := State(false, false, true, [ready, Calling(1)], [0], false, History([0], 1, {}, map[]));
    assert Step(INIT, Trigger(true)) == Some(s1) by {
      assert INIT.slots + [Posted] == s1.slots && INIT.promises + [0] == [0] && INIT.past.born + [0] == [0];
    }
    assert Step(s1, Start(1)) == Some(s2) by { assert s1.slots[1 := Calling(1)] == s2.slots; }
    assert Step(s2, Trigger(false)) == Some(TakenState()) by { assert s2.slots + [Waiting] == TakenState().slots; }
    Runs.ExecTwo(Step, INIT, Trigger(true), Start(1), s1, s2);
    Runs.ExecSnoc(Step, INIT, [Trigger(true), Start(1)], Trigger(false), s2);
    assert [Trigger(true), Start(1)] + [Trigger(false)] == [Trigger(true), Start(1), Trigger(false)];
  }

  /** A trigger_success after them returns the future of the promise that the active run has taken, and that run,
      started before the call, makes it ready. */
  lemma TakenPromiseIsReturned() returns (more: seq<Action>, s': State)
    ensures Runs.Exec(Step, INIT, [Trigger(true), Start(1), Trigger(false)]) == Some(TakenState())
    ensures Back(TriggerImpl(TakenState(), true)) == Some(0)
    ensures Runs.Exec(Step, TriggerImpl(TakenState(), true), more) == Some(s')
    ensures 0 in s'.past.fulfilledBy && s'.past.fulfilledBy[0] <= TakenState().past.starts
  {
    ReachesTakenState();
    more, s' := TakenPromiseMayComeEarly([Trigger(true), Start(1), Trigger(false)], TakenState());
  }

  /** A plain trigger followed by trigger_success on a new job reads an empty vector. */
  lemma TriggerSuccessOnEmptyVector()
    ensures Misuse(TriggerImpl(INIT, false), Trigger(true))
    ensures Back(TriggerImpl(TriggerImpl(INIT, false), true)) == None
  {
  }

  lemma TakenExist(s: State, k: nat)
    requires Inv(s) && k < |s.slots| && s.slots[k].Fulfilling?
    ensures s.slots[k].pending <= |s.promises|
  {
    WhoSteps(s, if s.slots[k].next < s.slots[k].pending then FulfillNext(k) else Erase(k));
  }

  // ----- the class -----

  /** The fields of job, with the futures it has returned. Each method is one critical section, or the
      continuation of the callback's future when nothing reenters it. */
  class JobScheduler {
    var scheduled: bool
    var stopping: bool
    var running: bool
    var slots: seq<Phase>
    var promises: seq<nat>
    var past: History

    function View(): State
      reads this
    {
      State(scheduled, stopping, running, slots, promises, false, past)
    }

    constructor ()
      ensures View() == INIT
    {
      scheduled, stopping, running := false, false, false;
      slots, promises, past := [Settled(Value(()))], [], History([], 0, {}, map[]);
    }

    /** triggerImpl, before or after the destructor has moved _future out if a run is scheduled. */
    method TriggerRun(setPromise: bool)
      requires Inv(View()) && (stopping ==> scheduled)
      modifies this
      ensures View() == TriggerImpl(old(View()), setPromise) && Inv(View())
    {
      TriggerKeepsInv(View(), setPromise);
      if !scheduled {
        scheduled := true;
        if setPromise {
          promises := promises + [|past.born|];
          past := past.(born := past.born + [past.starts]);
        }
        slots := slots + [if slots[|slots| - 1].Settled? then Posted else Waiting];
      }
    }

    /** trigger() returns the future of the last slot, or a null one once the destructor has moved it out. */
    method TriggerLocked() returns (future: Option<nat>)
      requires Inv(View()) && !Misuse(View(), Trigger(false))
      modifies this
      ensures Step(old(View()), Trigger(false)) == Some(View()) && Inv(View())
      ensures future == if stopping then None else Some(|slots| - 1)
    {
      TriggerRun(false);
      future := if stopping then None else Some(|slots| - 1);
    }

    /** trigger_success() returns the future of the last promise. */
    method TriggerSuccessLocked() returns (promise: nat)
      requires Inv(View()) && !Misuse(View(), Trigger(true))
      modifies this
      ensures Step(old(View()), Trigger(true)) == Some(View()) && Inv(View())
      ensures Back(View()) == Some(promise)
    {
      TriggerRun(true);
      promise := promises[|promises| - 1];
    }

    /** The start of the task posted by reschedule: false when it throws operation_canceled. */
    method BeginRun(k: nat) returns (begun: bool)
      requires Inv(View()) && k < |slots| && slots[k] == Posted
      modifies this
      ensures Step(old(View()), Start(k)) == Some(View()) && Inv(View())
      ensures begun == !stopping
      ensures begun ==> running && slots[k] == Calling(|promises|) && past.starts == old(past).starts + 1
      ensures !begun ==> slots[k] == Ending(CANCELED) && running == old(running) && past == old(past)
      ensures promises == old(promises) && !scheduled
    {
      StepKeepsInv(View(), Start(k));
      scheduled := false;
      begun := !stopping;
      if stopping {
        slots := slots[k := Ending(CANCELED)];
      } else {
        running := true;
        slots := slots[k := Calling(|promises|)];
        past := past.(starts := past.starts + 1);
      }
    }

    /** The start of the continuation of the callback's future. */
    method EndCallback(k: nat, o: Result)
      requires Inv(View()) && k < |slots| && slots[k].Awaiting?
      modifies this
      ensures Step(old(View()), CallbackSettles(k, o)) == Some(View()) && Inv(View())
    {
      StepKeepsInv(View(), CallbackSettles(k, o));
      running := false;
      if o.Exception? {
        slots := slots[k := Ending(o)];
      } else {
        past := past.(successes := past.successes + {past.starts});
        slots := slots[k := Fulfilling(slots[k].pending, 0)];
      }
    }

    method FulfillOne(k: nat)
      requires LoopReady(View(), k) && slots[k].next < slots[k].pending
      modifies this`slots, this`past
      ensures Step(old(View()), FulfillNext(k)) == Some(View()) && LoopReady(View(), k)
      ensures slots == old(slots)[k := old(slots[k]).(next := old(slots[k].next) + 1)]
      ensures past.fulfilledBy.Keys == old(past).fulfilledBy.Keys + {promises[old(slots[k].next)]}
    {
      var i := slots[k].next;
      past := past.(fulfilledBy := past.fulfilledBy[promises[i] := past.starts]);
      slots := slots[k := slots[k].(next := i + 1)];
    }

    /** The loop over the promises taken at the start of the run, when nothing reenters it. */
    method FulfillTaken(k: nat)
      requires LoopReady(View(), k) && slots[k].next == 0
      modifies this`slots, this`past
      ensures Runs.Exec(Step, old(View()), FulfillSteps(old(slots[k].pending), k)) == Some(View())
      ensures LoopReady(View(), k) && slots[k] == Fulfilling(old(slots[k].pending), old(slots[k].pending))
      ensures past.fulfilledBy.Keys == old(past).fulfilledBy.Keys + Promises(promises[..slots[k].pending])
    {
      ghost var s0 := View();
      var pending := slots[k].pending;
      var i := 0;
      while i < pending
        invariant i <= pending && LoopReady(View(), k) && slots[k] == Fulfilling(pending, i)
        invariant Runs.Exec(Step, s0, FulfillSteps(i, k)) == Some(View())
        invariant past.fulfilledBy.Keys == old(past).fulfilledBy.Keys + Promises(promises[..i])
      {
        ghost var m := View();
        FulfillOne(k);
        FulfillOneMore(s0, i, k, m, View());
        PromisesOneMore(promises, i);
        i := i + 1;
      }
    }

    /** The loop and the erase after it are these steps: the promises taken at the start of the run are
        fulfilled, and these and no others leave the vector. */
    method FulfillAndErase(k: nat)
      requires LoopReady(View(), k) && slots[k].next == 0
      modifies this`slots, this`promises, this`past
      ensures Runs.Exec(Step, old(View()), FulfillSteps(old(slots[k].pending), k) + [Erase(k)]) == Some(View())
      ensures promises == old(promises)[old(slots[k].pending)..]
      ensures past.fulfilledBy.Keys == old(past).fulfilledBy.Keys + Promises(old(promises)[..old(slots[k].pending)])
    {
      ghost var s0 := View();
      var pending := slots[k].pending;
      FulfillTaken(k);
      Runs.ExecSnoc(Step, s0, FulfillSteps(pending, k), Erase(k), View());
      promises := promises[pending..];
      slots := slots[k := Ending(Value(()))];
    }
  }

  function FulfillSteps(n: nat, k: nat): seq<Action> {
    seq(n, _ => FulfillNext(k))
  }

  function Promises(ps: seq<nat>): set<nat> {
    set q | q in ps
  }

  lemma PromisesOneMore(ps: seq<nat>, i: nat)
    requires i < |ps|
    ensures Promises(ps[..i + 1]) == Promises(ps[..i]) + {ps[i]}
  {
    assert ps[..i + 1] == ps[..i] + [ps[i]];
  }

  lemma FulfillOneMore(s: State, n: nat, k: nat, m: State, m': State)
    requires Runs.Exec(Step, s, FulfillSteps(n, k)) == Some(m) && Step(m, FulfillNext(k)) == Some(m')
    ensures Runs.Exec(Step, s, FulfillSteps(n + 1, k)) == Some(m')
  {
    Runs.ExecSnoc(Step, s, FulfillSteps(n, k), FulfillNext(k), m);
    assert FulfillSteps(n + 1, k) == FulfillSteps(n, k) + [FulfillNext(k)];
  }

  /** The promises the loop has still to fulfil are there, unfulfilled and distinct. */
  ghost predicate LoopReady(s: State, k: nat) {
    && k < |s.slots| && s.slots[k].Fulfilling? && s.slots[k].next <= s.slots[k].pending <= |s.promises|
    && (forall j :: s.slots[k].next <= j < s.slots[k].pending ==> s.promises[j] !in s.past.fulfilledBy)
    && (forall i, j :: 0 <= i < j < s.slots[k].pending ==> s.promises[i] != s.promises[j])
  }

  lemma ReachableIsLoopReady(acts: seq<Action>, s: State, k: nat)
    requires Runs.Exec(Step, INIT, acts) == Some(s) && k < |s.slots| && s.slots[k].Fulfilling?
    ensures LoopReady(s, k)
  {
    RunKeepsInv(INIT, acts);
    TakenExist(s, k);
    WhoSteps(s, if s.slots[k].next < s.slots[k].pending then FulfillNext(k) else Erase(k));
  }
}
