/** A queue whose pop returns a future. Every operation is one critical section; elements are ints. */
module ConcurrentQueue {
  import opened Outcomes
  import Runs

  /** waiters and queue are _waiters and _queue, a waiter being the number of the pop that created it.
      pushed and popped record all pushed values, and the future of every pop. failed tells that an assertion
      failed or a promise was set twice. */
  datatype State = State(
    waiters: seq<nat>,
    queue: seq<int>,
    pushed: seq<int>,
    popped: seq<Option<int>>,
    failed: bool)

  datatype Action = Push(val: int) | Pop

  const INIT := State([], [], [], [], false)

  function Fulfill(s: State, waiter: nat, val: int): State {
    if waiter >= |s.popped| || s.popped[waiter].Some? then s.(failed := true)
    else s.(popped := s.popped[waiter := Some(val)])
  }

  function Step(s: State, a: Action): Option<State> {
    match a
    case Push(val) =>
      var s1 := s.(pushed := s.pushed + [val]);
      if s.waiters != [] then
        Some(Fulfill(s1, s.waiters[0], val).(waiters := s.waiters[1..], failed := s.failed || s.queue != []
                                             || Fulfill(s1, s.waiters[0], val).failed))
      else Some(s1.(queue := s.queue + [val]))
    case Pop =>
      if s.queue != [] then
        Some(s.(queue := s.queue[1..], popped := s.popped + [Some(s.queue[0])], failed := s.failed || s.waiters != []))
      else Some(s.(waiters := s.waiters + [|s.popped|], popped := s.popped + [None]))
  }

  /** The i-th future holds the i-th pushed value, if there is one. */
  ghost predicate Served(s: State) {
    forall i :: 0 <= i < |s.popped| ==> s.popped[i] == if i < |s.pushed| then Some(s.pushed[i]) else None
  }

  ghost predicate Inv(s: State) {
    && !s.failed && Served(s)
    && s.queue == (if |s.popped| <= |s.pushed| then s.pushed[|s.popped|..] else [])
    && |s.waiters| == (if |s.pushed| <= |s.popped| then |s.popped| - |s.pushed| else 0)
    && forall j :: 0 <= j < |s.waiters| ==> s.waiters[j] == |s.pushed| + j
  }

  lemma StepKeepsInv(s: State, a: Action)
    requires Inv(s)
    ensures Step(s, a).Some? && Inv(Step(s, a).value)
  {
    var s' := Step(s, a).value;
    match a
    case Push(val) =>
      if s.waiters == [] {
        assert s'.pushed[|s.popped|..] == s.pushed[|s.popped|..] + [val];
      }
    case Pop =>
  }

  /** Over any run: the i-th pop has a value exactly when i values were pushed, and it is the i-th one;
      waiters and values are never there together; size() is the number of pushes less the number of pops. */
  lemma PopsGetPushesInOrder(acts: seq<Action>, s: State)
    requires Runs.Exec(Step, INIT, acts) == Some(s)
    ensures !s.failed
    ensures forall i :: 0 <= i < |s.popped| ==> s.popped[i] == if i < |s.pushed| then Some(s.pushed[i]) else None
    ensures s.waiters == [] || s.queue == []
    ensures |s.queue| == if |s.pushed| > |s.popped| then |s.pushed| - |s.popped| else 0
  {
    forall u, a | Inv(u) && Step(u, a).Some? ensures Inv(Step(u, a).value) { StepKeepsInv(u, a); }
    Runs.Invariance(Step, Inv, INIT, acts);
  }

  class Queue {
    var waiters: seq<nat>
    var queue: seq<int>
    var popped: seq<Option<int>>
    ghost var pushed: seq<int>

    ghost function View(): State
      reads this
    {
      State(waiters, queue, pushed, popped, false)
    }

    constructor ()
      ensures View() == INIT
    {
      waiters, queue, pushed, popped := [], [], [], [];
    }

    method PushValue(val: int)
      requires Inv(View())
      modifies this
      ensures Step(old(View()), Push(val)) == Some(View()) && Inv(View())
    {
      StepKeepsInv(View(), Push(val));
      pushed := pushed + [val];
      if waiters != [] {
        popped := popped[waiters[0] := Some(val)];
        waiters := waiters[1..];
      } else {
        queue := queue + [val];
      }
    }

    /** Returns the number of its future among the pops. */
    method PopFuture() returns (future: nat)
      requires Inv(View())
      modifies this
      ensures Step(old(View()), Pop) == Some(View()) && Inv(View())
      ensures future == |old(popped)|
    {
      StepKeepsInv(View(), Pop);
      future := |popped|;
      if queue != [] {
        popped := popped + [Some(queue[0])];
        queue := queue[1..];
      } else {
        waiters := waiters + [future];
        popped := popped + [None];
      }
    }

    method Size() returns (n: nat)
      requires Inv(View())
      ensures n == if |pushed| > |popped| then |pushed| - |popped| else 0
    {
      n := |queue|;
    }
  }
}
