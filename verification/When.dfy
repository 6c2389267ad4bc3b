/** when_all and when_any over n inputs, n > 0 (an empty range gives a ready future).

    Inputs settle in any order, before or after the constructor registers a continuation on them, and a
    cancelation may settle them while it is being passed on; the continuation of an input on the
    synchronous executor is one or several of the steps below, run by whoever settles or registers.
    An input's outcome is an int. */
module WhenAll {
  import opened Outcomes
  import Runs

  /** Where when_all_callback stands for one input: not called, between the store and the count, or done. */
  datatype Phase = Waiting | Stored | Counted

  /** next is the constructor's loop index, and cancelAt that of the loop in request_cancel. failed tells that an
      assertion failed or the promise was set twice. */
  datatype State = State(
    settled: seq<Option<int>>,
    requested: seq<bool>,
    phases: seq<Phase>,
    finished: seq<Option<int>>,
    count: nat,
    result: Option<seq<Option<int>>>,
    next: nat,
    cancelAt: nat,
    failed: bool)

  datatype Action =
    | Settle(i: nat, o: int)
    | Register
    | Store(i: nat)
    | Count(i: nat)
    | StartCancel
    | CancelOne

  function Init(n: nat): State {
    State(seq(n, _ => None), seq(n, _ => false), seq(n, _ => Waiting), seq(n, _ => None), 0, None, 0, n, false)
  }

  /** All the sequences have one element for each input. */
  predicate Sized(s: State) {
    |s.settled| == |s.requested| == |s.phases| == |s.finished|
  }

  function Step(s: State, a: Action): Option<State> {
    var n := |s.phases|;
    if !Sized(s) then None
    else
      match a
      case Settle(i, o) =>
        if i < n && s.settled[i].None? then Some(s.(settled := s.settled[i := Some(o)])) else None
      case Register => if s.next < n then Some(s.(next := s.next + 1)) else None
      case Store(i) =>
        if i < s.next <= n && s.settled[i].Some? && s.phases[i] == Waiting then
          Some(s.(failed := s.failed || s.count >= n, finished := s.finished[i := s.settled[i]],
                  phases := s.phases[i := Stored]))
        else None
      case Count(i) =>
        if i < n && s.phases[i] == Stored then
          var s1 := s.(count := s.count + 1, phases := s.phases[i := Counted]);
          Some(if s1.count == n then s1.(failed := s.failed || s.result.Some?, result := Some(s.finished)) else s1)
        else None
      case StartCancel => Some(s.(cancelAt := 0))
      case CancelOne =>
        if s.cancelAt < n then
          Some(s.(cancelAt := s.cancelAt + 1,
                  requested := if s.settled[s.cancelAt].None? then s.requested[s.cancelAt := true] else s.requested))
        else None
  }

  // ----- the invariant -----

  function Counts(phases: seq<Phase>): (c: nat)
    ensures c <= |phases|
  {
    if phases == [] then 0 else (if phases[0] == Counted then 1 else 0) + Counts(phases[1..])
  }

  lemma {:induction false} CountsUpdate(phases: seq<Phase>, i: nat, p: Phase)
    requires i < |phases|
    ensures Counts(phases[i := p]) ==
      Counts(phases) - (if phases[i] == Counted then 1 else 0) + (if p == Counted then 1 else 0)
  {
    if i == 0 {
      assert phases[i := p][1..] == phases[1..];
    } else {
      assert phases[i := p][1..] == phases[1..][i - 1 := p];
      CountsUpdate(phases[1..], i - 1, p);
    }
  }

  lemma {:induction false} CountsAll(phases: seq<Phase>)
    ensures Counts(phases) == |phases| <==> forall i :: 0 <= i < |phases| ==> phases[i] == Counted
  {
    if phases != [] {
      CountsAll(phases[1..]);
      assert forall i :: 0 < i < |phases| ==> phases[i] == phases[1..][i - 1];
      assert forall i :: 0 <= i < |phases| - 1 ==> phases[1..][i] == phases[i + 1];
    }
  }

  ghost predicate Inv(s: State) {
    && !s.failed && Sized(s) && s.phases != []
    && s.count == Counts(s.phases)
    && (forall i :: 0 <= i < |s.phases| && s.phases[i] != Waiting ==>
          s.settled[i].Some? && s.finished[i] == s.settled[i])
    && (s.result.Some? <==> s.count == |s.phases|)
    && (s.result.Some? ==> s.result.value == s.settled)
  }

  /** When the last completion is counted, every slot holds its input's outcome. */
  lemma LastCountFindsAll(s: State, i: nat)
    requires Inv(s) && i < |s.phases| && s.phases[i] == Stored && s.count + 1 == |s.phases|
    ensures s.finished == s.settled
  {
    CountsUpdate(s.phases, i, Counted);
    CountsAll(s.phases[i := Counted]);
    forall j | 0 <= j < |s.phases| ensures s.finished[j] == s.settled[j] {
      assert s.phases[i := Counted][j] == Counted;
    }
  }

  lemma CountKeepsInv(s: State, i: nat)
    requires Inv(s) && Step(s, Count(i)).Some?
    ensures Inv(Step(s, Count(i)).value)
  {
    CountsUpdate(s.phases, i, Counted);
    CountsAll(s.phases);
    if s.count + 1 == |s.phases| {
      LastCountFindsAll(s, i);
    }
  }

  lemma StoreKeepsInv(s: State, i: nat)
    requires Inv(s) && Step(s, Store(i)).Some?
    ensures Inv(Step(s, Store(i)).value)
  {
    CountsUpdate(s.phases, i, Stored);
    CountsAll(s.phases);
  }

  lemma StepKeepsInv(s: State, a: Action)
    requires Inv(s) && Step(s, a).Some?
    ensures Inv(Step(s, a).value)
  {
    match a
    case Store(i) => StoreKeepsInv(s, i);
    case Count(i) => CountKeepsInv(s, i);
    case Settle(i, _) => CountsAll(s.phases);
    case _ =>
  }

  lemma {:induction false} NothingCounted(n: nat)
    ensures Counts(seq(n, _ => Waiting)) == 0
  {
    if n > 0 {
      assert seq(n, _ => Waiting)[1..] == seq(n - 1, _ => Waiting);
      NothingCounted(n - 1);
    }
  }

  lemma ReachableInv(n: nat, acts: seq<Action>, s: State)
    requires n > 0 && Runs.Exec(Step, Init(n), acts) == Some(s)
    ensures Inv(s) && |s.phases| == n
  {
    NothingCounted(n);
    var inv := (u: State) => Inv(u) && |u.phases| == n;
    forall u, a | inv(u) && Step(u, a).Some? ensures inv(Step(u, a).value) { StepKeepsInv(u, a); }
    Runs.Invariance(Step, inv, Init(n), acts);
  }

  // ----- what every interleaving guarantees -----

  /** The assertion count < total holds at every entry, the promise is never set twice, and it is set exactly
      when all n completions have been counted, with every input settled and in its own slot. */
  lemma SetByTheLast(n: nat, acts: seq<Action>, s: State)
    requires n > 0 && Runs.Exec(Step, Init(n), acts) == Some(s)
    ensures !s.failed && |s.phases| == |s.settled| == n
    ensures s.result.Some? <==> forall i :: 0 <= i < n ==> s.phases[i] == Counted
    ensures s.result.Some? ==> s.result.value == s.settled
    ensures s.result.Some? ==> forall i :: 0 <= i < n ==> s.settled[i].Some?
    ensures forall i :: Step(s, Store(i)).Some? ==> s.count < n
  {
    ReachableInv(n, acts, s);
    CountsAll(s.phases);
  }

  /** Once every input is registered and settled and no completion is in progress, the promise is set. */
  lemma EndsWithAResult(n: nat, acts: seq<Action>, s: State)
    requires n > 0 && Runs.Exec(Step, Init(n), acts) == Some(s)
    requires s.next == n && forall i :: 0 <= i < |s.settled| ==> s.settled[i].Some?
    requires forall i :: Step(s, Store(i)).None? && Step(s, Count(i)).None?
    ensures s.result == Some(s.settled)
  {
    ReachableInv(n, acts, s);
    CountsAll(s.phases);
    forall i | 0 <= i < n ensures s.phases[i] == Counted {
      assert Step(s, Store(i)).None? && Step(s, Count(i)).None?;
    }
  }

  function CancelOnes(acts: seq<Action>): nat {
    if acts == [] then 0 else (if acts[0] == CancelOne then 1 else 0) + CancelOnes(acts[1..])
  }

  /** The loop has asked or found settled the inputs before its index, and asked none that was settled at s0. */
  ghost predicate Asking(s0: State, s: State) {
    && Sized(s0) && Sized(s) && |s.phases| == |s0.phases| && s.cancelAt <= |s.phases|
    && (forall i :: 0 <= i < s.cancelAt ==> s.requested[i] || s.settled[i].Some?)
    && (forall i :: 0 <= i < |s.phases| && s0.settled[i].Some? ==>
          s.requested[i] == s0.requested[i] && s.settled[i].Some?)
  }

  lemma StepKeepsAsking(s0: State, s: State, a: Action)
    requires Asking(s0, s) && Step(s, a).Some?
    ensures Asking(s0, Step(s, a).value)
    ensures a != StartCancel ==> Step(s, a).value.cancelAt == s.cancelAt + if a == CancelOne then 1 else 0
  {
  }

  lemma {:induction false} RunAsks(s0: State, s: State, acts: seq<Action>, s': State)
    requires Asking(s0, s) && StartCancel !in acts && Runs.Exec(Step, s, acts) == Some(s')
    ensures Asking(s0, s') && s'.cancelAt == s.cancelAt + CancelOnes(acts)
    decreases |acts|
  {
    if acts != [] {
      StepKeepsAsking(s0, s, acts[0]);
      RunAsks(s0, Step(s, acts[0]).value, acts[1..], s');
    }
  }

  /** A cancelation of the result goes on until it has come to every input, and reaches every one that is not settled,
      whatever settles meanwhile; it asks none that was settled before. */
  lemma CancelReachesAll(n: nat, acts: seq<Action>, s: State, more: seq<Action>, s': State, i: nat)
    requires n > 0 && Runs.Exec(Step, Init(n), acts) == Some(s) && Step(s, StartCancel).Some? && i < n
    requires StartCancel !in more && Runs.Exec(Step, Step(s, StartCancel).value, more) == Some(s')
    ensures |s'.requested| == |s'.settled| == |s.settled| == |s.requested| == n
    ensures Step(s', CancelOne).Some? <==> CancelOnes(more) < n
    ensures CancelOnes(more) > i ==> s'.requested[i] || s'.settled[i].Some?
    ensures s.settled[i].Some? ==> s'.requested[i] == s.requested[i]
  {
    ReachableInv(n, acts, s);
    RunAsks(s, Step(s, StartCancel).value, more, s');
  }

  /** A whole call of when_all_callback, as Callback.Call makes it, is a run. */
  lemma CallIsRun(s: State, i: nat)
    requires Inv(s) && i < s.next <= |s.phases| && s.settled[i].Some? && s.phases[i] == Waiting
    ensures s.count < |s.phases| && s.result.None?
    ensures Runs.Exec(Step, s, [Store(i), Count(i)]).Some?
    ensures var s' := Runs.Exec(Step, s, [Store(i), Count(i)]).value;
      && s'.finished == s.finished[i := s.settled[i]] && s'.count == s.count + 1
      && s'.result == if s'.count == |s.phases| then Some(s'.finished) else None
  {
    StoreKeepsInv(s, i);
    CountsAll(s.phases);
    var s1 := Step(s, Store(i)).value;
    Runs.ExecTwo(Step, s, Store(i), Count(i), s1, Step(s1, Count(i)).value);
  }

  // ----- the class -----

  /** The fields of when_all_callback. */
  class Callback {
    const total: nat
    var finished: seq<Option<int>>
    var count: nat
    var result: Option<seq<Option<int>>>

    constructor (n: nat)
      ensures total == n && count == 0 && result == None
      ensures finished == seq(n, _ => None)
    {
      total, count, result := n, 0, None;
      finished := seq(n, _ => None);
    }

    /** operator(), as one store and one count. */
    method Call(index: nat, o: int)
      requires |finished| == total && index < total && count < total && result.None?
      modifies this`count, this`result, this`finished
      ensures finished == old(finished)[index := Some(o)] && count == old(count) + 1
      ensures result == if count == total then Some(finished) else None
    {
      finished := finished[index := Some(o)];
      count := count + 1;
      if count == total {
        result := Some(finished);
      }
    }

    /** All inputs complete on one thread, in any order: the result has every outcome in its place, and it is
        there after the last completion and not before. */
    method CompleteAll(order: seq<nat>, outcomes: seq<int>)
      requires |finished| == total == |outcomes| && total > 0 && count == 0 && result.None?
      requires |order| == total && (forall k :: 0 <= k < total ==> order[k] < total)
      requires forall i :: 0 <= i < total ==> i in order
      modifies this`count, this`result, this`finished
      ensures result.Some? && |result.value| == total
      ensures forall i :: 0 <= i < total ==> result.value[i] == Some(outcomes[i])
    {
      var k := 0;
      while k < |order|
        invariant k <= |order| && count == k && |finished| == total
        invariant forall i :: 0 <= i < total && i in order[..k] ==> finished[i] == Some(outcomes[i])
        invariant result == if k == total then Some(finished) else None
      {
        var index := order[k];
        Call(index, outcomes[index]);
        assert order[..k + 1] == order[..k] + [index];
        k := k + 1;
      }
      assert order[..k] == order;
    }
  }
}

module WhenAny {
  import opened Outcomes
  import Runs

  /** The thread that runs the constructor, and all the others. */
  datatype Thread = Constructing | Other(id: nat)

  /** Where when_any_callback stands for one input: not called, past the exchange as the winner and in the loop
      that cancels the others, or done. */
  datatype Phase = Waiting | Canceling(at: nat) | Done

  /** The answer is the reported index and the inputs handed back, by their position in the input range. */
  datatype Answer = Answer(index: nat, futures: seq<nat>)

  /** runner tells which thread runs the continuation of an input: the one that settles the input after it is
      registered, and the constructing one for an input that it finds settled. futures is the vector that the
      winner moves out. next is the constructor's loop index, and checked tells that the constructor has
      compared it with the size and is about to index the vector. failed tells that it indexed past the end, or
      that the promise was set twice. */
  datatype State = State(
    autoCancel: bool,
    settled: seq<bool>,
    requested: seq<bool>,
    runner: seq<Option<Thread>>,
    phases: seq<Phase>,
    futures: seq<nat>,
    triggered: bool,
    answer: Option<Answer>,
    next: nat,
    checked: bool,
    failed: bool)

  datatype Action =
    | Settle(i: nat, on: Thread)
    | Check
    | Register
    | Exchange(i: nat)
    | CancelOther(i: nat)
    | Publish(i: nat)

  function Positions(n: nat): (r: seq<nat>)
    ensures |r| == n
  {
    seq(n, i => i)
  }

  function Init(n: nat, autoCancel: bool): State {
    State(autoCancel, seq(n, _ => false), seq(n, _ => false), seq(n, _ => None), seq(n, _ => Waiting), Positions(n),
          false, None, 0, false, false)
  }

  predicate Sized(s: State) {
    |s.settled| == |s.requested| == |s.runner| == |s.phases|
  }

  /** The constructing thread does nothing else between the check of its index and its use. */
  predicate Free(s: State, t: Thread) {
    t == Constructing ==> !s.checked
  }

  /** A continuation can take a step on its thread. */
  predicate Continues(s: State, i: nat) {
    i < |s.runner| && s.runner[i].Some? && Free(s, s.runner[i].value)
  }

  /** The continuations that the constructing thread runs have returned: it runs them inside then. */
  predicate Returned(s: State) {
    forall i :: 0 <= i < |s.runner| && i < |s.phases| && s.runner[i] == Some(Constructing) ==> s.phases[i] == Done
  }

  /** The winner has canceled all it had to. */
  predicate AllCanceled(s: State, i: nat)
    requires i < |s.phases|
  {
    s.phases[i].Canceling? && (s.autoCancel ==> s.phases[i].at >= |s.futures|)
  }

  function Step(s: State, a: Action): Option<State> {
    var n := |s.phases|;
    if !Sized(s) then None
    else
      match a
      case Settle(i, on) =>
        if i < n && !s.settled[i] && Free(s, on) then
          Some(s.(settled := s.settled[i := true], runner := if i < s.next then s.runner[i := Some(on)] else s.runner))
        else None
      case Check => if !s.checked && s.next < |s.futures| && Returned(s) then Some(s.(checked := true)) else None
      case Register =>
        if !s.checked then None
        else if s.next >= |s.futures| then Some(s.(failed := true, checked := false))
        else
          var i := s.next;
          Some(s.(next := i + 1, checked := false,
                  runner := if i < n && s.settled[i] then s.runner[i := Some(Constructing)] else s.runner))
      case Exchange(i) =>
        if i < n && Continues(s, i) && s.phases[i] == Waiting then
          Some(s.(triggered := true, phases := s.phases[i := if s.triggered then Done else Canceling(0)]))
        else None
      case CancelOther(i) =>
        if i < n && Continues(s, i) && s.phases[i].Canceling? && s.autoCancel && s.phases[i].at < |s.futures| then
          var j := s.phases[i].at;
          Some(s.(phases := s.phases[i := Canceling(j + 1)],
                  requested := if j < n && j != i && !s.settled[j] then s.requested[j := true] else s.requested))
        else None
      case Publish(i) =>
        if i < n && Continues(s, i) && AllCanceled(s, i) then
          Some(s.(answer := Some(Answer(i, s.futures)), futures := [], phases := s.phases[i := Done],
                  failed := s.failed || s.answer.Some?))
        else None
  }

  // ----- the invariant -----

  /** The others the winner has got to are settled or have been asked to cancel. */
  ghost predicate Asked(s: State, i: nat, upTo: nat)
    requires Sized(s)
  {
    forall j :: 0 <= j < upTo && j < |s.phases| && j != i ==> s.requested[j] || s.settled[j]
  }

  /** One winner at most. */
  ghost predicate Exclusive(s: State)
    requires Sized(s)
  {
    && (forall i, j :: 0 <= i < j < |s.phases| ==> !(s.phases[i].Canceling? && s.phases[j].Canceling?))
    && (forall i :: 0 <= i < |s.phases| && s.phases[i] != Waiting ==> s.settled[i] && s.triggered)
    && (forall i :: 0 <= i < |s.phases| && s.phases[i].Canceling? ==> s.answer.None? && Asked(s, i, s.phases[i].at))
  }

  /** And one once triggered, until there is an answer. */
  ghost predicate Attended(s: State) {
    s.triggered && s.answer.None? ==> exists i :: 0 <= i < |s.phases| && s.phases[i].Canceling?
  }

  /** A registered input has a thread to run its continuation exactly when it is settled. */
  predicate AssignedAt(s: State, i: nat)
    requires Sized(s) && i < |s.phases|
  {
    && (s.runner[i].Some? <==> i < s.next && s.settled[i])
    && (s.phases[i] != Waiting ==> s.runner[i].Some?)
  }

  ghost predicate Assigned(s: State)
    requires Sized(s)
  {
    (forall i :: 0 <= i < |s.phases| ==> AssignedAt(s, i)) && (s.checked ==> Returned(s))
  }

  ghost predicate Inv(s: State) {
    && Sized(s) && s.next <= |s.phases|
    && s.futures == (if s.answer.Some? then [] else Positions(|s.phases|))
    && (s.answer.Some? ==> s.triggered)
    && Exclusive(s) && Attended(s) && Assigned(s)
  }

  lemma StepKeepsFrame(s: State, a: Action)
    requires Step(s, a).Some?
    ensures Sized(Step(s, a).value)
    ensures |Step(s, a).value.phases| == |s.phases| && Step(s, a).value.autoCancel == s.autoCancel
    ensures s.next <= Step(s, a).value.next
  {
  }

  lemma ExchangeKeepsExclusive(s: State, i: nat)
    requires Inv(s) && Step(s, Exchange(i)).Some?
    ensures Exclusive(Step(s, Exchange(i)).value)
  {
    var s' := Step(s, Exchange(i)).value;
    assert AssignedAt(s, i);
    forall j | 0 <= j < |s.phases| && j != i ensures s'.phases[j] == s.phases[j] {}
    if !s.triggered {
      forall j | 0 <= j < |s.phases| ensures !s.phases[j].Canceling? {}
    }
  }

  lemma CancelKeepsExclusive(s: State, i: nat)
    requires Inv(s) && Step(s, CancelOther(i)).Some?
    ensures Exclusive(Step(s, CancelOther(i)).value)
  {
    var s' := Step(s, CancelOther(i)).value;
    forall j | 0 <= j < |s.phases| && j != i ensures s'.phases[j] == s.phases[j] && !s.phases[j].Canceling? {}
    assert Asked(s, i, s.phases[i].at);
  }

  lemma PublishKeepsExclusive(s: State, i: nat)
    requires Inv(s) && Step(s, Publish(i)).Some?
    ensures Exclusive(Step(s, Publish(i)).value)
  {
    forall j | 0 <= j < |s.phases| && j != i ensures !s.phases[j].Canceling? {}
  }

  lemma SettleKeepsExclusive(s: State, i: nat, on: Thread)
    requires Inv(s) && Step(s, Settle(i, on)).Some?
    ensures Exclusive(Step(s, Settle(i, on)).value)
  {
    var s' := Step(s, Settle(i, on)).value;
    forall j | 0 <= j < |s.phases| && s.phases[j].Canceling? ensures Asked(s', j, s.phases[j].at) {
      assert Asked(s, j, s.phases[j].at);
    }
  }

  /** The constructor's loop leaves the continuations where they are. */
  lemma LoopKeepsExclusive(s: State, a: Action)
    requires Inv(s) && Step(s, a).Some? && (a.Check? || a.Register?)
    ensures Sized(Step(s, a).value) && Exclusive(Step(s, a).value)
  {
    var s' := Step(s, a).value;
    assert s'.phases == s.phases && s'.settled == s.settled && s'.requested == s.requested && s'.answer == s.answer;
    forall i | 0 <= i < |s.phases| && s.phases[i].Canceling? ensures Asked(s', i, s.phases[i].at) {
      assert Asked(s, i, s.phases[i].at);
    }
  }

  lemma StepKeepsExclusive(s: State, a: Action)
    requires Inv(s) && Step(s, a).Some?
    ensures Sized(Step(s, a).value) && Exclusive(Step(s, a).value)
  {
    StepKeepsFrame(s, a);
    if a.Check? || a.Register? {
      LoopKeepsExclusive(s, a);
    } else {
      match a
      case Exchange(i) => ExchangeKeepsExclusive(s, i);
      case CancelOther(i) => CancelKeepsExclusive(s, i);
      case Publish(i) => PublishKeepsExclusive(s, i);
      case Settle(i, on) => SettleKeepsExclusive(s, i, on);
    }
  }

  lemma StepKeepsAttended(s: State, a: Action)
    requires Inv(s) && Step(s, a).Some?
    ensures Attended(Step(s, a).value)
  {
    var s' := Step(s, a).value;
    if s.triggered && s.answer.None? {
      var i :| 0 <= i < |s.phases| && s.phases[i].Canceling?;
      assert s'.answer.Some? || s'.phases[i].Canceling?;
    } else if a.Exchange? {
      assert s'.answer.Some? || s'.phases[a.i].Canceling?;
    }
  }

  lemma StepAssigns(s: State, a: Action, i: nat)
    requires Inv(s) && Step(s, a).Some? && i < |s.phases|
    ensures Sized(Step(s, a).value) && |Step(s, a).value.phases| == |s.phases| && AssignedAt(Step(s, a).value, i)
  {
    assert AssignedAt(s, i);
  }

  /** Between the check and the use of the index no continuation starts on the constructing thread. */
  lemma StepKeepsReturned(s: State, a: Action)
    requires Inv(s) && Step(s, a).Some? && Step(s, a).value.checked
    ensures Returned(Step(s, a).value)
  {
    if !a.Check? {
      assert s.checked && Returned(s);
    }
  }

  lemma StepKeepsAssigned(s: State, a: Action)
    requires Inv(s) && Step(s, a).Some?
    ensures Sized(Step(s, a).value) && Assigned(Step(s, a).value)
  {
    StepKeepsFrame(s, a);
    var s' := Step(s, a).value;
    forall i | 0 <= i < |s.phases| ensures AssignedAt(s', i) { StepAssigns(s, a, i); }
    if s'.checked {
      StepKeepsReturned(s, a);
    }
  }

  lemma StepKeepsInv(s: State, a: Action)
    requires Inv(s) && Step(s, a).Some?
    ensures Inv(Step(s, a).value)
    ensures a.Publish? ==> s.answer.None?
  {
    StepKeepsFrame(s, a);
    StepKeepsExclusive(s, a);
    StepKeepsAttended(s, a);
    StepKeepsAssigned(s, a);
  }

  // ----- what every interleaving guarantees -----

  ghost predicate Reachable(n: nat, autoCancel: bool, acts: seq<Action>, s: State) {
    n > 0 && Runs.Exec(Step, Init(n, autoCancel), acts) == Some(s)
  }

  lemma ReachableInv(n: nat, autoCancel: bool, acts: seq<Action>, s: State)
    requires Reachable(n, autoCancel, acts, s)
    ensures Inv(s) && |s.phases| == n && s.autoCancel == autoCancel
  {
    var inv := (u: State) => Inv(u) && |u.phases| == n && u.autoCancel == autoCancel;
    forall u, a | inv(u) && Step(u, a).Some? ensures inv(Step(u, a).value) {
      StepKeepsInv(u, a);
      StepKeepsFrame(u, a);
    }
    Runs.Invariance(Step, inv, Init(n, autoCancel), acts);
  }

  /** The promise is set at most once: the step that sets it reports an input that is settled, hands back all
      the inputs in order, and with auto_cancel every other input has been asked to cancel or is settled. */
  lemma AnswersOnce(n: nat, autoCancel: bool, acts: seq<Action>, s: State, a: Action)
    requires Reachable(n, autoCancel, acts, s) && Step(s, a).Some?
    ensures s.answer.Some? ==> Step(s, a).value.answer == s.answer
    ensures s.answer.None? && Step(s, a).value.answer.Some? ==>
      var answer := Step(s, a).value.answer.value;
      && |s.settled| == |s.requested| == n && answer.index < n && s.settled[answer.index]
      && answer.futures == Positions(n)
      && (autoCancel ==> forall j :: 0 <= j < n && j != answer.index ==> s.requested[j] || s.settled[j])
  {
    ReachableInv(n, autoCancel, acts, s);
    StepKeepsInv(s, a);
  }

  /** Without auto_cancel no input is ever asked to cancel. */
  lemma NoneAskedWithoutAutoCancel(n: nat, acts: seq<Action>, s: State)
    requires Reachable(n, false, acts, s)
    ensures |s.requested| == n && forall i :: 0 <= i < n ==> !s.requested[i]
  {
    var inv := (u: State) => !u.autoCancel && |u.requested| == n && forall i :: 0 <= i < n ==> !u.requested[i];
    Runs.Invariance(Step, inv, Init(n, false), acts);
  }

  predicate SettledAs(s: State, n: nat, j: nat, asked: bool) {
    Sized(s) && |s.phases| == n && j < n && s.settled[j] && s.requested[j] == asked
  }

  lemma StepKeepsSettled(s: State, a: Action, j: nat)
    requires Sized(s) && j < |s.phases| && s.settled[j] && Step(s, a).Some?
    ensures SettledAs(Step(s, a).value, |s.phases|, j, s.requested[j])
  {
    StepKeepsFrame(s, a);
  }

  /** An input that is settled is not asked any more. */
  lemma SettledIsNotAsked(n: nat, autoCancel: bool, acts: seq<Action>, s: State, j: nat, more: seq<Action>, s': State)
    requires Reachable(n, autoCancel, acts, s) && j < n && |s.settled| == |s.requested| == n && s.settled[j]
    requires Runs.Exec(Step, s, more) == Some(s')
    ensures |s'.requested| == n && s'.requested[j] == s.requested[j]
  {
    ReachableInv(n, autoCancel, acts, s);
    var inv := (u: State) => SettledAs(u, n, j, s.requested[j]);
    forall u, a | inv(u) && Step(u, a).Some? ensures inv(Step(u, a).value) { StepKeepsSettled(u, a, j); }
    Runs.Invariance(Step, inv, s, more);
  }

  /** The continuation of the winner has still to answer, or has. */
  ghost predicate WonBy(s: State, i: nat) {
    && Inv(s) && i < |s.phases| && s.triggered
    && if s.answer.None? then s.phases[i].Canceling? else s.answer.value.index == i
  }

  lemma StepKeepsWinner(s: State, a: Action, i: nat)
    requires WonBy(s, i) && Step(s, a).Some?
    ensures WonBy(Step(s, a).value, i)
  {
    StepKeepsInv(s, a);
    StepKeepsFrame(s, a);
  }

  /** The first continuation that runs its exchange decides the answer: nothing else is ever reported. */
  lemma FirstExchangeAnswers(n: nat, autoCancel: bool, acts: seq<Action>, s: State, i: nat,
                             more: seq<Action>, s': State)
    requires Reachable(n, autoCancel, acts, s) && (forall k :: 0 <= k < |acts| ==> !acts[k].Exchange?)
    requires Step(s, Exchange(i)).Some? && Runs.Exec(Step, Step(s, Exchange(i)).value, more) == Some(s')
    ensures s'.answer.Some? ==> s'.answer.value.index == i
  {
    ReachableInv(n, autoCancel, acts, s);
    Runs.FlagIff(Step, (u: State) => u.triggered, (a: Action) => a.Exchange?, Init(n, autoCancel), acts, s);
    StepKeepsInv(s, Exchange(i));
    var inv := (u: State) => WonBy(u, i);
    forall u, a | inv(u) && Step(u, a).Some? ensures inv(Step(u, a).value) { StepKeepsWinner(u, a, i); }
    Runs.Invariance(Step, inv, Step(s, Exchange(i)).value, more);
  }

  /** A continuation that has not returned can take its next step. */
  lemma ContinuationCanMove(s: State, i: nat)
    requires Inv(s) && i < |s.phases| && s.runner[i].Some? && s.phases[i] != Done
    ensures if s.phases[i] == Waiting then Step(s, Exchange(i)).Some?
            else Step(s, CancelOther(i)).Some? || Step(s, Publish(i)).Some?
  {
    assert Continues(s, i);
  }

  /** When some registered input is settled and no continuation is left to run, there is an answer. */
  lemma EndsWithAnAnswer(n: nat, autoCancel: bool, acts: seq<Action>, s: State, i: nat)
    requires Reachable(n, autoCancel, acts, s) && i < s.next && i < |s.settled| && s.settled[i]
    requires forall j :: Step(s, Exchange(j)).None? && Step(s, CancelOther(j)).None? && Step(s, Publish(j)).None?
    ensures s.answer.Some?
  {
    ReachableInv(n, autoCancel, acts, s);
    assert Step(s, Exchange(i)).None? && Step(s, CancelOther(i)).None? && Step(s, Publish(i)).None?;
    assert AssignedAt(s, i);
    if s.phases[i] != Done {
      ContinuationCanMove(s, i);
    }
    if s.answer.None? {
      var j :| 0 <= j < n && s.phases[j].Canceling?;
      assert AssignedAt(s, j) && Step(s, CancelOther(j)).None? && Step(s, Publish(j)).None?;
      ContinuationCanMove(s, j);
    }
  }

  // ----- the constructor's loop -----

  /** Some completion publishes between the constructor's check of its index and its use. */
  predicate PublishesInBetween(s: State, acts: seq<Action>)
    decreases |acts|
  {
    acts != [] && match Step(s, acts[0])
                  case None => false
                  case Some(s') => (s.checked && acts[0].Publish?) || PublishesInBetween(s', acts[1..])
  }

  /** The constructor has indexed past the end, or is about to. */
  predicate Doomed(s: State) {
    s.failed || (s.checked && s.next >= |s.futures|)
  }

  lemma StepDooms(s: State, a: Action)
    requires Inv(s) && Step(s, a).Some?
    ensures Doomed(Step(s, a).value) <==> Doomed(s) || (s.checked && a.Publish?)
  {
    StepKeepsInv(s, a);
  }

  lemma {:induction false} DoomedIffPublishes(s: State, acts: seq<Action>, s': State)
    requires Inv(s) && Runs.Exec(Step, s, acts) == Some(s')
    ensures Doomed(s') <==> Doomed(s) || PublishesInBetween(s, acts)
    decreases |acts|
  {
    if acts != [] {
      StepKeepsInv(s, acts[0]);
      StepDooms(s, acts[0]);
      DoomedIffPublishes(Step(s, acts[0]).value, acts[1..], s');
    }
  }

  /** The constructor indexes the vector past its end if and only if some completion publishes between its check
      and its use of the index. */
  lemma IndexesPastTheEnd(n: nat, autoCancel: bool, acts: seq<Action>, s: State)
    requires Reachable(n, autoCancel, acts, s)
    ensures s.failed ==> PublishesInBetween(Init(n, autoCancel), acts)
    ensures !s.checked ==> (s.failed <==> PublishesInBetween(Init(n, autoCancel), acts))
  {
    ReachableInv(n, autoCancel, [], Init(n, autoCancel));
    DoomedIffPublishes(Init(n, autoCancel), acts, s);
  }

  /** The constructor's loop has not begun, or has ended. */
  predicate OutsideConstructor(s: State) {
    !s.checked && (s.next == 0 || s.next >= |s.futures|)
  }

  /** No other thread settles an input while the constructor's loop runs: they are ready before, or settle
      later, or on the constructing thread itself. */
  predicate NoForeignSettlement(s: State, acts: seq<Action>)
    decreases |acts|
  {
    acts != [] ==>
      && (acts[0].Settle? && acts[0].on.Other? ==> OutsideConstructor(s))
      && match Step(s, acts[0])
         case None => true
         case Some(s') => NoForeignSettlement(s', acts[1..])
  }

  /** Another thread has a continuation to run only after the loop. */
  ghost predicate Undisturbed(s: State) {
    (exists i :: 0 <= i < |s.runner| && s.runner[i].Some? && s.runner[i].value.Other?) ==>
      !s.checked && s.next >= |s.futures|
  }

  lemma StepKeepsUndisturbed(s: State, a: Action)
    requires Inv(s) && Undisturbed(s) && Step(s, a).Some? && (a.Settle? && a.on.Other? ==> OutsideConstructor(s))
    ensures Undisturbed(Step(s, a).value)
    ensures !(s.checked && a.Publish?)
  {
    var s' := Step(s, a).value;
    if i :| 0 <= i < |s'.runner| && s'.runner[i].Some? && s'.runner[i].value.Other? {
      assert a.Settle? || s'.runner[i] == s.runner[i];
    }
  }

  lemma {:induction false} UndisturbedRun(s: State, acts: seq<Action>)
    requires Inv(s) && Undisturbed(s) && NoForeignSettlement(s, acts)
    ensures !PublishesInBetween(s, acts)
    decreases |acts|
  {
    if acts != [] && Step(s, acts[0]).Some? {
      StepKeepsInv(s, acts[0]);
      StepKeepsUndisturbed(s, acts[0]);
      UndisturbedRun(Step(s, acts[0]).value, acts[1..]);
    }
  }

  /** So the loop stays in bounds when no other thread settles an input while it runs, though completions on the
      constructing thread, which happen inside then, move the vector out under it. */
  lemma StaysInBounds(n: nat, autoCancel: bool, acts: seq<Action>, s: State)
    requires Reachable(n, autoCancel, acts, s) && NoForeignSettlement(Init(n, autoCancel), acts)
    ensures !s.failed
  {
    ReachableInv(n, autoCancel, [], Init(n, autoCancel));
    UndisturbedRun(Init(n, autoCancel), acts);
    IndexesPastTheEnd(n, autoCancel, acts, s);
  }

  /** With two inputs, another thread that settles the first one after it was registered, and wins between the
      check and the use of the second index, makes it fail. */
  lemma ForeignSettlementFails() returns (acts: seq<Action>, s: State)
    ensures Reachable(2, false, acts, s) && s.failed
    ensures acts == [Check, Register, Check, Settle(0, Other(0)), Exchange(0), Publish(0), Register]
  {
    var s0, t := Init(2, false), Other(0);
    var s1 := s0.(checked := true);
    var s2 := s0.(next := 1);
    var s3 := s2.(checked := true);
    var s4 := s3.(settled := s3.settled[0 := true], runner := s3.runner[0 := Some(t)]);
    var s5 := s4.(triggered := true, phases := s4.phases[0 := Canceling(0)]);
    var s6 := s5.(answer := Some(Answer(0, s5.futures)), futures := [], phases := s5.phases[0 := Done]);
    s := s6.(failed := true, checked := false);
    acts := [Check, Register, Check, Settle(0, t), Exchange(0), Publish(0), Register];
    Runs.ExecFour(Step, s0, Check, Register, Check, Settle(0, t), s1, s2, s3, s4);
    Runs.ExecTwo(Step, s4, Exchange(0), Publish(0), s5, s6);
    Runs.ExecSnoc(Step, s4, [Exchange(0), Publish(0)], Register, s6);
    Runs.ExecSplit(Step, s0, [Check, Register, Check, Settle(0, t)], [Exchange(0), Publish(0)] + [Register]);
    assert acts == [Check, Register, Check, Settle(0, t)] + ([Exchange(0), Publish(0)] + [Register]);
  }

  // ----- the class -----

  /** The fields of when_any_callback, with the inputs it can cancel and what their continuations have done, while
      the constructor is not between a check and a use of its index. */
  class Callback {
    const autoCancel: bool
    const n: nat
    var settled: seq<bool>
    var requested: seq<bool>
    var runner: seq<Option<Thread>>
    var phases: seq<Phase>
    var futures: seq<nat>
    var triggered: bool
    var answer: Option<Answer>
    var next: nat

    function View(): State
      reads this
    {
      State(autoCancel, settled, requested, runner, phases, futures, triggered, answer, next, false, false)
    }

    constructor (n: nat, autoCancel: bool)
      ensures View() == Init(n, autoCancel) && this.n == n
    {
      this.n, this.autoCancel := n, autoCancel;
      settled, requested, runner := seq(n, _ => false), seq(n, _ => false), seq(n, _ => None);
      phases, futures, triggered, answer, next := seq(n, _ => Waiting), Positions(n), false, None, 0;
    }

    /** operator(), which is a run on the thread of its input: a cancelation of another input may settle it at
        once, as answers tells, and its own continuation then finds triggered set. */
    method Call(index: nat, answers: seq<bool>) returns (ghost acts: seq<Action>)
      requires Inv(View()) && |phases| == |answers| == n && index < n
      requires runner[index].Some? && phases[index] == Waiting
      modifies this
      ensures Runs.Exec(Step, old(View()), acts) == Some(View())
      ensures triggered && Inv(View()) && |phases| == n && phases[index] == Done
      ensures old(triggered) ==> answer == old(answer) && futures == old(futures) && requested == old(requested)
      ensures !old(triggered) ==> answer == Some(Answer(index, Positions(n))) && futures == []
      ensures !old(triggered) && autoCancel ==> forall j :: 0 <= j < n && j != index ==> requested[j] || old(settled)[j]
      ensures forall j :: 0 <= j < n && requested[j] && !old(requested)[j] ==> j != index && !old(settled)[j]
    {
      var was := ExchangeTriggered(index);
      acts := [] + [Exchange(index)];
      ghost var s0, s1 := old(View()), View();
      Runs.ExecSnoc(Step, s0, [], Exchange(index), s0);
      if was {
        return;
      }
      if autoCancel {
        ghost var more := CancelInputs(index, answers);
        Runs.ExecSplit(Step, s0, acts, more);
        acts := acts + more;
      }
      Runs.ExecSnoc(Step, s0, acts, Publish(index), View());
      acts := acts + [Publish(index)];
      PublishAnswer(index);
    }

    /** triggered.exchange(true) */
    method ExchangeTriggered(index: nat) returns (was: bool)
      requires Inv(View()) && |phases| == n && index < n && runner[index].Some? && phases[index] == Waiting
      modifies this`triggered, this`phases
      ensures Step(old(View()), Exchange(index)) == Some(View()) && Inv(View())
      ensures was == old(triggered) && if was then phases[index] == Done else Winning(index, 0)
    {
      StepKeepsInv(View(), Exchange(index));
      was := triggered;
      triggered := true;
      phases := phases[index := if was then Done else Canceling(0)];
    }

    method PublishAnswer(index: nat)
      requires Winning(index, if autoCancel then n else 0)
      modifies this`answer, this`futures, this`phases
      ensures Step(old(View()), Publish(index)) == Some(View()) && Inv(View())
      ensures answer == Some(Answer(index, Positions(n))) && futures == [] && phases[index] == Done && |phases| == n
    {
      assert AssignedAt(View(), index);
      StepKeepsInv(View(), Publish(index));
      answer := Some(Answer(index, futures));
      futures := [];
      phases := phases[index := Done];
    }

    /** The loop over the other inputs. */
    method CancelInputs(index: nat, answers: seq<bool>) returns (ghost acts: seq<Action>)
      requires Winning(index, 0) && autoCancel && |answers| == n
      modifies this`settled, this`requested, this`runner, this`phases
      ensures Runs.Exec(Step, old(View()), acts) == Some(View()) && Winning(index, n)
      ensures forall j :: 0 <= j < n && j != index ==> requested[j] || old(settled)[j]
      ensures forall j :: 0 <= j < n && requested[j] && !old(requested)[j] ==> j != index && !old(settled)[j]
    {
      ghost var s0 := View();
      acts := [];
      var i := 0;
      while i < |futures|
        invariant 0 <= i <= n && Winning(index, i)
        invariant Runs.Exec(Step, s0, acts) == Some(View())
        invariant forall j :: 0 <= j < i && j != index ==> requested[j] || old(settled)[j]
        invariant forall j :: 0 <= j < n && requested[j] && !old(requested)[j] ==> j != index && !old(settled)[j]
        invariant forall j :: i <= j < n ==> settled[j] == old(settled)[j]
      {
        ghost var more := CancelInput(index, i, answers[i]);
        Runs.ExecSplit(Step, s0, acts, more);
        acts := acts + more;
        i := i + 1;
      }
    }

    /** The winner's continuation is at input i of its loop. */
    ghost predicate Winning(index: nat, i: nat)
      reads this
    {
      && Inv(View()) && |phases| == n && index < n && phases[index] == Canceling(i)
      && triggered && futures == Positions(n)
    }

    /** One iteration of the loop: an input that settles at once runs its own continuation, if it is registered,
        inside the cancelation. */
    method CancelInput(index: nat, i: nat, settles: bool) returns (ghost acts: seq<Action>)
      requires Winning(index, i) && i < n && autoCancel
      modifies this`settled, this`requested, this`runner, this`phases
      ensures Runs.Exec(Step, old(View()), acts) == Some(View()) && Winning(index, i + 1)
      ensures requested == if i != index && !old(settled)[i] then old(requested)[i := true] else old(requested)
      ensures settled == if i != index && !old(settled)[i] && settles then old(settled)[i := true] else old(settled)
    {
      ghost var s0 := View();
      AskInput(index, i);
      acts := [] + [CancelOther(index)];
      Runs.ExecSnoc(Step, s0, [], CancelOther(index), s0);
      if i != index && !settled[i] && settles {
        ghost var more := SettleInput(index, i);
        Runs.ExecSplit(Step, s0, acts, more);
        acts := acts + more;
      }
    }

    /** request_cancel() on input i, without what it brings about, and the loop's increment. */
    method AskInput(index: nat, i: nat)
      requires Winning(index, i) && i < n && autoCancel
      modifies this`requested, this`phases
      ensures Step(old(View()), CancelOther(index)) == Some(View()) && Winning(index, i + 1)
      ensures requested == if i != index && !settled[i] then old(requested)[i := true] else old(requested)
    {
      assert AssignedAt(View(), index);
      StepKeepsInv(View(), CancelOther(index));
      phases := phases[index := Canceling(i + 1)];
      if i != index && !settled[i] {
        requested := requested[i := true];
      }
    }

    /** Input i settles inside the winner's cancelation, on its thread. */
    method SettleInput(index: nat, i: nat) returns (ghost acts: seq<Action>)
      requires Winning(index, i + 1) && i < n && i != index && !settled[i]
      modifies this`settled, this`runner, this`phases
      ensures Runs.Exec(Step, old(View()), acts) == Some(View()) && Winning(index, i + 1)
      ensures settled == old(settled)[i := true]
    {
      ghost var s0 := View();
      ghost var on := MarkSettled(index, i);
      acts := [] + [Settle(i, on)];
      Runs.ExecSnoc(Step, s0, [], Settle(i, on), s0);
      if i < next {
        Runs.ExecSnoc(Step, s0, acts, Exchange(i), View());
        acts := acts + [Exchange(i)];
        LoseTo(index, i);
      }
    }

    method MarkSettled(index: nat, i: nat) returns (ghost on: Thread)
      requires Winning(index, i + 1) && i < n && i != index && !settled[i]
      modifies this`settled, this`runner
      ensures Step(old(View()), Settle(i, on)) == Some(View()) && Winning(index, i + 1)
      ensures settled == old(settled)[i := true]
      ensures i < next ==> phases[i] == Waiting && runner[i].Some?
    {
      assert AssignedAt(View(), index) && AssignedAt(View(), i);
      on := runner[index].value;
      StepKeepsInv(View(), Settle(i, on));
      settled := settled[i := true];
      if i < next {
        runner := runner[i := runner[index]];
      }
    }

    /** The continuation of input i finds triggered set. */
    method LoseTo(index: nat, i: nat)
      requires Winning(index, i + 1) && i < n && i != index && phases[i] == Waiting && runner[i].Some?
      modifies this`phases
      ensures Step(old(View()), Exchange(i)) == Some(View()) && Winning(index, i + 1)
    {
      StepKeepsInv(View(), Exchange(i));
      phases := phases[i := Done];
    }
  }
}
