/** Continuations of a shared state: shared_base::then against shared_base::finish.

    Both take the mutex for one critical section and post to the executor after releasing it. Any number
    of threads register continuations, before, while and after one thread settles the state; a
    continuation that runs and registers another one is a thread that calls Then. */
module Continuations {
  import opened Outcomes
  import Runs

  /** A continuation, with its executor, is known by the order in which then was called for it. */
  type Continuation = nat

  datatype Pc =
    | Idle
    | Resolved(c: Continuation)           // then() saw a settled state: it will post c itself
    | Posting(rest: seq<Continuation>)    // finish() is posting the continuations it swapped out

  /** r and waiting are _r and _then; posted is everything handed to executors so far. calls counts the
      calls to then, and before is a record of the calls that came before settlement. */
  datatype State = State(
    r: Option<Outcome<int>>,
    waiting: seq<Continuation>,
    posted: seq<Continuation>,
    threads: seq<Pc>,
    calls: nat,
    before: seq<Continuation>)

  datatype Action =
    | Then(t: nat)
    | PostOwn(t: nat)
    | Finish(t: nat, o: Outcome<int>)
    | PostNext(t: nat)

  /** The critical section of then: the new list of waiting continuations, or the finding that the state
      is settled. */
  function Register(r: Option<Outcome<int>>, waiting: seq<Continuation>, c: Continuation): (seq<Continuation>, bool) {
    if r.None? then (waiting + [c], false) else (waiting, true)
  }

  /** finish may be called once only, which PackagedTask shows of a packaged task. */
  function Step(s: State, a: Action): Option<State> {
    if a.t >= |s.threads| then None
    else
      var pc, t := s.threads[a.t], a.t;
      match a
      case Then(_) =>
        if pc != Idle then None
        else
          var c := s.calls;
          var (waiting, resolved) := Register(s.r, s.waiting, c);
          Some(s.(waiting := waiting, calls := c + 1,
                  threads := s.threads[t := if resolved then Resolved(c) else Idle],
                  before := if resolved then s.before else s.before + [c]))
      case PostOwn(_) =>
        if pc.Resolved? then Some(s.(posted := s.posted + [pc.c], threads := s.threads[t := Idle])) else None
      case Finish(_, o) =>
        if pc == Idle && s.r.None? then
          Some(s.(r := Some(o), waiting := [], threads := s.threads[t := Posting(s.waiting)]))
        else None
      case PostNext(_) =>
        if !pc.Posting? then None
        else if pc.rest == [] then Some(s.(threads := s.threads[t := Idle]))
        else Some(s.(posted := s.posted + [pc.rest[0]], threads := s.threads[t := Posting(pc.rest[1..])]))
  }

  function Init(n: nat): State {
    State(None, [], [], seq(n, _ => Idle), 0, [])
  }

  // ----- where the continuations are -----

  /** How many times a thread still has to post a continuation. */
  function Pending(pc: Pc, c: Continuation): nat {
    match pc
    case Idle => 0
    case Resolved(d) => if d == c then 1 else 0
    case Posting(rest) => multiset(rest)[c]
  }

  function AllPending(ts: seq<Pc>, c: Continuation): nat {
    if ts == [] then 0 else Pending(ts[0], c) + AllPending(ts[1..], c)
  }

  lemma {:induction false} AllPendingUpdate(ts: seq<Pc>, t: nat, pc: Pc, c: Continuation)
    requires t < |ts|
    ensures AllPending(ts[t := pc], c) == AllPending(ts, c) - Pending(ts[t], c) + Pending(pc, c)
  {
    if t == 0 {
      assert ts[t := pc][1..] == ts[1..];
    } else {
      assert ts[t := pc][1..] == ts[1..][t - 1 := pc];
      AllPendingUpdate(ts[1..], t - 1, pc, c);
    }
  }

  lemma {:induction false} AllIdleHoldNothing(ts: seq<Pc>, c: Continuation)
    requires forall t :: 0 <= t < |ts| ==> ts[t] == Idle
    ensures AllPending(ts, c) == 0
  {
    if ts != [] {
      AllIdleHoldNothing(ts[1..], c);
    }
  }

  /** The posted continuations that were registered before settlement, in the order they were posted. */
  function Early(posted: seq<Continuation>, before: seq<Continuation>): seq<Continuation> {
    if posted == [] then []
    else
      var init, last := posted[..|posted| - 1], posted[|posted| - 1];
      Early(init, before) + if last in before then [last] else []
  }

  // ----- the invariant -----

  /** A continuation given to then is in one place: waiting, posted, or held by a thread. */
  predicate PlacedOnce(s: State, c: Continuation) {
    multiset(s.waiting)[c] + multiset(s.posted)[c] + AllPending(s.threads, c) == if c < s.calls then 1 else 0
  }

  /** At most one thread is inside finish, and what it still has to post is the end of before. */
  ghost predicate Ordered(s: State) {
    && (forall t, u :: 0 <= t < u < |s.threads| ==> !(s.threads[t].Posting? && s.threads[u].Posting?))
    && (forall t :: 0 <= t < |s.threads| && s.threads[t].Resolved? ==> s.threads[t].c !in s.before)
    && (forall t :: 0 <= t < |s.threads| && s.threads[t] != Idle ==> s.r.Some?)
    && (forall c :: c in s.before ==> c < s.calls)
    && if s.r.None? then s.waiting == s.before && s.posted == []
       else
         && s.waiting == []
         && (forall t :: 0 <= t < |s.threads| && s.threads[t].Posting? ==>
              Early(s.posted, s.before) + s.threads[t].rest == s.before)
         && ((forall t :: 0 <= t < |s.threads| ==> !s.threads[t].Posting?) ==> Early(s.posted, s.before) == s.before)
  }

  ghost predicate Inv(s: State) {
    Ordered(s) && forall c :: PlacedOnce(s, c)
  }

  lemma StepKeepsPlaced(s: State, a: Action, c: Continuation)
    requires PlacedOnce(s, c) && Step(s, a).Some?
    ensures PlacedOnce(Step(s, a).value, c)
  {
    var pc, pc' := s.threads[a.t], Step(s, a).value.threads[a.t];
    AllPendingUpdate(s.threads, a.t, pc', c);
    if a.PostNext? && pc.rest != [] {
      assert pc.rest == [pc.rest[0]] + pc.rest[1..];
    }
  }

  lemma PostedEarly(s: State, c: Continuation)
    ensures Early(s.posted + [c], s.before) == Early(s.posted, s.before) + if c in s.before then [c] else []
  {
    assert (s.posted + [c])[..|s.posted|] == s.posted;
  }

  /** A call of then after settlement is not among those before, so before is left as it was. */
  lemma ThenKeepsOrdered(s: State, a: Action)
    requires Ordered(s) && Step(s, a).Some? && a.Then?
    ensures Ordered(Step(s, a).value)
  {
    var s' := Step(s, a).value;
    forall t | 0 <= t < |s.threads| && t != a.t ensures s'.threads[t] == s.threads[t] {}
    assert forall t :: 0 <= t < |s.threads| ==> s'.threads[t].Posting? == s.threads[t].Posting?;
  }

  lemma PostOwnKeepsOrdered(s: State, a: Action)
    requires Ordered(s) && Step(s, a).Some? && a.PostOwn?
    ensures Ordered(Step(s, a).value)
  {
    var s' := Step(s, a).value;
    PostedEarly(s, s.threads[a.t].c);
    assert Early(s'.posted, s.before) + [] == Early(s.posted, s.before);
    forall t | 0 <= t < |s.threads| && t != a.t ensures s'.threads[t] == s.threads[t] {}
    assert forall t :: 0 <= t < |s.threads| ==> s'.threads[t].Posting? == s.threads[t].Posting?;
  }

  lemma FinishKeepsOrdered(s: State, a: Action)
    requires Ordered(s) && Step(s, a).Some? && a.Finish?
    ensures Ordered(Step(s, a).value)
  {
    var s' := Step(s, a).value;
    assert s.posted == [] && Early(s.posted, s.before) == [];
    assert [] + s.before == s.before;
    assert s'.threads[a.t] == Posting(s.before);
    forall t | 0 <= t < |s.threads| && t != a.t ensures s'.threads[t] == s.threads[t] && !s.threads[t].Posting? {}
  }

  lemma PostNextKeepsOrdered(s: State, a: Action)
    requires Ordered(s) && Step(s, a).Some? && a.PostNext?
    ensures Ordered(Step(s, a).value)
  {
    var rest, e := s.threads[a.t].rest, Early(s.posted, s.before);
    if rest == [] {
      assert e + rest == e;
    } else {
      PostedEarly(s, rest[0]);
      assert (e + rest)[|e|] == rest[0];
      assert (e + [rest[0]]) + rest[1..] == e + rest;
      assert Step(s, a).value.threads[a.t].Posting?;
    }
  }

  lemma ReachableInv(n: nat, acts: seq<Action>)
    ensures Runs.Exec(Step, Init(n), acts).Some? ==> Inv(Runs.Exec(Step, Init(n), acts).value)
  {
    forall c ensures PlacedOnce(Init(n), c) { AllIdleHoldNothing(Init(n).threads, c); }
    forall s, a | Inv(s) && Step(s, a).Some? ensures Inv(Step(s, a).value) {
      forall c ensures PlacedOnce(Step(s, a).value, c) { StepKeepsPlaced(s, a, c); }
      match a
      case Finish(_, _) => FinishKeepsOrdered(s, a);
      case PostNext(_) => PostNextKeepsOrdered(s, a);
      case Then(_) => ThenKeepsOrdered(s, a);
      case PostOwn(_) => PostOwnKeepsOrdered(s, a);
    }
    Runs.Invariance(Step, Inv, Init(n), acts);
  }

  // ----- what every interleaving guarantees -----

  /** Nothing is posted before settlement, and nothing is posted twice. */
  lemma PostedAtMostOnce(n: nat, acts: seq<Action>, s: State, c: Continuation)
    requires Runs.Exec(Step, Init(n), acts) == Some(s)
    ensures multiset(s.posted)[c] <= 1
    ensures s.r.None? ==> s.posted == []
    ensures c in s.posted ==> c < s.calls
  {
    ReachableInv(n, acts);
    assert PlacedOnce(s, c);
    assert c in s.posted ==> multiset(s.posted)[c] >= 1;
  }

  /** When the state is settled and no thread is inside then or finish, every continuation ever given to
      then has been posted exactly once, those registered before settlement in registration order. */
  lemma AllPostedOnce(n: nat, acts: seq<Action>, s: State, c: Continuation)
    requires Runs.Exec(Step, Init(n), acts) == Some(s)
    requires s.r.Some? && forall t :: 0 <= t < |s.threads| ==> s.threads[t] == Idle
    ensures multiset(s.posted)[c] == if c < s.calls then 1 else 0
    ensures Early(s.posted, s.before) == s.before
  {
    ReachableInv(n, acts);
    AllIdleHoldNothing(s.threads, c);
    assert PlacedOnce(s, c);
  }

  // ----- whole calls that no other thread interrupts -----

  function Posts(t: nat, n: nat): (acts: seq<Action>)
    ensures |acts| == n
  {
    if n == 0 then [] else [PostNext(t)] + Posts(t, n - 1)
  }

  /** The state in which a thread has rest still to post, and the one in which it has posted all of it. */
  function StillPosting(s: State, t: nat, posted: seq<Continuation>, rest: seq<Continuation>): State
    requires t < |s.threads|
  {
    s.(posted := posted, threads := s.threads[t := Posting(rest)])
  }

  function DonePosting(s: State, t: nat, posted: seq<Continuation>): State
    requires t < |s.threads|
  {
    s.(posted := posted, threads := s.threads[t := Idle])
  }

  lemma PostsOne(s: State, t: nat, posted: seq<Continuation>, c: Continuation, rest: seq<Continuation>)
    requires t < |s.threads|
    ensures Step(StillPosting(s, t, posted, [c] + rest), PostNext(t)) == Some(StillPosting(s, t, posted + [c], rest))
  {
    assert ([c] + rest)[1..] == rest;
    assert s.threads[t := Posting([c] + rest)][t := Posting(rest)] == s.threads[t := Posting(rest)];
  }

  lemma PostsLast(s: State, t: nat, posted: seq<Continuation>)
    requires t < |s.threads|
    ensures Step(StillPosting(s, t, posted, []), PostNext(t)) == Some(DonePosting(s, t, posted))
  {
    assert s.threads[t := Posting([])][t := Idle] == s.threads[t := Idle];
  }

  /** The loop at the end of finish posts, in order, what was waiting. */
  lemma {:induction false} PostingIsRun(s: State, t: nat, posted: seq<Continuation>, rest: seq<Continuation>)
    requires t < |s.threads|
    ensures Runs.Exec(Step, StillPosting(s, t, posted, rest), Posts(t, |rest| + 1))
         == Some(DonePosting(s, t, posted + rest))
    decreases |rest|
  {
    var s0 := StillPosting(s, t, posted, rest);
    if rest == [] {
      PostsLast(s, t, posted);
      assert posted + [] == posted;
      assert Posts(t, 1) == [PostNext(t)] + [];
      Runs.ExecCons(Step, s0, PostNext(t), DonePosting(s, t, posted), []);
    } else {
      assert rest == [rest[0]] + rest[1..];
      PostsOne(s, t, posted, rest[0], rest[1..]);
      PostingIsRun(s, t, posted + [rest[0]], rest[1..]);
      assert posted + [rest[0]] + rest[1..] == posted + rest;
      Runs.ExecCons(Step, s0, PostNext(t), StillPosting(s, t, posted + [rest[0]], rest[1..]), Posts(t, |rest|));
    }
  }

  /** A whole call of finish, as SharedBase.Finish makes it, is a run. */
  lemma FinishIsRun(s: State, t: nat, o: Outcome<int>)
    requires t < |s.threads| && s.threads[t] == Idle && s.r.None?
    ensures Runs.Exec(Step, s, [Finish(t, o)] + Posts(t, |s.waiting| + 1))
         == Some(s.(r := Some(o), waiting := [], posted := s.posted + s.waiting))
  {
    var s1 := s.(r := Some(o), waiting := []);
    PostingIsRun(s1, t, s.posted, s.waiting);
    assert s.threads[t := Idle] == s.threads;
    Runs.ExecCons(Step, s, Finish(t, o), StillPosting(s1, t, s.posted, s.waiting), Posts(t, |s.waiting| + 1));
  }

  /** A whole call of then, as SharedBase.Then makes it, is a run. */
  lemma ThenIsRun(s: State, t: nat)
    requires t < |s.threads| && s.threads[t] == Idle
    ensures Runs.Exec(Step, s, [Then(t)] + if s.r.None? then [] else [PostOwn(t)])
         == Some(if s.r.None? then
                   s.(waiting := s.waiting + [s.calls], before := s.before + [s.calls], calls := s.calls + 1)
                 else s.(posted := s.posted + [s.calls], calls := s.calls + 1))
  {
    if s.r.None? {
      Runs.ExecSnoc(Step, s, [], Then(t), s);
      assert [Then(t)] + [] == [] + [Then(t)];
      assert s.threads[t := Idle] == s.threads;
    } else {
      var s1 := s.(calls := s.calls + 1, threads := s.threads[t := Resolved(s.calls)]);
      assert [Then(t)] + [PostOwn(t)] == [Then(t), PostOwn(t)];
      assert s1.threads[t := Idle] == s.threads;
      Runs.ExecTwo(Step, s, Then(t), PostOwn(t), s1, s.(posted := s.posted + [s.calls], calls := s.calls + 1));
    }
  }

  // ----- the class -----

  /** A shared state whose continuations are posted to one executor, seen as the list of what it received.
      Each method is a whole call that no other thread interrupts. */
  class SharedBase {
    var r: Option<Outcome<int>>
    var waiting: seq<Continuation>
    var posted: seq<Continuation>

    constructor ()
      ensures r == None && waiting == [] && posted == []
    {
      r, waiting, posted := None, [], [];
    }

    method Then(c: Continuation)
      modifies this
      ensures r == old(r) && waiting == Register(old(r), old(waiting), c).0
      ensures posted == if old(r).None? then old(posted) else old(posted) + [c]
    {
      var resolved := false;
      if r.None? {
        waiting := waiting + [c];
      } else {
        resolved := true;
      }
      if resolved {
        posted := posted + [c];
      }
    }

    /** finish, with the executor of each continuation only queueing it. */
    method Finish(o: Outcome<int>)
      requires r.None?
      modifies this
      ensures r == Some(o) && waiting == []
      ensures posted == old(posted) + old(waiting)
    {
      var then_ := waiting;
      r := Some(o);
      waiting := [];
      var i := 0;
      while i < |then_|
        invariant 0 <= i <= |then_|
        invariant r == Some(o) && waiting == [] && posted == old(posted) + then_[..i]
      {
        posted := posted + [then_[i]];
        assert then_[..i + 1] == then_[..i] + [then_[i]];
        i := i + 1;
      }
      assert then_[..i] == then_;
    }
  }
}
