/** The cancelation token of futures: a flag and a stack of callbacks.

    Every operation takes the mutex to change the token and copy the callback it must call, then calls it
    with the mutex released. */
module CancelationToken {
  import opened Outcomes
  import Runs

  /** A cancelation callback, known by the order in which it was pushed. The callback of a cancelable task or of a
      timer pops itself when called; one that forwards the request to another future, or that a scope installs,
      does not. */
  datatype Callback = Callback(id: nat, popsItself: bool)

  datatype Token = Token(requested: bool, stack: seq<Callback>)

  function Top(stack: seq<Callback>): Option<Callback> {
    if stack == [] then None else Some(stack[|stack| - 1])
  }

  /** The critical sections: the new token, and the copied callback if there is one to call. */
  function PushSection(k: Token, cb: Callback): (Token, Option<Callback>) {
    (k.(stack := k.stack + [cb]), if k.requested then Some(cb) else None)
  }

  function PopSection(k: Token): (Token, Option<Callback>)
    requires k.stack != []
  {
    var rest := k.stack[..|k.stack| - 1];
    (k.(stack := rest), if k.requested then Top(rest) else None)
  }

  function RequestSection(k: Token): (Token, Option<Callback>) {
    (k.(requested := true), Top(k.stack))
  }

  // ----- any number of threads -----

  /** pushed counts the pushes and called lists the callbacks called so far; a thread is between its critical section
      and its call. */
  datatype State = State(token: Token, threads: seq<Option<Callback>>, pushed: nat, called: seq<Callback>)

  /** A callback that works on the token is a sequence of actions of its thread. */
  datatype Action = Push(t: nat, popsItself: bool) | Pop(t: nat) | Request(t: nat) | Call(t: nat)

  function Hold(s: State, t: nat, section: (Token, Option<Callback>)): State
    requires t < |s.threads|
  {
    s.(token := section.0, threads := s.threads[t := section.1])
  }

  function Step(s: State, a: Action): Option<State> {
    if a.t >= |s.threads| then None
    else
      match a
      case Push(t, popsItself) =>
        if s.threads[t].None? then
          Some(Hold(s, t, PushSection(s.token, Callback(s.pushed, popsItself))).(pushed := s.pushed + 1))
        else None
      case Pop(t) =>
        if s.threads[t].None? && s.token.stack != [] then Some(Hold(s, t, PopSection(s.token))) else None
      case Request(t) => if s.threads[t].None? then Some(Hold(s, t, RequestSection(s.token))) else None
      case Call(t) =>
        if s.threads[t].Some? then
          Some(s.(threads := s.threads[t := None], called := s.called + [s.threads[t].value]))
        else None
  }

  function Init(n: nat): State {
    State(Token(false, []), seq(n, _ => None), 0, [])
  }

  /** The callback is called, or some thread holds it and is about to call it. */
  ghost predicate Reached(s: State, cb: Callback) {
    cb in s.called || exists t :: 0 <= t < |s.threads| && s.threads[t] == Some(cb)
  }

  /** The pushes on the stack, held or called are past ones, and those on the stack are distinct and in order. */
  ghost predicate Numbered(s: State) {
    && (forall i, j :: 0 <= i < j < |s.token.stack| ==> s.token.stack[i].id < s.token.stack[j].id)
    && (forall i :: 0 <= i < |s.token.stack| ==> s.token.stack[i].id < s.pushed)
    && (forall t :: 0 <= t < |s.threads| && s.threads[t].Some? ==> s.threads[t].value.id < s.pushed)
    && (forall i :: 0 <= i < |s.called| ==> s.called[i].id < s.pushed)
  }

  ghost predicate Inv(s: State) {
    && Numbered(s)
    && (s.token.requested && s.token.stack != [] ==> Reached(s, Top(s.token.stack).value))
    && (!s.token.requested ==> s.called == [] && forall t :: 0 <= t < |s.threads| ==> s.threads[t].None?)
  }

  lemma StepKeepsNumbered(s: State, a: Action)
    requires Numbered(s) && Step(s, a).Some?
    ensures Numbered(Step(s, a).value)
  {
  }

  lemma StepKeepsInv(s: State, a: Action)
    requires Inv(s) && Step(s, a).Some?
    ensures Inv(Step(s, a).value)
  {
    StepKeepsNumbered(s, a);
    var s' := Step(s, a).value;
    assert s'.threads[a.t] == Step(s, a).value.threads[a.t];
    if s.token.stack != [] && Reached(s, Top(s.token.stack).value) {
      var cb := Top(s.token.stack).value;
      if cb !in s.called {
        var t :| 0 <= t < |s.threads| && s.threads[t] == Some(cb);
        assert t != a.t ==> s'.threads[t] == Some(cb);
      }
      if a.Call? {
        assert s'.called[|s.called|] == s.threads[a.t].value;
        assert forall c :: c in s.called ==> c in s'.called;
        assert Reached(s', cb);
      }
    }
  }

  lemma ReachableInv(n: nat, acts: seq<Action>, s: State)
    requires Runs.Exec(Step, Init(n), acts) == Some(s)
    ensures Inv(s)
  {
    forall s, a | Inv(s) && Step(s, a).Some? ensures Inv(Step(s, a).value) { StepKeepsInv(s, a); }
    Runs.Invariance(Step, Inv, Init(n), acts);
  }

  predicate Requests(acts: seq<Action>) {
    exists i :: 0 <= i < |acts| && acts[i].Request?
  }

  /** A cancel request is never lost: in every interleaving, once cancel was requested the callback on top of the stack
      has been called since its push, or is about to be; before that, none is. */
  lemma CancelIsNeverLost(n: nat, acts: seq<Action>, s: State)
    requires Runs.Exec(Step, Init(n), acts) == Some(s)
    ensures s.token.requested <==> Requests(acts)
    ensures s.token.requested && s.token.stack != [] ==> Reached(s, Top(s.token.stack).value)
    ensures !s.token.requested ==> s.called == []
  {
    ReachableInv(n, acts, s);
    Runs.FlagIff(Step, (u: State) => u.token.requested, (a: Action) => a.Request?, Init(n), acts, s);
  }

  /** Callbacks are told apart by their pushes: a new one was never called or copied, and none is on the stack twice. */
  lemma PushesAreDistinct(n: nat, acts: seq<Action>, s: State, t: nat, popsItself: bool)
    requires Runs.Exec(Step, Init(n), acts) == Some(s)
    ensures forall i, j :: 0 <= i < j < |s.token.stack| ==> s.token.stack[i] != s.token.stack[j]
    ensures Step(s, Push(t, popsItself)).Some? ==>
      var cb := Callback(s.pushed, popsItself);
      && Top(Step(s, Push(t, popsItself)).value.token.stack) == Some(cb)
      && cb !in s.token.stack && !Reached(s, cb)
  {
    ReachableInv(n, acts, s);
  }

  // ----- callbacks that pop themselves, on one thread -----

  /** How much of a stack is left when its top is called under a cancel request: callbacks that pop
      themselves go, down to the first one that does not. */
  function Kept(stack: seq<Callback>): (k: nat)
    ensures k <= |stack|
  {
    if stack == [] then 0
    else if stack[|stack| - 1].popsItself then Kept(stack[..|stack| - 1])
    else |stack|
  }

  /** Exactly the callbacks that pop themselves on top of the stack go. */
  lemma {:induction false} KeptIsTopmost(stack: seq<Callback>)
    ensures forall i :: Kept(stack) <= i < |stack| ==> stack[i].popsItself
    ensures Kept(stack) > 0 ==> !stack[Kept(stack) - 1].popsItself
  {
    if stack != [] && stack[|stack| - 1].popsItself {
      KeptIsTopmost(stack[..|stack| - 1]);
    }
  }

  function Reversed(stack: seq<Callback>): seq<Callback> {
    if stack == [] then [] else [stack[|stack| - 1]] + Reversed(stack[..|stack| - 1])
  }

  function LastCalled(stack: seq<Callback>): (i: nat)
    ensures i <= |stack|
  {
    if Kept(stack) == 0 then 0 else Kept(stack) - 1
  }

  /** What such a call calls: what goes, in LIFO order, and then the callback left on top. */
  function Called(stack: seq<Callback>): seq<Callback> {
    Reversed(stack[LastCalled(stack)..])
  }

  lemma ReversedPush(stack: seq<Callback>, cb: Callback)
    ensures Reversed(stack + [cb]) == [cb] + Reversed(stack)
  {
    assert (stack + [cb])[..|stack|] == stack;
  }

  lemma {:induction false} ReversedAppend(a: seq<Callback>, b: seq<Callback>)
    ensures Reversed(a + b) == Reversed(b) + Reversed(a)
    decreases |b|
  {
    if b == [] {
      assert a + b == a;
    } else {
      var rest, last := b[..|b| - 1], b[|b| - 1];
      assert a + b == (a + rest) + [last] && b == rest + [last];
      ReversedPush(a + rest, last);
      ReversedPush(rest, last);
      ReversedAppend(a, rest);
    }
  }

  lemma KeptPush(rest: seq<Callback>, top: Callback)
    ensures Kept(rest + [top]) == if top.popsItself then Kept(rest) else |rest| + 1
  {
    assert (rest + [top])[..|rest|] == rest;
  }

  lemma DropPush(rest: seq<Callback>, top: Callback, lo: nat)
    requires lo <= |rest|
    ensures (rest + [top])[lo..] == rest[lo..] + [top]
  {
  }

  lemma ReversedDrop(rest: seq<Callback>, top: Callback, lo: nat)
    requires lo <= |rest|
    ensures Reversed((rest + [top])[lo..]) == [top] + Reversed(rest[lo..])
  {
    DropPush(rest, top, lo);
    ReversedPush(rest[lo..], top);
  }

  /** Calling the top of a stack calls it and, if it pops itself, goes on with the rest. */
  lemma CalledFromTop(rest: seq<Callback>, top: Callback)
    ensures Kept(rest + [top]) == if top.popsItself then Kept(rest) else |rest| + 1
    ensures Called(rest + [top]) == [top] + if top.popsItself then Called(rest) else []
  {
    KeptPush(rest, top);
    if top.popsItself {
      assert LastCalled(rest + [top]) == LastCalled(rest);
      ReversedDrop(rest, top, LastCalled(rest));
    } else {
      assert LastCalled(rest + [top]) == |rest|;
      ReversedDrop(rest, top, |rest|);
      assert rest[|rest|..] == [];
    }
  }

  /** The actions of a thread that calls the top of the stack: it calls it, and a callback that pops itself
      makes the thread call the next one. */
  function CallTopSteps(stack: seq<Callback>): seq<Action> {
    if stack == [] then []
    else
      var rest, top := stack[..|stack| - 1], stack[|stack| - 1];
      [Call(0)] + if top.popsItself then [Pop(0)] + CallTopSteps(rest) else []
  }

  /** The only thread, holding the top of the stack after a cancel request. */
  function Holding(stack: seq<Callback>, pushed: nat, called: seq<Callback>): State {
    State(Token(true, stack), [Top(stack)], pushed, called)
  }

  lemma CallThenPop(rest: seq<Callback>, top: Callback, pushed: nat, called: seq<Callback>)
    ensures Runs.Exec(Step, Holding(rest + [top], pushed, called), [Call(0), Pop(0)])
         == Some(Holding(rest, pushed, called + [top]))
  {
    var s0 := Holding(rest + [top], pushed, called);
    var s1 := State(Token(true, rest + [top]), [None], pushed, called + [top]);
    assert [Some(top)][0 := None] == [None] && [None][0 := Top(rest)] == [Top(rest)];
    assert (rest + [top])[..|rest|] == rest;
    assert Step(s0, Call(0)) == Some(s1) && Step(s1, Pop(0)) == Some(Holding(rest, pushed, called + [top]));
    Runs.ExecTwo(Step, s0, Call(0), Pop(0), s1, Holding(rest, pushed, called + [top]));
  }

  lemma CallOnly(stack: seq<Callback>, top: Callback, pushed: nat, called: seq<Callback>)
    requires Top(stack) == Some(top)
    ensures Runs.Exec(Step, Holding(stack, pushed, called), [Call(0)])
         == Some(State(Token(true, stack), [None], pushed, called + [top]))
  {
    assert [Some(top)][0 := None] == [None];
    Runs.ExecSnoc(Step, Holding(stack, pushed, called), [], Call(0), Holding(stack, pushed, called));
    assert [] + [Call(0)] == [Call(0)];
  }

  /** The state once the top was called and every callback that pops itself after it. */
  function CalledState(stack: seq<Callback>, pushed: nat, called: seq<Callback>): State {
    State(Token(true, stack[..Kept(stack)]), [None], pushed, called + Called(stack))
  }

  /** Calling the top of the stack, when no other thread interrupts, is this run. */
  ghost predicate CallsTop(stack: seq<Callback>, pushed: nat, called: seq<Callback>) {
    Runs.Exec(Step, Holding(stack, pushed, called), CallTopSteps(stack)) == Some(CalledState(stack, pushed, called))
  }

  lemma CalledStatePush(rest: seq<Callback>, top: Callback, pushed: nat, called: seq<Callback>)
    requires top.popsItself
    ensures CalledState(rest + [top], pushed, called) == CalledState(rest, pushed, called + [top])
  {
    CalledFromTop(rest, top);
    assert (rest + [top])[..Kept(rest)] == rest[..Kept(rest)];
    assert called + [top] + Called(rest) == called + ([top] + Called(rest));
  }

  lemma StepsPush(rest: seq<Callback>, top: Callback)
    ensures CallTopSteps(rest + [top]) == if top.popsItself then [Call(0), Pop(0)] + CallTopSteps(rest) else [Call(0)]
  {
    assert (rest + [top])[..|rest|] == rest;
    assert [Call(0)] + ([Pop(0)] + CallTopSteps(rest)) == [Call(0), Pop(0)] + CallTopSteps(rest);
    assert [Call(0)] + [] == [Call(0)];
  }

  lemma CallsTopPush(rest: seq<Callback>, top: Callback, pushed: nat, called: seq<Callback>)
    requires top.popsItself && CallsTop(rest, pushed, called + [top])
    ensures CallsTop(rest + [top], pushed, called)
  {
    CalledStatePush(rest, top, pushed, called);
    StepsPush(rest, top);
    CallThenPop(rest, top, pushed, called);
    Runs.ExecSplit(Step, Holding(rest + [top], pushed, called), [Call(0), Pop(0)], CallTopSteps(rest));
  }

  lemma CallsTopOnly(rest: seq<Callback>, top: Callback, pushed: nat, called: seq<Callback>)
    requires !top.popsItself
    ensures CallsTop(rest + [top], pushed, called)
  {
    CalledFromTop(rest, top);
    StepsPush(rest, top);
    CallOnly(rest + [top], top, pushed, called);
    assert (rest + [top])[..|rest| + 1] == rest + [top] && [top] + [] == [top];
  }

  lemma {:induction false} CallTopIsRun(stack: seq<Callback>, pushed: nat, called: seq<Callback>)
    ensures CallsTop(stack, pushed, called)
    decreases |stack|
  {
    if stack == [] {
      assert called + [] == called;
    } else {
      var rest, top := stack[..|stack| - 1], stack[|stack| - 1];
      assert stack == rest + [top];
      if top.popsItself {
        CallTopIsRun(rest, pushed, called + [top]);
        CallsTopPush(rest, top, pushed, called);
      } else {
        CallsTopOnly(rest, top, pushed, called);
      }
    }
  }

  /** The token of one thread that is not about to call anything. */
  function Resting(requested: bool, stack: seq<Callback>, pushed: nat, called: seq<Callback>): State {
    State(Token(requested, stack), [None], pushed, called)
  }

  /** Whole calls that no other thread interrupts, as CancelationToken makes them: every request calls the top, also a
      repeated one, and after a request so do a push and a pop. */
  lemma OperationsAreRuns(requested: bool, stack: seq<Callback>, cb: Callback, called: seq<Callback>)
    ensures Runs.Exec(Step, Resting(requested, stack, cb.id, called), [Request(0)] + CallTopSteps(stack))
         == Some(CalledState(stack, cb.id, called))
    ensures Runs.Exec(Step, Resting(true, stack, cb.id, called),
                      [Push(0, cb.popsItself)] + CallTopSteps(stack + [cb]))
         == Some(CalledState(stack + [cb], cb.id + 1, called))
    ensures Runs.Exec(Step, Resting(true, stack + [cb], cb.id, called), [Pop(0)] + CallTopSteps(stack))
         == Some(CalledState(stack, cb.id, called))
  {
    assert [None][0 := Top(stack)] == [Top(stack)] && [None][0 := Some(cb)] == [Top(stack + [cb])];
    assert (stack + [cb])[..|stack|] == stack;
    CallTopIsRun(stack, cb.id, called);
    CallTopIsRun(stack + [cb], cb.id + 1, called);
    Runs.ExecCons(Step, Resting(requested, stack, cb.id, called), Request(0), Holding(stack, cb.id, called),
                  CallTopSteps(stack));
    Runs.ExecCons(Step, Resting(true, stack, cb.id, called), Push(0, cb.popsItself),
                  Holding(stack + [cb], cb.id + 1, called), CallTopSteps(stack + [cb]));
    Runs.ExecCons(Step, Resting(true, stack + [cb], cb.id, called), Pop(0), Holding(stack, cb.id, called),
                  CallTopSteps(stack));
  }

  /** A token used by one thread; called records the callbacks it calls. */
  class CancelationToken {
    var requested: bool
    var doCancels: seq<Callback>
    var pushed: nat
    var called: seq<Callback>

    function View(): Token
      reads this
    {
      Token(requested, doCancels)
    }

    constructor ()
      ensures View() == Token(false, []) && pushed == 0 && called == []
    {
      requested, doCancels, pushed, called := false, [], 0, [];
    }

    method PushCancelationCallback(popsItself: bool) returns (cb: Callback)
      modifies this
      ensures requested == old(requested) && cb == Callback(old(pushed), popsItself) && pushed == old(pushed) + 1
      ensures !requested ==> doCancels == old(doCancels) + [cb] && called == old(called)
      ensures requested ==> AfterCall(old(doCancels) + [cb], old(called))
    {
      cb := Callback(pushed, popsItself);
      pushed := pushed + 1;
      doCancels := doCancels + [cb];
      if requested {
        CallTop();
      }
    }

    method PopCancelationCallback()
      requires doCancels != []
      modifies this`requested, this`doCancels, this`called
      ensures requested == old(requested)
      ensures !requested ==> doCancels == old(doCancels)[..|old(doCancels)| - 1] && called == old(called)
      ensures requested ==> AfterCall(old(doCancels)[..|old(doCancels)| - 1], old(called))
      decreases |doCancels|, 0
    {
      doCancels := doCancels[..|doCancels| - 1];
      if requested && doCancels != [] {
        CallTop();
      }
    }

    method RequestCancel()
      modifies this`requested, this`doCancels, this`called
      ensures requested && AfterCall(old(doCancels), old(called))
    {
      requested := true;
      if doCancels != [] {
        CallTop();
      }
    }

    /** The token after the top of stack was called, when before had been called so far. */
    predicate AfterCall(stack: seq<Callback>, before: seq<Callback>)
      reads this
    {
      doCancels == stack[..Kept(stack)] && called == before + Called(stack)
    }

    /** Calls the callback on top of the stack, which may pop itself. */
    method CallTop()
      requires requested && doCancels != []
      modifies this`requested, this`doCancels, this`called
      ensures requested && AfterCall(old(doCancels), old(called))
      decreases |doCancels|, 1
    {
      var rest, current := doCancels[..|doCancels| - 1], doCancels[|doCancels| - 1];
      ghost var stack, before := doCancels, called;
      assert stack == rest + [current] by { assert stack[..|rest|] == rest; }
      called := called + [current];
      if current.popsItself {
        PopCancelationCallback();
        assert doCancels == rest[..Kept(rest)] && called == before + [current] + Called(rest);
        assert stack[..Kept(rest)] == rest[..Kept(rest)];
      }
      CalledFromTop(rest, current);
      assert before + [current] + [] == before + [current];
      assert before + [current] + Called(rest) == before + ([current] + Called(rest));
    }

    /** A cancel request inside nested scopes, which then end from the innermost to the outermost: every
        callback is called exactly once, in LIFO order. */
    method RequestThenUnwind()
      requires !requested
      modifies this`requested, this`doCancels, this`called
      ensures doCancels == [] && called == old(called) + Reversed(old(doCancels))
    {
      ghost var start, before := doCancels, called;
      ghost var n := Kept(start);
      RequestCancel();
      while doCancels != []
        invariant requested && 0 <= n <= |start| && doCancels == start[..n]
        invariant called == before + Reversed(start[Floor(n)..])
        decreases n
      {
        UnwoundOnce(start, before, n - 1);
        assert doCancels[..n - 1] == start[..n - 1];
        n := Kept(start[..n - 1]);
        PopCancelationCallback();
      }
      assert start[0..] == start;
    }
  }

  /** The lowest callback called so far when n are left on the stack. */
  function Floor(n: nat): nat {
    if n == 0 then 0 else n - 1
  }

  /** Popping down to the first n callbacks of start, when those above were called, calls on. */
  lemma UnwoundOnce(start: seq<Callback>, before: seq<Callback>, n: nat)
    requires n < |start|
    ensures start[..n][..Kept(start[..n])] == start[..Kept(start[..n])]
    ensures before + Reversed(start[n..]) + Called(start[..n]) == before + Reversed(start[Floor(Kept(start[..n]))..])
  {
    var rest := start[..n];
    var lo := LastCalled(rest);
    assert start[lo..] == rest[lo..] + start[n..];
    ReversedAppend(rest[lo..], start[n..]);
    var above := Reversed(start[n..]);
    assert before + above + Called(rest) == before + (above + Called(rest));
  }
}
