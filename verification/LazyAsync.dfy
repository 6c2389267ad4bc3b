/** lazy::async: a task on an executor against the canceler of the receiver's token.

    One thread submits the sender, one runs the posted task, and any number request a cancelation. The
    token's mutex is held while a canceler runs; fired decides who calls the receiver. */
module LazyAsync {
  import opened Outcomes
  import Runs

  /** What the receiver gets: set_value or set_done. */
  datatype Signal = ValueSet | DoneSet

  datatype Thread = Submitter | Executor | Canceler(i: nat)

  /** A thread is about to start; inside the canceler before or after it won fired; past the canceler; or
      through. For the executor, InCanceler and Won stand for the same points of the posted task. */
  datatype Pc = Start | InCanceler | Won | Leaving | End

  /** canceled and installed are the token's flag and whether it has a canceler; lock is its mutex. fired tells
      who flipped the flag of that name. */
  datatype State = State(
    canceled: bool,
    installed: bool,
    lock: Option<Thread>,
    fired: Option<Thread>,
    posted: bool,
    received: seq<Signal>,
    submitter: Pc,
    executor: Pc,
    cancelers: seq<Pc>)

  /** Each action is the next atomic step of a thread. */
  datatype Action = Action(thread: Thread)

  function PcOf(s: State, t: Thread): Pc {
    match t
    case Submitter => s.submitter
    case Executor => s.executor
    case Canceler(i) => if i < |s.cancelers| then s.cancelers[i] else End
  }

  function Go(s: State, t: Thread, pc: Pc): State {
    match t
    case Submitter => s.(submitter := pc)
    case Executor => s.(executor := pc)
    case Canceler(i) => if i < |s.cancelers| then s.(cancelers := s.cancelers[i := pc]) else s
  }

  /** The first step of set_canceler, of the posted task, or of request_cancel. */
  function Begin(s: State, t: Thread): Option<State> {
    if t == Executor then (if s.posted then Some(Go(s, t, InCanceler)) else None)
    else if s.lock.Some? then None
    else if t == Submitter then
      Some(if s.canceled then Go(s.(installed := true, lock := Some(t)), t, InCanceler)
           else Go(s.(installed := true, lock := None), t, Leaving))
    else if s.canceled then Some(Go(s, t, End))
    else
      Some(if s.installed then Go(s.(canceled := true, lock := Some(t)), t, InCanceler)
           else Go(s.(canceled := true, lock := None), t, End))
  }

  /** fired.exchange(true), in the posted task and in the canceler; the loser is done with it. */
  function Race(s: State, t: Thread): State {
    if s.fired.None? then Go(s.(fired := Some(t)), t, Won) else Leave(s, t)
  }

  /** A thread leaves the canceler, or the posted task. */
  function Leave(s: State, t: Thread): State {
    if t == Executor then Go(s, t, End)
    else Go(s.(lock := None), t, if t == Submitter then Leaving else End)
  }

  /** The winner calls the receiver, which resets the token; the executor has to take the mutex for that. */
  function Signalling(s: State, t: Thread): Option<State> {
    if t == Executor && s.lock.Some? then None
    else Some(Leave(s.(installed := false, received := s.received + [if t == Executor then ValueSet else DoneSet]), t))
  }

  function Step(s: State, a: Action): Option<State> {
    var t := a.thread;
    match PcOf(s, t)
    case Start => Begin(s, t)
    case InCanceler => Some(Race(s, t))
    case Won => Signalling(s, t)
    case Leaving => Some(Go(s.(posted := s.posted || t == Submitter), t, End))
    case End => None
  }

  /** submit() with n threads that may request a cancelation, the token being canceled already or not. */
  function Init(n: nat, canceled: bool): State {
    State(canceled, false, None, None, false, [], Start, Start, seq(n, _ => Start))
  }

  predicate Exists(s: State, t: Thread) {
    t.Canceler? ==> t.i < |s.cancelers|
  }

  // ----- the invariant -----

  /** A thread holds the mutex exactly while it is inside the canceler, and the one that fired has still to
      signal exactly while nothing was received. */
  ghost predicate ThreadOk(s: State, t: Thread) {
    var pc := PcOf(s, t);
    && (t != Executor ==> (pc in {InCanceler, Won} <==> s.lock == Some(t)))
    && (t != Executor && pc in {InCanceler, Won} ==> s.canceled)
    && (pc == Won <==> s.fired == Some(t) && s.received == [])
    && (t != Submitter ==> pc != Leaving)
  }

  ghost predicate StateOk(s: State) {
    && (s.lock.Some? ==> s.lock.value != Executor && Exists(s, s.lock.value))
    && (s.fired.Some? ==> Exists(s, s.fired.value) && (s.fired.value == Executor || s.canceled))
    && (s.received != [] ==> s.fired.Some? && s.received == [if s.fired.value == Executor then ValueSet else DoneSet])
    && (s.executor == End ==> s.fired.Some?)
    && (s.executor == Start ==> s.fired != Some(Executor))
    && (s.executor != Start ==> s.posted)
    && (s.posted <==> s.submitter == End)
    && (s.canceled && s.submitter != Start && s.lock.None? ==> s.fired.Some?)
    && (!s.canceled && s.submitter != Start && s.received == [] ==> s.installed)
  }

  ghost predicate Inv(s: State) {
    StateOk(s) && forall t :: Exists(s, t) ==> ThreadOk(s, t)
  }

  lemma GoPc(s: State, t: Thread, pc: Pc, u: Thread)
    requires Exists(s, t)
    ensures PcOf(Go(s, t, pc), u) == if u == t then pc else PcOf(s, u)
  {
  }

  lemma StepKeepsActor(s: State, a: Action)
    requires Inv(s) && Step(s, a).Some? && Exists(s, a.thread)
    ensures ThreadOk(Step(s, a).value, a.thread)
  {
    assert ThreadOk(s, a.thread);
  }

  lemma StepKeepsOther(s: State, a: Action, t: Thread)
    requires Inv(s) && Step(s, a).Some? && Exists(s, a.thread) && Exists(s, t) && t != a.thread
    ensures ThreadOk(Step(s, a).value, t)
  {
    assert ThreadOk(s, t) && ThreadOk(s, a.thread);
    GoPc(s, a.thread, PcOf(Step(s, a).value, a.thread), t);
    assert PcOf(Step(s, a).value, t) == PcOf(s, t);
  }

  lemma BeginKeepsState(s: State, t: Thread)
    requires Inv(s) && PcOf(s, t) == Start && Begin(s, t).Some?
    ensures StateOk(Begin(s, t).value)
  {
    assert ThreadOk(s, t) && ThreadOk(s, Submitter) && ThreadOk(s, Executor);
  }

  lemma RaceKeepsState(s: State, t: Thread)
    requires Inv(s) && Exists(s, t) && PcOf(s, t) == InCanceler
    ensures StateOk(Race(s, t))
  {
    assert ThreadOk(s, t) && ThreadOk(s, Submitter) && ThreadOk(s, Executor);
  }

  lemma SignallingKeepsState(s: State, t: Thread)
    requires Inv(s) && Exists(s, t) && PcOf(s, t) == Won && Signalling(s, t).Some?
    ensures StateOk(Signalling(s, t).value)
  {
    assert ThreadOk(s, t) && ThreadOk(s, Submitter) && ThreadOk(s, Executor);
  }

  lemma StepKeepsState(s: State, a: Action)
    requires Inv(s) && Step(s, a).Some?
    ensures StateOk(Step(s, a).value)
  {
    var t := a.thread;
    match PcOf(s, t)
    case Start => BeginKeepsState(s, t);
    case InCanceler => RaceKeepsState(s, t);
    case Won => SignallingKeepsState(s, t);
    case Leaving => assert ThreadOk(s, t) && ThreadOk(s, Executor);
  }

  lemma StepKeepsFrame(s: State, a: Action)
    requires Step(s, a).Some?
    ensures Exists(s, a.thread) && |Step(s, a).value.cancelers| == |s.cancelers|
    ensures s.canceled ==> Step(s, a).value.canceled
  {
  }

  lemma StepKeepsInv(s: State, a: Action)
    requires Inv(s) && Step(s, a).Some?
    ensures var s' := Step(s, a).value; Inv(s') && |s'.cancelers| == |s.cancelers| && (s.canceled ==> s'.canceled)
  {
    StepKeepsState(s, a);
    StepKeepsFrame(s, a);
    var s' := Step(s, a).value;
    forall t | Exists(s', t) ensures ThreadOk(s', t) {
      if t == a.thread {
        StepKeepsActor(s, a);
      } else {
        StepKeepsOther(s, a, t);
      }
    }
  }

  lemma ReachableInv(n: nat, canceled: bool, acts: seq<Action>, s: State)
    requires Runs.Exec(Step, Init(n, canceled), acts) == Some(s)
    ensures Inv(s) && |s.cancelers| == n && (canceled ==> s.canceled)
  {
    var inv := (u: State) => Inv(u) && |u.cancelers| == n && (canceled ==> u.canceled);
    forall u, a | inv(u) && Step(u, a).Some? ensures inv(Step(u, a).value) { StepKeepsInv(u, a); }
    Runs.Invariance(Step, inv, Init(n, canceled), acts);
  }

  // ----- what every interleaving guarantees -----

  /** The receiver is called at most once, with set_done only after a cancelation; when the submitter and the
      posted task are through and the mutex is free, it has been called exactly once. */
  lemma ExactlyOneSignal(n: nat, canceled: bool, acts: seq<Action>, s: State)
    requires Runs.Exec(Step, Init(n, canceled), acts) == Some(s)
    ensures |s.received| <= 1
    ensures s.received == [DoneSet] ==> s.canceled
    ensures s.submitter == End && s.executor == End && s.lock.None? ==> |s.received| == 1
  {
    ReachableInv(n, canceled, acts, s);
    if s.fired.Some? {
      assert ThreadOk(s, s.fired.value);
    }
  }

  /** A cancelation that comes before the posted task has started wins: once its request or the submission is
      out of the canceler, the receiver has got set_done. */
  lemma EarlyCancelWins(n: nat, canceled: bool, acts: seq<Action>, s: State)
    requires Runs.Exec(Step, Init(n, canceled), acts) == Some(s)
    requires s.canceled && s.submitter != Start && s.executor == Start && s.lock.None?
    ensures s.received == [DoneSet]
  {
    ReachableInv(n, canceled, acts, s);
    assert ThreadOk(s, s.fired.value);
  }

  /** The thread has begun to request a cancelation. */
  ghost predicate Requested(s: State) {
    exists i :: 0 <= i < |s.cancelers| && s.cancelers[i] != Start
  }

  /** The canceler is set by submit and stays until the receiver is called, and nothing is called before. */
  ghost predicate CancelerOk(s: State) {
    && (s.installed ==> s.submitter != Start && s.received == [])
    && (s.lock.Some? || s.fired.Some? ==> s.submitter != Start)
  }

  lemma StepKeepsCanceler(s: State, a: Action)
    requires Inv(s) && CancelerOk(s) && Step(s, a).Some?
    ensures CancelerOk(Step(s, a).value)
  {
    assert ThreadOk(s, a.thread) && ThreadOk(s, Submitter) && ThreadOk(s, Executor);
  }

  lemma StepKeepsFlag(canceled: bool, s: State, a: Action)
    requires (s.canceled <==> canceled || Requested(s)) && Step(s, a).Some?
    ensures var s' := Step(s, a).value; s'.canceled <==> canceled || Requested(s')
  {
    var s' := Step(s, a).value;
    if a.thread.Canceler? {
      assert s'.cancelers == s.cancelers[a.thread.i := PcOf(s', a.thread)];
      assert s.cancelers[a.thread.i] != Start ==> Requested(s);
      assert s'.cancelers[a.thread.i] != Start;
      assert Requested(s');
    } else {
      assert s'.cancelers == s.cancelers;
    }
  }

  lemma ReachableToken(n: nat, canceled: bool, acts: seq<Action>, s: State)
    requires Runs.Exec(Step, Init(n, canceled), acts) == Some(s)
    ensures Inv(s) && CancelerOk(s) && (s.canceled <==> canceled || Requested(s))
  {
    var inv := (u: State) => Inv(u) && CancelerOk(u) && (u.canceled <==> canceled || Requested(u));
    forall u, a | inv(u) && Step(u, a).Some? ensures inv(Step(u, a).value) {
      StepKeepsInv(u, a);
      StepKeepsCanceler(u, a);
      StepKeepsFlag(canceled, u, a);
    }
    ReachableInv(n, canceled, [], Init(n, canceled));
    Runs.Invariance(Step, inv, Init(n, canceled), acts);
  }

  /** The token is canceled exactly if it was before or some thread has requested it, and only the first request calls
      the canceler, if submit has set it and the receiver has got nothing yet. */
  lemma FirstRequestCalls(n: nat, canceled: bool, acts: seq<Action>, s: State, i: nat)
    requires Runs.Exec(Step, Init(n, canceled), acts) == Some(s)
    ensures s.canceled <==> canceled || Requested(s)
    ensures i < |s.cancelers| && s.cancelers[i] == Start && Step(s, Action(Canceler(i))).Some? ==>
      (PcOf(Step(s, Action(Canceler(i))).value, Canceler(i)) == InCanceler <==>
         !canceled && !Requested(s) && s.submitter != Start && s.received == [])
  {
    ReachableToken(n, canceled, acts, s);
  }

  /** While a thread holds the mutex no other one changes the token or calls the receiver, which resets it. */
  lemma LockExcludes(n: nat, canceled: bool, acts: seq<Action>, s: State, a: Action)
    requires Runs.Exec(Step, Init(n, canceled), acts) == Some(s)
    requires s.lock.Some? && s.lock.value != a.thread && Step(s, a).Some?
    ensures var s' := Step(s, a).value;
      s' == Go(s, a.thread, PcOf(s', a.thread)).(fired := s'.fired, posted := s'.posted)
  {
    ReachableInv(n, canceled, acts, s);
    assert ThreadOk(s, a.thread);
  }

  /** Without a cancelation the receiver gets set_value. */
  lemma UncanceledGetsValue(n: nat, acts: seq<Action>, s: State)
    requires Runs.Exec(Step, Init(n, false), acts) == Some(s) && !s.canceled && s.executor == End
    ensures s.received == [ValueSet]
  {
    ReachableInv(n, false, acts, s);
    assert ThreadOk(s, s.fired.value);
  }

  /** Until the submission and the task are through, some thread can take a step. */
  lemma NoDeadlock(n: nat, canceled: bool, acts: seq<Action>, s: State) returns (a: Action)
    requires Runs.Exec(Step, Init(n, canceled), acts) == Some(s)
    requires s.submitter != End || s.executor != End
    ensures Step(s, a).Some?
  {
    ReachableInv(n, canceled, acts, s);
    if s.lock.Some? {
      a := Action(s.lock.value);
      assert ThreadOk(s, s.lock.value);
    } else {
      a := Action(if s.submitter != End then Submitter else Executor);
    }
  }

  // ----- whole calls -----

  /** The state when a thread inside the canceler, and nobody else, goes on until it has left it. */
  function LeftCanceler(s: State, t: Thread): State {
    Leave(if s.fired.Some? then s else s.(fired := Some(t), installed := false, received := s.received + [DoneSet]), t)
  }

  lemma CancelerLeaves(s: State, t: Thread)
    requires t != Executor && Exists(s, t) && PcOf(s, t) == InCanceler
    ensures Runs.Exec(Step, s, if s.fired.Some? then [Action(t)] else [Action(t), Action(t)])
         == Some(LeftCanceler(s, t))
  {
    if s.fired.Some? {
      Runs.ExecSnoc(Step, s, [], Action(t), s);
      assert [] + [Action(t)] == [Action(t)];
    } else {
      GoPc(s.(fired := Some(t)), t, Won, t);
      if t.Canceler? {
        assert s.cancelers[t.i := Won][t.i := End] == s.cancelers[t.i := End];
      }
      Runs.ExecTwo(Step, s, Action(t), Action(t), Race(s, t), LeftCanceler(s, t));
    }
  }

  // ----- the class -----

  /** A sender being run, between calls: no canceler is running. Each method is a run of its thread. */
  class AsyncData {
    var canceled: bool
    var installed: bool
    var fired: Option<Thread>
    var posted: bool
    var received: seq<Signal>
    var submitter: Pc
    var executor: Pc
    var cancelers: seq<Pc>

    function View(): State
      reads this
    {
      State(canceled, installed, None, fired, posted, received, submitter, executor, cancelers)
    }

    constructor (n: nat, canceled: bool)
      ensures View() == Init(n, canceled)
    {
      this.canceled, installed, fired, posted, received := canceled, false, None, false, [];
      submitter, executor, cancelers := Start, Start, seq(n, _ => Start);
    }

    /** fired.exchange(true) */
    method Exchange(t: Thread) returns (was: bool)
      modifies this`fired
      ensures was == old(fired).Some? && fired == if was then old(fired) else Some(t)
    {
      was := fired.Some?;
      if !was {
        fired := Some(t);
      }
    }

    /** The canceler, called by thread t. */
    method CallCanceler(t: Thread)
      modifies this`fired, this`installed, this`received
      ensures fired == if old(fired).Some? then old(fired) else Some(t)
      ensures installed == (old(installed) && old(fired).Some?)
      ensures received == old(received) + if old(fired).Some? then [] else [DoneSet]
    {
      var was := Exchange(t);
      if was {
        return;
      }
      installed, received := false, received + [DoneSet];
    }

    /** submit(): it sets the canceler, which is called at once after a cancelation, and posts the task. */
    method Submit() returns (ghost acts: seq<Action>)
      requires submitter == Start
      modifies this
      ensures Runs.Exec(Step, old(View()), acts) == Some(View()) && posted
      ensures received == old(received) + if canceled && old(fired).None? then [DoneSet] else []
    {
      ghost var s0 := View();
      ghost var s1 := Begin(s0, Submitter).value;
      installed := true;
      if canceled {
        CallCanceler(Submitter);
      }
      posted, submitter := true, End;
      ghost var last := Action(Submitter);
      if canceled {
        CancelerLeaves(s1, Submitter);
        ghost var inside := if s0.fired.Some? then [last] else [last, last];
        Runs.ExecSnoc(Step, s1, inside, last, LeftCanceler(s1, Submitter));
        acts := [last] + (inside + [last]);
        assert acts[0] == last && acts[1..] == inside + [last];
        ghost var left := LeftCanceler(s1, Submitter);
        assert left.received == received && left.installed == installed && left.submitter == Leaving;
        assert Step(left, last) == Some(View());
      } else {
        acts := [last, last];
        Runs.ExecTwo(Step, s0, last, last, s1, View());
      }
    }

    /** The posted task. */
    method RunTask() returns (ghost acts: seq<Action>)
      requires posted && executor == Start
      modifies this
      ensures Runs.Exec(Step, old(View()), acts) == Some(View())
      ensures received == old(received) + if old(fired).Some? then [] else [ValueSet]
    {
      ghost var s0, a := View(), Action(Executor);
      ghost var s1 := Go(s0, Executor, InCanceler);
      var was := Exchange(Executor);
      executor := End;
      Runs.ExecTwo(Step, s0, a, a, s1, Race(s1, Executor));
      acts := [a, a];
      if was {
        return;
      }
      installed, received := false, received + [ValueSet];
      Runs.ExecSnoc(Step, s0, acts, a, Race(s1, Executor));
      acts := acts + [a];
    }

    /** request_cancel() by the i-th canceling thread. */
    method RequestCancelation(i: nat) returns (ghost acts: seq<Action>)
      requires i < |cancelers| && cancelers[i] == Start
      modifies this
      ensures Runs.Exec(Step, old(View()), acts) == Some(View()) && canceled
      ensures received == old(received) + if !old(canceled) && old(installed) && old(fired).None? then [DoneSet] else []
    {
      ghost var s0, t := View(), Canceler(i);
      ghost var s1 := Begin(s0, t).value;
      var first := !canceled;
      canceled := true;
      if first && installed {
        CallCanceler(Canceler(i));
      }
      cancelers := cancelers[i := End];
      if first && s0.installed {
        GoPc(s0.(canceled := true, lock := Some(t)), t, InCanceler, t);
        CancelerLeaves(s1, t);
        ghost var inside := if s0.fired.Some? then [Action(t)] else [Action(t), Action(t)];
        acts := [Action(t)] + inside;
        assert acts[0] == Action(t) && acts[1..] == inside;
        assert s0.cancelers[i := InCanceler][i := End] == s0.cancelers[i := End];
        assert LeftCanceler(s1, t) == View();
      } else {
        acts := [Action(t)];
        Runs.ExecSnoc(Step, s0, [], Action(t), s0);
        assert [] + [Action(t)] == acts;
      }
    }
  }
}
