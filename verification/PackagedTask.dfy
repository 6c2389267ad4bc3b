/** The race to settle a packaged task.

    A task's shared state counts its promises and can be settled by three parties: a thread that runs the
    task, a thread that calls the task's cancelation callback, and the thread that drops the last promise.
    Every action below is one atomic operation or one critical section of one of any number of threads,
    so a run of Step is an interleaving. A call nested in another one on the same thread counts as a
    thread of its own. Template results are modelled as int. */
module PackagedTask {
  import opened Outcomes
  import Runs

  type Result = Outcome<int>

  datatype Settler = Runner | Canceler | LastDrop

  datatype Settlement = Settlement(who: Settler, outcome: Result)

  /** The fields of shared<R(Args...)> and of its base: the state variant, the token pointer, the promise
      count, the _done flag, whether _f still holds the callback, and how many entries of this task are on
      the cancelation token's stack. */
  datatype Cell = Cell(
    cancelable: bool,
    r: Option<Settlement>,
    token: bool,
    count: nat,
    done: bool,
    f: bool,
    onToken: nat)

  /** Where a thread stands inside promise_ptr, shared::operator() or packaged_task_canceler.
      CopyFailed, SetTwice, PopEmpty and NullDeref stand for assertion failures and undefined behaviour. */
  datatype Pc =
    | Idle
    | CopyLoaded(seen: nat)
    | DropZero
    | DropSettle
    | RunWon
    | RunCall
    | RunSettle(o: Result)
    | RunClear
    | CancelLoaded(seen: nat)
    | CancelLocked
    | CancelWon
    | CancelSettle
    | CancelRelease
    | CopyFailed
    | SetTwice
    | PopEmpty
    | NullDeref

  /** owned is the number of promise_ptr objects this thread keeps alive. */
  datatype Thread = Thread(pc: Pc, owned: nat)

  datatype State = State(cell: Cell, threads: seq<Thread>)

  datatype Action =
    | CopyLoad(t: nat)
    | CopyCas(t: nat, spurious: bool)
    | Move(t: nat, u: nat)
    | Drop(t: nat)
    | DropCheck(t: nat)
    | DropFinish(t: nat)
    | RunExchange(t: nat)
    | RunPop(t: nat)
    | RunReturn(t: nat, o: Result)
    | RunFinish(t: nat)
    | RunReset(t: nat)
    | CancelLoad(t: nat)
    | CancelCas(t: nat, spurious: bool)
    | CancelExchange(t: nat)
    | CancelPop(t: nat)
    | CancelFinish(t: nat)
    | CancelUnlock(t: nat)

  // ----- the atomic operations on the cell -----

  /** detail::package: one promise, and a callback pushed on the token when the task is cancelable. */
  function Packaged(cancelable: bool): Cell {
    Cell(cancelable, None, true, 1, false, true, if cancelable then 1 else 0)
  }

  /** The critical section of shared_base::finish: it stores the outcome and drops the token. */
  function Settle(c: Cell, who: Settler, o: Result): Cell {
    c.(r := Some(Settlement(who, o)), token := false)
  }

  function Popped(c: Cell): Cell
    requires c.onToken > 0
  {
    c.(onToken := c.onToken - 1)
  }

  // ----- the threads -----

  /** A thread that reaches finish: the assertion in it fails when the state is already set. */
  function FinishAs(c: Cell, th: Thread, who: Settler, o: Result, next: Pc): (Cell, Thread) {
    if c.r.Some? then (c, th.(pc := SetTwice)) else (Settle(c, who, o), th.(pc := next))
  }

  /** A thread that decrements the promise count. */
  function Release(c: Cell, th: Thread): (Cell, Thread)
    requires c.count > 0
  {
    (c.(count := c.count - 1), th.(pc := if c.count == 1 then DropZero else Idle))
  }

  /** The actions of one thread on the cell, which are all but moving a promise to another thread. */
  function Local(c: Cell, th: Thread, a: Action): Option<(Cell, Thread)> {
    var pc := th.pc;
    match a
    case CopyLoad(_) =>
      if pc == Idle && th.owned > 0 then Some((c, th.(pc := CopyLoaded(c.count)))) else None
    case CopyCas(_, spurious) =>
      if !pc.CopyLoaded? then None
      else if pc.seen == 0 then Some((c, th.(pc := CopyFailed)))
      else if c.count == pc.seen && !spurious then Some((c.(count := c.count + 1), Thread(Idle, th.owned + 1)))
      else Some((c, th.(pc := CopyLoaded(c.count))))
    case Move(_, _) => None
    case Drop(_) =>
      if pc == Idle && th.owned > 0 && c.count > 0 then Some(Release(c, th.(owned := th.owned - 1))) else None
    case DropCheck(_) =>
      if pc == DropZero then Some((c, th.(pc := if c.r.None? then DropSettle else Idle))) else None
    case DropFinish(_) =>
      if pc == DropSettle then Some(FinishAs(c, th, LastDrop, Exception(BrokenPromise), Idle)) else None
    case RunExchange(_) =>
      if pc == Idle && th.owned > 0 then Some((c.(done := true), th.(pc := if c.done then Idle else RunWon))) else None
    case RunPop(_) =>
      if pc != RunWon then None
      else if !c.cancelable then Some((c, th.(pc := RunCall)))
      else if !c.token then Some((c, th.(pc := NullDeref)))
      else if c.onToken == 0 then Some((c, th.(pc := PopEmpty)))
      else Some((Popped(c), th.(pc := RunCall)))
    case RunReturn(_, o) =>
      if pc != RunCall then None
      else if !c.token || !c.f then Some((c, th.(pc := NullDeref)))
      else Some((c, th.(pc := RunSettle(o))))
    case RunFinish(_) => if pc.RunSettle? then Some(FinishAs(c, th, Runner, pc.o, RunClear)) else None
    case RunReset(_) => if pc == RunClear then Some((c.(f := false), th.(pc := Idle))) else None
    case CancelLoad(_) =>
      if pc == Idle && c.cancelable then Some((c, th.(pc := CancelLoaded(c.count)))) else None
    case CancelCas(_, spurious) =>
      if !pc.CancelLoaded? then None
      else if pc.seen == 0 then Some((c, th.(pc := Idle)))
      else if c.count == pc.seen && !spurious then Some((c.(count := c.count + 1), th.(pc := CancelLocked)))
      else Some((c, th.(pc := CancelLoaded(c.count))))
    case CancelExchange(_) =>
      if pc == CancelLocked then
        Some((c.(done := true), th.(pc := if c.done then CancelRelease else CancelWon)))
      else None
    case CancelPop(_) =>
      if pc != CancelWon then None
      else if !c.token then Some((c, th.(pc := NullDeref)))
      else if c.onToken == 0 then Some((c, th.(pc := PopEmpty)))
      else Some((Popped(c).(f := false), th.(pc := CancelSettle)))
    case CancelFinish(_) =>
      if pc == CancelSettle then Some(FinishAs(c, th, Canceler, Exception(OperationCanceled), CancelRelease)) else None
    case CancelUnlock(_) => if pc == CancelRelease && c.count > 0 then Some(Release(c, th)) else None
  }

  function Moved(ts: seq<Thread>, t: nat, u: nat): seq<Thread>
    requires t < |ts| && u < |ts| && t != u && ts[t].owned > 0
  {
    ts[t := ts[t].(owned := ts[t].owned - 1)][u := ts[u].(owned := ts[u].owned + 1)]
  }

  function Step(s: State, a: Action): Option<State> {
    if a.t >= |s.threads| then None
    else if a.Move? then
      if s.threads[a.t].pc == Idle && s.threads[a.t].owned > 0 && a.u < |s.threads| && a.u != a.t then
        Some(s.(threads := Moved(s.threads, a.t, a.u)))
      else None
    else
      match Local(s.cell, s.threads[a.t], a)
      case None => None
      case Some((c, th)) => Some(State(c, s.threads[a.t := th]))
  }

  /** package() on thread 0 of n threads. */
  function Init(cancelable: bool, n: nat): State
    requires n > 0
  {
    State(Packaged(cancelable), seq(n, i => Thread(Idle, if i == 0 then 1 else 0)))
  }

  // ----- counting promises -----

  /** The promises a thread keeps alive, with the one that packaged_task_canceler locks. */
  function Held(th: Thread): nat {
    th.owned + if th.pc in {CancelLocked, CancelWon, CancelSettle, CancelRelease} then 1 else 0
  }

  function Total(ts: seq<Thread>): nat {
    if ts == [] then 0 else Held(ts[0]) + Total(ts[1..])
  }

  lemma {:induction false} TotalUpdate(ts: seq<Thread>, t: nat, th: Thread)
    requires t < |ts|
    ensures Total(ts[t := th]) == Total(ts) - Held(ts[t]) + Held(th)
  {
    var us := ts[t := th];
    if t == 0 {
      assert us[1..] == ts[1..];
    } else {
      assert us[1..] == ts[1..][t - 1 := th];
      TotalUpdate(ts[1..], t - 1, th);
    }
  }

  lemma {:induction false} TotalAtLeast(ts: seq<Thread>, t: nat)
    requires t < |ts|
    ensures Total(ts) >= Held(ts[t])
  {
    if t > 0 {
      TotalAtLeast(ts[1..], t - 1);
    }
  }

  // ----- the invariant -----

  /** Between winning _done and settling. */
  predicate Winner(pc: Pc) {
    pc in {RunWon, RunCall, CancelWon, CancelSettle} || pc.RunSettle?
  }

  predicate Dropping(pc: Pc) {
    pc in {DropZero, DropSettle}
  }

  predicate Running(pc: Pc) {
    pc in {RunWon, RunCall, RunClear} || pc.RunSettle? || pc.CopyLoaded?
  }

  predicate Failed(pc: Pc) {
    pc in {CopyFailed, SetTwice, PopEmpty, NullDeref}
  }

  /** What a thread may rely on at each point of its program. */
  ghost predicate ThreadOk(c: Cell, th: Thread) {
    && !Failed(th.pc)
    && (Running(th.pc) ==> th.owned > 0)
    && (th.pc.CopyLoaded? ==> th.pc.seen > 0)
    && (th.pc.CancelLoaded? || th.pc in {CancelLocked, CancelWon, CancelSettle, CancelRelease} ==> c.cancelable)
    && (th.pc.CancelLoaded? && th.pc.seen == 0 ==> c.count == 0)
    && (Dropping(th.pc) ==> c.count == 0)
    && (th.pc == DropSettle ==> c.r.None?)
    && (Winner(th.pc) ==> c.done && c.r.None?)
    && (th.pc in {RunWon, CancelWon} ==> c.f && c.onToken == if c.cancelable then 1 else 0)
    && (th.pc == RunCall ==> c.f)
    && (th.pc == RunClear ==> c.done && c.r.Some?)
    && (th.pc in {RunCall, CancelSettle} || th.pc.RunSettle? ==> c.onToken == 0)
  }

  ghost predicate CellOk(c: Cell) {
    && (c.token <==> c.r.None?)
    && (!c.done ==> c.f && c.onToken == if c.cancelable then 1 else 0)
    && (c.r.Some? ==> (c.done <==> c.r.value.who != LastDrop))
    && (c.r.Some? && c.r.value.who == LastDrop ==> c.count == 0 && c.r.value.outcome == Exception(BrokenPromise))
    && (c.r.Some? && c.r.value.who == Canceler ==> c.cancelable && c.r.value.outcome == Exception(OperationCanceled))
    && (c.r.Some? && c.r.value.who != LastDrop ==> c.onToken == 0)
  }

  /** Every promise is accounted for. */
  ghost predicate Counted(s: State) {
    s.cell.count == Total(s.threads)
  }

  /** No two threads with the property. */
  ghost predicate AtMostOne(ts: seq<Thread>, p: Pc -> bool) {
    forall t, u :: 0 <= t < u < |ts| ==> !(p(ts[t].pc) && p(ts[u].pc))
  }

  /** One winner of _done and one thread that dropped the last promise, at most. */
  ghost predicate Exclusive(s: State) {
    && CellOk(s.cell)
    && (forall t :: 0 <= t < |s.threads| ==> ThreadOk(s.cell, s.threads[t]))
    && AtMostOne(s.threads, Winner) && AtMostOne(s.threads, Dropping)
  }

  /** An unsettled task that nobody can win any more has a thread about to settle it. */
  ghost predicate Attended(s: State) {
    && (s.cell.done && s.cell.r.None? ==> exists t :: 0 <= t < |s.threads| && Winner(s.threads[t].pc))
    && (s.cell.count == 0 && s.cell.r.None? ==> exists t :: 0 <= t < |s.threads| && Dropping(s.threads[t].pc))
  }

  ghost predicate Inv(s: State) {
    Counted(s) && Exclusive(s) && Attended(s)
  }

  // ----- one action of one thread -----

  /** While a thread holds a promise, or somebody has won and not yet settled, the count is positive. */
  predicate Backed(c: Cell, th: Thread) {
    Held(th) > 0 || (c.done && c.r.None?) ==> c.count > 0
  }

  predicate OfPromise(a: Action) {
    a.CopyLoad? || a.CopyCas? || a.Drop? || a.DropCheck? || a.DropFinish?
  }

  predicate OfRunner(a: Action) {
    a.RunExchange? || a.RunPop? || a.RunReturn? || a.RunFinish? || a.RunReset?
  }

  /** A thread knows what it relies on, and its action leaves the cell and what it relies on in order. */
  ghost predicate KeepsOk(c: Cell, th: Thread, a: Action) {
    CellOk(c) && ThreadOk(c, th) && Backed(c, th) && Local(c, th, a).Some? ==>
      CellOk(Local(c, th, a).value.0) && ThreadOk(Local(c, th, a).value.0, Local(c, th, a).value.1)
  }

  lemma PromiseKeepsOk(c: Cell, th: Thread, a: Action)
    requires OfPromise(a)
    ensures KeepsOk(c, th, a)
  {
  }

  lemma RunnerKeepsOk(c: Cell, th: Thread, a: Action)
    requires OfRunner(a)
    ensures KeepsOk(c, th, a)
  {
  }

  lemma CancelerKeepsOk(c: Cell, th: Thread, a: Action)
    requires !OfPromise(a) && !OfRunner(a)
    ensures KeepsOk(c, th, a)
  {
  }

  lemma LocalKeepsOk(c: Cell, th: Thread, a: Action)
    requires CellOk(c) && ThreadOk(c, th) && Backed(c, th) && Local(c, th, a).Some?
    ensures CellOk(Local(c, th, a).value.0) && ThreadOk(Local(c, th, a).value.0, Local(c, th, a).value.1)
  {
    if OfPromise(a) {
      PromiseKeepsOk(c, th, a);
    } else if OfRunner(a) {
      RunnerKeepsOk(c, th, a);
    } else {
      CancelerKeepsOk(c, th, a);
    }
  }

  /** The count changes by what the thread holds. */
  lemma LocalCounts(c: Cell, th: Thread, a: Action)
    requires Local(c, th, a).Some? && !Failed(Local(c, th, a).value.1.pc)
    ensures Local(c, th, a).value.0.count - c.count == Held(Local(c, th, a).value.1) - Held(th)
  {
  }

  /** A copy of a promise: the exchange gives the thread one more promise and the count one more, if it succeeds, and
      otherwise looks at the count again. */
  lemma CopyGivesOne(c: Cell, th: Thread, t: nat, spurious: bool)
    requires ThreadOk(c, th) && th.pc.CopyLoaded?
    ensures Local(c, th, CopyCas(t, spurious)) ==
      if c.count == th.pc.seen && !spurious then Some((c.(count := c.count + 1), Thread(Idle, th.owned + 1)))
      else Some((c, Thread(CopyLoaded(c.count), th.owned)))
  {
  }

  /** The canceler's lock gives up only on a count of zero: its exchange takes a promise if it succeeds, and otherwise
      looks at the count again. */
  lemma LockRetries(c: Cell, th: Thread, t: nat, spurious: bool)
    requires th.pc.CancelLoaded?
    ensures Local(c, th, CancelCas(t, spurious)) ==
      if th.pc.seen == 0 then Some((c, Thread(Idle, th.owned)))
      else if c.count == th.pc.seen && !spurious then Some((c.(count := c.count + 1), Thread(CancelLocked, th.owned)))
      else Some((c, Thread(CancelLoaded(c.count), th.owned)))
  {
  }

  /** A move of a promise takes it from one thread and gives it to the other, and changes nothing else. */
  lemma MoveHandsOver(s: State, t: nat, u: nat)
    requires Step(s, Move(t, u)).Some?
    ensures var s' := Step(s, Move(t, u)).value;
      && s'.cell == s.cell && |s'.threads| == |s.threads| && t < |s.threads| && u < |s.threads| && t != u
      && s'.threads[t] == Thread(s.threads[t].pc, s.threads[t].owned - 1)
      && s'.threads[u] == Thread(s.threads[u].pc, s.threads[u].owned + 1)
      && forall v :: 0 <= v < |s.threads| && v != t && v != u ==> s'.threads[v] == s.threads[v]
  {
  }

  /** What another thread may rely on stays, and nobody wins or drops the last promise beside it. */
  lemma LocalKeepsOther(c: Cell, th: Thread, a: Action, other: Thread)
    requires CellOk(c) && ThreadOk(c, th) && Backed(c, th) && ThreadOk(c, other) && Backed(c, other)
    requires !(Winner(th.pc) && Winner(other.pc)) && !(Dropping(th.pc) && Dropping(other.pc))
    requires Local(c, th, a).Some?
    ensures ThreadOk(Local(c, th, a).value.0, other)
    ensures Winner(other.pc) ==> !Winner(Local(c, th, a).value.1.pc)
    ensures Dropping(other.pc) ==> !Dropping(Local(c, th, a).value.1.pc)
  {
  }

  /** Whoever wins, or drops the last promise, stays at it until the task is settled. */
  lemma LocalAttends(c: Cell, th: Thread, a: Action)
    requires CellOk(c) && ThreadOk(c, th) && Backed(c, th) && Local(c, th, a).Some?
    ensures var (c', th') := Local(c, th, a).value;
      c'.r.None? ==>
        && c.r.None?
        && (Winner(th.pc) || (c'.done && !c.done) ==> Winner(th'.pc))
        && (Dropping(th.pc) || (c'.count == 0 && c.count > 0) ==> Dropping(th'.pc))
  {
  }

  // ----- every step keeps the invariant -----

  lemma HoldersCount(s: State)
    requires Inv(s)
    ensures forall t :: 0 <= t < |s.threads| ==> Backed(s.cell, s.threads[t])
  {
    forall t | 0 <= t < |s.threads| ensures Held(s.threads[t]) <= s.cell.count { TotalAtLeast(s.threads, t); }
    if s.cell.done && s.cell.r.None? {
      var t :| 0 <= t < |s.threads| && Winner(s.threads[t].pc);
      assert ThreadOk(s.cell, s.threads[t]);
    }
  }

  /** What the acting thread knows. */
  lemma ActorOk(s: State, t: nat)
    requires Inv(s) && t < |s.threads|
    ensures CellOk(s.cell) && ThreadOk(s.cell, s.threads[t]) && Backed(s.cell, s.threads[t])
  {
    HoldersCount(s);
  }

  lemma MoveKeepsTotal(ts: seq<Thread>, t: nat, u: nat)
    requires t < |ts| && u < |ts| && t != u && ts[t].owned > 0
    ensures Total(Moved(ts, t, u)) == Total(ts)
  {
    var th, uh := ts[t].(owned := ts[t].owned - 1), ts[u].(owned := ts[u].owned + 1);
    TotalUpdate(ts, t, th);
    TotalUpdate(ts[t := th], u, uh);
  }

  lemma StepKeepsCounted(s: State, a: Action)
    requires Inv(s) && Step(s, a).Some?
    ensures Counted(Step(s, a).value)
  {
    if a.Move? {
      MoveKeepsTotal(s.threads, a.t, a.u);
    } else {
      var th := s.threads[a.t];
      ActorOk(s, a.t);
      LocalKeepsOk(s.cell, th, a);
      LocalCounts(s.cell, th, a);
      TotalUpdate(s.threads, a.t, Local(s.cell, th, a).value.1);
    }
  }

  lemma OthersKeepOk(s: State, a: Action, u: nat)
    requires Inv(s) && Step(s, a).Some? && u < |s.threads| && u != a.t
    ensures ThreadOk(Step(s, a).value.cell, Step(s, a).value.threads[u])
    ensures Step(s, a).value.threads[u].pc == s.threads[u].pc
    ensures Winner(s.threads[u].pc) ==> !Winner(Step(s, a).value.threads[a.t].pc)
    ensures Dropping(s.threads[u].pc) ==> !Dropping(Step(s, a).value.threads[a.t].pc)
  {
    ActorOk(s, a.t);
    ActorOk(s, u);
    if !a.Move? {
      LocalKeepsOther(s.cell, s.threads[a.t], a, s.threads[u]);
    }
  }

  lemma ActorKeepsOk(s: State, a: Action)
    requires Inv(s) && Step(s, a).Some?
    ensures CellOk(Step(s, a).value.cell)
    ensures ThreadOk(Step(s, a).value.cell, Step(s, a).value.threads[a.t])
  {
    ActorOk(s, a.t);
    if !a.Move? {
      LocalKeepsOk(s.cell, s.threads[a.t], a);
    }
  }

  lemma StepKeepsExclusive(s: State, a: Action)
    requires Inv(s) && Step(s, a).Some?
    ensures Exclusive(Step(s, a).value)
  {
    var s' := Step(s, a).value;
    ActorKeepsOk(s, a);
    forall u: nat | u < |s.threads| && u != a.t
      ensures ThreadOk(s'.cell, s'.threads[u]) && s'.threads[u].pc == s.threads[u].pc
      ensures Winner(s.threads[u].pc) ==> !Winner(s'.threads[a.t].pc)
      ensures Dropping(s.threads[u].pc) ==> !Dropping(s'.threads[a.t].pc)
    {
      OthersKeepOk(s, a, u);
    }
    OneStays(s.threads, s'.threads, a.t, Winner);
    OneStays(s.threads, s'.threads, a.t, Dropping);
  }

  lemma OneStays(ts: seq<Thread>, ts': seq<Thread>, t: nat, p: Pc -> bool)
    requires t < |ts| == |ts'| && AtMostOne(ts, p)
    requires forall u :: 0 <= u < |ts| && u != t ==> ts'[u].pc == ts[u].pc && (p(ts[u].pc) ==> !p(ts'[t].pc))
    ensures AtMostOne(ts', p)
  {
  }

  lemma StepKeepsAttended(s: State, a: Action)
    requires Inv(s) && Step(s, a).Some?
    ensures Attended(Step(s, a).value)
  {
    var s' := Step(s, a).value;
    ActorOk(s, a.t);
    if a.Move? {
      forall t | 0 <= t < |s.threads| ensures s'.threads[t].pc == s.threads[t].pc {}
    } else {
      LocalAttends(s.cell, s.threads[a.t], a);
      assert s'.threads[a.t] == Local(s.cell, s.threads[a.t], a).value.1;
      forall t | 0 <= t < |s.threads| && t != a.t ensures s'.threads[t] == s.threads[t] {}
    }
  }

  lemma StepKeepsInv(s: State, a: Action)
    requires Inv(s) && Step(s, a).Some?
    ensures Inv(Step(s, a).value)
  {
    StepKeepsCounted(s, a);
    StepKeepsExclusive(s, a);
    StepKeepsAttended(s, a);
  }

  // ----- what every interleaving guarantees -----

  lemma InitInv(cancelable: bool, n: nat)
    requires n > 0
    ensures Inv(Init(cancelable, n))
  {
    var ts := Init(cancelable, n).threads;
    TotalOfOwnerless(ts[1..]);
  }

  lemma {:induction false} TotalOfOwnerless(ts: seq<Thread>)
    requires forall t :: 0 <= t < |ts| ==> ts[t] == Thread(Idle, 0)
    ensures Total(ts) == 0
  {
    if ts != [] {
      TotalOfOwnerless(ts[1..]);
    }
  }

  lemma RunKeepsInv(s: State, acts: seq<Action>)
    requires Inv(s)
    ensures Runs.Exec(Step, s, acts).Some? ==> Inv(Runs.Exec(Step, s, acts).value)
  {
    forall s, a | Inv(s) && Step(s, a).Some? ensures Inv(Step(s, a).value) { StepKeepsInv(s, a); }
    Runs.Invariance(Step, Inv, s, acts);
  }

  ghost predicate Reachable(cancelable: bool, n: nat, acts: seq<Action>, s: State)
  {
    n > 0 && Runs.Exec(Step, Init(cancelable, n), acts) == Some(s)
  }

  /** No assertion of promise_ptr, finish, or the token's deque ever fails, and no null token or empty
      callback is used, however the threads interleave. */
  lemma NoAssertionFails(cancelable: bool, n: nat, acts: seq<Action>, s: State, t: nat)
    requires Reachable(cancelable, n, acts, s) && t < |s.threads|
    ensures !Failed(s.threads[t].pc)
  {
    InitInv(cancelable, n);
    RunKeepsInv(Init(cancelable, n), acts);
  }

  /** Once settled, a task stays settled as it was; once zero, the promise count stays zero. */
  lemma SettledOnceAndForAll(cancelable: bool, n: nat, acts: seq<Action>, s: State, more: seq<Action>, s': State)
    requires Reachable(cancelable, n, acts, s)
    requires Runs.Exec(Step, s, more) == Some(s')
    ensures s.cell.r.Some? ==> s'.cell.r == s.cell.r
    ensures s.cell.count == 0 ==> s'.cell.count == 0
  {
    InitInv(cancelable, n);
    RunKeepsInv(Init(cancelable, n), acts);
    SettledStays(s, more, s');
  }

  ghost predicate Quiescent(s: State) {
    s.cell.count == 0 && forall t :: 0 <= t < |s.threads| ==> s.threads[t].pc == Idle
  }

  lemma StepKeepsKind(s: State, a: Action)
    requires Step(s, a).Some?
    ensures Step(s, a).value.cell.cancelable == s.cell.cancelable
  {
  }

  lemma ReachableInv(cancelable: bool, n: nat, acts: seq<Action>, s: State)
    requires Reachable(cancelable, n, acts, s)
    ensures Inv(s) && s.cell.cancelable == cancelable
  {
    InitInv(cancelable, n);
    RunKeepsInv(Init(cancelable, n), acts);
    var inv := (u: State) => u.cell.cancelable == cancelable;
    forall u, a | inv(u) && Step(u, a).Some? ensures inv(Step(u, a).value) { StepKeepsKind(u, a); }
    Runs.Invariance(Step, inv, Init(cancelable, n), acts);
  }

  /** When the last promise is gone and no thread is inside an operation, the task is settled: with
      broken_promise exactly when nobody won _done, and otherwise by the winner; its callback is then gone
      from the token, where a task dropped without running leaves it. */
  lemma QuiescentIsSettled(cancelable: bool, n: nat, acts: seq<Action>, s: State)
    requires Reachable(cancelable, n, acts, s) && Quiescent(s)
    ensures s.cell.r.Some?
    ensures !s.cell.done <==> s.cell.r.value == Settlement(LastDrop, Exception(BrokenPromise))
    ensures s.cell.done <==> s.cell.r.value.who in {Runner, Canceler}
    ensures s.cell.r.value.who == Canceler ==> s.cell.r.value.outcome == Exception(OperationCanceled)
    ensures s.cell.onToken == if cancelable && !s.cell.done then 1 else 0
  {
    ReachableInv(cancelable, n, acts, s);
    assert Attended(s);
  }

  /** Between winning _done as a runner and settling. */
  predicate RunnerWon(pc: Pc) {
    pc in {RunWon, RunCall} || pc.RunSettle?
  }

  /** The winning runner's own action. */
  lemma RunnerMoves(s: State, a: Action, t: nat)
    requires Inv(s) && t < |s.threads| && a.t == t && RunnerWon(s.threads[t].pc) && Step(s, a).Some?
    ensures var s', pc, pc' := Step(s, a).value, s.threads[t].pc, Step(s, a).value.threads[t].pc;
      if s'.cell.r.Some? then pc.RunSettle? && s'.cell.r == Some(Settlement(Runner, pc.o))
      else RunnerWon(pc') && !pc.RunSettle? && (pc'.RunSettle? ==> a == RunReturn(t, pc'.o))
  {
    ActorOk(s, t);
  }

  /** From the moment a runner wins, the task can only settle with what its callback returns. */
  lemma {:induction false} RunnerSettles(s: State, t: nat, acts: seq<Action>, s': State)
    requires Inv(s) && t < |s.threads| && RunnerWon(s.threads[t].pc)
    requires Runs.Exec(Step, s, acts) == Some(s') && s'.cell.r.Some?
    ensures s'.cell.r.value.who == Runner
    ensures if s.threads[t].pc.RunSettle? then s'.cell.r.value.outcome == s.threads[t].pc.o
            else RunReturn(t, s'.cell.r.value.outcome) in acts
    decreases |acts|
  {
    ActorOk(s, t);
    var a, s1 := acts[0], Step(s, acts[0]).value;
    StepKeepsInv(s, a);
    if a.t == t {
      RunnerMoves(s, a, t);
    } else {
      OthersKeepOk(s, a, t);
    }
    if s1.cell.r.Some? {
      SettlerHoldsTheWin(s, a, t);
      SettledStays(s1, acts[1..], s');
    } else {
      RunnerSettles(s1, t, acts[1..], s');
    }
  }

  /** Only the winner settles a task that has been won. */
  lemma SettlerHoldsTheWin(s: State, a: Action, t: nat)
    requires Inv(s) && t < |s.threads| && Winner(s.threads[t].pc)
    requires Step(s, a).Some? && s.cell.r.None? && Step(s, a).value.cell.r.Some?
    ensures a.t == t
  {
    HoldersCount(s);
    assert ThreadOk(s.cell, s.threads[t]) && ThreadOk(s.cell, s.threads[a.t]);
  }

  lemma SettledStays(s: State, acts: seq<Action>, s': State)
    requires Inv(s) && Runs.Exec(Step, s, acts) == Some(s')
    ensures s.cell.r.Some? ==> s'.cell.r == s.cell.r
    ensures s.cell.count == 0 ==> s'.cell.count == 0
  {
    var inv := (u: State) =>
      Inv(u) && (s.cell.r.Some? ==> u.cell.r == s.cell.r) && (s.cell.count == 0 ==> u.cell.count == 0);
    forall u, a | inv(u) && Step(u, a).Some? ensures inv(Step(u, a).value) {
      StepKeepsInv(u, a);
      HoldersCount(u);
      assert ThreadOk(u.cell, u.threads[a.t]);
    }
    Runs.Invariance(Step, inv, s, acts);
  }

  /** The thread whose exchange flips _done decides the outcome: a runner, its callback's; a canceler,
      operation_canceled. */
  lemma WinnerDecides(cancelable: bool, n: nat, acts: seq<Action>, s: State, a: Action, more: seq<Action>, s': State)
    requires Reachable(cancelable, n, acts, s) && !s.cell.done
    requires a.RunExchange? || a.CancelExchange?
    requires Runs.Exec(Step, s, [a] + more) == Some(s') && Quiescent(s')
    ensures a.RunExchange? ==> s'.cell.r.Some? && s'.cell.r.value.who == Runner
                               && RunReturn(a.t, s'.cell.r.value.outcome) in more
    ensures a.CancelExchange? ==> s'.cell.r == Some(Settlement(Canceler, Exception(OperationCanceled)))
  {
    InitInv(cancelable, n);
    RunKeepsInv(Init(cancelable, n), acts);
    RunKeepsInv(s, [a] + more);
    assert ([a] + more)[0] == a && ([a] + more)[1..] == more;
    var s1 := Step(s, a).value;
    StepKeepsInv(s, a);
    if a.RunExchange? {
      RunnerSettles(s1, a.t, more, s');
    } else {
      CancelerSettles(s1, a.t, more, s');
    }
  }

  lemma {:induction false} CancelerSettles(s: State, t: nat, acts: seq<Action>, s': State)
    requires Inv(s) && t < |s.threads| && s.threads[t].pc in {CancelWon, CancelSettle}
    requires Runs.Exec(Step, s, acts) == Some(s') && s'.cell.r.Some?
    ensures s'.cell.r.value == Settlement(Canceler, Exception(OperationCanceled))
    decreases |acts|
  {
    assert ThreadOk(s.cell, s.threads[t]);
    var a, s1 := acts[0], Step(s, acts[0]).value;
    StepKeepsInv(s, a);
    if a.t != t {
      OthersKeepOk(s, a, t);
    }
    if s1.cell.r.Some? {
      SettlerHoldsTheWin(s, a, t);
      SettledStays(s1, acts[1..], s');
    } else {
      CancelerSettles(s1, t, acts[1..], s');
    }
  }

  // ----- whole calls that no other thread interrupts -----

  function LocalStep(s: (Cell, Thread), a: Action): Option<(Cell, Thread)> {
    Local(s.0, s.1, a)
  }

  /** The only thread of a task runs as it does on the cell. */
  lemma {:induction false} AloneRuns(c: Cell, th: Thread, acts: seq<Action>, c': Cell, th': Thread)
    requires forall i :: 0 <= i < |acts| ==> acts[i].t == 0
    requires Runs.Exec(LocalStep, (c, th), acts) == Some((c', th'))
    ensures Runs.Exec(Step, State(c, [th]), acts) == Some(State(c', [th']))
    decreases |acts|
  {
    if acts != [] {
      var (c1, th1) := Local(c, th, acts[0]).value;
      assert [th][0 := th1] == [th1];
      AloneRuns(c1, th1, acts[1..], c', th');
    }
  }

  /** The task after a call of it, whose callback ends with body. */
  function Called(c: Cell, body: Result): Cell {
    if c.done then c
    else c.(r := Some(Settlement(Runner, body)), token := false, done := true, f := false, onToken := 0)
  }

  /** The task after a call of its cancelation callback. */
  function Canceled(c: Cell): Cell {
    if c.done || c.count == 0 then c
    else
      c.(r := Some(Settlement(Canceler, Exception(OperationCanceled))), token := false, done := true, f := false,
         onToken := 0)
  }

  /** The task after one promise is dropped. */
  function Dropped(c: Cell): Cell
    requires c.count > 0
  {
    var c1 := c.(count := c.count - 1);
    if c1.count == 0 && c1.r.None? then Settle(c1, LastDrop, Exception(BrokenPromise)) else c1
  }

  /** Nobody is inside an operation on the task: if it is not settled, nobody has won it. */
  ghost predicate AtRest(c: Cell) {
    CellOk(c) && (c.r.None? ==> !c.done)
  }

  function CallSteps(c: Cell, body: Result): seq<Action> {
    if c.done then [RunExchange(0)]
    else [RunExchange(0), RunPop(0), RunReturn(0, body), RunFinish(0)] + [RunReset(0)]
  }

  lemma CallIsRun(c: Cell, owned: nat, body: Result)
    requires AtRest(c) && owned > 0 && c.count > 0
    ensures Runs.Exec(LocalStep, (c, Thread(Idle, owned)), CallSteps(c, body))
         == Some((Called(c, body), Thread(Idle, owned)))
  {
    if c.done {
      assert [RunExchange(0)][1..] == [];
    } else {
      var s0 := (c, Thread(Idle, owned));
      var won := c.(done := true);
      var popped := won.(onToken := 0);
      var settled := Settle(popped, Runner, body);
      var s1, s2 := (won, Thread(RunWon, owned)), (popped, Thread(RunCall, owned));
      var s3, s4 := (popped, Thread(RunSettle(body), owned)), (settled, Thread(RunClear, owned));
      assert Local(c, Thread(Idle, owned), RunExchange(0)) == Some(s1);
      assert Local(won, Thread(RunWon, owned), RunPop(0)) == Some(s2);
      assert Local(popped, Thread(RunCall, owned), RunReturn(0, body)) == Some(s3);
      assert Local(popped, Thread(RunSettle(body), owned), RunFinish(0)) == Some(s4);
      Runs.ExecFour(LocalStep, s0, RunExchange(0), RunPop(0), RunReturn(0, body), RunFinish(0), s1, s2, s3, s4);
      Runs.ExecSnoc(LocalStep, s0, [RunExchange(0), RunPop(0), RunReturn(0, body), RunFinish(0)], RunReset(0), s4);
    }
  }

  function DropSteps(c: Cell): seq<Action> {
    if c.count > 1 then [Drop(0)]
    else if c.r.Some? then [Drop(0), DropCheck(0)]
    else [Drop(0), DropCheck(0)] + [DropFinish(0)]
  }

  /** The first two steps of the drop of the last promise. */
  lemma DropsToZero(c: Cell, rest: nat)
    requires c.count == 1
    ensures Runs.Exec(LocalStep, (c, Thread(Idle, rest + 1)), [Drop(0), DropCheck(0)])
         == Some((c.(count := 0), Thread(if c.r.None? then DropSettle else Idle, rest)))
  {
    var s0, less := (c, Thread(Idle, rest + 1)), c.(count := 0);
    var s1, s2 := (less, Thread(DropZero, rest)), (less, Thread(if c.r.None? then DropSettle else Idle, rest));
    assert LocalStep(s0, Drop(0)) == Some(s1);
    assert LocalStep(s1, DropCheck(0)) == Some(s2);
    Runs.ExecTwo(LocalStep, s0, Drop(0), DropCheck(0), s1, s2);
  }

  lemma DropsLast(c: Cell, rest: nat)
    requires c.count == 1 && c.r.None?
    ensures Runs.Exec(LocalStep, (c, Thread(Idle, rest + 1)), [Drop(0), DropCheck(0)] + [DropFinish(0)])
         == Some((Dropped(c), Thread(Idle, rest)))
  {
    DropsToZero(c, rest);
    var s2 := (c.(count := 0), Thread(DropSettle, rest));
    assert LocalStep(s2, DropFinish(0)) == Some((Dropped(c), Thread(Idle, rest)));
    Runs.ExecSnoc(LocalStep, (c, Thread(Idle, rest + 1)), [Drop(0), DropCheck(0)], DropFinish(0), s2);
  }

  lemma DropsOne(c: Cell, rest: nat)
    requires c.count > 1
    ensures Runs.Exec(LocalStep, (c, Thread(Idle, rest + 1)), [Drop(0)]) == Some((Dropped(c), Thread(Idle, rest)))
  {
    Runs.ExecCons(LocalStep, (c, Thread(Idle, rest + 1)), Drop(0), (Dropped(c), Thread(Idle, rest)), []);
    assert [Drop(0)] == [Drop(0)] + [];
  }

  lemma DropIsRun(c: Cell, rest: nat)
    requires AtRest(c) && c.count > 0
    ensures Runs.Exec(LocalStep, (c, Thread(Idle, rest + 1)), DropSteps(c)) == Some((Dropped(c), Thread(Idle, rest)))
  {
    if c.count > 1 {
      DropsOne(c, rest);
    } else if c.r.Some? {
      DropsToZero(c, rest);
    } else {
      DropsLast(c, rest);
    }
  }

  function CancelSteps(c: Cell): seq<Action> {
    [CancelLoad(0), CancelCas(0, false)] + if c.count == 0 then [] else LockedSteps(c)
  }

  /** The steps of the canceler once it has locked a promise. */
  function LockedSteps(c: Cell): seq<Action> {
    if c.done then [CancelExchange(0), CancelUnlock(0)]
    else [CancelExchange(0), CancelPop(0), CancelFinish(0), CancelUnlock(0)]
  }

  lemma CancelIsRun(c: Cell, owned: nat)
    requires AtRest(c) && c.cancelable
    ensures Runs.Exec(LocalStep, (c, Thread(Idle, owned)), CancelSteps(c)) == Some((Canceled(c), Thread(Idle, owned)))
  {
    var s0, load := (c, Thread(Idle, owned)), [CancelLoad(0), CancelCas(0, false)];
    var s1, locked := (c, Thread(CancelLoaded(c.count), owned)), c.(count := c.count + 1);
    if c.count == 0 {
      Runs.ExecTwo(LocalStep, s0, CancelLoad(0), CancelCas(0, false), s1, s0);
      assert load + [] == load;
    } else {
      Runs.ExecTwo(LocalStep, s0, CancelLoad(0), CancelCas(0, false), s1, (locked, Thread(CancelLocked, owned)));
      LockedCancelIsRun(c, owned);
      Runs.ExecSplit(LocalStep, s0, load, LockedSteps(c));
    }
  }

  lemma LockedCancelIsRun(c: Cell, owned: nat)
    requires AtRest(c) && c.cancelable && c.count > 0
    ensures Runs.Exec(LocalStep, (c.(count := c.count + 1), Thread(CancelLocked, owned)), LockedSteps(c))
         == Some((Canceled(c), Thread(Idle, owned)))
  {
    var locked := c.(count := c.count + 1);
    var s0, end := (locked, Thread(CancelLocked, owned)), (Canceled(c), Thread(Idle, owned));
    if c.done {
      var s1 := (locked, Thread(CancelRelease, owned));
      assert LocalStep(s0, CancelExchange(0)) == Some(s1) && LocalStep(s1, CancelUnlock(0)) == Some(end);
      Runs.ExecTwo(LocalStep, s0, CancelExchange(0), CancelUnlock(0), s1, end);
    } else {
      var won := locked.(done := true);
      var popped := won.(onToken := 0, f := false);
      var settled := Settle(popped, Canceler, Exception(OperationCanceled));
      var s1, s2 := (won, Thread(CancelWon, owned)), (popped, Thread(CancelSettle, owned));
      var s3 := (settled, Thread(CancelRelease, owned));
      assert LocalStep(s0, CancelExchange(0)) == Some(s1) && LocalStep(s1, CancelPop(0)) == Some(s2);
      assert LocalStep(s2, CancelFinish(0)) == Some(s3) && LocalStep(s3, CancelUnlock(0)) == Some(end);
      Runs.ExecFour(LocalStep, s0, CancelExchange(0), CancelPop(0), CancelFinish(0), CancelUnlock(0), s1, s2, s3, end);
    }
  }

  // ----- the assertion in packaged_task_canceler -----

  predicate Exchanges(acts: seq<Action>) {
    exists i :: 0 <= i < |acts| && (acts[i].RunExchange? || acts[i].CancelExchange?)
  }

  lemma ExchangeSetsDone(s: State, a: Action)
    requires Step(s, a).Some?
    ensures Step(s, a).value.cell.done <==> s.cell.done || a.RunExchange? || a.CancelExchange?
  {
  }

  lemma {:induction false} DoneIffExchanged(s: State, acts: seq<Action>, s': State)
    requires Runs.Exec(Step, s, acts) == Some(s')
    ensures s'.cell.done <==> s.cell.done || Exchanges(acts)
    decreases |acts|
  {
    if acts != [] {
      ExchangeSetsDone(s, acts[0]);
      DoneIffExchanged(Step(s, acts[0]).value, acts[1..], s');
      assert Exchanges(acts) <==> acts[0].RunExchange? || acts[0].CancelExchange? || Exchanges(acts[1..]);
    }
  }

  /** A canceler that fails to lock a promise finds none left. Its assertion that the callback has run
      holds exactly when the task was run, or canceled, at least once before. */
  lemma FailedLock(cancelable: bool, n: nat, acts: seq<Action>, s: State, t: nat)
    requires Reachable(cancelable, n, acts, s)
    requires t < |s.threads| && s.threads[t].pc == CancelLoaded(0)
    ensures s.cell.count == 0
    ensures s.cell.done <==> Exchanges(acts)
  {
    ReachableInv(cancelable, n, acts, s);
    assert ThreadOk(s.cell, s.threads[t]);
    DoneIffExchanged(Init(cancelable, n), acts, s);
  }

  /** A task dropped without running, whose callback is then called, makes that assertion fail. */
  lemma FailedLockOnDroppedTask() returns (acts: seq<Action>, s: State)
    ensures Reachable(true, 1, acts, s)
    ensures |s.threads| == 1 && s.threads[0].pc == CancelLoaded(0) && !s.cell.done
  {
    var c, end := Dropped(Packaged(true)), Thread(CancelLoaded(0), 0);
    acts, s := [Drop(0), DropCheck(0), DropFinish(0), CancelLoad(0)], State(c, [end]);
    DroppedLoads(c);
    AloneRuns(Packaged(true), Thread(Idle, 1), acts, c, end);
    assert Init(true, 1).threads == [Thread(Idle, 1)];
  }

  lemma DroppedLoads(c: Cell)
    requires c == Dropped(Packaged(true))
    ensures Runs.Exec(LocalStep, (Packaged(true), Thread(Idle, 1)),
                      [Drop(0), DropCheck(0), DropFinish(0), CancelLoad(0)])
         == Some((c, Thread(CancelLoaded(0), 0)))
  {
    var c1 := Packaged(true).(count := 0);
    Runs.ExecFour(LocalStep, (Packaged(true), Thread(Idle, 1)), Drop(0), DropCheck(0), DropFinish(0), CancelLoad(0),
                  (c1, Thread(DropZero, 0)), (c1, Thread(DropSettle, 0)),
                  (c, Thread(Idle, 0)), (c, Thread(CancelLoaded(0), 0)));
  }

  // ----- the class -----

  /** The shared state of a packaged task. The first methods are single atomic operations on the cell; the
      last three are the whole calls that CallIsRun, CancelIsRun and DropIsRun show to be runs. */
  class SharedTask {
    const cancelable: bool
    var r: Option<Settlement>
    var token: bool
    var count: nat
    var done: bool
    var f: bool
    var onToken: nat

    function View(): Cell
      reads this
    {
      Cell(cancelable, r, token, count, done, f, onToken)
    }

    constructor (cancelable: bool)
      ensures View() == Packaged(cancelable)
    {
      this.cancelable := cancelable;
      r, token, count, done, f := None, true, 1, false, true;
      onToken := if cancelable then 1 else 0;
    }

    method ExchangeDone() returns (was: bool)
      modifies this
      ensures was == old(done) && View() == old(View()).(done := true)
    {
      was := done;
      done := true;
    }

    method PopCallback()
      requires onToken > 0
      modifies this
      ensures View() == Popped(old(View()))
    {
      onToken := onToken - 1;
    }

    method Finish(who: Settler, o: Result)
      requires r.None?
      modifies this
      ensures View() == Settle(old(View()), who, o)
    {
      r := Some(Settlement(who, o));
      token := false;
    }

    method CompareExchangeWeak(expected: nat, spurious: bool) returns (ok: bool, seen: nat)
      modifies this
      ensures ok == (old(count) == expected && !spurious)
      ensures View() == if ok then old(View()).(count := expected + 1) else old(View())
      ensures !ok ==> seen == old(count)
    {
      ok, seen := count == expected && !spurious, count;
      if ok {
        count := expected + 1;
      }
    }

    /** The loop of increment_promise, for any number of spurious failures of its exchange. */
    method IncrementPromise(failures: nat) returns (ok: bool)
      modifies this
      ensures ok == (old(count) > 0)
      ensures View() == if ok then old(View()).(count := old(count) + 1) else old(View())
    {
      var seen, left := count, failures;
      ok := false;
      while !ok && seen != 0
        invariant ok ==> old(count) > 0
        invariant !ok ==> seen == old(count)
        invariant View() == if ok then old(View()).(count := old(count) + 1) else old(View())
        decreases !ok, left
      {
        ok, seen := CompareExchangeWeak(seen, left > 0);
        if left > 0 {
          left := left - 1;
        }
      }
    }

    method DecrementPromise()
      requires count > 0 && AtRest(View())
      modifies this
      ensures View() == Dropped(old(View())) && CellOk(View())
    {
      count := count - 1;
      if count == 0 && r.None? {
        Finish(LastDrop, Exception(BrokenPromise));
      }
    }

    /** shared::operator(), whose callback ends with body. */
    method Call(body: Result)
      requires count > 0 && AtRest(View())
      modifies this
      ensures View() == Called(old(View()), body) && AtRest(View())
    {
      var was := ExchangeDone();
      if was {
        return;
      }
      if cancelable {
        PopCallback();
      }
      Finish(Runner, body);
      f := false;
    }

    /** packaged_task_canceler::operator(). */
    method CallCanceler(failures: nat)
      requires cancelable && AtRest(View())
      modifies this
      ensures View() == Canceled(old(View())) && AtRest(View())
    {
      var locked := IncrementPromise(failures);
      if !locked {
        return;
      }
      var was := ExchangeDone();
      if !was {
        PopCallback();
        f := false;
        Finish(Canceler, Exception(OperationCanceled));
      }
      DecrementPromise();
    }
  }
}
