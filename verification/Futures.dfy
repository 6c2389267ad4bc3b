/** then, and_then, to_void and unwrap, whatever the schedule.

    A program is a possibly infinite graph of futures. Its run is any interleaving of the creation of
    futures, which registers a continuation on a parent that may or may not be settled yet, of the
    settlement of source futures, and of the execution of posted continuations in any order. An inline
    executor runs a continuation at once, which is one of these schedules. Callbacks are pure functions,
    and nobody requests a cancelation. */
module Futures {
  import opened Outcomes
  import Runs

  type FutureId = nat

  /** A value may be a future, which makes its future a future<future<T>>. */
  datatype Value = Plain(n: int) | Handle(future: FutureId)

  type Result = Outcome<Value>

  datatype Node =
    | Source
    | Then(parent: FutureId, onReady: Result -> Result)
    | AndThen(parent: FutureId, onValue: Value -> Result)
    | ToVoid(parent: FutureId)
    | Unwrap(parent: FutureId)

  /** The futures of a program, and what each source settles with, if it ever does. */
  datatype Program = Program(node: FutureId -> Node, source: FutureId -> Option<Result>)

  /** The body of a continuation made by then_impl, an exception out of a callback included. */
  function Callback(node: Node, r: Result): Result
    requires !node.Source? && !node.Unwrap?
  {
    match node
    case Then(_, f) => f(r)
    case AndThen(_, f) => if r.Value? then f(r.value) else r
    case ToVoid(_) => if r.Value? then Value(Plain(0)) else r
  }

  // ----- what a future denotes -----

  /** The outcome of a future, evaluated to a depth: then and and_then map, unwrap joins. */
  ghost function Denotation(p: Program, n: FutureId, depth: nat): Option<Result>
    decreases depth
  {
    if depth == 0 then None
    else
      match p.node(n)
      case Source => p.source(n)
      case Unwrap(outer) =>
        (match Denotation(p, outer, depth - 1)
         case None => None
         case Some(Exception(e)) => Some(Exception(e))
         case Some(Value(Handle(inner))) => Denotation(p, inner, depth - 1)
         case Some(Value(Plain(_))) => None)
      case node =>
        match Denotation(p, node.parent, depth - 1)
        case None => None
        case Some(r) => Some(Callback(node, r))
  }

  ghost predicate Denotes(p: Program, n: FutureId, o: Result) {
    exists depth: nat :: Denotation(p, n, depth) == Some(o)
  }

  lemma {:induction false} DenotationGrows(p: Program, n: FutureId, depth: nat, more: nat)
    requires Denotation(p, n, depth).Some? && depth <= more
    ensures Denotation(p, n, more) == Denotation(p, n, depth)
    decreases depth
  {
    match p.node(n)
    case Source =>
    case Unwrap(outer) =>
      DenotationGrows(p, outer, depth - 1, more - 1);
      var r := Denotation(p, outer, depth - 1).value;
      if r.Value? {
        DenotationGrows(p, r.value.future, depth - 1, more - 1);
      }
    case node => DenotationGrows(p, node.parent, depth - 1, more - 1);
  }

  lemma DenotesOne(p: Program, n: FutureId, o: Result, o': Result)
    requires Denotes(p, n, o) && Denotes(p, n, o')
    ensures o == o'
  {
    var d: nat :| Denotation(p, n, d) == Some(o);
    var d': nat :| Denotation(p, n, d') == Some(o');
    DenotationGrows(p, n, d, d + d');
    DenotationGrows(p, n, d', d + d');
  }

  /** The denotation of a mapped future, without depths. */
  lemma DenotesMapped(p: Program, n: FutureId, o: Result)
    requires !p.node(n).Source? && !p.node(n).Unwrap?
    ensures Denotes(p, n, o) <==> exists r :: Denotes(p, p.node(n).parent, r) && o == Callback(p.node(n), r)
  {
    var parent := p.node(n).parent;
    if Denotes(p, n, o) {
      var d: nat :| Denotation(p, n, d) == Some(o);
      var r := Denotation(p, parent, d - 1).value;
      assert Denotes(p, parent, r);
    }
    if r :| Denotes(p, parent, r) && o == Callback(p.node(n), r) {
      var d: nat :| Denotation(p, parent, d) == Some(r);
      assert Denotation(p, n, d + 1) == Some(o);
    }
  }

  /** then calls its callback with the ready parent, whatever it holds, and gives what the callback returns. */
  lemma DenotesThen(p: Program, n: FutureId, o: Result)
    requires p.node(n).Then?
    ensures Denotes(p, n, o) <==> exists r :: Denotes(p, p.node(n).parent, r) && o == p.node(n).onReady(r)
  {
    DenotesMapped(p, n, o);
    assert forall r :: Callback(p.node(n), r) == p.node(n).onReady(r);
  }

  /** What a parent's value becomes, an exception being kept. */
  ghost predicate DenotesOfValue(p: Program, parent: FutureId, onValue: Value -> Result, o: Result) {
    || (o.Exception? && Denotes(p, parent, o))
    || (exists v :: Denotes(p, parent, Value(v)) && o == onValue(v))
  }

  /** and_then calls its callback with the parent's value, and keeps the parent's exception. */
  lemma DenotesAndThen(p: Program, n: FutureId, o: Result)
    requires p.node(n).AndThen?
    ensures Denotes(p, n, o) <==> DenotesOfValue(p, p.node(n).parent, p.node(n).onValue, o)
  {
    DenotesMapped(p, n, o);
    var node := p.node(n);
    if r :| Denotes(p, node.parent, r) && o == Callback(node, r) {
      assert r.Value? ==> Denotes(p, node.parent, Value(r.value)) && o == node.onValue(r.value);
    }
    if o.Exception? && Denotes(p, node.parent, o) {
      assert o == Callback(node, o);
    }
    if v :| Denotes(p, node.parent, Value(v)) && o == node.onValue(v) {
      assert o == Callback(node, Value(v));
    }
  }

  /** to_void forgets the parent's value, and keeps the parent's exception. */
  lemma DenotesToVoid(p: Program, n: FutureId, o: Result)
    requires p.node(n).ToVoid?
    ensures Denotes(p, n, o) <==> DenotesOfValue(p, p.node(n).parent, _ => Value(Plain(0)), o)
  {
    DenotesMapped(p, n, o);
    var node := p.node(n);
    if r :| Denotes(p, node.parent, r) && o == Callback(node, r) {
      assert r.Value? ==> Denotes(p, node.parent, Value(r.value)) && o == Value(Plain(0));
    }
    if o.Exception? && Denotes(p, node.parent, o) {
      assert o == Callback(node, o);
    }
    if v :| Denotes(p, node.parent, Value(v)) && o == Value(Plain(0)) {
      assert o == Callback(node, Value(v));
    }
  }

  /** The outcomes an unwrapped future may have. */
  ghost predicate Joins(p: Program, outer: FutureId, o: Result) {
    || (o.Exception? && Denotes(p, outer, o))
    || (exists inner :: Denotes(p, outer, Value(Handle(inner))) && Denotes(p, inner, o))
  }

  lemma DenotesUnwrapped(p: Program, n: FutureId, o: Result)
    requires p.node(n).Unwrap?
    ensures Denotes(p, n, o) <==> Joins(p, p.node(n).parent, o)
  {
    var outer := p.node(n).parent;
    if Denotes(p, n, o) {
      var d: nat :| Denotation(p, n, d) == Some(o);
      var r := Denotation(p, outer, d - 1).value;
      assert Denotes(p, outer, r);
      if r.Value? {
        assert Denotation(p, r.value.future, d - 1) == Some(o);
      }
    }
    if o.Exception? && Denotes(p, outer, o) {
      var d: nat :| Denotation(p, outer, d) == Some(o);
      assert Denotation(p, n, d + 1) == Some(o);
    }
    if inner :| Denotes(p, outer, Value(Handle(inner))) && Denotes(p, inner, o) {
      var d: nat :| Denotation(p, outer, d) == Some(Value(Handle(inner)));
      var e: nat :| Denotation(p, inner, e) == Some(o);
      DenotationGrows(p, outer, d, d + e);
      DenotationGrows(p, inner, e, d + e);
      assert Denotation(p, n, d + e + 1) == Some(o);
    }
  }

  // ----- the heap of shared states and the executors -----

  /** The continuation of future n on its parent, or the second one that unwrap registers on an inner future. */
  datatype Task = Run(n: FutureId) | RunInner(n: FutureId, inner: FutureId)

  /** A shared state, and for an unwrapped future the inner future it has moved on to. */
  datatype Cell = Cell(r: Option<Result>, waiting: seq<Task>, inner: Option<FutureId>)

  /** posted holds the tasks given to executors and not run yet. */
  datatype State = State(cells: map<FutureId, Cell>, posted: multiset<Task>)

  datatype Action = Create(n: FutureId) | Settle(n: FutureId) | Execute(task: Task)

  /** shared_base::then. */
  function Register(s: State, on: FutureId, task: Task): State
    requires on in s.cells
  {
    var c := s.cells[on];
    if c.r.None? then s.(cells := s.cells[on := c.(waiting := c.waiting + [task])])
    else s.(posted := s.posted + multiset{task})
  }

  /** shared_base::finish. */
  function Finish(s: State, n: FutureId, o: Result): State
    requires n in s.cells
  {
    var c := s.cells[n];
    State(s.cells[n := c.(r := Some(o), waiting := [])], s.posted + multiset(c.waiting))
  }

  /** A callback can only return the handle of a future it has created or been given. */
  predicate Available(s: State, o: Result) {
    o.Value? && o.value.Handle? ==> o.value.future in s.cells
  }

  function FinishIfAvailable(s: State, n: FutureId, o: Result): Option<State>
    requires n in s.cells
  {
    if Available(s, o) then Some(Finish(s, n, o)) else None
  }

  /** unwrap has run its first continuation and not yet registered the second one. */
  function MovedOn(s: State, n: FutureId, inner: FutureId): State
    requires n in s.cells
  {
    State(s.cells[n := s.cells[n].(inner := Some(inner))], s.posted - multiset{Run(n)})
  }

  function Step(p: Program, s: State, a: Action): Option<State> {
    match a
    case Create(n) =>
      if n in s.cells then None
      else if p.node(n).Source? then Some(s.(cells := s.cells[n := Cell(None, [], None)]))
      else if p.node(n).parent in s.cells then
        Some(Register(s.(cells := s.cells[n := Cell(None, [], None)]), p.node(n).parent, Run(n)))
      else None
    case Settle(n) =>
      if n in s.cells && p.node(n).Source? && s.cells[n].r.None? && p.source(n).Some? then
        FinishIfAvailable(s, n, p.source(n).value)
      else None
    case Execute(task) =>
      if task !in s.posted || task.n !in s.cells || p.node(task.n).Source? then None
      else
        var s1 := s.(posted := s.posted - multiset{task});
        match task
        case Run(n) =>
          var node := p.node(n);
          if node.parent !in s.cells || s.cells[node.parent].r.None? then None
          else
            var r := s.cells[node.parent].r.value;
            if !node.Unwrap? then FinishIfAvailable(s1, n, Callback(node, r))
            else if r.Exception? then Some(Finish(s1, n, r))
            else if r.value.Plain? || r.value.future !in s.cells then None
            else
              var inner := r.value.future;
              Some(Register(MovedOn(s, n, inner), inner, RunInner(n, inner)))
        case RunInner(n, inner) =>
          if inner !in s.cells || s.cells[inner].r.None? then None
          else Some(Finish(s1, n, s.cells[inner].r.value))
  }

  function StepOf(p: Program): (State, Action) -> Option<State> {
    (s, a) => Step(p, s, a)
  }

  const INIT := State(map[], multiset{})

  // ----- the invariant -----

  /** The future a task waits for. */
  function Awaited(p: Program, task: Task): FutureId {
    match task
    case Run(n) => if p.node(n).Source? then n else p.node(n).parent
    case RunInner(_, inner) => inner
  }

  /** The one task that will take an unsettled future further. */
  function Due(p: Program, s: State, n: FutureId): Option<Task>
    requires n in s.cells
  {
    if s.cells[n].r.Some? || p.node(n).Source? then None
    else
      match s.cells[n].inner
      case None => Some(Run(n))
      case Some(inner) => Some(RunInner(n, inner))
  }

  function Copies(p: Program, s: State, task: Task): nat {
    var on := Awaited(p, task);
    s.posted[task] + if on in s.cells then multiset(s.cells[on].waiting)[task] else 0
  }

  /** Every task is due, and every due task is there once: waiting, or posted once what it awaits is settled. */
  ghost predicate TaskOk(p: Program, s: State, task: Task) {
    && Copies(p, s, task) == (if task.n in s.cells && Due(p, s, task.n) == Some(task) then 1 else 0)
    && (task in s.posted ==> Awaited(p, task) in s.cells && s.cells[Awaited(p, task)].r.Some?)
  }

  ghost predicate CellOk(p: Program, s: State, n: FutureId)
    requires n in s.cells
  {
    var c := s.cells[n];
    && (c.r.Some? ==> Denotes(p, n, c.r.value) && Available(s, c.r.value) && c.waiting == [])
    && (forall task :: task in c.waiting ==> Awaited(p, task) == n)
    && (!p.node(n).Source? ==> p.node(n).parent in s.cells)
    && (c.inner.Some? ==>
          && p.node(n).Unwrap? && c.inner.value in s.cells
          && s.cells[p.node(n).parent].r == Some(Value(Handle(c.inner.value))))
  }

  ghost predicate Inv(p: Program, s: State) {
    && (forall n :: n in s.cells ==> CellOk(p, s, n))
    && (forall task :: TaskOk(p, s, task))
  }

  // ----- registering, finishing and running keep count of the tasks -----

  lemma RegisterCopies(p: Program, s: State, added: Task, task: Task)
    requires Awaited(p, added) in s.cells
    ensures var s' := Register(s, Awaited(p, added), added);
      && Copies(p, s', task) == Copies(p, s, task) + (if task == added then 1 else 0)
      && (task in s'.posted ==> task in s.posted || (task == added && s.cells[Awaited(p, added)].r.Some?))
  {
  }

  lemma FinishCopies(p: Program, s: State, n: FutureId, o: Result, task: Task)
    requires n in s.cells
    requires forall t :: t in s.cells[n].waiting ==> Awaited(p, t) == n
    ensures var s' := Finish(s, n, o);
      && Copies(p, s', task) == Copies(p, s, task)
      && (task in s'.posted ==> task in s.posted || Awaited(p, task) == n)
  {
    var waiting := s.cells[n].waiting;
    if Awaited(p, task) != n {
      assert multiset(waiting)[task] == 0 by { assert task !in waiting; }
    }
  }

  lemma TakenCopies(p: Program, s: State, done: Task, task: Task)
    requires done in s.posted
    ensures Copies(p, s.(posted := s.posted - multiset{done}), task)
         == Copies(p, s, task) - if task == done then 1 else 0
  {
  }

  /** A task that is run is the due task of an unsettled future. */
  lemma ExecutedIsDue(p: Program, s: State, task: Task)
    requires Inv(p, s) && task in s.posted
    ensures task.n in s.cells && s.cells[task.n].r.None? && !p.node(task.n).Source?
    ensures Due(p, s, task.n) == Some(task)
    ensures Awaited(p, task) in s.cells && s.cells[Awaited(p, task)].r.Some?
  {
    assert TaskOk(p, s, task);
  }

  /** Settling a future whose due task is the one being run. */
  lemma FinishKeepsTask(p: Program, s: State, done: Task, o: Result, task: Task)
    requires Inv(p, s) && done in s.posted && done.n in s.cells
    ensures TaskOk(p, Finish(s.(posted := s.posted - multiset{done}), done.n, o), task)
  {
    var n, s1 := done.n, s.(posted := s.posted - multiset{done});
    assert CellOk(p, s, n) && TaskOk(p, s, task) && TaskOk(p, s, done);
    TakenCopies(p, s, done, task);
    FinishCopies(p, s1, n, o, task);
    ExecutedIsDue(p, s, done);
  }

  /** A new cell has no task waiting on it, and leaves what others are due. */
  lemma NewCellCopies(p: Program, s: State, n: FutureId, task: Task)
    requires Inv(p, s) && n !in s.cells
    ensures var s1 := s.(cells := s.cells[n := Cell(None, [], None)]);
      && Copies(p, s1, task) == Copies(p, s, task)
      && (task.n in s.cells ==> Due(p, s1, task.n) == Due(p, s, task.n))
  {
    assert TaskOk(p, s, task);
  }

  lemma CreateKeepsTask(p: Program, s: State, n: FutureId, task: Task)
    requires Inv(p, s) && Step(p, s, Create(n)).Some?
    ensures TaskOk(p, Step(p, s, Create(n)).value, task)
  {
    var s1 := s.(cells := s.cells[n := Cell(None, [], None)]);
    assert TaskOk(p, s, task);
    NewCellCopies(p, s, n, task);
    if !p.node(n).Source? {
      RegisterCopies(p, s1, Run(n), task);
      RegisterKeepsDue(p, s1, Run(n), task.n);
    }
  }

  lemma RegisterKeepsDue(p: Program, s: State, added: Task, n: FutureId)
    requires Awaited(p, added) in s.cells
    ensures var s' := Register(s, Awaited(p, added), added);
      && s'.cells.Keys == s.cells.Keys
      && (forall m :: m in s.cells ==> s'.cells[m].r == s.cells[m].r && s'.cells[m].inner == s.cells[m].inner)
      && (n in s.cells ==> Due(p, s', n) == Due(p, s, n))
  {
  }

  lemma SettleKeepsTask(p: Program, s: State, n: FutureId, task: Task)
    requires Inv(p, s) && Step(p, s, Settle(n)).Some?
    ensures TaskOk(p, Step(p, s, Settle(n)).value, task)
  {
    assert TaskOk(p, s, task) && CellOk(p, s, n);
    FinishCopies(p, s, n, p.source(n).value, task);
  }

  lemma MovedOnCopies(p: Program, s: State, n: FutureId, inner: FutureId, task: Task)
    requires n in s.cells && Run(n) in s.posted
    ensures Copies(p, MovedOn(s, n, inner), task) == Copies(p, s, task) - if task == Run(n) then 1 else 0
    ensures task in MovedOn(s, n, inner).posted ==> task in s.posted
  {
  }

  lemma MovedOnDue(p: Program, s: State, n: FutureId, inner: FutureId, m: FutureId)
    requires n in s.cells && m in s.cells && Due(p, s, n) == Some(Run(n))
    ensures Due(p, MovedOn(s, n, inner), m) == if m == n then Some(RunInner(n, inner)) else Due(p, s, m)
  {
  }

  lemma MoveOnKeepsTask(p: Program, s: State, n: FutureId, inner: FutureId, task: Task)
    requires Inv(p, s) && Run(n) in s.posted && n in s.cells && inner in s.cells
    ensures TaskOk(p, Register(MovedOn(s, n, inner), inner, RunInner(n, inner)), task)
  {
    var s1 := MovedOn(s, n, inner);
    assert TaskOk(p, s, task) && TaskOk(p, s, Run(n));
    MovedOnCopies(p, s, n, inner, task);
    if task.n in s.cells {
      MovedOnDue(p, s, n, inner, task.n);
    }
    RegisterCopies(p, s1, RunInner(n, inner), task);
    RegisterKeepsDue(p, s1, RunInner(n, inner), task.n);
  }

  lemma StepKeepsTask(p: Program, s: State, a: Action, task: Task)
    requires Inv(p, s) && Step(p, s, a).Some?
    ensures TaskOk(p, Step(p, s, a).value, task)
  {
    match a
    case Create(n) => CreateKeepsTask(p, s, n, task);
    case Settle(n) => SettleKeepsTask(p, s, n, task);
    case Execute(RunInner(n, inner)) => FinishKeepsTask(p, s, a.task, s.cells[inner].r.value, task);
    case Execute(Run(n)) =>
      var node := p.node(n);
      var r := s.cells[node.parent].r.value;
      if !node.Unwrap? {
        FinishKeepsTask(p, s, a.task, Callback(node, r), task);
      } else if r.Exception? {
        FinishKeepsTask(p, s, a.task, r, task);
      } else {
        MoveOnKeepsTask(p, s, n, r.value.future, task);
      }
  }

  /** The outcome that a task settles its future with. */
  lemma ExecutedOutcome(p: Program, s: State, task: Task, n: FutureId)
    requires Inv(p, s) && Step(p, s, Execute(task)).Some? && n in s.cells
    requires s.cells[n].r.None? && Step(p, s, Execute(task)).value.cells[n].r.Some?
    ensures task.n == n && task in s.posted
    ensures var o, r := Step(p, s, Execute(task)).value.cells[n].r.value, s.cells[Awaited(p, task)].r.value;
      if task.RunInner? then o == r
      else if p.node(n).Unwrap? then r.Exception? && o == r
      else o == Callback(p.node(n), r)
  {
    assert TaskOk(p, s, task);
  }

  /** The outcome that a step settles a future with is one that the future denotes. */
  lemma SettledAsDenoted(p: Program, s: State, a: Action, n: FutureId)
    requires Inv(p, s) && Step(p, s, a).Some? && n in s.cells
    requires s.cells[n].r.None? && Step(p, s, a).value.cells[n].r.Some?
    ensures Denotes(p, n, Step(p, s, a).value.cells[n].r.value)
  {
    var o := Step(p, s, a).value.cells[n].r.value;
    assert CellOk(p, s, n);
    match a
    case Settle(_) => assert Denotation(p, n, 1) == Some(o);
    case Execute(task) =>
      ExecutedIsDue(p, s, task);
      ExecutedOutcome(p, s, task, n);
      assert CellOk(p, s, p.node(n).parent) && CellOk(p, s, Awaited(p, task));
      if p.node(n).Unwrap? {
        DenotesUnwrapped(p, n, o);
      } else {
        DenotesMapped(p, n, o);
      }
  }

  /** Futures stay, and settled futures stay settled as they are. */
  ghost predicate Extends(s: State, s': State) {
    && s.cells.Keys <= s'.cells.Keys
    && forall n :: n in s.cells && s.cells[n].r.Some? ==> s'.cells[n].r == s.cells[n].r
  }

  lemma RegisterExtends(s: State, on: FutureId, task: Task)
    requires on in s.cells
    ensures Extends(s, Register(s, on, task))
  {
  }

  lemma FinishExtends(s: State, n: FutureId, o: Result)
    requires n in s.cells && s.cells[n].r.None?
    ensures Extends(s, Finish(s, n, o))
  {
  }

  lemma ExecuteExtends(p: Program, s: State, task: Task)
    requires Step(p, s, Execute(task)).Some? && s.cells[task.n].r.None?
    ensures Extends(s, Step(p, s, Execute(task)).value)
  {
    var s1 := s.(posted := s.posted - multiset{task});
    if task.Run? && p.node(task.n).Unwrap? && s.cells[p.node(task.n).parent].r.value.Value? {
      var inner := s.cells[p.node(task.n).parent].r.value.value.future;
      RegisterExtends(MovedOn(s, task.n, inner), inner, RunInner(task.n, inner));
    } else {
      FinishExtends(s1, task.n, Step(p, s, Execute(task)).value.cells[task.n].r.value);
    }
  }

  lemma StepExtends(p: Program, s: State, a: Action)
    requires Step(p, s, a).Some?
    requires a.Execute? ==> s.cells[a.task.n].r.None?
    ensures Extends(s, Step(p, s, a).value)
  {
    match a
    case Create(n) =>
      if !p.node(n).Source? {
        RegisterExtends(s.(cells := s.cells[n := Cell(None, [], None)]), p.node(n).parent, Run(n));
      }
    case Settle(n) => FinishExtends(s, n, p.source(n).value);
    case Execute(task) => ExecuteExtends(p, s, task);
  }

  /** What a step changes in one cell. */
  ghost predicate Changes(p: Program, s: State, s': State, n: FutureId)
    requires n in s.cells && n in s'.cells
  {
    var c, c' := s.cells[n], s'.cells[n];
    && (c'.r == c.r || (c.r.None? && c'.r.Some? && c'.waiting == [] && Available(s, c'.r.value)))
    && (forall task :: task in c'.waiting ==> task in c.waiting || Awaited(p, task) == n)
    && (c.r.Some? ==> c'.waiting == c.waiting)
    && (c'.inner != c.inner ==>
          && p.node(n).Unwrap? && c'.inner.Some? && c'.inner.value in s.cells
          && p.node(n).parent in s.cells && s.cells[p.node(n).parent].r == Some(Value(Handle(c'.inner.value))))
  }

  lemma RegisterChanges(p: Program, s: State, added: Task, n: FutureId)
    requires Awaited(p, added) in s.cells && n in s.cells
    ensures Changes(p, s, Register(s, Awaited(p, added), added), n)
  {
  }

  lemma FinishChanges(p: Program, s: State, f: FutureId, o: Result, n: FutureId)
    requires f in s.cells && n in s.cells && s.cells[f].r.None? && Available(s, o)
    ensures Changes(p, s, Finish(s, f, o), n)
  {
  }

  lemma StepChangesCell(p: Program, s: State, a: Action, n: FutureId)
    requires Inv(p, s) && Step(p, s, a).Some? && n in s.cells
    ensures n in Step(p, s, a).value.cells && Changes(p, s, Step(p, s, a).value, n)
  {
    match a
    case Create(m) =>
      if !p.node(m).Source? {
        RegisterChanges(p, s.(cells := s.cells[m := Cell(None, [], None)]), Run(m), n);
      }
    case Settle(f) => FinishChanges(p, s, f, p.source(f).value, n);
    case Execute(task) =>
      ExecutedIsDue(p, s, task);
      var r := s.cells[Awaited(p, task)].r.value;
      assert CellOk(p, s, Awaited(p, task));
      var s1 := s.(posted := s.posted - multiset{task});
      if task.RunInner? || (p.node(task.n).Unwrap? && r.Exception?) {
        FinishChanges(p, s1, task.n, r, n);
      } else if !p.node(task.n).Unwrap? {
        FinishChanges(p, s1, task.n, Callback(p.node(task.n), r), n);
      } else {
        var inner := r.value.future;
        RegisterChanges(p, MovedOn(s, task.n, inner), RunInner(task.n, inner), n);
      }
  }

  lemma StepKeepsCell(p: Program, s: State, a: Action, n: FutureId)
    requires Inv(p, s) && Step(p, s, a).Some? && n in Step(p, s, a).value.cells
    ensures CellOk(p, Step(p, s, a).value, n)
  {
    if a.Execute? {
      ExecutedIsDue(p, s, a.task);
    }
    StepExtends(p, s, a);
    if n in s.cells {
      assert CellOk(p, s, n);
      StepChangesCell(p, s, a, n);
      if s.cells[n].r.None? && Step(p, s, a).value.cells[n].r.Some? {
        SettledAsDenoted(p, s, a, n);
      }
    }
  }

  lemma StepKeepsInv(p: Program, s: State, a: Action)
    requires Inv(p, s) && Step(p, s, a).Some?
    ensures Inv(p, Step(p, s, a).value)
  {
    var s' := Step(p, s, a).value;
    forall n | n in s'.cells ensures CellOk(p, s', n) { StepKeepsCell(p, s, a, n); }
    forall task ensures TaskOk(p, s', task) { StepKeepsTask(p, s, a, task); }
  }

  ghost predicate Reachable(p: Program, s: State) {
    exists acts :: Runs.Exec(StepOf(p), INIT, acts) == Some(s)
  }

  lemma ReachableInv(p: Program, s: State)
    requires Reachable(p, s)
    ensures Inv(p, s)
  {
    var acts :| Runs.Exec(StepOf(p), INIT, acts) == Some(s);
    var inv := (u: State) => Inv(p, u);
    forall u, a | inv(u) && StepOf(p)(u, a).Some? ensures inv(StepOf(p)(u, a).value) { StepKeepsInv(p, u, a); }
    Runs.Invariance(StepOf(p), inv, INIT, acts);
  }

  // ----- schedule independence -----

  /** Whatever the schedule, a settled future holds what it denotes, so two schedules agree on it. */
  lemma ScheduleIndependence(p: Program, s: State, s': State, n: FutureId)
    requires Reachable(p, s) && Reachable(p, s')
    requires n in s.cells && n in s'.cells && s.cells[n].r.Some? && s'.cells[n].r.Some?
    ensures s.cells[n].r == s'.cells[n].r && Denotes(p, n, s.cells[n].r.value)
  {
    ReachableInv(p, s);
    ReachableInv(p, s');
    assert CellOk(p, s, n) && CellOk(p, s', n);
    DenotesOne(p, n, s.cells[n].r.value, s'.cells[n].r.value);
  }

  /** Nothing is left to do: every posted task has run, every source that settles has settled. */
  ghost predicate Complete(p: Program, s: State) {
    && s.posted == multiset{}
    && forall n :: n in s.cells && p.node(n).Source? && p.source(n).Some? ==> s.cells[n].r.Some?
  }

  lemma {:induction false} DenotedIsSettled(p: Program, s: State, n: FutureId, depth: nat)
    requires Inv(p, s) && Complete(p, s) && n in s.cells && Denotation(p, n, depth).Some?
    ensures s.cells[n].r.Some?
    decreases depth
  {
    assert CellOk(p, s, n);
    if s.cells[n].r.None? && !p.node(n).Source? {
      var task := Due(p, s, n).value;
      assert TaskOk(p, s, task);
      var parent := p.node(n).parent;
      DenotedIsSettled(p, s, parent, depth - 1);
      assert CellOk(p, s, parent);
      DenotesOne(p, parent, s.cells[parent].r.value, Denotation(p, parent, depth - 1).value);
      if task.RunInner? {
        DenotedIsSettled(p, s, task.inner, depth - 1);
      }
    }
  }

  /** At the end of a run, a future has an outcome exactly when it denotes one, and has that one. */
  lemma CompleteRunsDenote(p: Program, s: State, n: FutureId, o: Result)
    requires Reachable(p, s) && Complete(p, s) && n in s.cells
    ensures s.cells[n].r == Some(o) <==> Denotes(p, n, o)
  {
    ReachableInv(p, s);
    assert CellOk(p, s, n);
    if Denotes(p, n, o) {
      var depth: nat :| Denotation(p, n, depth) == Some(o);
      DenotedIsSettled(p, s, n, depth);
      DenotesOne(p, n, o, s.cells[n].r.value);
    }
  }

  /** What running a task settles its future with, from what the future it awaits holds: then calls its callback
      whatever that is, and_then and to_void only on a value, and unwrap passes on an exception of the outer
      future and all of the inner one. */
  lemma TaskSettles(p: Program, s: State, task: Task, s': State)
    requires Reachable(p, s) && Step(p, s, Execute(task)) == Some(s')
    ensures task.n in s'.cells && Awaited(p, task) in s.cells && s.cells[Awaited(p, task)].r.Some?
    ensures var r, r' := s.cells[Awaited(p, task)].r.value, s'.cells[task.n].r;
      match p.node(task.n)
      case Then(_, onReady) => r' == Some(onReady(r))
      case AndThen(_, onValue) => r' == Some(if r.Value? then onValue(r.value) else r)
      case ToVoid(_) => r' == Some(if r.Value? then Value(Plain(0)) else r)
      case Unwrap(_) => r' == if task.RunInner? || r.Exception? then Some(r) else None
      case Source => false
  {
    ReachableInv(p, s);
    ExecutedIsDue(p, s, task);
    assert CellOk(p, s, task.n);
  }

  /** A posted task can always run as soon as the futures its callback returns exist. */
  lemma PostedTaskCanRun(p: Program, s: State, task: Task)
    requires Reachable(p, s) && task in s.posted
    ensures task.n in s.cells && s.cells[task.n].r.None? && !p.node(task.n).Source?
    ensures Awaited(p, task) in s.cells && s.cells[Awaited(p, task)].r.Some?
    ensures task.RunInner? ==> Step(p, s, Execute(task)).Some?
    ensures task.Run? ==>
      var node, r := p.node(task.n), s.cells[Awaited(p, task)].r.value;
      && (!node.Unwrap? && Available(s, Callback(node, r)) ==> Step(p, s, Execute(task)).Some?)
      && (node.Unwrap? && (r.Value? ==> r.value.Handle?) ==> Step(p, s, Execute(task)).Some?)
  {
    ReachableInv(p, s);
    ExecutedIsDue(p, s, task);
    assert CellOk(p, s, Awaited(p, task));
  }

  // ----- functor and monad laws -----

  /** Futures that end every run alike. */
  ghost predicate Equivalent(p: Program, m: FutureId, n: FutureId) {
    forall o :: Denotes(p, m, o) <==> Denotes(p, n, o)
  }

  lemma EquivalentFuturesAgree(p: Program, m: FutureId, n: FutureId, s: State)
    requires Equivalent(p, m, n) && Reachable(p, s) && Complete(p, s) && m in s.cells && n in s.cells
    ensures s.cells[m].r == s.cells[n].r
  {
    if s.cells[m].r.Some? {
      CompleteRunsDenote(p, s, m, s.cells[m].r.value);
      CompleteRunsDenote(p, s, n, s.cells[m].r.value);
    } else if s.cells[n].r.Some? {
      CompleteRunsDenote(p, s, n, s.cells[n].r.value);
      CompleteRunsDenote(p, s, m, s.cells[n].r.value);
    }
  }

  /** and_then with the identity changes nothing. */
  lemma FunctorIdentity(p: Program, m: FutureId, n: FutureId)
    requires p.node(n).AndThen? && p.node(n).parent == m
    requires forall v :: p.node(n).onValue(v) == Value(v)
    ensures Equivalent(p, n, m)
  {
    forall o ensures Denotes(p, n, o) <==> Denotes(p, m, o) {
      DenotesMapped(p, n, o);
      assert forall r :: Callback(p.node(n), r) == r;
    }
  }

  function AndThenResult(r: Result, f: Value -> Result): Result {
    match r
    case Value(v) => f(v)
    case Exception(e) => Exception(e)
  }

  /** Two and_then in a row are one and_then of the composed functions. */
  lemma FunctorComposition(p: Program, m: FutureId, f: FutureId, g: FutureId, fg: FutureId)
    requires p.node(f).AndThen? && p.node(f).parent == m
    requires p.node(g).AndThen? && p.node(g).parent == f
    requires p.node(fg).AndThen? && p.node(fg).parent == m
    requires forall v :: p.node(fg).onValue(v) == AndThenResult(p.node(f).onValue(v), p.node(g).onValue)
    ensures Equivalent(p, g, fg)
  {
    forall o ensures Denotes(p, g, o) <==> Denotes(p, fg, o) {
      DenotesMapped(p, g, o);
      DenotesMapped(p, fg, o);
      assert forall r :: Callback(p.node(fg), r) == Callback(p.node(g), Callback(p.node(f), r));
      forall r ensures Denotes(p, f, r) <==> exists q :: Denotes(p, m, q) && r == Callback(p.node(f), q) {
        DenotesMapped(p, f, r);
      }
      if r :| Denotes(p, m, r) && o == Callback(p.node(fg), r) {
        assert Denotes(p, f, Callback(p.node(f), r));
      }
    }
  }

  /** Unwrapping a ready future of a future gives the inner future. */
  lemma JoinOfReady(p: Program, ready: FutureId, n: FutureId, inner: FutureId)
    requires p.node(ready).Source? && p.source(ready) == Some(Value(Handle(inner)))
    requires p.node(n).Unwrap? && p.node(n).parent == ready
    ensures Equivalent(p, n, inner)
  {
    assert Denotation(p, ready, 1) == Some(Value(Handle(inner)));
    forall o ensures Denotes(p, n, o) <==> Denotes(p, inner, o) {
      DenotesUnwrapped(p, n, o);
      if o.Exception? && Denotes(p, ready, o) {
        DenotesOne(p, ready, o, Value(Handle(inner)));
      }
      if i :| Denotes(p, ready, Value(Handle(i))) && Denotes(p, i, o) {
        DenotesOne(p, ready, Value(Handle(i)), Value(Handle(inner)));
      }
    }
  }

  /** ready(v) is a source that settles with v. */
  predicate ReadyOf(p: Program, ready: Value -> FutureId, v: Value) {
    p.node(ready(v)).Source? && p.source(ready(v)) == Some(Value(v))
  }

  lemma ReadyDenotes(p: Program, ready: Value -> FutureId, v: Value)
    requires ReadyOf(p, ready, v)
    ensures Denotes(p, ready(v), Value(v))
  {
    assert Denotation(p, ready(v), 1) == Some(Value(v));
  }

  /** Mapping every value to a ready future of it and unwrapping changes nothing. */
  lemma JoinOfMappedReady(p: Program, m: FutureId, mapped: FutureId, n: FutureId, ready: Value -> FutureId)
    requires p.node(mapped).AndThen? && p.node(mapped).parent == m
    requires forall v :: p.node(mapped).onValue(v) == Value(Handle(ready(v)))
    requires forall v :: ReadyOf(p, ready, v)
    requires p.node(n).Unwrap? && p.node(n).parent == mapped
    ensures Equivalent(p, n, m)
  {
    forall r ensures Callback(p.node(mapped), r) == if r.Value? then Value(Handle(ready(r.value))) else r {}
    forall o ensures Denotes(p, n, o) <==> Denotes(p, m, o) {
      DenotesUnwrapped(p, n, o);
      if Joins(p, mapped, o) {
        MappedReadyJoins(p, m, mapped, ready, o);
      }
      if Denotes(p, m, o) {
        DenotesMapped(p, mapped, Callback(p.node(mapped), o));
        if o.Value? {
          assert ReadyOf(p, ready, o.value);
          ReadyDenotes(p, ready, o.value);
        }
      }
    }
  }

  lemma MappedReadyJoins(p: Program, m: FutureId, mapped: FutureId, ready: Value -> FutureId, o: Result)
    requires p.node(mapped).AndThen? && p.node(mapped).parent == m
    requires forall r :: Callback(p.node(mapped), r) == if r.Value? then Value(Handle(ready(r.value))) else r
    requires forall v :: ReadyOf(p, ready, v)
    requires Joins(p, mapped, o)
    ensures Denotes(p, m, o)
  {
    if o.Exception? && Denotes(p, mapped, o) {
      DenotesMapped(p, mapped, o);
    } else {
      var i :| Denotes(p, mapped, Value(Handle(i))) && Denotes(p, i, o);
      MappedReadyInner(p, m, mapped, ready, i, o);
    }
  }

  lemma MappedReadyInner(p: Program, m: FutureId, mapped: FutureId, ready: Value -> FutureId, i: FutureId, o: Result)
    requires p.node(mapped).AndThen? && p.node(mapped).parent == m
    requires forall r :: Callback(p.node(mapped), r) == if r.Value? then Value(Handle(ready(r.value))) else r
    requires forall v :: ReadyOf(p, ready, v)
    requires Denotes(p, mapped, Value(Handle(i))) && Denotes(p, i, o)
    ensures Denotes(p, m, o)
  {
    DenotesMapped(p, mapped, Value(Handle(i)));
    var q :| Denotes(p, m, q) && Value(Handle(i)) == Callback(p.node(mapped), q);
    assert ReadyOf(p, ready, q.value);
    ReadyHolds(p, ready, q.value, o);
  }

  lemma ReadyHolds(p: Program, ready: Value -> FutureId, v: Value, o: Result)
    requires ReadyOf(p, ready, v) && Denotes(p, ready(v), o)
    ensures o == Value(v)
  {
    ReadyDenotes(p, ready, v);
    DenotesOne(p, ready(v), o, Value(v));
  }

  /** Unwrapping twice from the outside in is unwrapping twice from the inside out. */
  lemma JoinAssociativity(p: Program, m: FutureId, outer: FutureId, both: FutureId,
                          mapped: FutureId, inside: FutureId, unwrapped: FutureId -> FutureId)
    requires p.node(outer).Unwrap? && p.node(outer).parent == m
    requires p.node(both).Unwrap? && p.node(both).parent == outer
    requires p.node(mapped).AndThen? && p.node(mapped).parent == m
    requires forall i :: p.node(mapped).onValue(Handle(i)) == Value(Handle(unwrapped(i)))
    requires forall i :: p.node(unwrapped(i)).Unwrap? && p.node(unwrapped(i)).parent == i
    requires p.node(inside).Unwrap? && p.node(inside).parent == mapped
    // the element type of m is a future
    requires forall k :: !Denotes(p, m, Value(Plain(k)))
    ensures Equivalent(p, both, inside)
  {
    forall o ensures Denotes(p, both, o) <==> Denotes(p, inside, o) {
      DenotesUnwrapped(p, both, o);
      DenotesUnwrapped(p, inside, o);
      forall r ensures Denotes(p, outer, r) <==> Joins(p, m, r) { DenotesUnwrapped(p, outer, r); }
      forall i ensures Denotes(p, unwrapped(i), o) <==> Joins(p, i, o) { DenotesUnwrapped(p, unwrapped(i), o); }
      forall r ensures Denotes(p, mapped, r) <==> exists q :: Denotes(p, m, q) && r == Callback(p.node(mapped), q) {
        DenotesMapped(p, mapped, r);
      }
      if Joins(p, outer, o) {
        OutsideIn(p, m, outer, mapped, unwrapped, o);
      }
      if Joins(p, mapped, o) {
        InsideOut(p, m, outer, mapped, unwrapped, o);
      }
    }
  }

  lemma OutsideIn(p: Program, m: FutureId, outer: FutureId, mapped: FutureId, unwrapped: FutureId -> FutureId,
                  o: Result)
    requires p.node(mapped).AndThen? && Joins(p, outer, o)
    requires forall r :: Denotes(p, outer, r) <==> Joins(p, m, r)
    requires forall r :: Denotes(p, mapped, r) <==> exists q :: Denotes(p, m, q) && r == Callback(p.node(mapped), q)
    requires forall i :: p.node(mapped).onValue(Handle(i)) == Value(Handle(unwrapped(i)))
    requires forall i :: Denotes(p, unwrapped(i), o) <==> Joins(p, i, o)
    ensures Joins(p, mapped, o)
  {
    if o.Exception? && Denotes(p, m, o) {
      assert Callback(p.node(mapped), o) == o;
    } else {
      // o comes from a future i that m holds, or from a future that i holds
      var i :| Denotes(p, m, Value(Handle(i))) && Joins(p, i, o);
      assert Callback(p.node(mapped), Value(Handle(i))) == Value(Handle(unwrapped(i)));
      assert Denotes(p, mapped, Value(Handle(unwrapped(i))));
    }
  }

  lemma InsideOut(p: Program, m: FutureId, outer: FutureId, mapped: FutureId, unwrapped: FutureId -> FutureId,
                  o: Result)
    requires p.node(mapped).AndThen? && Joins(p, mapped, o)
    requires forall r :: Denotes(p, outer, r) <==> Joins(p, m, r)
    requires forall r :: Denotes(p, mapped, r) <==> exists q :: Denotes(p, m, q) && r == Callback(p.node(mapped), q)
    requires forall i :: p.node(mapped).onValue(Handle(i)) == Value(Handle(unwrapped(i)))
    requires forall i :: Denotes(p, unwrapped(i), o) <==> Joins(p, i, o)
    requires forall k :: !Denotes(p, m, Value(Plain(k)))
    ensures Joins(p, outer, o)
  {
    // callbacks may throw, but this one does not on a future
    var r :| Denotes(p, mapped, r)
      && ((r.Exception? && r == o) || (r.Value? && r.value.Handle? && Denotes(p, r.value.future, o)));
    var q :| Denotes(p, m, q) && r == Callback(p.node(mapped), q);
    if q.Value? {
      assert q == Value(Handle(q.value.future));
      var i := q.value.future;
      assert r == Value(Handle(unwrapped(i)));
      assert Joins(p, i, o);
      if o.Exception? && Denotes(p, i, o) {
        assert Joins(p, m, o);
      } else {
        var j :| Denotes(p, i, Value(Handle(j))) && Denotes(p, j, o);
        assert Joins(p, m, Value(Handle(j)));
      }
    }
  }

  // ----- the class -----

  /** The shared states of a program and the tasks its executors hold. */
  class Heap {
    const program: Program
    var cells: map<FutureId, Cell>
    var posted: multiset<Task>

    function View(): State
      reads this
    {
      State(cells, posted)
    }

    constructor (program: Program)
      ensures this.program == program && View() == INIT
    {
      this.program := program;
      cells, posted := map[], multiset{};
    }

    /** shared_base::then */
    method RegisterOn(on: FutureId, task: Task)
      requires on in cells
      modifies this
      ensures View() == Register(old(View()), on, task)
    {
      var c := cells[on];
      if c.r.None? {
        cells := cells[on := c.(waiting := c.waiting + [task])];
      } else {
        posted := posted + multiset{task};
      }
    }

    /** shared_base::finish, with its loop over the continuations it swapped out. */
    method FinishWith(n: FutureId, o: Result)
      requires n in cells
      modifies this
      ensures View() == Finish(old(View()), n, o)
    {
      var then_ := cells[n].waiting;
      cells := cells[n := cells[n].(r := Some(o), waiting := [])];
      var i := 0;
      while i < |then_|
        invariant 0 <= i <= |then_|
        invariant cells == Finish(old(View()), n, o).cells
        invariant posted == old(posted) + multiset(then_[..i])
      {
        posted := posted + multiset{then_[i]};
        assert then_[..i + 1] == then_[..i] + [then_[i]];
        i := i + 1;
      }
      assert then_[..i] == then_;
    }

    /** then_impl, and unwrap up to its first continuation. */
    method CreateFuture(n: FutureId)
      requires Step(program, View(), Create(n)).Some?
      modifies this
      ensures Some(View()) == Step(program, old(View()), Create(n))
    {
      cells := cells[n := Cell(None, [], None)];
      if !program.node(n).Source? {
        RegisterOn(program.node(n).parent, Run(n));
      }
    }

    /** An executor runs a continuation: the packaged task of a then, or a lambda of unwrap. */
    method RunTask(task: Task)
      requires Step(program, View(), Execute(task)).Some?
      modifies this
      ensures Some(View()) == Step(program, old(View()), Execute(task))
    {
      posted := posted - multiset{task};
      match task {
        case RunInner(n, inner) =>
          FinishWith(n, cells[inner].r.value);
        case Run(n) =>
          var node := program.node(n);
          var r := cells[node.parent].r.value;
          if !node.Unwrap? {
            FinishWith(n, Callback(node, r));
          } else if r.Exception? {
            FinishWith(n, r);
          } else {
            cells := cells[n := cells[n].(inner := Some(r.value.future))];
            RegisterOn(r.value.future, RunInner(n, r.value.future));
          }
      }
    }
  }
}
