/** Sender pipelines: then, async_then and connect over senders that complete once.

    A pipeline is submitted by wrapping the final receiver in one receiver for each stage, the
    outermost stage first. A step is a completion travelling through one receiver, so cancelations come in
    between, also between a receiver's look at the token and the call of its function. Receivers do not throw. */
module LazyThen {
  import opened Outcomes
  import Runs

  datatype Completion = Value(v: int) | Error(e: Error) | Done

  /** What the function given to async_then does with the receiver: it submits another sender to it, or throws. */
  datatype Next = Submit(sender: Sender) | Throw(e: Error)

  /** Source is any sender that is not built here, such as async or a coroutine. A function given to then returns
      a value or throws. */
  datatype Sender =
    | Source(id: nat)
    | Then(sender: Sender, fun: int -> Outcome<int>)
    | AsyncThen(sender: Sender, submit: int -> Next)

  /** connect, whose second sender is submitted with the values of the first one. */
  function Connect(first: Sender, second: int -> Sender): Sender {
    AsyncThen(first, v => Submit(second(v)))
  }

  /** How each source completes when it is not canceled, and whether a cancelation makes it complete with done
      at once. */
  datatype World = World(completes: nat -> Completion, cancelable: nat -> bool)

  // ----- what a pipeline denotes -----

  function Applied(r: Outcome<int>): Completion {
    match r
    case Value(v) => Completion.Value(v)
    case Exception(e) => Completion.Error(e)
  }

  /** The completion of an uncanceled pipeline, evaluated to a depth: then maps, async_then binds, and errors
      and done skip every function. */
  ghost function Denotation(w: World, s: Sender, depth: nat): Option<Completion>
    decreases depth, 1, s
  {
    match s
    case Source(id) => Some(w.completes(id))
    case Then(first, fun) =>
      (match Denotation(w, first, depth)
       case Some(Value(v)) => Some(Applied(fun(v)))
       case other => other)
    case AsyncThen(first, submit) =>
      match Denotation(w, first, depth)
      case Some(Value(v)) => Proceed(w, submit(v), depth)
      case other => other
  }

  ghost function Proceed(w: World, next: Next, depth: nat): Option<Completion>
    decreases depth, 0
  {
    match next
    case Throw(e) => Some(Completion.Error(e))
    case Submit(s) => if depth == 0 then None else Denotation(w, s, depth - 1)
  }

  ghost predicate Denotes(w: World, s: Sender, c: Completion) {
    exists depth: nat :: Denotation(w, s, depth) == Some(c)
  }

  lemma {:induction false} DenotationGrows(w: World, s: Sender, depth: nat, more: nat)
    requires Denotation(w, s, depth).Some? && depth <= more
    ensures Denotation(w, s, more) == Denotation(w, s, depth)
    decreases depth, s
  {
    match s
    case Source(_) =>
    case Then(first, _) => DenotationGrows(w, first, depth, more);
    case AsyncThen(first, submit) =>
      DenotationGrows(w, first, depth, more);
      var c := Denotation(w, first, depth).value;
      if c.Value? && submit(c.v).Submit? {
        DenotationGrows(w, submit(c.v).sender, depth - 1, more - 1);
      }
  }

  lemma DenotesOne(w: World, s: Sender, c: Completion, c': Completion)
    requires Denotes(w, s, c) && Denotes(w, s, c')
    ensures c == c'
  {
    var d: nat :| Denotation(w, s, d) == Some(c);
    var d': nat :| Denotation(w, s, d') == Some(c');
    DenotationGrows(w, s, d, d + d');
    DenotationGrows(w, s, d', d + d');
  }

  // ----- the machine -----

  /** A then_receiver or an async_then_receiver, without the receiver it wraps. */
  datatype Stage = ThenStage(fun: int -> Outcome<int>) | AsyncThenStage(submit: int -> Next)

  /** A sender being submitted, a source at work, a completion on its way to the innermost receiver, a function
      about to be called, or nothing left. */
  datatype Focus =
    | Submitting(sender: Sender)
    | Working(id: nat)
    | Completing(c: Completion)
    | Calling(v: int)
    | Finished

  /** stages are the receivers around the final one, the innermost first. installed tells that the token has a
      canceler, received is what the final receiver got, calls counts the functions called, and failed tells
      that a canceler was set over another one. */
  datatype State = State(
    focus: Focus,
    stages: seq<Stage>,
    canceled: bool,
    installed: bool,
    received: seq<Completion>,
    calls: nat,
    failed: bool)

  datatype Action = Proceeding | Cancel

  /** The innermost receiver gets a completion, and resets the token. */
  function Receive(s0: State, c: Completion): State {
    var s := s0.(installed := false);
    if s.stages == [] then s.(focus := Finished, received := s.received + [c])
    else if !c.Value? then s.(focus := Completing(c), stages := s.stages[1..])
    else if s.canceled then s.(focus := Completing(Done), stages := s.stages[1..])
    else s.(focus := Calling(c.v))
  }

  /** It calls its function, and the receiver it wraps gets what comes of it. */
  function CallFunction(s: State, v: int): State
    requires s.stages != []
  {
    var s1 := s.(stages := s.stages[1..], calls := s.calls + 1);
    match s.stages[0]
    case ThenStage(fun) => s1.(focus := Completing(Applied(fun(v))))
    case AsyncThenStage(submit) =>
      match submit(v)
      case Throw(e) => s1.(focus := Completing(Completion.Error(e)))
      case Submit(next) => s1.(focus := Submitting(next))
  }

  function Step(w: World, s: State, a: Action): Option<State> {
    match a
    case Cancel =>
      // request_cancel calls the canceler of the source at work, if it has set one
      Some(if s.focus.Working? && s.installed && !s.canceled
           then s.(canceled := true, focus := Completing(Done))
           else s.(canceled := true))
    case Proceeding =>
      match s.focus
      case Submitting(Source(id)) =>
        if w.cancelable(id) then
          Some(s.(focus := if s.canceled then Completing(Done) else Working(id), installed := true,
                  failed := s.failed || s.installed))
        else Some(s.(focus := Working(id)))
      case Submitting(Then(first, fun)) =>
        Some(s.(focus := Submitting(first), stages := [ThenStage(fun)] + s.stages))
      case Submitting(AsyncThen(first, submit)) =>
        Some(s.(focus := Submitting(first), stages := [AsyncThenStage(submit)] + s.stages))
      case Working(id) => Some(s.(focus := Completing(w.completes(id))))
      case Completing(c) => Some(Receive(s, c))
      case Calling(v) => if s.stages == [] then None else Some(CallFunction(s, v))
      case Finished => None
  }

  function StepOf(w: World): (State, Action) -> Option<State> {
    (s, a) => Step(w, s, a)
  }

  function Init(sender: Sender, canceled: bool): State {
    State(Submitting(sender), [], canceled, false, [], 0, false)
  }

  // ----- the meaning of a state -----

  /** What reaches the final receiver when a completion enters the stages, without cancelation. */
  ghost function Through(w: World, stages: seq<Stage>, c: Completion, depth: nat): Option<Completion>
    decreases |stages|, 1
  {
    if stages == [] || !c.Value? then Some(c) else Called(w, stages, c.v, depth)
  }

  /** The same, when the function of the innermost stage is about to be called. */
  ghost function Called(w: World, stages: seq<Stage>, v: int, depth: nat): Option<Completion>
    requires stages != []
    decreases |stages|, 0
  {
    match stages[0]
    case ThenStage(fun) => Through(w, stages[1..], Applied(fun(v)), depth)
    case AsyncThenStage(submit) =>
      match Proceed(w, submit(v), depth)
      case None => None
      case Some(c) => Through(w, stages[1..], c, depth)
  }

  ghost function Meaning(w: World, s: State, depth: nat): Option<Completion> {
    match s.focus
    case Submitting(sender) =>
      (match Denotation(w, sender, depth)
       case None => None
       case Some(c) => Through(w, s.stages, c, depth))
    case Working(id) => Through(w, s.stages, w.completes(id), depth)
    case Completing(c) => Through(w, s.stages, c, depth)
    case Calling(v) => if s.stages == [] then None else Called(w, s.stages, v, depth)
    case Finished => if |s.received| == 1 then Some(s.received[0]) else None
  }

  lemma {:induction false} ThroughGrows(w: World, stages: seq<Stage>, c: Completion, depth: nat, more: nat)
    requires Through(w, stages, c, depth).Some? && depth <= more
    ensures Through(w, stages, c, more) == Through(w, stages, c, depth)
    decreases |stages|
  {
    if stages != [] && c.Value? {
      match stages[0]
      case ThenStage(fun) => ThroughGrows(w, stages[1..], Applied(fun(c.v)), depth, more);
      case AsyncThenStage(submit) =>
        var next := submit(c.v);
        if next.Submit? {
          DenotationGrows(w, next.sender, depth - 1, more - 1);
        }
        ThroughGrows(w, stages[1..], Proceed(w, next, depth).value, depth, more);
    }
  }

  /** The final receiver is called once, at the end; a function is called only inside some receiver. */
  ghost predicate Inv(s: State) {
    && (if s.focus.Finished? then |s.received| == 1 else s.received == [])
    && (s.focus.Calling? ==> s.stages != [])
    && !s.failed && (s.installed ==> s.focus.Working? || s.focus.Completing?)
  }

  /** Done and errors go straight through. */
  lemma ThroughWithoutValue(w: World, stages: seq<Stage>, c: Completion, depth: nat)
    requires !c.Value?
    ensures Through(w, stages, c, depth) == Some(c)
  {
  }

  /** A step keeps the meaning of the state, unless a cancelation turns it into done. */
  lemma StepKeepsMeaning(w: World, s: State, a: Action, depth: nat) returns (before: nat)
    requires Inv(s) && Step(w, s, a).Some? && Meaning(w, Step(w, s, a).value, depth).Some?
    ensures Inv(Step(w, s, a).value) && (s.canceled ==> Step(w, s, a).value.canceled)
    ensures Meaning(w, s, before) == Meaning(w, Step(w, s, a).value, depth)
      || (Step(w, s, a).value.canceled && Meaning(w, Step(w, s, a).value, depth) == Some(Done))
  {
    var s' := Step(w, s, a).value;
    before := depth;
    ThroughWithoutValue(w, s'.stages, Done, depth);
    if a == Proceeding {
      if s.focus.Submitting? && !s.focus.sender.Source? {
        assert s'.stages[1..] == s.stages;
        var c := Denotation(w, s'.focus.sender, depth).value;
        if !c.Value? {
          ThroughWithoutValue(w, s.stages, c, depth);
        } else {
          assert Meaning(w, s', depth) == Called(w, s'.stages, c.v, depth);
        }
      } else if s.focus.Calling? && s'.focus.Submitting? {
        before := depth + 1;
        var c := Denotation(w, s'.focus.sender, depth).value;
        ThroughGrows(w, s'.stages, c, depth, depth + 1);
      }
    }
  }

  /** The meaning at the end of a run is that of its beginning, or done after a cancelation. */
  lemma {:induction false} RunKeepsMeaning(w: World, s: State, acts: seq<Action>, s': State, depth: nat)
    returns (before: nat)
    requires Inv(s) && Runs.Exec(StepOf(w), s, acts) == Some(s') && Meaning(w, s', depth).Some?
    ensures Inv(s') && (s.canceled ==> s'.canceled)
    ensures Meaning(w, s, before) == Meaning(w, s', depth) || (s'.canceled && Meaning(w, s', depth) == Some(Done))
    decreases |acts|
  {
    before := depth;
    if acts != [] {
      var s1 := Step(w, s, acts[0]).value;
      StepKeepsInv(w, s, acts[0]);
      var middle := RunKeepsMeaning(w, s1, acts[1..], s', depth);
      if Meaning(w, s1, middle) == Meaning(w, s', depth) {
        before := StepKeepsMeaning(w, s, acts[0], middle);
        CanceledStays(w, s1, acts[1..], s');
      }
    }
  }

  lemma StepKeepsInv(w: World, s: State, a: Action)
    requires Inv(s) && Step(w, s, a).Some?
    ensures Inv(Step(w, s, a).value) && (s.canceled ==> Step(w, s, a).value.canceled)
  {
  }

  lemma CanceledStays(w: World, s: State, acts: seq<Action>, s': State)
    requires Inv(s) && Runs.Exec(StepOf(w), s, acts) == Some(s')
    ensures Inv(s') && (s.canceled ==> s'.canceled)
  {
    var inv := (u: State) => Inv(u) && (s.canceled ==> u.canceled);
    forall u, a | inv(u) && StepOf(w)(u, a).Some? ensures inv(StepOf(w)(u, a).value) { StepKeepsInv(w, u, a); }
    Runs.Invariance(StepOf(w), inv, s, acts);
  }

  // ----- what every run guarantees -----

  /** A finished pipeline has called its final receiver exactly once: without a cancelation with what the
      pipeline denotes, and with one at any moment with that or with done. */
  lemma FinishedAsDenoted(w: World, sender: Sender, canceled: bool, acts: seq<Action>, s: State)
    requires Runs.Exec(StepOf(w), Init(sender, canceled), acts) == Some(s)
    ensures |s.received| <= 1 && (s.focus.Finished? <==> |s.received| == 1)
    ensures s.focus.Finished? ==> Denotes(w, sender, s.received[0]) || (s.canceled && s.received == [Done])
  {
    CanceledStays(w, Init(sender, canceled), acts, s);
    if s.focus.Finished? {
      var depth := RunKeepsMeaning(w, Init(sender, canceled), acts, s, 0);
      if Meaning(w, Init(sender, canceled), depth) == Some(s.received[0]) {
        var c := Denotation(w, sender, depth).value;
        assert Through(w, [], c, depth) == Some(c);
      }
    }
  }

  /** Every receiver resets the token before a source further down sets its canceler: the assertion that none
      is set never fails. */
  lemma CancelerSlotIsFree(w: World, sender: Sender, canceled: bool, acts: seq<Action>, s: State)
    requires Runs.Exec(StepOf(w), Init(sender, canceled), acts) == Some(s)
    ensures !s.failed
    ensures s.focus.Submitting? || s.focus.Finished? ==> !s.installed
  {
    CanceledStays(w, Init(sender, canceled), acts, s);
  }

  /** A cancelable source at work has not been canceled, and a cancelation completes it with done; one that is
      submitted after the cancelation completes so at once. A cancelation changes nothing else. */
  lemma CancelReachesSource(w: World, sender: Sender, canceled: bool, acts: seq<Action>, s: State, id: nat)
    requires Runs.Exec(StepOf(w), Init(sender, canceled), acts) == Some(s)
    ensures s.focus == Working(id) && w.cancelable(id) ==>
      !s.canceled && Step(w, s, Cancel) == Some(s.(canceled := true, focus := Completing(Done)))
    ensures !(s.focus.Working? && w.cancelable(s.focus.id)) ==> Step(w, s, Cancel) == Some(s.(canceled := true))
    ensures s.focus == Submitting(Source(id)) && w.cancelable(id) && s.canceled ==>
      Step(w, s, Proceeding).Some? && Step(w, s, Proceeding).value.focus == Completing(Done)
    ensures s.canceled <==> canceled || Cancel in acts
  {
    SourceIsOk(w, sender, canceled, acts, s);
    Runs.FlagIff(StepOf(w), (u: State) => u.canceled, (a: Action) => a == Cancel, Init(sender, canceled), acts, s);
  }

  lemma SourceIsOk(w: World, sender: Sender, canceled: bool, acts: seq<Action>, s: State)
    requires Runs.Exec(StepOf(w), Init(sender, canceled), acts) == Some(s)
    ensures SourceOk(w, s)
  {
    var inv := (u: State) => Inv(u) && SourceOk(w, u);
    forall u, a | inv(u) && StepOf(w)(u, a).Some? ensures inv(StepOf(w)(u, a).value) { StepKeepsInv(w, u, a); }
    Runs.Invariance(StepOf(w), inv, Init(sender, canceled), acts);
  }

  /** A source at work has set its canceler exactly if it is cancelable, and then nobody has called it. */
  ghost predicate SourceOk(w: World, s: State) {
    s.focus.Working? ==> (s.installed <==> w.cancelable(s.focus.id)) && (s.installed ==> !s.canceled)
  }

  /** Until it has, it can always go on; CanceledFinishes bounds how long a canceled pipeline does. */
  lemma NoDeadlock(w: World, sender: Sender, canceled: bool, acts: seq<Action>, s: State)
    requires Runs.Exec(StepOf(w), Init(sender, canceled), acts) == Some(s)
    ensures s.focus.Finished? || Step(w, s, Proceeding).Some?
  {
    CanceledStays(w, Init(sender, canceled), acts, s);
  }

  /** A run from s to the delivery of c to the receivers that s submits to. */
  ghost predicate Delivers(w: World, s: State, acts: seq<Action>, s': State, c: Completion) {
    && Runs.Exec(StepOf(w), s, acts) == Some(s')
    && s'.focus == Completing(c) && s'.stages == s.stages && !s'.canceled && s'.received == s.received
  }

  lemma DeliversSource(w: World, s: State) returns (acts: seq<Action>, s': State)
    requires s.focus.Submitting? && !s.canceled && s.focus.sender.Source?
    ensures Delivers(w, s, acts, s', w.completes(s.focus.sender.id))
  {
    var s1 := Step(w, s, Proceeding).value;
    s' := Step(w, s1, Proceeding).value;
    acts := [Proceeding, Proceeding];
    Runs.ExecTwo(StepOf(w), s, Proceeding, Proceeding, s1, s');
  }

  /** The run up to the delivery of the inner sender's completion, and on through the first stage, which calls
      its function on a value. */
  lemma GoesOn(w: World, s: State, before: seq<Action>, s2: State, c1: Completion)
    returns (acts: seq<Action>, s': State)
    requires s.focus.Submitting? && !s.canceled && !s.focus.sender.Source?
    requires Delivers(w, Step(w, s, Proceeding).value, before, s2, c1)
    ensures Runs.Exec(StepOf(w), s, acts) == Some(s')
    ensures s'.stages == s.stages && !s'.canceled && s'.received == s.received
    ensures s'.focus ==
      if !c1.Value? then Completing(c1)
      else match s.focus.sender
           case Then(_, fun) => Completing(Applied(fun(c1.v)))
           case AsyncThen(_, submit) =>
             match submit(c1.v)
             case Throw(e) => Completing(Completion.Error(e))
             case Submit(next) => Submitting(next)
  {
    assert s2.stages[1..] == s.stages;
    acts, s' := [Proceeding] + before, Step(w, s2, Proceeding).value;
    assert acts[1..] == before;
    Runs.ExecSnoc(StepOf(w), s, acts, Proceeding, s2);
    acts := acts + [Proceeding];
    if c1.Value? {
      Runs.ExecSnoc(StepOf(w), s, acts, Proceeding, s');
      acts, s' := acts + [Proceeding], Step(w, s', Proceeding).value;
    }
  }

  /** An uncanceled sender that denotes a completion delivers it to the receivers it was submitted with. */
  lemma {:induction false} DeliversDenotation(w: World, s: State, depth: nat, c: Completion)
    returns (acts: seq<Action>, s': State)
    requires s.focus.Submitting? && !s.canceled && Denotation(w, s.focus.sender, depth) == Some(c)
    ensures Delivers(w, s, acts, s', c)
    decreases depth, s.focus.sender
  {
    if s.focus.sender.Source? {
      acts, s' := DeliversSource(w, s);
    } else {
      var s1 := Step(w, s, Proceeding).value;
      var c1 := Denotation(w, s1.focus.sender, depth).value;
      var before, s2 := DeliversDenotation(w, s1, depth, c1);
      acts, s' := GoesOn(w, s, before, s2, c1);
      if s'.focus.Submitting? {
        var prefix, s3 := acts, s';
        var after;
        after, s' := DeliversDenotation(w, s3, depth - 1, c);
        Runs.ExecSplit(StepOf(w), s, prefix, after);
        acts := prefix + after;
      }
    }
  }

  /** Whatever a pipeline denotes, some uncanceled run delivers, and then no uncanceled run delivers
      anything else. */
  lemma DenotedIsDelivered(w: World, sender: Sender, c: Completion) returns (acts: seq<Action>, s: State)
    requires Denotes(w, sender, c)
    ensures Runs.Exec(StepOf(w), Init(sender, false), acts) == Some(s)
    ensures s.focus.Finished? && s.received == [c] && !s.canceled
  {
    var depth: nat :| Denotation(w, sender, depth) == Some(c);
    acts, s := DeliversDenotation(w, Init(sender, false), depth, c);
    Runs.ExecSnoc(StepOf(w), Init(sender, false), acts, Proceeding, s);
    acts := acts + [Proceeding];
    s := Step(w, s, Proceeding).value;
  }

  lemma UncanceledRunsAgree(w: World, sender: Sender, c: Completion, acts: seq<Action>, s: State)
    requires Denotes(w, sender, c) && Runs.Exec(StepOf(w), Init(sender, false), acts) == Some(s)
    requires s.focus.Finished? && !s.canceled
    ensures s.received == [c]
  {
    FinishedAsDenoted(w, sender, false, acts, s);
    DenotesOne(w, sender, c, s.received[0]);
  }

  /** How many steps of a run call a function. */
  function CallsIn(w: World, s: State, acts: seq<Action>): nat
    decreases |acts|
  {
    if acts == [] then 0
    else
      (if s.focus.Calling? && acts[0] == Proceeding then 1 else 0) +
      match Step(w, s, acts[0])
      case None => 0
      case Some(s') => CallsIn(w, s', acts[1..])
  }

  /** After a cancelation no receiver that looks at the token calls its function: the only one that may still
      be called is one whose receiver had looked before. */
  lemma {:induction false} NoCallAfterCancel(w: World, s: State, acts: seq<Action>, s': State)
    requires s.canceled && Runs.Exec(StepOf(w), s, acts) == Some(s')
    ensures s'.calls == s.calls + CallsIn(w, s, acts)
    ensures CallsIn(w, s, acts) <= if s.focus.Calling? then 1 else 0
    decreases |acts|
  {
    if acts != [] {
      NoCallAfterCancel(w, Step(w, s, acts[0]).value, acts[1..], s');
    }
  }

  // ----- a canceled pipeline ends -----

  /** How many stages a sender will put around a receiver. */
  function Depth(s: Sender): nat {
    match s
    case Source(_) => 0
    case Then(first, _) => 1 + Depth(first)
    case AsyncThen(first, _) => 1 + Depth(first)
  }

  /** How many steps a canceled pipeline has left before a function that is about to be called, and after it. */
  function RankOf(focus: Focus, stages: nat): nat {
    match focus
    case Submitting(sender) => 3 + 2 * Depth(sender) + stages
    case Working(_) => 2 + stages
    case Completing(_) => 1 + stages
    case Calling(_) => 0
    case Finished => 0
  }

  /** How many steps a canceled pipeline has left. */
  function Rank(s: State): nat {
    if s.focus.Calling? && s.stages != [] then 1 + RankOf(CallFunction(s, s.focus.v).focus, |s.stages| - 1)
    else RankOf(s.focus, |s.stages|)
  }

  lemma StepDescends(w: World, s: State)
    requires Inv(s) && s.canceled && Step(w, s, Proceeding).Some?
    ensures Rank(Step(w, s, Proceeding).value) < Rank(s)
  {
  }

  /** How many steps of a run are not requests for a cancelation. */
  function Proceedings(acts: seq<Action>): nat {
    if acts == [] then 0 else (if acts[0] == Proceeding then 1 else 0) + Proceedings(acts[1..])
  }

  /** After a cancelation, however often it is repeated, the steps left of a run and those it has taken never exceed
      the rank, so the pipeline ends: a run with that many steps has called the final receiver, exactly once. */
  lemma {:induction false} CanceledFinishes(w: World, s: State, acts: seq<Action>, s': State)
    requires Inv(s) && s.canceled && Runs.Exec(StepOf(w), s, acts) == Some(s')
    ensures Proceedings(acts) + Rank(s') <= Rank(s)
    ensures Proceedings(acts) >= Rank(s) ==> s'.focus.Finished? && |s'.received| == 1
    decreases |acts|
  {
    CanceledStays(w, s, acts, s');
    if acts != [] {
      StepKeepsInv(w, s, acts[0]);
      if acts[0] == Proceeding {
        StepDescends(w, s);
      }
      CanceledFinishes(w, Step(w, s, acts[0]).value, acts[1..], s');
    }
  }

  /** What reaches the final receiver when a completion enters the stages after a cancelation: the first receiver that
      gets a value gives done to the next one. */
  function Skipped(stages: nat, c: Completion): Completion {
    if c.Value? && stages > 0 then Done else c
  }

  /** The source that a sender submits first. */
  function SourceOf(s: Sender): nat {
    match s
    case Source(id) => id
    case Then(first, _) => SourceOf(first)
    case AsyncThen(first, _) => SourceOf(first)
  }

  /** What a sender that is submitted after a cancelation delivers through the stages. */
  function CanceledSender(w: World, sender: Sender, stages: nat): Completion {
    var id := SourceOf(sender);
    Skipped(Depth(sender) + stages, if w.cancelable(id) then Done else w.completes(id))
  }

  /** What a canceled pipeline delivers: of the functions only one that is about to be called has a say in it. */
  function CanceledResult(w: World, s: State): Option<Completion> {
    match s.focus
    case Submitting(sender) => Some(CanceledSender(w, sender, |s.stages|))
    case Working(id) => Some(Skipped(|s.stages|, w.completes(id)))
    case Completing(c) => Some(Skipped(|s.stages|, c))
    case Calling(v) =>
      if s.stages == [] then None
      else
        var stages := |s.stages| - 1;
        (match s.stages[0]
         case ThenStage(fun) =>
           (match fun(v)
            case Value(u) => Some(Skipped(stages, Completion.Value(u)))
            case Exception(e) => Some(Completion.Error(e)))
         case AsyncThenStage(submit) =>
           match submit(v)
           case Throw(e) => Some(Completion.Error(e))
           case Submit(next) => Some(CanceledSender(w, next, stages)))
    case Finished => if |s.received| == 1 then Some(s.received[0]) else None
  }

  lemma StepKeepsCanceledResult(w: World, s: State, a: Action)
    requires Inv(s) && SourceOk(w, s) && s.canceled && Step(w, s, a).Some?
    ensures CanceledResult(w, Step(w, s, a).value) == CanceledResult(w, s)
    ensures Inv(Step(w, s, a).value) && SourceOk(w, Step(w, s, a).value) && Step(w, s, a).value.canceled
  {
  }

  /** From the moment of a cancelation, what the final receiver will get is settled: a source that cannot be
      canceled, errors and done still come through, everything else becomes done. */
  lemma CanceledRunsAgree(w: World, sender: Sender, canceled: bool, acts: seq<Action>, s: State,
                          more: seq<Action>, s': State)
    requires Runs.Exec(StepOf(w), Init(sender, canceled), acts) == Some(s) && s.canceled
    requires Runs.Exec(StepOf(w), s, more) == Some(s') && s'.focus.Finished?
    ensures |s'.received| == 1 && CanceledResult(w, s) == Some(s'.received[0])
  {
    CanceledStays(w, Init(sender, canceled), acts, s);
    SourceIsOk(w, sender, canceled, acts, s);
    var inv := (u: State) =>
      Inv(u) && SourceOk(w, u) && u.canceled && CanceledResult(w, u) == CanceledResult(w, s);
    forall u, a | inv(u) && StepOf(w)(u, a).Some? ensures inv(StepOf(w)(u, a).value) {
      StepKeepsCanceledResult(w, u, a);
    }
    Runs.Invariance(StepOf(w), inv, s, more);
  }

  // ----- laws -----

  /** Two thens in a row are one then of the composed functions. */
  lemma ThenComposes(w: World, s: Sender, f: int -> Outcome<int>, g: int -> Outcome<int>, fg: int -> Outcome<int>,
                     c: Completion)
    requires forall v :: fg(v) == match f(v) { case Value(u) => g(u) case Exception(e) => Exception(e) }
    ensures Denotes(w, Then(Then(s, f), g), c) <==> Denotes(w, Then(s, fg), c)
  {
    forall depth: nat
      ensures Denotation(w, Then(Then(s, f), g), depth) == Denotation(w, Then(s, fg), depth)
    {
      if Denotation(w, s, depth).Some? && Denotation(w, s, depth).value.Value? {
        var v := Denotation(w, s, depth).value.v;
        assert fg(v) == match f(v) { case Value(u) => g(u) case Exception(e) => Exception(e) };
      }
    }
    if depth: nat :| Denotation(w, Then(Then(s, f), g), depth) == Some(c) {
      assert Denotation(w, Then(s, fg), depth) == Some(c);
    }
    if depth: nat :| Denotation(w, Then(s, fg), depth) == Some(c) {
      assert Denotation(w, Then(Then(s, f), g), depth) == Some(c);
    }
  }

  /** then denotes an error or done of its sender, or what its function makes of a value: the value it returns, or
      the exception it throws as an error. */
  lemma DenotesMapped(w: World, first: Sender, fun: int -> Outcome<int>, c: Completion)
    ensures Denotes(w, Then(first, fun), c) <==>
      || (!c.Value? && Denotes(w, first, c))
      || (exists v :: Denotes(w, first, Completion.Value(v))
                      && match fun(v) { case Value(u) => c == Completion.Value(u)
                                        case Exception(e) => c == Completion.Error(e) })
  {
    if d: nat :| Denotation(w, Then(first, fun), d) == Some(c) {
      var c1 := Denotation(w, first, d).value;
      assert Denotes(w, first, c1);
      assert c1.Value? ==> Denotes(w, first, Completion.Value(c1.v)) && c == Applied(fun(c1.v));
    }
    if !c.Value? && Denotes(w, first, c) {
      var d: nat :| Denotation(w, first, d) == Some(c);
      assert Denotation(w, Then(first, fun), d) == Some(c);
    }
    if v :| Denotes(w, first, Completion.Value(v)) && c == Applied(fun(v)) {
      var d: nat :| Denotation(w, first, d) == Some(Completion.Value(v));
      assert Denotation(w, Then(first, fun), d) == Some(c);
    }
  }

  /** The completions of a value passed on to a function that submits or throws. */
  ghost predicate Goes(w: World, next: Next, c: Completion) {
    match next
    case Throw(e) => c == Completion.Error(e)
    case Submit(s) => Denotes(w, s, c)
  }

  /** What first bound to a function completes with: an error or done of first, or what comes of its value. */
  ghost predicate Bound(w: World, first: Sender, submit: int -> Next, c: Completion) {
    || (!c.Value? && Denotes(w, first, c))
    || (exists v :: Denotes(w, first, Completion.Value(v)) && Goes(w, submit(v), c))
  }

  /** async_then is the bind of senders, without depths. */
  lemma DenotesBound(w: World, first: Sender, submit: int -> Next, c: Completion)
    ensures Denotes(w, AsyncThen(first, submit), c) <==> Bound(w, first, submit, c)
  {
    if d: nat :| Denotation(w, AsyncThen(first, submit), d) == Some(c) {
      DenotesIsBound(w, first, submit, c, d);
    }
    if !c.Value? && Denotes(w, first, c) {
      var d: nat :| Denotation(w, first, d) == Some(c);
      assert Denotation(w, AsyncThen(first, submit), d) == Some(c);
    }
    if v :| Denotes(w, first, Completion.Value(v)) && Goes(w, submit(v), c) {
      BoundDenotes(w, first, submit, v, c);
    }
  }

  lemma DenotesIsBound(w: World, first: Sender, submit: int -> Next, c: Completion, depth: nat)
    requires Denotation(w, AsyncThen(first, submit), depth) == Some(c)
    ensures Bound(w, first, submit, c)
  {
    var c1 := Denotation(w, first, depth).value;
    assert Denotes(w, first, c1);
    if c1.Value? {
      assert Proceed(w, submit(c1.v), depth) == Some(c);
      if submit(c1.v).Submit? {
        assert Denotation(w, submit(c1.v).sender, depth - 1) == Some(c);
      }
      assert Goes(w, submit(c1.v), c);
    }
  }

  lemma BoundDenotes(w: World, first: Sender, submit: int -> Next, v: int, c: Completion)
    requires Denotes(w, first, Completion.Value(v)) && Goes(w, submit(v), c)
    ensures Denotes(w, AsyncThen(first, submit), c)
  {
    var d: nat :| Denotation(w, first, d) == Some(Completion.Value(v));
    if submit(v).Submit? {
      var e: nat :| Denotation(w, submit(v).sender, e) == Some(c);
      DenotationGrows(w, first, d, d + e + 1);
      DenotationGrows(w, submit(v).sender, e, d + e);
      assert Denotation(w, AsyncThen(first, submit), d + e + 1) == Some(c);
    } else {
      assert Denotation(w, AsyncThen(first, submit), d) == Some(c);
    }
  }

  /** connect completes with an error or done of the first sender, or with what the second one, given the first
      one's value, completes with. */
  lemma DenotesConnected(w: World, first: Sender, second: int -> Sender, c: Completion)
    ensures Denotes(w, Connect(first, second), c) <==>
      || (!c.Value? && Denotes(w, first, c))
      || (exists v :: Denotes(w, first, Completion.Value(v)) && Denotes(w, second(v), c))
  {
    var submit := v => Submit(second(v));
    DenotesBound(w, first, submit, c);
    assert forall v :: Goes(w, submit(v), c) <==> Denotes(w, second(v), c);
  }

  /** Connecting is associative. */
  lemma ConnectAssociates(w: World, first: Sender, second: int -> Sender, third: int -> Sender, c: Completion)
    ensures Denotes(w, Connect(Connect(first, second), third), c)
      <==> Denotes(w, Connect(first, v => Connect(second(v), third)), c)
  {
    var rest := v => Connect(second(v), third);
    DenotesConnected(w, Connect(first, second), third, c);
    DenotesConnected(w, first, rest, c);
    DenotesConnected(w, first, second, c);
    forall v ensures Denotes(w, rest(v), c) <==>
        || (!c.Value? && Denotes(w, second(v), c))
        || (exists u :: Denotes(w, second(v), Completion.Value(u)) && Denotes(w, third(u), c))
    {
      DenotesConnected(w, second(v), third, c);
    }
    forall u ensures Denotes(w, Connect(first, second), Completion.Value(u)) <==>
        exists v :: Denotes(w, first, Completion.Value(v)) && Denotes(w, second(v), Completion.Value(u))
    {
      DenotesConnected(w, first, second, Completion.Value(u));
    }
  }

  // ----- the class -----

  /** The receivers of a submitted pipeline with the token they reset. Each method is one call of theirs. */
  class Pipeline {
    const world: World
    var focus: Focus
    var stages: seq<Stage>
    var canceled: bool
    var installed: bool
    var received: seq<Completion>
    var calls: nat

    function View(): State
      reads this
    {
      State(focus, stages, canceled, installed, received, calls, false)
    }

    constructor (world: World, sender: Sender, canceled: bool)
      ensures this.world == world && View() == Init(sender, canceled)
    {
      this.world := world;
      focus, stages, this.canceled, installed, received, calls := Submitting(sender), [], canceled, false, [], 0;
    }

    /** submit() of a chain of then and async_then wraps the receiver once for each of them, down to the source. */
    method SubmitChain() returns (ghost acts: seq<Action>)
      requires focus.Submitting?
      modifies this`focus, this`stages
      ensures Runs.Exec(StepOf(world), old(View()), acts) == Some(View())
      ensures focus.Submitting? && focus.sender.Source?
      ensures |stages| >= |old(stages)| && stages[|stages| - |old(stages)|..] == old(stages)
    {
      ghost var s0 := View();
      acts := [];
      while !focus.sender.Source?
        invariant focus.Submitting? && |stages| >= |old(stages)|
        invariant stages[|stages| - |old(stages)|..] == old(stages)
        invariant Runs.Exec(StepOf(world), s0, acts) == Some(View())
        decreases focus.sender
      {
        Runs.ExecSnoc(StepOf(world), s0, acts, Proceeding, View());
        acts := acts + [Proceeding];
        match focus.sender {
          case Then(first, fun) =>
            stages := [ThenStage(fun)] + stages;
            focus := Submitting(first);
          case AsyncThen(first, submit) =>
            stages := [AsyncThenStage(submit)] + stages;
            focus := Submitting(first);
        }
      }
    }

    /** set_value, set_error or set_done of the innermost receiver, and the calls of the others nested in it: the
        final receiver is called, or another sender is submitted. After a cancelation no function is called. */
    method Complete(c: Completion) returns (ghost acts: seq<Action>)
      requires focus == Completing(c)
      modifies this
      ensures Runs.Exec(StepOf(world), old(View()), acts) == Some(View())
      ensures focus.Submitting? || (focus.Finished? && |received| == |old(received)| + 1)
      ensures old(canceled) ==> focus.Finished? && calls == old(calls)
      ensures old(canceled) ==> received == old(received) + [if c.Value? && old(stages) != [] then Done else c]
      ensures !c.Value? ==> focus.Finished? && calls == old(calls) && received == old(received) + [c]
      decreases |stages|
    {
      ghost var s0 := View();
      installed := false;
      if stages == [] {
        received, focus := received + [c], Finished;
        acts := [Proceeding];
        Runs.ExecSnoc(StepOf(world), s0, [], Proceeding, s0);
        assert [] + [Proceeding] == acts;
      } else if !c.Value? || canceled {
        var next := if c.Value? then Done else c;
        stages, focus := stages[1..], Completing(next);
        var rest := Complete(next);
        acts := [Proceeding] + rest;
        assert acts[1..] == rest;
      } else {
        focus := Calling(c.v);
        ghost var s1 := View();
        acts := [Proceeding, Proceeding];
        ghost var s2 := CallFunction(s1, c.v);
        Runs.ExecTwo(StepOf(world), s0, Proceeding, Proceeding, s1, s2);
        CallStage(c.v);
        if focus.Completing? {
          var rest := Complete(focus.c);
          Runs.ExecSplit(StepOf(world), s0, acts, rest);
          acts := acts + rest;
        }
      }
    }

    /** The call of the innermost receiver's function, with what its catch clause does. */
    method CallStage(v: int)
      requires stages != []
      modifies this`focus, this`stages, this`calls
      ensures View() == CallFunction(old(View()), v)
      ensures focus.Completing? || focus.Submitting?
    {
      var stage := stages[0];
      stages, calls := stages[1..], calls + 1;
      match stage {
        case ThenStage(fun) => focus := Completing(Applied(fun(v)));
        case AsyncThenStage(submit) =>
          match submit(v) {
            case Throw(e) => focus := Completing(Completion.Error(e));
            case Submit(next) => focus := Submitting(next);
          }
      }
    }
  }
}
