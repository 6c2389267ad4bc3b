/** The cancelation token of senders: a flag and at most one canceler.

    Its mutex is recursive and held while a canceler runs, so until the canceler returns only its own
    thread can use the token, which it usually does to reset it. */
module LazyToken {
  import opened Outcomes
  import Runs

  /** Cancelers are numbered in the order they are set. holder is the thread inside a canceler, depth how many
      cancelers it is inside of. called lists the cancelers called, and dropped those reset before any
      cancelation. */
  datatype State = State(
    canceled: bool,
    cancel: Option<nat>,
    holder: Option<nat>,
    depth: nat,
    installed: nat,
    called: seq<nat>,
    dropped: set<nat>)

  datatype Action = RequestCancel(t: nat) | SetCanceler(t: nat) | Reset(t: nat) | Return(t: nat)

  const INIT := State(false, None, None, 0, 0, [], {})

  predicate CanLock(s: State, t: nat) {
    s.holder == None || s.holder == Some(t)
  }

  function CallCanceler(s: State, t: nat): State
    requires s.cancel.Some?
  {
    s.(holder := Some(t), depth := s.depth + 1, called := s.called + [s.cancel.value])
  }

  function Step(s: State, a: Action): Option<State> {
    if !CanLock(s, a.t) then None
    else
      match a
      case RequestCancel(t) =>
        var s1 := s.(canceled := true);
        Some(if s.canceled || s.cancel.None? then s1 else CallCanceler(s1, t))
      case SetCanceler(t) =>
        // the assertion that no canceler is set is a demand on the caller
        if s.cancel.Some? then None
        else
          var s1 := s.(cancel := Some(s.installed), installed := s.installed + 1);
          Some(if s.canceled then CallCanceler(s1, t) else s1)
      case Reset(t) =>
        var s1 := s.(cancel := None);
        Some(if s.cancel.Some? && !s.canceled then s1.(dropped := s.dropped + {s.cancel.value}) else s1)
      case Return(t) =>
        if s.depth > 0 then Some(s.(depth := s.depth - 1, holder := if s.depth == 1 then None else s.holder)) else None
  }

  ghost predicate Inv(s: State) {
    && (s.holder.Some? <==> s.depth > 0)
    && (forall i, j :: 0 <= i < j < |s.called| ==> s.called[i] != s.called[j])
    && (forall c :: c in s.called ==> c < s.installed && c !in s.dropped)
    && (forall c :: c in s.dropped ==> c < s.installed && s.cancel != Some(c))
    && (s.cancel.Some? ==> s.cancel.value < s.installed && (s.cancel.value in s.called <==> s.canceled))
    && (!s.canceled ==> s.called == [])
    && (s.canceled ==> forall c :: 0 <= c < s.installed ==> c in s.called || c in s.dropped)
    && (!s.canceled ==> forall c :: 0 <= c < s.installed ==> s.cancel == Some(c) || c in s.dropped)
  }

  lemma CallKeepsInv(s: State, t: nat)
    requires s.cancel.Some? && s.cancel.value < s.installed
    requires s.cancel.value !in s.called && s.cancel.value !in s.dropped
    requires s.canceled && (s.holder.Some? <==> s.depth > 0)
    requires forall i, j :: 0 <= i < j < |s.called| ==> s.called[i] != s.called[j]
    requires forall c :: c in s.called ==> c < s.installed && c !in s.dropped
    requires forall c :: c in s.dropped ==> c < s.installed
    requires forall c :: 0 <= c < s.installed && c != s.cancel.value ==> c in s.called || c in s.dropped
    ensures Inv(CallCanceler(s, t))
  {
    var s' := CallCanceler(s, t);
    assert s'.called[|s.called|] == s.cancel.value;
    assert forall c :: c in s'.called <==> c in s.called || c == s.cancel.value;
  }

  lemma StepKeepsInv(s: State, a: Action)
    requires Inv(s) && Step(s, a).Some?
    ensures Inv(Step(s, a).value)
  {
    match a
    case RequestCancel(t) =>
      if !s.canceled && s.cancel.Some? {
        CallKeepsInv(s.(canceled := true), t);
      }
    case SetCanceler(t) =>
      if s.canceled {
        CallKeepsInv(s.(cancel := Some(s.installed), installed := s.installed + 1), t);
      }
    case _ =>
  }

  /** In every interleaving: a canceler is called at most once, never when it was reset before the cancelation,
      and always when it was set after it or still set at that time. */
  lemma CalledOnceOrDropped(acts: seq<Action>, s: State, c: nat)
    requires Runs.Exec(Step, INIT, acts) == Some(s) && c < s.installed
    ensures s.canceled <==> exists i :: 0 <= i < |acts| && acts[i].RequestCancel?
    ensures forall i, j :: 0 <= i < j < |s.called| ==> s.called[i] != s.called[j]
    ensures s.canceled ==> (c in s.called <==> c !in s.dropped)
    ensures !s.canceled ==> s.called == [] && (c in s.dropped <==> s.cancel != Some(c))
  {
    forall u, a | Inv(u) && Step(u, a).Some? ensures Inv(Step(u, a).value) { StepKeepsInv(u, a); }
    Runs.Invariance(Step, Inv, INIT, acts);
    Runs.FlagIff(Step, (u: State) => u.canceled, (a: Action) => a.RequestCancel?, INIT, acts, s);
  }

  /** While a thread is inside a canceler no other one uses the token: all actions of a run are the thread's own, at
      least up to the return of the last canceler it is inside of. */
  lemma {:induction false} OnlyHolderActs(s: State, h: nat, acts: seq<Action>, s': State, i: nat)
    requires s.holder == Some(h) && Runs.Exec(Step, s, acts) == Some(s')
    requires i < |acts| && acts[i].t != h
    ensures exists j :: 0 < j <= i && Runs.Exec(Step, s, acts[..j]).Some?
                        && Runs.Exec(Step, s, acts[..j]).value.holder == None
    decreases |acts|
  {
    var s1 := Step(s, acts[0]).value;
    if s1.holder == None {
      assert acts[..1] == [acts[0]] && acts[..1][1..] == [];
      assert Runs.Exec(Step, s, acts[..1]) == Some(s1);
    } else {
      OnlyHolderActs(s1, h, acts[1..], s', i - 1);
      var j :| 0 < j <= i - 1 && Runs.Exec(Step, s1, acts[1..][..j]).Some?
               && Runs.Exec(Step, s1, acts[1..][..j]).value.holder == None;
      assert acts[..j + 1][0] == acts[0] && acts[..j + 1][1..] == acts[1..][..j];
    }
  }

  /** c was installed before and is not set any more, and it was not called. */
  ghost predicate Retired(s: State, c: nat) {
    c < s.installed && s.cancel != Some(c) && c !in s.called
  }

  lemma StepKeepsRetired(s: State, a: Action, c: nat)
    requires Retired(s, c) && Step(s, a).Some?
    ensures Retired(Step(s, a).value, c)
  {
  }

  /** A reset always clears the canceler, and a canceler reset before the cancelation is never called, whatever
      happens afterwards. */
  lemma ResetForGood(acts: seq<Action>, s: State, t: nat, more: seq<Action>, s': State, c: nat)
    requires Runs.Exec(Step, INIT, acts) == Some(s) && Step(s, Reset(t)).Some? && c < s.installed
    requires Runs.Exec(Step, Step(s, Reset(t)).value, more) == Some(s')
    ensures Step(s, Reset(t)).value.cancel == None
    ensures !s.canceled ==> c !in s'.called
  {
    if !s.canceled {
      CalledOnceOrDropped(acts, s, c);
      var inv := (u: State) => Retired(u, c);
      forall u, a | inv(u) && Step(u, a).Some? ensures inv(Step(u, a).value) { StepKeepsRetired(u, a, c); }
      Runs.Invariance(Step, inv, Step(s, Reset(t)).value, more);
    }
  }

  // ----- whole calls -----

  /** What a canceler does before it returns: most call set_done, which resets the token. */
  function CancelerSteps(t: nat, resets: bool): seq<Action> {
    if resets then [Reset(t), Return(t)] else [Return(t)]
  }

  /** The state once the only canceler that runs has returned. */
  function Returned(s: State, resets: bool): State {
    s.(holder := None, depth := 0, cancel := if resets then None else s.cancel)
  }

  lemma CancelerReturns(s: State, t: nat, resets: bool)
    requires s.holder == Some(t) && s.depth == 1 && s.canceled
    ensures Runs.Exec(Step, s, CancelerSteps(t, resets)) == Some(Returned(s, resets))
  {
    if resets {
      Runs.ExecTwo(Step, s, Reset(t), Return(t), s.(cancel := None), Returned(s, resets));
    } else {
      Runs.ExecSnoc(Step, s, [], Return(t), s);
      assert [] + [Return(t)] == [Return(t)];
    }
  }

  /** One action that may enter a canceler, and what the canceler does. */
  lemma CallReturns(s: State, a: Action, s1: State, resets: bool)
    requires Step(s, a) == Some(s1)
    requires s1.holder == None || (s1.holder == Some(a.t) && s1.depth == 1 && s1.canceled)
    ensures Runs.Exec(Step, s, [a] + if s1.holder.Some? then CancelerSteps(a.t, resets) else [])
         == Some(if s1.holder.Some? then Returned(s1, resets) else s1)
  {
    var rest := if s1.holder.Some? then CancelerSteps(a.t, resets) else [];
    if s1.holder.Some? {
      CancelerReturns(s1, a.t, resets);
    }
    assert ([a] + rest)[1..] == rest;
  }

  // ----- the class -----

  /** The token when no canceler runs. A canceler is the number of its installation, and resetting tells which
      of them reset the token when they are called. Each method is a run of its thread t. */
  class Token {
    var canceled: bool
    var cancel: Option<nat>
    var installed: nat
    var called: seq<nat>
    ghost var dropped: set<nat>
    const resetting: set<nat>

    ghost function View(): State
      reads this
    {
      State(canceled, cancel, None, 0, installed, called, dropped)
    }

    constructor (resetting: set<nat>)
      ensures View() == INIT && this.resetting == resetting
    {
      canceled, cancel, installed, called, dropped := false, None, 0, [], {};
      this.resetting := resetting;
    }

    method ResetCanceler(t: nat)
      modifies this
      ensures Step(old(View()), Reset(t)) == Some(View())
      ensures cancel == None && called == old(called) && canceled == old(canceled)
    {
      if cancel.Some? && !canceled {
        dropped := dropped + {cancel.value};
      }
      cancel := None;
    }

    method Call(canceler: nat)
      requires canceled
      modifies this
      ensures View() == old(View()).(called := old(called) + [canceler],
                                     cancel := if canceler in resetting then None else old(cancel))
    {
      called := called + [canceler];
      if canceler in resetting {
        ResetCanceler(0);
      }
    }

    method RequestCancelation(t: nat) returns (ghost acts: seq<Action>)
      modifies this
      ensures canceled && Runs.Exec(Step, old(View()), acts) == Some(View())
      ensures called == old(called) + if !old(canceled) && old(cancel).Some? then [old(cancel).value] else []
    {
      ghost var s0 := View();
      ghost var s1, resets := Step(s0, RequestCancel(t)).value, cancel.Some? && cancel.value in resetting;
      CallReturns(s0, RequestCancel(t), s1, resets);
      acts := [RequestCancel(t)] + if s1.holder.Some? then CancelerSteps(t, resets) else [];
      if canceled {
        return;
      }
      canceled := true;
      var canceler := cancel;
      if canceler.Some? {
        Call(canceler.value);
      }
    }

    /** set_canceler; its precondition is its assertion. */
    method InstallCanceler(t: nat) returns (canceler: nat, ghost acts: seq<Action>)
      requires cancel == None
      modifies this
      ensures canceler == old(installed) && Runs.Exec(Step, old(View()), acts) == Some(View())
      ensures called == old(called) + if canceled then [canceler] else []
    {
      canceler := installed;
      ghost var s0 := View();
      ghost var s1 := Step(s0, SetCanceler(t)).value;
      CallReturns(s0, SetCanceler(t), s1, canceler in resetting);
      acts := [SetCanceler(t)] + if s1.holder.Some? then CancelerSteps(t, canceler in resetting) else [];
      cancel, installed := Some(canceler), installed + 1;
      if canceled {
        Call(canceler);
      }
    }
  }
}
