/** Runs of a step function: a protocol is a function that gives the next state of an enabled
    action and None for an action that is not enabled; a run is a sequence of enabled actions. */
module Runs {
  import opened Outcomes

  /** The state after a whole run, None when some action of it is not enabled. */
  function Exec<S, A>(step: (S, A) -> Option<S>, s: S, acts: seq<A>): Option<S>
    decreases |acts|
  {
    if acts == [] then Some(s)
    else
      match step(s, acts[0])
      case None => None
      case Some(s') => Exec(step, s', acts[1..])
  }

  ghost predicate Preserved<S(!new), A(!new)>(step: (S, A) -> Option<S>, inv: S -> bool) {
    forall s, a :: inv(s) && step(s, a).Some? ==> inv(step(s, a).value)
  }

  /** What every step keeps, every run keeps. */
  lemma {:induction false} Invariance<S(!new), A(!new)>(step: (S, A) -> Option<S>, inv: S -> bool, s: S, acts: seq<A>)
    requires Preserved(step, inv)
    requires inv(s)
    ensures Exec(step, s, acts).Some? ==> inv(Exec(step, s, acts).value)
    decreases |acts|
  {
    if acts == [] {
    } else if step(s, acts[0]).Some? {
      Invariance(step, inv, step(s, acts[0]).value, acts[1..]);
    }
  }

  /** A flag that the actions in sets set, and that nothing else changes. */
  ghost predicate SetBy<S(!new), A(!new)>(step: (S, A) -> Option<S>, flag: S -> bool, sets: A -> bool) {
    forall s, a :: step(s, a).Some? ==> (flag(step(s, a).value) <==> flag(s) || sets(a))
  }

  /** It is set at the end of a run if and only if it was at the start, or the run contains such an action. */
  lemma {:induction false} FlagIff<S(!new), A(!new)>(step: (S, A) -> Option<S>, flag: S -> bool, sets: A -> bool,
                                                     s: S, acts: seq<A>, s': S)
    requires SetBy(step, flag, sets) && Exec(step, s, acts) == Some(s')
    ensures flag(s') <==> flag(s) || exists i :: 0 <= i < |acts| && sets(acts[i])
    decreases |acts|
  {
    if acts != [] {
      FlagIff(step, flag, sets, step(s, acts[0]).value, acts[1..], s');
      if i :| 0 <= i < |acts[1..]| && sets(acts[1..][i]) {
        assert sets(acts[i + 1]);
      }
      if i :| 0 <= i < |acts| && sets(acts[i]) {
        assert i > 0 ==> acts[1..][i - 1] == acts[i];
      }
    }
  }

  /** A run splits at any point into two runs. */
  lemma {:induction false} ExecSplit<S, A>(step: (S, A) -> Option<S>, s: S, first: seq<A>, rest: seq<A>)
    ensures Exec(step, s, first + rest)
         == match Exec(step, s, first) case None => None case Some(m) => Exec(step, m, rest)
    decreases |first|
  {
    if first == [] {
      assert first + rest == rest;
    } else {
      assert (first + rest)[0] == first[0] && (first + rest)[1..] == first[1..] + rest;
      if step(s, first[0]).Some? {
        ExecSplit(step, step(s, first[0]).value, first[1..], rest);
      }
    }
  }

  lemma ExecSnoc<S, A>(step: (S, A) -> Option<S>, s: S, acts: seq<A>, a: A, m: S)
    requires Exec(step, s, acts) == Some(m)
    ensures Exec(step, s, acts + [a]) == step(m, a)
  {
    ExecSplit(step, s, acts, [a]);
    assert [a][1..] == [];
  }

  lemma ExecCons<S, A>(step: (S, A) -> Option<S>, s: S, a: A, s1: S, rest: seq<A>)
    requires step(s, a) == Some(s1)
    ensures Exec(step, s, [a] + rest) == Exec(step, s1, rest)
  {
    assert ([a] + rest)[1..] == rest;
  }

  lemma ExecTwo<S, A>(step: (S, A) -> Option<S>, s0: S, a: A, b: A, s1: S, s2: S)
    requires step(s0, a) == Some(s1) && step(s1, b) == Some(s2)
    ensures Exec(step, s0, [a, b]) == Some(s2)
  {
    ExecSnoc(step, s0, [], a, s0);
    ExecSnoc(step, s0, [] + [a], b, s1);
    assert [] + [a] + [b] == [a, b];
  }

  lemma ExecFour<S, A>(step: (S, A) -> Option<S>, s0: S, a: A, b: A, c: A, d: A, s1: S, s2: S, s3: S, s4: S)
    requires step(s0, a) == Some(s1) && step(s1, b) == Some(s2) && step(s2, c) == Some(s3) && step(s3, d) == Some(s4)
    ensures Exec(step, s0, [a, b, c, d]) == Some(s4)
  {
    ExecTwo(step, s0, a, b, s1, s2);
    ExecTwo(step, s2, c, d, s3, s4);
    ExecSplit(step, s0, [a, b], [c, d]);
    assert [a, b] + [c, d] == [a, b, c, d];
  }
}
