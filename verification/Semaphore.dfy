/** The semaphore and its scope locks. Its queue of tokens is seen through what ConcurrentQueue shows of it: a
    number of available tokens, or waiters served in order. A continuation does not release the semaphore
    while the queue's mutex is held. */
module Semaphore {
  import opened Outcomes
  import Runs

  /** A pop that waits: for acquire or for get_scope_lock, and whether its cancelation was requested, in which
      case its and_then throws operation_canceled when the token comes. */
  datatype Waiter = Waiter(forLock: bool, canceled: bool)

  /** What became of a pop that got its token: it was granted to acquire, or as a lock, or lost to a cancelation. */
  datatype Fate = Acquired | Locked(grant: nat) | Lost

  /** A permit granted as a lock is known by the order of its grant. locks tells of every scope_lock object ever
      made which grant it holds, none when its pointer is null; released lists the grants that locks have
      released. fates tells of every pop that got its token, in the order of the pops; the waiters are the later ones.
      The counters tell how often release was called directly, how many permits were granted, by
      acquire or as a lock, and how many went to a canceled waiter. */
  datatype State = State(
    available: nat,
    waiters: seq<Waiter>,
    fates: seq<Fate>,
    locks: seq<Option<nat>>,
    released: seq<nat>,
    directReleases: nat,
    acquired: nat,
    lockGrants: nat,
    lost: nat)

  datatype Action =
    | Acquire
    | GetScopeLock
    | RequestCancel(pop: nat)
    | Release
    | MoveConstruct(from: nat)
    | MoveAssign(to: nat, from: nat)
    | Destroy(l: nat)

  /** semaphore(N), whose constructor pushes N tokens. */
  function Init(n: nat): State {
    State(n, [], [], [], [], 0, 0, 0, 0)
  }

  /** The continuation of a pop that gets its token. */
  function Grant(s: State, w: Waiter): State {
    if w.canceled then s.(lost := s.lost + 1, fates := s.fates + [Lost])
    else if w.forLock then
      s.(locks := s.locks + [Some(s.lockGrants)], lockGrants := s.lockGrants + 1,
         fates := s.fates + [Locked(s.lockGrants)])
    else s.(acquired := s.acquired + 1, fates := s.fates + [Acquired])
  }

  function Take(s: State, forLock: bool): State {
    if s.available > 0 then Grant(s.(available := s.available - 1), Waiter(forLock, false))
    else s.(waiters := s.waiters + [Waiter(forLock, false)])
  }

  function PushToken(s: State): State {
    if s.waiters != [] then Grant(s.(waiters := s.waiters[1..]), s.waiters[0])
    else s.(available := s.available + 1)
  }

  /** A lock that gives up its pointer, by destruction or by being assigned to. */
  function LetGo(s: State, l: nat): State
    requires l < |s.locks|
  {
    if s.locks[l].None? then s
    else PushToken(s.(locks := s.locks[l := None], released := s.released + [s.locks[l].value]))
  }

  function Step(s: State, a: Action): Option<State> {
    match a
    case Acquire => Some(Take(s, false))
    case GetScopeLock => Some(Take(s, true))
    case RequestCancel(pop) =>
      // of a pop that waits; a later request finds a ready future
      if |s.fates| <= pop < |s.fates| + |s.waiters| then
        var i := pop - |s.fates|;
        Some(s.(waiters := s.waiters[i := s.waiters[i].(canceled := true)]))
      else None
    case Release => Some(PushToken(s.(directReleases := s.directReleases + 1)))
    case MoveConstruct(from) =>
      if from < |s.locks| then Some(s.(locks := s.locks[from := None] + [s.locks[from]])) else None
    case MoveAssign(to, from) =>
      if to >= |s.locks| || from >= |s.locks| then None
      else if to == from then Some(s)
      else
        var s1 := LetGo(s, to);
        if from < |s1.locks| && to < |s1.locks| then
          Some(s1.(locks := s1.locks[to := s1.locks[from]][from := None]))
        else None
    case Destroy(l) => if l < |s.locks| then Some(LetGo(s, l)) else None
  }

  // ----- where a grant is -----

  /** How many locks hold a grant. */
  function Holders(locks: seq<Option<nat>>, g: nat): nat {
    multiset(locks)[Some(g)]
  }

  /** Every grant made so far is in one place: held by one lock, or released once. */
  predicate PlacedOnce(s: State, g: nat) {
    Holders(s.locks, g) + multiset(s.released)[g] == if g < s.lockGrants then 1 else 0
  }

  /** How many locks are set. */
  function Live(locks: seq<Option<nat>>): nat {
    if locks == [] then 0 else (if locks[0].Some? then 1 else 0) + Live(locks[1..])
  }

  lemma {:induction false} LiveUpdate(locks: seq<Option<nat>>, l: nat, h: Option<nat>)
    requires l < |locks|
    ensures Live(locks[l := h]) == Live(locks) - (if locks[l].Some? then 1 else 0) + (if h.Some? then 1 else 0)
  {
    if l == 0 {
      assert locks[l := h][1..] == locks[1..];
    } else {
      assert locks[l := h][1..] == locks[1..][l - 1 := h];
      LiveUpdate(locks[1..], l - 1, h);
    }
  }

  lemma {:induction false} LiveAppend(locks: seq<Option<nat>>, h: Option<nat>)
    ensures Live(locks + [h]) == Live(locks) + if h.Some? then 1 else 0
  {
    if locks == [] {
      assert ([] + [h])[1..] == [];
    } else {
      assert (locks + [h])[1..] == locks[1..] + [h];
      LiveAppend(locks[1..], h);
    }
  }

  // ----- the invariant -----

  /** What the semaphore owes: permits that are neither available, granted nor lost. */
  function Owed(n: nat, s: State): int {
    n + s.directReleases + |s.released| - (s.available + s.acquired + s.lockGrants + s.lost)
  }

  ghost predicate Grants(s: State) {
    && (forall g :: PlacedOnce(s, g))
    && s.lockGrants == |s.released| + Live(s.locks)
    && (s.available > 0 ==> s.waiters == [])
    && s.acquired == multiset(s.fates)[Acquired] && s.lost == multiset(s.fates)[Lost]
    && |s.fates| == s.acquired + s.lockGrants + s.lost
  }

  ghost predicate Inv(n: nat, s: State) {
    Owed(n, s) == 0 && Grants(s)
  }

  /** A state that keeps the locks there are. */
  ghost predicate KeepsLocks(s: State, s': State) {
    && |s.locks| <= |s'.locks| && s'.released == s.released
    && forall l :: 0 <= l < |s.locks| ==> s'.locks[l] == s.locks[l]
  }

  lemma GrantKeepsInv(n: nat, s: State, w: Waiter)
    requires Owed(n, s) == 1 && Grants(s)
    ensures Inv(n, Grant(s, w)) && KeepsLocks(s, Grant(s, w))
  {
    LiveAppend(s.locks, Some(s.lockGrants));
    forall g ensures PlacedOnce(Grant(s, w), g) { assert PlacedOnce(s, g); }
  }

  lemma PushKeepsInv(n: nat, s: State)
    requires Owed(n, s) == 1 && Grants(s)
    ensures Inv(n, PushToken(s)) && KeepsLocks(s, PushToken(s))
  {
    if s.waiters != [] {
      var s1 := s.(waiters := s.waiters[1..]);
      forall g ensures PlacedOnce(s1, g) { assert PlacedOnce(s, g); }
      GrantKeepsInv(n, s1, s.waiters[0]);
    } else {
      forall g ensures PlacedOnce(PushToken(s), g) { assert PlacedOnce(s, g); }
    }
  }

  /** The lock is null, and what it held is what is newly released. */
  lemma LetGoKeepsInv(n: nat, s: State, l: nat)
    requires Inv(n, s) && l < |s.locks|
    ensures Inv(n, LetGo(s, l)) && |s.locks| <= |LetGo(s, l).locks| && LetGo(s, l).locks[l] == None
    ensures LetGo(s, l).released == s.released + if s.locks[l].Some? then [s.locks[l].value] else []
    ensures forall m :: 0 <= m < |s.locks| && m != l ==> LetGo(s, l).locks[m] == s.locks[m]
  {
    LiveUpdate(s.locks, l, None);
    if s.locks[l].Some? {
      var s1 := s.(locks := s.locks[l := None], released := s.released + [s.locks[l].value]);
      forall g ensures PlacedOnce(s1, g) { assert PlacedOnce(s, g); }
      PushKeepsInv(n, s1);
    }
  }

  /** A null lock takes over what another one holds. */
  lemma HandOverKeepsInv(n: nat, s: State, to: nat, from: nat)
    requires Inv(n, s) && to < |s.locks| && from < |s.locks| && to != from && s.locks[to] == None
    ensures Inv(n, s.(locks := s.locks[to := s.locks[from]][from := None]))
  {
    var held := s.locks[from];
    LiveUpdate(s.locks, to, held);
    LiveUpdate(s.locks[to := held], from, None);
    var s' := s.(locks := s.locks[to := held][from := None]);
    forall g ensures PlacedOnce(s', g) { assert PlacedOnce(s, g); }
  }

  lemma MoveConstructKeepsInv(n: nat, s: State, from: nat)
    requires Inv(n, s) && Step(s, MoveConstruct(from)).Some?
    ensures Inv(n, Step(s, MoveConstruct(from)).value)
  {
    LiveUpdate(s.locks, from, None);
    LiveAppend(s.locks[from := None], s.locks[from]);
    var s' := s.(locks := s.locks[from := None] + [s.locks[from]]);
    forall g ensures PlacedOnce(s', g) { assert PlacedOnce(s, g); }
  }

  lemma MoveAssignKeepsInv(n: nat, s: State, to: nat, from: nat)
    requires Inv(n, s) && Step(s, MoveAssign(to, from)).Some?
    ensures Inv(n, Step(s, MoveAssign(to, from)).value)
  {
    if to != from {
      LetGoKeepsInv(n, s, to);
      HandOverKeepsInv(n, LetGo(s, to), to, from);
    }
  }

  lemma SameGrants(s: State, s': State)
    requires Grants(s) && s'.locks == s.locks && s'.released == s.released && s'.lockGrants == s.lockGrants
    requires s'.fates == s.fates && s'.acquired == s.acquired && s'.lost == s.lost
    requires s'.available > 0 ==> s'.waiters == []
    ensures Grants(s')
  {
    forall g ensures PlacedOnce(s', g) { assert PlacedOnce(s, g); }
  }

  lemma RequestKeepsInv(n: nat, s: State, pop: nat)
    requires Inv(n, s) && Step(s, RequestCancel(pop)).Some?
    ensures Inv(n, Step(s, RequestCancel(pop)).value)
  {
    SameGrants(s, Step(s, RequestCancel(pop)).value);
  }

  lemma ReleaseKeepsInv(n: nat, s: State)
    requires Inv(n, s)
    ensures Inv(n, Step(s, Release).value)
  {
    var s1 := s.(directReleases := s.directReleases + 1);
    assert Owed(n, s1) == 1;
    SameGrants(s, s1);
    var s2 := PushToken(s1);
    assert Step(s, Release) == Some(s2);
    PushKeepsInv(n, s1);
  }

  lemma TakeKeepsInv(n: nat, s: State, forLock: bool)
    requires Inv(n, s)
    ensures Inv(n, Take(s, forLock))
  {
    if s.available > 0 {
      SameGrants(s, s.(available := s.available - 1));
      GrantKeepsInv(n, s.(available := s.available - 1), Waiter(forLock, false));
    } else {
      SameGrants(s, Take(s, forLock));
    }
  }

  lemma PopKeepsInv(n: nat, s: State, a: Action)
    requires Inv(n, s) && (a.Acquire? || a.GetScopeLock?)
    ensures Inv(n, Step(s, a).value)
  {
    TakeKeepsInv(n, s, a.GetScopeLock?);
  }

  lemma DestroyKeepsInv(n: nat, s: State, l: nat)
    requires Inv(n, s) && Step(s, Destroy(l)).Some?
    ensures Inv(n, Step(s, Destroy(l)).value)
  {
    LetGoKeepsInv(n, s, l);
  }

  lemma StepKeepsInv(n: nat, s: State, a: Action)
    requires Inv(n, s) && Step(s, a).Some?
    ensures Inv(n, Step(s, a).value)
  {
    match a
    case Acquire => PopKeepsInv(n, s, a);
    case GetScopeLock => PopKeepsInv(n, s, a);
    case RequestCancel(pop) => RequestKeepsInv(n, s, pop);
    case Release => ReleaseKeepsInv(n, s);
    case MoveConstruct(from) => MoveConstructKeepsInv(n, s, from);
    case MoveAssign(to, from) => MoveAssignKeepsInv(n, s, to, from);
    case Destroy(l) => DestroyKeepsInv(n, s, l);
  }

  lemma ReachableInv(n: nat, acts: seq<Action>, s: State)
    requires Runs.Exec(Step, Init(n), acts) == Some(s)
    ensures Inv(n, s)
  {
    forall g ensures PlacedOnce(Init(n), g) {}
    var inv := (u: State) => Inv(n, u);
    forall u, a | inv(u) && Step(u, a).Some? ensures inv(Step(u, a).value) { StepKeepsInv(n, u, a); }
    Runs.Invariance(Step, inv, Init(n), acts);
  }

  // ----- what every run guarantees -----

  /** Permits are conserved: those the semaphore began with and those released are available, granted, or
      consumed by a canceled waiter. */
  lemma PermitsAreConserved(n: nat, acts: seq<Action>, s: State)
    requires Runs.Exec(Step, Init(n), acts) == Some(s)
    ensures n + s.directReleases + |s.released| == s.available + s.acquired + s.lockGrants + s.lost
    ensures s.directReleases == Releases(acts) && |s.fates| + |s.waiters| == Pops(acts)
    ensures s.available > 0 ==> s.waiters == []
    ensures s.acquired == multiset(s.fates)[Acquired] && s.lost == multiset(s.fates)[Lost]
    ensures |s.fates| == s.acquired + s.lockGrants + s.lost
  {
    ReachableInv(n, acts, s);
    CountsActions(Init(n), acts, s);
  }

  function Releases(acts: seq<Action>): nat {
    if acts == [] then 0 else (if acts[0] == Release then 1 else 0) + Releases(acts[1..])
  }

  function Pops(acts: seq<Action>): nat {
    if acts == [] then 0 else (if acts[0].Acquire? || acts[0].GetScopeLock? then 1 else 0) + Pops(acts[1..])
  }

  lemma StepCountsAction(s: State, a: Action)
    requires Step(s, a).Some?
    ensures var s' := Step(s, a).value;
      && s'.directReleases == s.directReleases + (if a == Release then 1 else 0)
      && |s'.fates| + |s'.waiters| == |s.fates| + |s.waiters| + if a.Acquire? || a.GetScopeLock? then 1 else 0
  {
  }

  lemma {:induction false} CountsActions(s: State, acts: seq<Action>, s': State)
    requires Runs.Exec(Step, s, acts) == Some(s')
    ensures s'.directReleases == s.directReleases + Releases(acts)
    ensures |s'.fates| + |s'.waiters| == |s.fates| + |s.waiters| + Pops(acts)
    decreases |acts|
  {
    if acts != [] {
      StepCountsAction(s, acts[0]);
      CountsActions(Step(s, acts[0]).value, acts[1..], s');
    }
  }

  /** A waiting pop keeps its place and what it is for, or has got its token: lost if it was canceled, and granted
      to what it is for if not. */
  ghost predicate Waited(s: State, pop: nat, forLock: bool, canceled: bool) {
    if pop < |s.fates| then
      if canceled then s.fates[pop] == Lost else if forLock then s.fates[pop].Locked? else s.fates[pop] == Acquired
    else pop < |s.fates| + |s.waiters| && s.waiters[pop - |s.fates|] == Waiter(forLock, canceled)
  }

  lemma GrantKeepsWaited(s: State, w: Waiter, pop: nat, forLock: bool, canceled: bool)
    requires pop < |s.fates| && Waited(s, pop, forLock, canceled)
    ensures s.fates <= Grant(s, w).fates && Waited(Grant(s, w), pop, forLock, canceled)
  {
    assert Grant(s, w).fates[pop] == s.fates[pop];
  }

  lemma PushKeepsWaited(s: State, pop: nat, forLock: bool, canceled: bool)
    requires Waited(s, pop, forLock, canceled)
    ensures s.fates <= PushToken(s).fates && Waited(PushToken(s), pop, forLock, canceled)
  {
    if s.waiters != [] && pop < |s.fates| {
      GrantKeepsWaited(s.(waiters := s.waiters[1..]), s.waiters[0], pop, forLock, canceled);
    }
  }

  lemma LetGoKeepsWaited(s: State, l: nat, pop: nat, forLock: bool, canceled: bool)
    requires l < |s.locks| && Waited(s, pop, forLock, canceled)
    ensures s.fates <= LetGo(s, l).fates && Waited(LetGo(s, l), pop, forLock, canceled)
  {
    if s.locks[l].Some? {
      var s1 := s.(locks := s.locks[l := None], released := s.released + [s.locks[l].value]);
      PushKeepsWaited(s1, pop, forLock, canceled);
    }
  }

  /** A permit is available only if nobody waits. */
  lemma TakeKeepsWaited(s: State, take: bool, pop: nat, forLock: bool, canceled: bool)
    requires Waited(s, pop, forLock, canceled) && (s.available > 0 ==> s.waiters == [])
    ensures s.fates <= Take(s, take).fates && Waited(Take(s, take), pop, forLock, canceled)
  {
    if s.available > 0 {
      GrantKeepsWaited(s.(available := s.available - 1), Waiter(take, false), pop, forLock, canceled);
    }
  }

  lemma StepKeepsWaited(s: State, a: Action, pop: nat, forLock: bool, canceled: bool)
    requires Waited(s, pop, forLock, canceled) && Step(s, a).Some? && (s.available > 0 ==> s.waiters == [])
    ensures s.fates <= Step(s, a).value.fates
    ensures Waited(Step(s, a).value, pop, forLock, canceled || a == RequestCancel(pop))
  {
    match a
    case Acquire => TakeKeepsWaited(s, false, pop, forLock, canceled);
    case GetScopeLock => TakeKeepsWaited(s, true, pop, forLock, canceled);
    case Release => PushKeepsWaited(s.(directReleases := s.directReleases + 1), pop, forLock, canceled);
    case MoveAssign(to, from) => if to != from { LetGoKeepsWaited(s, to, pop, forLock, canceled); }
    case Destroy(l) => LetGoKeepsWaited(s, l, pop, forLock, canceled);
    case RequestCancel(_) =>
    case MoveConstruct(_) =>
  }

  /** Waiters are served in the order of their pops. Over any run, a pop that waits either waits in its place or has
      got its token: it is lost if and only if its cancelation was requested meanwhile, and is granted to what it is
      for otherwise. */
  lemma WaitersAreServedInOrder(n: nat, s: State, pop: nat, acts: seq<Action>, s': State)
    requires Inv(n, s) && |s.fates| <= pop < |s.fates| + |s.waiters| && Runs.Exec(Step, s, acts) == Some(s')
    ensures var w := s.waiters[pop - |s.fates|];
      s.fates <= s'.fates && Waited(s', pop, w.forLock, w.canceled || RequestCancel(pop) in acts)
  {
    var w := s.waiters[pop - |s.fates|];
    RunKeepsWaited(n, s, pop, w.forLock, w.canceled, acts, s');
  }

  lemma {:induction false} RunKeepsWaited(n: nat, s: State, pop: nat, forLock: bool, canceled: bool,
                                          acts: seq<Action>, s': State)
    requires Inv(n, s) && Waited(s, pop, forLock, canceled) && Runs.Exec(Step, s, acts) == Some(s')
    ensures s.fates <= s'.fates && Waited(s', pop, forLock, canceled || RequestCancel(pop) in acts)
    decreases |acts|
  {
    if acts != [] {
      StepKeepsInv(n, s, acts[0]);
      StepKeepsWaited(s, acts[0], pop, forLock, canceled);
      var s1 := Step(s, acts[0]).value;
      RunKeepsWaited(n, s1, pop, forLock, canceled || acts[0] == RequestCancel(pop), acts[1..], s');
      assert RequestCancel(pop) in acts <==> acts[0] == RequestCancel(pop) || RequestCancel(pop) in acts[1..];
    }
  }

  /** A new pop is the next one: it is granted at once if a permit is available, and waits behind the others if not. */
  lemma PopIsNext(n: nat, acts: seq<Action>, s: State, forLock: bool)
    requires Runs.Exec(Step, Init(n), acts) == Some(s)
    ensures var s' := Step(s, if forLock then GetScopeLock else Acquire).value;
      && |s'.fates| + |s'.waiters| == |s.fates| + |s.waiters| + 1
      && Waited(s', |s.fates| + |s.waiters|, forLock, false)
      && (s.available > 0 <==> |s'.fates| > |s.fates|)
  {
    ReachableInv(n, acts, s);
  }

  /** Through any chain of moves, a granted permit is held by exactly one lock or was released exactly once, and
      never both. */
  lemma LocksReleaseOnce(n: nat, acts: seq<Action>, s: State, g: nat)
    requires Runs.Exec(Step, Init(n), acts) == Some(s) && g < s.lockGrants
    ensures g in s.released <==> forall l :: 0 <= l < |s.locks| ==> s.locks[l] != Some(g)
    ensures forall l, m :: 0 <= l < m < |s.locks| && s.locks[l] == Some(g) ==> s.locks[m] != Some(g)
    ensures forall i, j :: 0 <= i < j < |s.released| && s.released[i] == g ==> s.released[j] != g
  {
    ReachableInv(n, acts, s);
    assert PlacedOnce(s, g);
    OccursIn(s.locks, Some(g));
    OccursIn(s.released, g);
  }

  /** What a multiset of a sequence counts. */
  lemma {:induction false} OccursIn<T>(xs: seq<T>, x: T)
    ensures multiset(xs)[x] > 0 <==> x in xs
    ensures multiset(xs)[x] <= 1 ==> forall i, j :: 0 <= i < j < |xs| && xs[i] == x ==> xs[j] != x
  {
    if xs != [] {
      var init, last := xs[..|xs| - 1], xs[|xs| - 1];
      assert xs == init + [last];
      OccursIn(init, x);
      if multiset(xs)[x] <= 1 && last == x {
        assert x !in init;
        forall i | 0 <= i < |xs| - 1 ensures xs[i] != x { assert xs[i] == init[i]; }
      }
    }
  }

  lemma StepExtends(s: State, a: Action)
    requires Step(s, a).Some?
    ensures s.released <= Step(s, a).value.released && s.lockGrants <= Step(s, a).value.lockGrants
  {
  }

  /** A released grant stays released, so it is released by one step of a run and never granted again. */
  lemma ReleasedStays(s: State, acts: seq<Action>, s': State)
    requires Runs.Exec(Step, s, acts) == Some(s')
    ensures s.released <= s'.released && s.lockGrants <= s'.lockGrants
  {
    var inv := (u: State) => s.released <= u.released && s.lockGrants <= u.lockGrants;
    forall u, a | inv(u) && Step(u, a).Some? ensures inv(Step(u, a).value) { StepExtends(u, a); }
    Runs.Invariance(Step, inv, s, acts);
  }

  /** A move constructor hands exactly what its source held to the new lock; it releases and grants nothing. */
  lemma MoveConstructHandsOver(s: State, from: nat)
    requires from < |s.locks|
    ensures Step(s, MoveConstruct(from)).Some?
    ensures var s' := Step(s, MoveConstruct(from)).value;
      && |s'.locks| == |s.locks| + 1 && s'.locks[|s.locks|] == s.locks[from] && s'.locks[from] == None
      && (forall l :: 0 <= l < |s.locks| && l != from ==> s'.locks[l] == s.locks[l])
      && s' == s.(locks := s'.locks)
  {
  }

  /** A move assignment hands exactly what its source held to the target, and releases what the target held. */
  lemma MoveAssignHandsOver(n: nat, s: State, to: nat, from: nat)
    requires Inv(n, s) && to < |s.locks| && from < |s.locks|
    ensures Step(s, MoveAssign(to, from)).Some?
    ensures var s' := Step(s, MoveAssign(to, from)).value;
      if to == from then s' == s
      else
        && |s.locks| <= |s'.locks| && s'.locks[to] == s.locks[from] && s'.locks[from] == None
        && (forall l :: 0 <= l < |s.locks| && l != to && l != from ==> s'.locks[l] == s.locks[l])
        && s'.released == s.released + if s.locks[to].Some? then [s.locks[to].value] else []
  {
    LetGoKeepsInv(n, s, to);
  }

  /** A destroyed lock is null and has released what it held, and the permit serves the first waiter or is available;
      no other lock changes. */
  lemma DestroyReleases(n: nat, s: State, l: nat)
    requires Inv(n, s) && l < |s.locks|
    ensures Step(s, Destroy(l)).Some?
    ensures var s' := Step(s, Destroy(l)).value;
      && |s.locks| <= |s'.locks| && s'.locks[l] == None
      && (forall m :: 0 <= m < |s.locks| && m != l ==> s'.locks[m] == s.locks[m])
      && s'.released == (s.released + if s.locks[l].Some? then [s.locks[l].value] else [])
      && s'.available == s.available + (if s.locks[l].Some? && s.waiters == [] then 1 else 0)
      && s'.waiters == if s.locks[l].Some? && s.waiters != [] then s.waiters[1..] else s.waiters
  {
    LetGoKeepsInv(n, s, l);
  }

  /** When no lock is set any more, every grant was released exactly once. */
  lemma AllReleased(n: nat, acts: seq<Action>, s: State)
    requires Runs.Exec(Step, Init(n), acts) == Some(s)
    requires forall l :: 0 <= l < |s.locks| ==> s.locks[l] == None
    ensures |s.released| == s.lockGrants
    ensures forall g :: 0 <= g < s.lockGrants ==> multiset(s.released)[g] == 1
  {
    ReachableInv(n, acts, s);
    NoneLive(s.locks);
    forall g | 0 <= g < s.lockGrants ensures multiset(s.released)[g] == 1 {
      assert PlacedOnce(s, g);
      OccursIn(s.locks, Some(g));
    }
  }

  lemma {:induction false} NoneLive(locks: seq<Option<nat>>)
    requires forall l :: 0 <= l < |locks| ==> locks[l] == None
    ensures Live(locks) == 0
  {
    if locks != [] {
      NoneLive(locks[1..]);
    }
  }

  predicate OnlyLocks(acts: seq<Action>) {
    forall i :: 0 <= i < |acts| ==> !acts[i].Acquire? && !acts[i].Release?
  }

  lemma {:induction false} OnlyLocksCount(s: State, acts: seq<Action>, s': State)
    requires OnlyLocks(acts) && Runs.Exec(Step, s, acts) == Some(s')
    requires s.acquired == s.directReleases == 0 && forall i :: 0 <= i < |s.waiters| ==> s.waiters[i].forLock
    ensures s'.acquired == s'.directReleases == 0
    decreases |acts|
  {
    if acts != [] {
      assert OnlyLocks(acts[1..]);
      OnlyLocksCount(Step(s, acts[0]).value, acts[1..], s');
    }
  }

  /** When permits are only taken as locks, every permit is in a live lock, available, or lost to a canceled
      waiter: at most n locks are live, and each cancelation of a waiter that is served lowers that bound. */
  lemma LiveLocksAreBounded(n: nat, acts: seq<Action>, s: State)
    requires Runs.Exec(Step, Init(n), acts) == Some(s) && OnlyLocks(acts)
    ensures Live(s.locks) + s.available + s.lost == n
  {
    ReachableInv(n, acts, s);
    OnlyLocksCount(Init(n), acts, s);
  }

  // ----- the class -----

  /** A semaphore, with its scope_lock objects. */
  class Semaphore {
    var available: nat
    var waiters: seq<Waiter>
    var fates: seq<Fate>
    var locks: seq<Option<nat>>
    var released: seq<nat>
    var directReleases: nat
    var acquired: nat
    var lockGrants: nat
    var lost: nat

    function View(): State
      reads this
    {
      State(available, waiters, fates, locks, released, directReleases, acquired, lockGrants, lost)
    }

    constructor (n: nat)
      ensures View() == Init(n) && Inv(n, View())
    {
      available, waiters, fates, locks, released := 0, [], [], [], [];
      directReleases, acquired, lockGrants, lost := 0, 0, 0, 0;
      new;
      var i := 0;
      while i < n
        invariant i <= n && View() == Init(i)
      {
        available := available + 1;
        i := i + 1;
      }
      ReachableInv(n, [], View());
    }

    method GrantTo(w: Waiter)
      modifies this
      ensures View() == Grant(old(View()), w)
    {
      if w.canceled {
        lost := lost + 1;
        fates := fates + [Lost];
      } else if w.forLock {
        locks := locks + [Some(lockGrants)];
        fates := fates + [Locked(lockGrants)];
        lockGrants := lockGrants + 1;
      } else {
        acquired := acquired + 1;
        fates := fates + [Acquired];
      }
    }

    method PopToken(forLock: bool)
      modifies this
      ensures View() == Take(old(View()), forLock)
    {
      if available > 0 {
        available := available - 1;
        GrantTo(Waiter(forLock, false));
      } else {
        waiters := waiters + [Waiter(forLock, false)];
      }
    }

    method ReleaseToken()
      modifies this
      ensures View() == PushToken(old(View()))
    {
      if waiters != [] {
        var w := waiters[0];
        waiters := waiters[1..];
        GrantTo(w);
      } else {
        available := available + 1;
      }
    }

    /** scope_lock's destructor */
    method DestroyLock(l: nat)
      requires l < |locks|
      modifies this
      ensures View() == LetGo(old(View()), l)
    {
      if locks[l].Some? {
        released := released + [locks[l].value];
        locks := locks[l := None];
        ReleaseToken();
      }
    }

    /** scope_lock's move constructor */
    method MoveConstructLock(from: nat) returns (to: nat)
      requires from < |locks|
      modifies this`locks
      ensures Step(old(View()), MoveConstruct(from)) == Some(View())
      ensures to == |old(locks)| < |locks| && locks[to] == old(locks)[from] && locks[from] == None
    {
      to := |locks|;
      var held := locks[from];
      locks := locks[from := None];
      locks := locks + [held];
    }

    /** scope_lock's move assignment, which does nothing onto itself */
    method MoveAssignLock(to: nat, from: nat, ghost n: nat)
      requires Inv(n, View()) && to < |locks| && from < |locks|
      modifies this
      ensures Step(old(View()), MoveAssign(to, from)) == Some(View()) && Inv(n, View())
      ensures to != from ==> |locks| >= |old(locks)| && locks[to] == old(locks)[from] && locks[from] == None
    {
      LetGoKeepsInv(n, View(), to);
      StepKeepsInv(n, View(), MoveAssign(to, from));
      if to != from {
        DestroyLock(to);
        var held := locks[from];
        assert locks[from := None][to := held] == locks[to := held][from := None];
        locks := locks[from := None];
        locks := locks[to := held];
      }
    }
  }
}
