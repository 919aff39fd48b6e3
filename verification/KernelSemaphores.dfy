/** The kernel's semaphores are those of module Semaphores, whatever else the kernel does. */
module KernelSemaphores {
  import opened Sequences
  import opened KernelSpec
  import opened KernelRings
  import opened KernelRuns
  import S = Semaphores

  function SemOf<T>(s: State<T>, k: nat): S.Semaphore<T>
    requires k < |s.sems| && FIRST_SEM_RING + k < |s.rings|
  {
    S.Semaphore(s.sems[k].value, s.sems[k].active, s.rings[FIRST_SEM_RING + k])
  }

  /** What a kernel step is for semaphore k. */
  function CallsOn<T>(s: State<T>, a: Action<T>, k: nat): seq<S.Call<T>> {
    match a
    case Down(j) => if j == k then [S.Down(s.curr)] else []
    case Up(j) => if j == k then [S.Up] else []
    case Destroy(j) => if j == k then [S.Destroy] else []
    case _ => []
  }

  /** The rings once everybody asleep in `ring` has been moved behind the ready tasks. */
  function Poured<T>(rings: seq<seq<T>>, ring: nat): seq<seq<T>>
    requires READY_RING < ring < |rings|
  {
    rings[ring := []][READY_RING := rings[READY_RING] + rings[ring]]
  }

  lemma PouredNext<T>(rings: seq<seq<T>>, ring: nat)
    requires READY_RING < ring < |rings| && rings[ring] != []
    ensures Poured(rings[ring := rings[ring][1..]][READY_RING := rings[READY_RING] + rings[ring][..1]], ring)
            == Poured(rings, ring)
  {
    var queue := rings[ring];
    assert queue == queue[..1] + queue[1..];
    assert rings[READY_RING] + queue[..1] + queue[1..] == rings[READY_RING] + queue;
  }

  lemma {:induction false} ReleaseAllRings<T>(s: State<T>, ring: nat)
    requires Shape(s) && Partition(s.rings) && READY_RING < ring < |s.rings|
    ensures ReleaseAll(s, ring).rings == Poured(s.rings, ring)
    ensures ReleaseAll(s, ring).sems == s.sems && Partition(ReleaseAll(s, ring).rings)
    decreases |s.rings[ring]|
  {
    if s.rings[ring] == [] {
      assert s.rings[READY_RING] + [] == s.rings[READY_RING];
      assert Poured(s.rings, ring) == s.rings;
    } else {
      HeadMoves(s, ring);
      PouredNext(s.rings, ring);
      ReleaseAllRings(TaskResume(s, s.rings[ring][0], ring), ring);
    }
  }

  lemma HeadMoves<T>(s: State<T>, ring: nat)
    requires Shape(s) && Partition(s.rings) && READY_RING < ring < |s.rings| && s.rings[ring] != []
    ensures var r := TaskResume(s, s.rings[ring][0], ring);
            && r.rings == s.rings[ring := s.rings[ring][1..]][READY_RING := s.rings[READY_RING] + s.rings[ring][..1]]
            && r.sems == s.sems && Partition(r.rings)
  {
    var queue := s.rings[ring];
    assert Linked(s.rings, queue[0]);
    MoveOut(s.rings, ring, READY_RING, queue[0]);
    MoveKeepsPartition(s.rings, ring, READY_RING, queue[0]);
    assert queue[..1] == [queue[0]];
    assert queue == [] + [queue[0]] + queue[1..];
    WithoutMiddle([], queue[0], queue[1..]);
    assert [] + queue[1..] == queue[1..];
  }

  lemma DownOnSem<T>(s: State<T>, k: nat)
    requires Inv(s) && s.curr != s.dispatcher && k < |s.sems|
    ensures SemOf(SemDown(s, k), k) == S.Apply(SemOf(s, k), S.Down(s.curr))
  {
    assert Linked(s.rings, s.curr);
    MoveOut(s.rings, READY_RING, FIRST_SEM_RING + k, s.curr);
  }

  lemma UpOnSem<T>(s: State<T>, k: nat)
    requires Inv(s) && k < |s.sems|
    ensures SemOf(SemUp(s, k), k) == S.Apply(SemOf(s, k), S.Up)
    ensures SemUp(s, k).rings[READY_RING] == s.rings[READY_RING] + S.Releases(SemOf(s, k), S.Up)
  {
    var ring := FIRST_SEM_RING + k;
    if s.sems[k].active && s.rings[ring] != [] {
      HeadMoves(SetSem(s, k, Sem(s.sems[k].value + 1, true)), ring);
    }
    assert s.rings[READY_RING] + [] == s.rings[READY_RING];
  }

  lemma DestroyOnSem<T>(s: State<T>, k: nat)
    requires Inv(s) && k < |s.sems|
    ensures SemOf(SemDestroy(s, k), k) == S.Apply(SemOf(s, k), S.Destroy)
    ensures SemDestroy(s, k).rings[READY_RING] == s.rings[READY_RING] + S.Releases(SemOf(s, k), S.Destroy)
  {
    if s.sems[k].active {
      ReleaseAllRings(SetSem(s, k, s.sems[k].(active := false)), FIRST_SEM_RING + k);
    }
    assert s.rings[READY_RING] + [] == s.rings[READY_RING];
  }

  /** Each call has the semaphore's effect, and what it releases goes behind the ready tasks. */
  lemma CallOnSem<T>(s: State<T>, k: nat)
    requires Inv(s) && s.curr != s.dispatcher && k < |s.sems|
    ensures SemOf(SemDown(s, k), k) == S.Apply(SemOf(s, k), S.Down(s.curr))
    ensures SemOf(SemUp(s, k), k) == S.Apply(SemOf(s, k), S.Up)
    ensures SemUp(s, k).rings[READY_RING] == s.rings[READY_RING] + S.Releases(SemOf(s, k), S.Up)
    ensures SemOf(SemDestroy(s, k), k) == S.Apply(SemOf(s, k), S.Destroy)
    ensures SemDestroy(s, k).rings[READY_RING] == s.rings[READY_RING] + S.Releases(SemOf(s, k), S.Destroy)
  {
    DownOnSem(s, k);
    UpOnSem(s, k);
    DestroyOnSem(s, k);
  }

  lemma DispatchLeavesSem<T>(s: State<T>, k: nat)
    requires Inv(s) && k < |s.sems|
    ensures SemOf(Dispatch(s), k) == SemOf(s, k)
  {
    LinkedIsLive(s, SLEEPING_RING);
    WalkIsCalm(s, SLEEPING_RING, Alarm(s.clock));
    assert SemOf(WakeTasks(s), k) == SemOf(s, k);
  }

  lemma ExitLeavesSem<T>(s: State<T>, code: int, k: nat)
    requires Inv(s) && s.curr != s.dispatcher && k < |s.sems|
    ensures SemOf(TaskExit(s, code), k) == SemOf(s, k)
  {
    ExitWalk(s, code);
    assert SemOf(Announced(s, code), k) == SemOf(s, k);
  }

  lemma OtherDownLeavesSem<T>(s: State<T>, j: nat, k: nat)
    requires Inv(s) && s.curr != s.dispatcher && j < |s.sems| && k < |s.sems| && j != k
    ensures SemOf(SemDown(s, j), k) == SemOf(s, k)
    ensures SemOf(SemUp(s, j), k) == SemOf(s, k)
  {}

  lemma OtherDestroyLeavesSem<T>(s: State<T>, j: nat, k: nat)
    requires Inv(s) && j < |s.sems| && k < |s.sems| && j != k
    ensures SemOf(SemDestroy(s, j), k) == SemOf(s, k)
  {
    if s.sems[j].active {
      ReleaseAllRings(SetSem(s, j, s.sems[j].(active := false)), FIRST_SEM_RING + j);
    }
  }

  lemma OtherCallsLeaveSem<T>(s: State<T>, a: Action<T>, k: nat)
    requires Inv(s) && Legal(s, a) && k < |s.sems| && !a.Down? && !a.Up? && !a.Destroy?
    ensures k < |Next(s, a).sems| && SemOf(Next(s, a), k) == SemOf(s, k)
  {
    match a
    case Schedule => DispatchLeavesSem(s, k);
    case Exit(code) => ExitLeavesSem(s, code, k);
    case _ =>
  }

  /** A kernel step is, for each semaphore, one call on it or nothing. */
  lemma SemStep<T>(s: State<T>, a: Action<T>, k: nat)
    requires Inv(s) && Legal(s, a) && k < |s.sems|
    ensures k < |Next(s, a).sems| && SemOf(Next(s, a), k) == S.After(SemOf(s, k), CallsOn(s, a, k))
  {
    if CallsOn(s, a, k) != [] {
      CallOnSem(s, k);
      OneCall(SemOf(s, k), CallsOn(s, a, k)[0]);
    } else if a.Down? || a.Up? {
      OtherDownLeavesSem(s, a.k, k);
    } else if a.Destroy? {
      OtherDestroyLeavesSem(s, a.k, k);
    } else {
      OtherCallsLeaveSem(s, a, k);
    }
  }

  lemma OneCall<T>(s: S.Semaphore<T>, c: S.Call<T>)
    ensures S.After(s, [c]) == S.Apply(s, c)
  {
    assert [c][..0] == [];
    assert S.After(s, [c][..0]) == s;
  }

  /** The calls a run makes on semaphore k in its steps i, ..., j - 1. */
  ghost function CallsBetween<T>(states: seq<State<T>>, actions: seq<Action<T>>, i: nat, j: nat, k: nat): seq<S.Call<T>>
    requires i <= j <= |actions| && |actions| <= |states|
  {
    if i == j then []
    else CallsBetween(states, actions, i, j - 1, k) + CallsOn(states[j - 1], actions[j - 1], k)
  }

  /** Semaphore k of s is what these calls make of a new one with value v. */
  ghost predicate IsAfter<T>(s: State<T>, k: nat, v: int, calls: seq<S.Call<T>>) {
    && Shape(s) && k < |s.sems|
    && SemOf(s, k) == S.After(S.Init(v), calls)
  }

  lemma NewSemIsNew<T>(s: State<T>, v: int)
    requires Shape(s)
    ensures IsAfter(SemInit(s, v), |s.sems|, v, [])
  {}

  /** Semaphore k of r is what this step's calls make of that of s. */
  ghost predicate Follows<T>(s: State<T>, a: Action<T>, r: State<T>, k: nat) {
    && Shape(s) && Shape(r)
    && (k < |s.sems| ==> k < |r.sems| && SemOf(r, k) == S.After(SemOf(s, k), CallsOn(s, a, k)))
  }

  lemma RunFollows<T>(states: seq<State<T>>, actions: seq<Action<T>>, main: T, p: nat, k: nat)
    requires IsRun(states, actions) && Boots(states[0], main) && p < |actions|
    ensures Follows(states[p], actions[p], states[p + 1], k)
  {
    RunKeepsInv(states, actions, main, p);
    if k < |states[p].sems| {
      SemStep(states[p], actions[p], k);
    }
  }

  lemma RunStartsSem<T>(states: seq<State<T>>, actions: seq<Action<T>>, i: nat)
    requires IsRun(states, actions) && i < |actions| && actions[i].NewSem?
    ensures IsAfter(states[i + 1], |states[i].sems|, actions[i].value, [])
  {
    NewSemIsNew(states[i], actions[i].value);
  }

  lemma RunFollowsBetween<T>(states: seq<State<T>>, actions: seq<Action<T>>, main: T, i: nat, j: nat, k: nat)
    requires IsRun(states, actions) && Boots(states[0], main) && i <= j < |states|
    ensures FollowsBetween(states, actions, i, j, k)
  {
    forall p | i <= p < j
      ensures Follows(states[p], actions[p], states[p + 1], k)
    {
      RunFollows(states, actions, main, p, k);
    }
  }

  ghost predicate FollowsBetween<T>(states: seq<State<T>>, actions: seq<Action<T>>, i: nat, j: nat, k: nat) {
    && i <= j <= |actions| < |states|
    && forall p :: i <= p < j ==> Follows(states[p], actions[p], states[p + 1], k)
  }

  lemma {:induction false} CallsAddUp<T>(states: seq<State<T>>, actions: seq<Action<T>>, i: nat, j: nat, k: nat, v: int)
    requires FollowsBetween(states, actions, i, j, k) && IsAfter(states[i], k, v, [])
    ensures IsAfter(states[j], k, v, CallsBetween(states, actions, i, j, k))
    decreases j
  {
    if i < j {
      CallsAddUp(states, actions, i, j - 1, k, v);
      var p := j - 1;
      assert Follows(states[p], actions[p], states[p + 1], k);
      S.AfterSplit(S.Init(v), CallsBetween(states, actions, i, p, k), CallsOn(states[p], actions[p], k));
    }
  }

  /**
   * A semaphore created with value v is, at every later point of a run, what its own
   * calls made of it: so every law of module Semaphores holds of it.
   */
  lemma SemRun<T>(states: seq<State<T>>, actions: seq<Action<T>>, main: T, i: nat, j: nat)
    requires IsRun(states, actions) && Boots(states[0], main) && i < j < |states| && actions[i].NewSem?
    ensures IsAfter(states[j], |states[i].sems|, actions[i].value,
                    CallsBetween(states, actions, i + 1, j, |states[i].sems|))
  {
    RunStartsSem(states, actions, i);
    RunFollowsBetween(states, actions, main, i + 1, j, |states[i].sems|);
    CallsAddUp(states, actions, i + 1, j, |states[i].sems|, actions[i].value);
  }
}
