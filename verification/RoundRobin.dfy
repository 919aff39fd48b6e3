/** Among equals the aging scheduler is strict round robin in ring order. */
module RoundRobin {
  import opened Sequences
  import opened KernelSpec
  import opened KernelRuns
  import opened KernelTheorems
  import opened Fairness

  /** The ring position whose turn it is after r calls, going round a ring of n. */
  function Slot(n: nat, r: nat): (j: nat)
    requires n > 0
    ensures j < n
  {
    if r == 0 then 0
    else if Slot(n, r - 1) + 1 == n then 0
    else Slot(n, r - 1) + 1
  }

  function Laps(n: nat, r: nat): nat
    requires n > 0
  {
    if r == 0 then 0 else Laps(n, r - 1) + (if Slot(n, r - 1) + 1 == n then 1 else 0)
  }

  lemma {:induction false} SlotAndLaps(n: nat, r: nat)
    requires n > 0
    ensures r == Laps(n, r) * n + Slot(n, r)
  {
    if r > 0 {
      SlotAndLaps(n, r - 1);
      if Slot(n, r - 1) + 1 == n {
        assert (Laps(n, r - 1) + 1) * n == Laps(n, r - 1) * n + n;
      }
    }
  }

  lemma {:induction false} MultipleAtLeast(e: nat, n: nat)
    requires e > 0
    ensures e * n >= n
  {
    if e > 1 {
      MultipleAtLeast(e - 1, n);
      assert e * n == (e - 1) * n + n;
    }
  }

  lemma GreaterQuotient(n: nat, q: int, k: int)
    ensures q > k ==> q * n >= k * n + n
  {
    if q > k {
      var e: nat := q - k;
      MultipleAtLeast(e, n);
      assert q * n == (k + e) * n == k * n + e * n;
    }
  }

  lemma SameRemainder(n: nat, q: int, m: nat, k: int, d: nat)
    requires m < n && d < n && q * n + m == k * n + d
    ensures m == d
  {
    GreaterQuotient(n, q, k);
    GreaterQuotient(n, k, q);
  }

  lemma SlotIsRemainder(n: nat, r: nat)
    requires n > 0
    ensures Slot(n, r) == r % n
  {
    SlotAndLaps(n, r);
    assert r == (r / n) * n + r % n;
    SameRemainder(n, Laps(n, r), Slot(n, r), r / n, r % n);
  }

  lemma {:induction false} FirstLap(n: nat, r: nat)
    requires r <= n && n > 0
    ensures Slot(n, r) == if r == n then 0 else r
  {
    if r > 0 {
      FirstLap(n, r - 1);
    }
  }

  /** Scheduler calls since ring element i was last chosen, after r calls on a ring of n. */
  function Age(n: nat, r: nat, i: nat): nat
    requires i < n
  {
    if i < Slot(n, r) then Slot(n, r) - i - 1
    else if r < n then r
    else n + Slot(n, r) - i - 1
  }

  /** Every ready task has static priority p and has aged exactly as often as r turns say. */
  ghost predicate Rotated<T>(ready: seq<T>, tcb: map<T, Tcb>, p: int, r: nat)
    requires ready != []
  {
    forall i :: 0 <= i < |ready| ==>
      && ready[i] in tcb
      && tcb[ready[i]].staticPriority == p
      && tcb[ready[i]].dynamicPriority == p - Age(|ready|, r, i)
  }

  lemma RotationChooses<T>(ready: seq<T>, tcb: map<T, Tcb>, p: int, r: nat)
    requires ready != [] && Rotated(ready, tcb, p, r)
    ensures Choose(ready, tcb) == ready[Slot(|ready|, r)]
  {
    if r < |ready| {
      FirstLap(|ready|, r);
    }
    ChooseIsFirstLeast(ready, tcb, Slot(|ready|, r));
  }

  lemma RotationAdvances<T>(ready: seq<T>, tcb: map<T, Tcb>, p: int, r: nat)
    requires ready != [] && NoDuplicates(ready) && Rotated(ready, tcb, p, r)
    ensures Rotated(ready, Scheduled(ready, tcb), p, r + 1)
  {
    var n := |ready|;
    RotationChooses(ready, tcb, p, r);
    if r < n {
      FirstLap(n, r);
      FirstLap(n, r + 1);
    }
    var after := Scheduled(ready, tcb);
    forall i | 0 <= i < n
      ensures after[ready[i]].staticPriority == p
      ensures after[ready[i]].dynamicPriority == p - Age(n, r + 1, i)
    {
      assert i != Slot(n, r) ==> ready[i] != ready[Slot(n, r)];
    }
  }

  lemma RotatedByPrios<T>(ready: seq<T>, a: map<T, Tcb>, b: map<T, Tcb>, p: int, r: nat)
    requires ready != [] && Rotated(ready, a, p, r) && Prios(a) == Prios(b)
    ensures Rotated(ready, b, p, r)
  {
    assert a.Keys == Prios(a).Keys == b.Keys;
    forall i | 0 <= i < |ready|
      ensures b[ready[i]].staticPriority == a[ready[i]].staticPriority
      ensures b[ready[i]].dynamicPriority == a[ready[i]].dynamicPriority
    {
      assert Prios(a)[ready[i]] == Prios(b)[ready[i]];
    }
  }

  /** A scheduler call that finds nobody to wake chooses the element whose turn it is, and passes the turn on. */
  lemma ScheduleRotates<T>(s: State<T>, p: int, r: nat)
    requires Inv(s) && s.curr == s.dispatcher && s.rings[READY_RING] != []
    requires Dispatch(s).rings[READY_RING] == s.rings[READY_RING] && Rotated(s.rings[READY_RING], s.tcb, p, r)
    ensures Dispatch(s).curr == s.rings[READY_RING][Slot(|s.rings[READY_RING]|, r)]
    ensures Rotated(s.rings[READY_RING], Dispatch(s).tcb, p, r + 1)
  {
    var ready, s1 := s.rings[READY_RING], WakeTasks(s);
    WakingMovesSleepers(s);
    WakingKeepsInv(s);
    WalkKeepsPrios(s, SLEEPING_RING, Alarm(s.clock));
    RotatedByPrios(ready, s.tcb, s1.tcb, p, r);
    ElectionPriorities(s1);
    RotationChooses(ready, s1.tcb, p, r);
    RotationAdvances(ready, s1.tcb, p, r);
    RotatedByPrios(ready, Scheduled(ready, s1.tcb), Dispatch(s).tcb, p, r + 1);
  }

  /** Any other call leaves the rotation of the ready tasks alone, if it gives none of them a new priority. */
  lemma OtherStepKeepsRotation<T>(s: State<T>, a: Action<T>, p: int, r: nat)
    requires Inv(s) && Legal(s, a) && !a.Schedule? && s.rings[READY_RING] != []
    requires a.Prio? ==> a.t !in s.rings[READY_RING]
    requires Rotated(s.rings[READY_RING], s.tcb, p, r)
    ensures Rotated(s.rings[READY_RING], Next(s, a).tcb, p, r)
  {
    if !a.Init? && !a.Prio? {
      StepKeepsPrios(s, a);
      RotatedByPrios(s.rings[READY_RING], s.tcb, Next(s, a).tcb, p, r);
    }
  }

  /** Everybody ready has priority p and nobody has aged. */
  ghost predicate Equals<T>(s: State<T>, p: int) {
    && Shape(s) && s.rings[READY_RING] != []
    && forall t :: t in s.rings[READY_RING] ==> s.tcb[t].staticPriority == p && s.tcb[t].dynamicPriority == p
  }

  lemma EqualsRotated<T>(s: State<T>, p: int)
    requires Equals(s, p)
    ensures Rotated(s.rings[READY_RING], s.tcb, p, 0)
  {
    var ready := s.rings[READY_RING];
    forall i | 0 <= i < |ready|
      ensures ready[i] in s.tcb && s.tcb[ready[i]].staticPriority == p
      ensures s.tcb[ready[i]].dynamicPriority == p - Age(|ready|, 0, i)
    {
      assert ready[i] in ready;
    }
  }

  /** From state i to state j the ready ring stays as it is, and none of its tasks is given a priority. */
  ghost predicate FixedReady<T>(states: seq<State<T>>, actions: seq<Action<T>>, i: nat, j: nat) {
    && i <= j < |states| && |states| == |actions| + 1 && Shape(states[i])
    && (forall q :: i <= q <= j ==> InReady(states[q], states[i].rings[READY_RING]))
    && (forall q :: i <= q < j && actions[q].Prio? ==> actions[q].t !in states[i].rings[READY_RING])
  }

  ghost predicate InReady<T>(s: State<T>, ready: seq<T>) {
    Shape(s) && s.rings[READY_RING] == ready
  }

  /** Whatever turn it is in s, it is the next one in r after a scheduler call, which chose accordingly, and the same otherwise. */
  ghost predicate Rotates<T>(ready: seq<T>, s: State<T>, r: State<T>, called: bool, p: int) {
    ready != [] &&
    forall k: nat :: Rotated(ready, s.tcb, p, k) ==>
      && Rotated(ready, r.tcb, p, if called then k + 1 else k)
      && (called ==> r.curr == ready[Slot(|ready|, k)])
  }

  lemma StepRotates<T>(s: State<T>, a: Action<T>, ready: seq<T>, p: int)
    requires Inv(s) && Legal(s, a) && ready != [] && InReady(s, ready) && InReady(Next(s, a), ready)
    requires a.Prio? ==> a.t !in ready
    ensures Rotates(ready, s, Next(s, a), a.Schedule?, p)
  {
    forall k: nat | Rotated(ready, s.tcb, p, k)
      ensures Rotated(ready, Next(s, a).tcb, p, if a.Schedule? then k + 1 else k)
      ensures a.Schedule? ==> Next(s, a).curr == ready[Slot(|ready|, k)]
    {
      if a.Schedule? {
        ScheduleRotates(s, p, k);
      } else {
        OtherStepKeepsRotation(s, a, p, k);
      }
    }
  }

  lemma RunRotates<T>(states: seq<State<T>>, actions: seq<Action<T>>, main: T, p: int, i: nat, j: nat, k: nat)
    requires IsRun(states, actions) && Boots(states[0], main) && FixedReady(states, actions, i, j) && i <= k < j
    requires states[i].rings[READY_RING] != []
    ensures Rotates(states[i].rings[READY_RING], states[k], states[k + 1], actions[k].Schedule?, p)
  {
    RunKeepsInv(states, actions, main, k);
    var ready := states[i].rings[READY_RING];
    assert InReady(states[k], ready) && InReady(states[k + 1], ready);
    StepRotates(states[k], actions[k], ready, p);
  }

  ghost predicate AllRotate<T>(states: seq<State<T>>, actions: seq<Action<T>>, ready: seq<T>, p: int, i: nat, j: nat) {
    && ready != [] && i <= j <= |actions| < |states|
    && forall k :: i <= k < j ==> Rotates(ready, states[k], states[k + 1], actions[k].Schedule?, p)
  }

  lemma {:induction false} TurnsRotate<T>(states: seq<State<T>>, actions: seq<Action<T>>, ready: seq<T>, p: int, i: nat, j: nat, k: nat)
    requires AllRotate(states, actions, ready, p, i, j) && i <= k <= j
    requires Rotated(ready, states[i].tcb, p, 0)
    ensures Rotated(ready, states[k].tcb, p, Calls(actions, i, k))
    decreases k
  {
    if i < k {
      TurnsRotate(states, actions, ready, p, i, j, k - 1);
      var q := k - 1;
      assert Rotates(ready, states[q], states[q + 1], actions[q].Schedule?, p);
    }
  }

  /**
   * While the ready ring stays the same, among tasks of equal priority that start unaged,
   * scheduler call number r selects ring element r mod n, for every r and whatever else
   * the tasks and the timer do between the calls.
   */
  lemma StrictRoundRobin<T>(states: seq<State<T>>, actions: seq<Action<T>>, main: T, p: int, i: nat, j: nat)
    requires IsRun(states, actions) && Boots(states[0], main) && i < j
    requires FixedReady(states, actions, i, j) && Equals(states[i], p) && actions[j - 1].Schedule?
    ensures var ready := states[i].rings[READY_RING];
            states[j].curr == ready[Calls(actions, i, j - 1) % |ready|]
  {
    var ready := states[i].rings[READY_RING];
    RunsRotate(states, actions, main, p, i, j);
    LastCall(states, actions, ready, p, i, j);
    SlotIsRemainder(|ready|, Calls(actions, i, j - 1));
  }

  lemma RunsRotate<T>(states: seq<State<T>>, actions: seq<Action<T>>, main: T, p: int, i: nat, j: nat)
    requires IsRun(states, actions) && Boots(states[0], main) && FixedReady(states, actions, i, j) && Equals(states[i], p)
    ensures AllRotate(states, actions, states[i].rings[READY_RING], p, i, j)
    ensures Rotated(states[i].rings[READY_RING], states[i].tcb, p, 0)
  {
    EqualsRotated(states[i], p);
    forall k | i <= k < j
      ensures Rotates(states[i].rings[READY_RING], states[k], states[k + 1], actions[k].Schedule?, p)
    {
      RunRotates(states, actions, main, p, i, j, k);
    }
  }

  lemma LastCall<T>(states: seq<State<T>>, actions: seq<Action<T>>, ready: seq<T>, p: int, i: nat, j: nat)
    requires AllRotate(states, actions, ready, p, i, j) && i < j && actions[j - 1].Schedule?
    requires Rotated(ready, states[i].tcb, p, 0)
    ensures states[j].curr == ready[Slot(|ready|, Calls(actions, i, j - 1))]
  {
    var q := j - 1;
    TurnsRotate(states, actions, ready, p, i, j, q);
    assert Rotates(ready, states[q], states[q + 1], actions[q].Schedule?, p);
  }
}
