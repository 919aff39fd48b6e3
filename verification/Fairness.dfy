/** The aging scheduler: nobody starves, and equals are served in turn. */
module Fairness {
  import opened KernelSpec
  import opened KernelRings
  import opened KernelRuns
  import opened KernelTheorems
  import opened KernelSemaphores

  // ---------------------------------------------------------------- the scheduler's choice

  /** The first task of least dynamic priority: everyone before it is less urgent, nobody is more urgent. */
  lemma {:induction false} ChooseIsFirstLeast<T>(ready: seq<T>, tcb: map<T, Tcb>, c: nat)
    requires c < |ready| && forall i :: 0 <= i < |ready| ==> ready[i] in tcb
    requires forall i :: 0 <= i < c ==> tcb[ready[i]].dynamicPriority > tcb[ready[c]].dynamicPriority
    requires forall i :: c <= i < |ready| ==> tcb[ready[i]].dynamicPriority >= tcb[ready[c]].dynamicPriority
    ensures Choose(ready, tcb) == ready[c]
  {
    var n := |ready| - 1;
    if c < n {
      ChooseIsFirstLeast(ready[..n], tcb, c);
    } else if n > 0 {
      assert Choose(ready[..n], tcb) in ready[..n];
      var i :| 0 <= i < n && ready[i] == Choose(ready[..n], tcb);
    }
  }

  lemma {:induction false} ChosenIsLeast<T>(ready: seq<T>, tcb: map<T, Tcb>, t: T)
    requires t in ready && forall i :: 0 <= i < |ready| ==> ready[i] in tcb
    ensures tcb[Choose(ready, tcb)].dynamicPriority <= tcb[t].dynamicPriority
  {
    var n := |ready| - 1;
    if n > 0 && t in ready[..n] {
      ChosenIsLeast(ready[..n], tcb, t);
    } else {
      assert t == ready[n];
    }
  }

  // ---------------------------------------------------------------- starvation

  /** The ready tasks at least as urgent as b. */
  function Urgent<T(==)>(s: State<T>, b: int): set<T>
    requires Shape(s)
  {
    set t | t in s.rings[READY_RING] && s.tcb[t].dynamicPriority <= b
  }

  function Excess(n: nat, k: nat): nat {
    if n > k then n - k else 0
  }

  /** At most N - k ready tasks have sunk to priority L - k or below. */
  ghost predicate LevelHolds<T>(s: State<T>, L: int, N: nat, k: nat)
    requires Shape(s)
  {
    |Urgent(s, L - k)| <= Excess(N, k)
  }

  predicate Rested(p: Tcb) {
    p.dynamicPriority == p.staticPriority
  }

  /** L bounds every static priority from below, N the ready tasks at scheduler calls. */
  ghost predicate Fair<T>(s: State<T>, L: int, N: nat) {
    && Inv(s)
    && (forall t :: t in s.tcb && t != s.dispatcher ==> s.tcb[t].staticPriority >= L)
    && (forall t :: t in s.tcb && Live(s, t) && t !in s.rings[READY_RING] ==> Rested(s.tcb[t]))
    && (s.curr != s.dispatcher ==> Rested(s.tcb[s.curr]))
    && (forall k: nat :: k >= 1 ==> LevelHolds(s, L, N, k))
  }

  /** A step that changes nobody's priorities, readies only the living and unreadies only the running task. */
  ghost predicate Restful<T>(s: State<T>, r: State<T>) {
    && Shape(s) && Shape(r) && r.tcb.Keys == s.tcb.Keys && r.dispatcher == s.dispatcher
    && (forall t :: t in s.tcb ==> r.tcb[t].dynamicPriority == s.tcb[t].dynamicPriority)
    && (forall t :: t in s.tcb ==> r.tcb[t].staticPriority == s.tcb[t].staticPriority)
    && (forall t :: t in s.rings[READY_RING] && t != s.curr ==> t in r.rings[READY_RING])
    && (forall t :: t in r.rings[READY_RING] ==> Live(s, t))
    && (forall t :: t in s.tcb && Live(r, t) ==> Live(s, t))
    && (r.curr == s.curr || r.curr == s.dispatcher)
  }

  lemma RestfulKeepsFair<T>(s: State<T>, r: State<T>, L: int, N: nat)
    requires Fair(s, L, N) && Inv(r) && Restful(s, r)
    ensures Fair(r, L, N)
  {
    forall k: nat | k >= 1
      ensures LevelHolds(r, L, N, k)
    {
      assert LevelHolds(s, L, N, k);
      assert Urgent(r, L - k) <= Urgent(s, L - k);
      CountAtMost(Urgent(r, L - k), Urgent(s, L - k));
    }
  }

  /**
   * The heart of the argument.  The chosen task is the most urgent of all, so whenever any
   * task can sink to level L - k by aging, the chosen one was at level L - k + 1 and is reset.
   */
  lemma ElectionKeepsFair<T>(s: State<T>, L: int, N: nat)
    requires Fair(s, L, N) && s.curr == s.dispatcher
    requires s.rings[READY_RING] != [] && |s.rings[READY_RING]| <= N
    ensures Fair(RunNext(s), L, N)
  {
    var r := RunNext(s);
    var ready := s.rings[READY_RING];
    RunNextIsCalm(s);
    SteadyKeepsCensus(s, r);
    CalmKeepsJoins(s, r);
    LinkedIsLive(s, READY_RING);
    ElectionPriorities(s);
    forall t | t in s.tcb
      ensures r.tcb[t].staticPriority == s.tcb[t].staticPriority
      ensures t !in ready ==> r.tcb[t].dynamicPriority == s.tcb[t].dynamicPriority
    {
      ElectedPriority(s, t);
    }
    ElectedPriority(s, r.curr);
    forall k: nat | k >= 1
      ensures LevelHolds(r, L, N, k)
    {
      LevelSinks(s, r, L, N, k);
    }
  }

  function Prios<T(==)>(tcb: map<T, Tcb>): (r: map<T, (int, int)>)
    ensures r.Keys == tcb.Keys
  {
    map t | t in tcb :: (tcb[t].dynamicPriority, tcb[t].staticPriority)
  }

  lemma ActivationKeepsPrios<T>(s: State<T>, next: T)
    requires Shape(s) && next in s.tcb
    ensures Prios(TaskSwitch(Activated(s, next), next).tcb) == Prios(s.tcb)
  {
    assert Prios(Activated(s, next).tcb) == Prios(s.tcb);
    SwitchKeepsPrios(Activated(s, next), next);
  }

  lemma SwitchKeepsPrios<T>(s: State<T>, t: T)
    requires Shape(s) && t in s.tcb
    ensures Prios(TaskSwitch(s, t).tcb) == Prios(s.tcb)
  {}

  /** What one scheduler call does to the priorities. */
  lemma ElectionPriorities<T>(s: State<T>)
    requires Shape(s) && s.rings[READY_RING] != []
    ensures var r, ready := RunNext(s), s.rings[READY_RING];
            && r.curr == Choose(ready, s.tcb) && r.tcb.Keys == s.tcb.Keys && r.rings == s.rings
            && r.dispatcher == s.dispatcher
            && Prios(r.tcb) == Prios(Scheduled(ready, s.tcb))
  {
    var ready := s.rings[READY_RING];
    ActivationKeepsPrios(s.(tcb := Scheduled(ready, s.tcb)), Choose(ready, s.tcb));
  }

  lemma ElectedPriority<T>(s: State<T>, t: T)
    requires Shape(s) && s.rings[READY_RING] != [] && t in s.tcb
    ensures var r, ready := RunNext(s), s.rings[READY_RING];
            && t in r.tcb && r.tcb[t].staticPriority == s.tcb[t].staticPriority
            && r.tcb[t].dynamicPriority == (if t == r.curr then s.tcb[t].staticPriority
                                            else if t in ready then s.tcb[t].dynamicPriority + ALPHA
                                            else s.tcb[t].dynamicPriority)
  {
    var ready := s.rings[READY_RING];
    ElectionPriorities(s);
    assert Prios(RunNext(s).tcb)[t] == Prios(Scheduled(ready, s.tcb))[t];
  }

  lemma LevelSinks<T>(s: State<T>, r: State<T>, L: int, N: nat, k: nat)
    requires Fair(s, L, N) && s.rings[READY_RING] != [] && |s.rings[READY_RING]| <= N
    requires r == RunNext(s) && k >= 1
    ensures LevelHolds(r, L, N, k)
  {
    var chosen := r.curr;
    ElectionPriorities(s);
    LinkedIsLive(s, READY_RING);
    var after, before := Urgent(r, L - k), Urgent(s, L - k + 1);
    forall t | t in after
      ensures t in before - {chosen}
    {
      ElectedPriority(s, t);
    }
    CountAtMost(after, before - {chosen});
    ChosenLeavesLevel(s, L, N, k);
  }

  lemma ChosenLeavesLevel<T>(s: State<T>, L: int, N: nat, k: nat)
    requires Fair(s, L, N) && s.rings[READY_RING] != [] && |s.rings[READY_RING]| <= N && k >= 1
    ensures |Urgent(s, L - k + 1) - {Choose(s.rings[READY_RING], s.tcb)}| <= Excess(N, k)
  {
    var before := Urgent(s, L - k + 1);
    if before != {} {
      var t :| t in before;
      ChosenIsLeast(s.rings[READY_RING], s.tcb, t);
      assert Choose(s.rings[READY_RING], s.tcb) in before;
      if k == 1 {
        ReadyCount(s.rings[READY_RING]);
        CountAtMost(before, ToSet(s.rings[READY_RING]));
      } else {
        assert L - k + 1 == L - (k - 1) && LevelHolds(s, L, N, k - 1);
      }
    }
  }

  lemma {:induction false} ReadyCount<T>(s: seq<T>)
    ensures |ToSet(s)| <= |s|
  {
    if s != [] {
      ReadyCount(s[..|s| - 1]);
      assert s == s[..|s| - 1] + [s[|s| - 1]];
      assert ToSet(s) == ToSet(s[..|s| - 1]) + {s[|s| - 1]};
    }
  }

  // ---------------------------------------------------------------- every kernel step is fair

  lemma {:induction false} ReleaseKeepsPrios<T>(s: State<T>, ring: nat)
    requires Shape(s) && READY_RING < ring < |s.rings|
    ensures Prios(ReleaseAll(s, ring).tcb) == Prios(s.tcb)
    decreases |s.rings[ring]|
  {
    if s.rings[ring] != [] {
      ReleaseShrinks(s, ring);
      var r := TaskResume(s, s.rings[ring][0], ring);
      assert Prios(r.tcb) == Prios(s.tcb);
      ReleaseKeepsPrios(r, ring);
    }
  }

  lemma WalkKeepsPrios<T>(s: State<T>, ring: nat, why: Reason)
    requires Shape(s) && Partition(s.rings) && READY_RING < ring < |s.rings|
    ensures Prios(WakeAll(s, ring, why, s.rings[ring]).tcb) == Prios(s.tcb)
  {
    var walk := s.rings[ring];
    assert walk[..|walk|] == walk;
    WakePrefix(s, ring, why, |walk|);
  }

  lemma RecordKeepsPrios<T>(tcb: map<T, Tcb>, t: T, p: Tcb)
    requires t in tcb
    requires p.dynamicPriority == tcb[t].dynamicPriority && p.staticPriority == tcb[t].staticPriority
    ensures Prios(tcb[t := p]) == Prios(tcb)
  {}

  lemma SuspendKeepsPrios<T>(s: State<T>, ring: nat)
    requires Shape(s) && ring < |s.rings|
    ensures Prios(TaskSuspend(s, ring).tcb) == Prios(s.tcb)
  {}

  lemma DownKeepsPrios<T>(s: State<T>, k: nat)
    requires Shape(s) && k < |s.sems|
    ensures Prios(SemDown(s, k).tcb) == Prios(s.tcb)
  {
    SuspendKeepsPrios(SetSem(s, k, Sem(s.sems[k].value - 1, true)), FIRST_SEM_RING + k);
  }

  lemma UpKeepsPrios<T>(s: State<T>, k: nat)
    requires Shape(s) && k < |s.sems|
    ensures Prios(SemUp(s, k).tcb) == Prios(s.tcb)
  {
    var queue := s.rings[FIRST_SEM_RING + k];
    if queue != [] {
      RecordKeepsPrios(s.tcb, queue[0], s.tcb[queue[0]].(status := Ready));
    }
  }

  lemma DestroyKeepsPrios<T>(s: State<T>, k: nat)
    requires Shape(s) && k < |s.sems|
    ensures Prios(SemDestroy(s, k).tcb) == Prios(s.tcb)
  {
    ReleaseKeepsPrios(SetSem(s, k, s.sems[k].(active := false)), FIRST_SEM_RING + k);
  }

  lemma StepKeepsPrios<T>(s: State<T>, a: Action<T>)
    requires Inv(s) && Legal(s, a) && !a.Init? && !a.Prio? && !a.Schedule?
    ensures Prios(Next(s, a).tcb) == Prios(s.tcb)
  {
    match a
    case Exit(code) =>
      RecordKeepsPrios(s.tcb, s.curr, Exiting(s, code).tcb[s.curr]);
      WalkKeepsPrios(Exiting(s, code), SUSPENDED_RING, Exited(s.tcb[s.curr].id));
    case Destroy(k) => DestroyKeepsPrios(s, k);
    case Down(k) => DownKeepsPrios(s, k);
    case Up(k) => UpKeepsPrios(s, k);
    case Timer =>
      RecordKeepsPrios(s.tcb, s.curr, CountTick(s).tcb[s.curr]);
      SwitchKeepsPrios(CountTick(s), s.dispatcher);
    case Yield => SwitchKeepsPrios(s, s.dispatcher);
    case Wait(target) =>
      var s1 := SetWaiting(s, s.tcb[target].id);
      RecordKeepsPrios(s.tcb, s.curr, s1.tcb[s.curr]);
      SuspendKeepsPrios(s1, SUSPENDED_RING);
    case Sleep(d) =>
      RecordKeepsPrios(s.tcb, s.curr, SetAlarm(s, d).tcb[s.curr]);
      SuspendKeepsPrios(SetAlarm(s, d), SLEEPING_RING);
    case DiskSuspend => SuspendKeepsPrios(s, DISK_RING);
    case DiskResume(t) => RecordKeepsPrios(s.tcb, t, s.tcb[t].(status := Ready));
    case NewSem(_) =>
  }

  /** Who is ready: only the running task is ever taken out of the ready ring. */
  ghost predicate ReadyStay<T>(s: State<T>, r: State<T>)
    requires Shape(s) && Shape(r)
  {
    && (forall t :: t in s.rings[READY_RING] && t != s.curr ==> t in r.rings[READY_RING])
    && (r.curr == s.curr || r.curr == s.dispatcher)
  }

  lemma SuspendReady<T>(s: State<T>, ring: nat)
    requires Inv(s) && s.curr != s.dispatcher && READY_RING < ring < |s.rings|
    ensures ReadyStay(s, TaskSuspend(s, ring))
  {
    assert Linked(s.rings, s.curr);
    MoveIsSteady(s, READY_RING, ring, s.curr);
  }

  lemma DownReady<T>(s: State<T>, k: nat)
    requires Inv(s) && s.curr != s.dispatcher && k < |s.sems|
    ensures ReadyStay(s, SemDown(s, k))
  {
    var down := SetSem(s, k, Sem(s.sems[k].value - 1, true));
    SetSemKeepsInv(s, k, down.sems[k]);
    SuspendReady(down, FIRST_SEM_RING + k);
  }

  lemma UpReady<T>(s: State<T>, k: nat)
    requires Inv(s) && s.curr != s.dispatcher && k < |s.sems|
    ensures ReadyStay(s, SemUp(s, k))
  {
    UpOnSem(s, k);
  }

  lemma DestroyReady<T>(s: State<T>, k: nat)
    requires Inv(s) && s.curr != s.dispatcher && k < |s.sems|
    ensures ReadyStay(s, SemDestroy(s, k))
  {
    DestroyOnSem(s, k);
    var gone := SetSem(s, k, s.sems[k].(active := false));
    LinkedIsLive(s, FIRST_SEM_RING + k);
    ReleaseAllIsCalm(gone, FIRST_SEM_RING + k);
  }

  lemma StepReady<T>(s: State<T>, a: Action<T>)
    requires Inv(s) && Legal(s, a) && !a.Schedule?
    ensures ReadyStay(s, Next(s, a))
  {
    match a
    case Exit(code) =>
      ExitWalk(s, code);
      RemoveKeepsPartition(Announced(s, code).rings, READY_RING, s.curr);
    case Destroy(k) => DestroyReady(s, k);
    case Down(k) => DownReady(s, k);
    case Up(k) => UpReady(s, k);
    case Wait(target) =>
      if s.tcb[target].status != Terminated {
        var s1 := SetWaiting(s, s.tcb[target].id);
        RecordIsSteady(s, s.curr, s1.tcb[s.curr]);
        SuspendRings(s, s1, SUSPENDED_RING);
      }
    case Sleep(d) => SuspendRings(s, SetAlarm(s, d), SLEEPING_RING);
    case DiskSuspend => SuspendReady(s, DISK_RING);
    case DiskResume(t) =>
      assert t in s.rings[DISK_RING] ==> Linked(s.rings, t);
      ResumeIsCalm(s, t, DISK_RING);
    case Init(_) =>
    case Timer =>
    case Yield =>
    case Prio(_, _) =>
    case NewSem(_) =>
  }

  lemma SuspendRings<T>(s: State<T>, s1: State<T>, ring: nat)
    requires Inv(s) && s.curr != s.dispatcher && READY_RING < ring < |s.rings|
    requires Shape(s1) && s1 == s.(tcb := s1.tcb)
    ensures ReadyStay(s, TaskSuspend(s1, ring))
  {
    SuspendReady(s, ring);
  }

  lemma RestfulFrom<T>(s: State<T>, r: State<T>)
    requires Inv(s) && Inv(r) && r.dispatcher == s.dispatcher && ReadyStay(s, r)
    requires Prios(r.tcb) == Prios(s.tcb)
    requires forall t :: t in s.tcb && t in r.tcb && Live(r, t) ==> Live(s, t)
    ensures Restful(s, r)
  {
    assert r.tcb.Keys == Prios(r.tcb).Keys == s.tcb.Keys;
    forall t | t in s.tcb
      ensures r.tcb[t].dynamicPriority == s.tcb[t].dynamicPriority
      ensures r.tcb[t].staticPriority == s.tcb[t].staticPriority
    {
      assert Prios(r.tcb)[t] == Prios(s.tcb)[t];
    }
    LinkedIsLive(r, READY_RING);
  }

  lemma NobodyRises<T>(s: State<T>, a: Action<T>)
    requires Inv(s) && Legal(s, a)
    ensures Next(s, a).dispatcher == s.dispatcher
    ensures forall t :: t in s.tcb && t in Next(s, a).tcb && Live(Next(s, a), t) ==> Live(s, t)
  {
    var r := Next(s, a);
    StepIsSteady(s, a, s.dispatcher);
    forall t | t in s.tcb && t in r.tcb && Live(r, t)
      ensures Live(s, t)
    {
      StepIsSteady(s, a, t);
      if a.Exit? && s.curr == t {
        assert Linked(s.rings, t);
      }
    }
  }

  lemma StepIsRestful<T>(s: State<T>, a: Action<T>)
    requires Inv(s) && Legal(s, a) && !a.Init? && !a.Prio? && !a.Schedule?
    ensures Restful(s, Next(s, a))
  {
    var r := Next(s, a);
    StepKeepsInv(s, a);
    StepKeepsPrios(s, a);
    StepReady(s, a);
    NobodyRises(s, a);
    RestfulFrom(s, r);
  }

  // ---------------------------------------------------------------- whole runs

  /** N bounds the ready tasks at every scheduler call, L every priority ever given. */
  ghost predicate Bounded<T>(states: seq<State<T>>, actions: seq<Action<T>>, L: int, N: nat) {
    && |states| == |actions| + 1 && L <= DEFAULT_PRIORITY && N >= 1
    && (forall i :: 0 <= i < |actions| && actions[i].Prio? ==> actions[i].prio >= L)
    && (forall i :: 0 <= i < |actions| && actions[i].Schedule? && Shape(states[i]) ==>
          |WakeTasks(states[i]).rings[READY_RING]| <= N)
  }

  lemma BootIsFair<T>(s: State<T>, main: T, L: int, N: nat)
    requires Boots(s, main) && L <= DEFAULT_PRIORITY && N >= 1
    ensures Fair(s, L, N)
  {
    BootInv(s, main);
    forall k: nat | k >= 1
      ensures LevelHolds(s, L, N, k)
    {
      assert Urgent(s, L - k) == {};
    }
  }

  lemma WakingIsRestful<T>(s: State<T>)
    requires Inv(s)
    ensures Inv(WakeTasks(s)) && Restful(s, WakeTasks(s))
  {
    WakingKeepsInv(s);
    WakingMovesSleepers(s);
    WalkKeepsPrios(s, SLEEPING_RING, Alarm(s.clock));
    RestfulFrom(s, WakeTasks(s));
  }

  lemma ScheduleKeepsFair<T>(s: State<T>, L: int, N: nat)
    requires Fair(s, L, N) && Legal(s, Schedule) && |WakeTasks(s).rings[READY_RING]| <= N
    ensures Fair(Dispatch(s), L, N)
  {
    WakingIsRestful(s);
    RestfulKeepsFair(s, WakeTasks(s), L, N);
    if WakeTasks(s).rings[READY_RING] != [] {
      ElectionKeepsFair(WakeTasks(s), L, N);
    }
  }

  lemma InitKeepsFair<T>(s: State<T>, t: T, L: int, N: nat)
    requires Fair(s, L, N) && Legal(s, Init(t)) && L <= DEFAULT_PRIORITY
    ensures Fair(TaskInit(s, t), L, N)
  {
    var r := TaskInit(s, t);
    InitKeepsInv(s, t);
    assert !Linked(s.rings, t);
    forall k: nat | k >= 1
      ensures LevelHolds(r, L, N, k)
    {
      assert LevelHolds(s, L, N, k);
      CountAtMost(Urgent(r, L - k), Urgent(s, L - k));
    }
  }

  lemma PrioKeepsFair<T>(s: State<T>, t: T, prio: int, L: int, N: nat)
    requires Fair(s, L, N) && Legal(s, Prio(t, prio)) && prio >= L
    ensures Fair(SetPrio(s, t, prio), L, N)
  {
    var r := SetPrio(s, t, prio);
    StepKeepsInv(s, Prio(t, prio));
    forall k: nat | k >= 1
      ensures LevelHolds(r, L, N, k)
    {
      assert LevelHolds(s, L, N, k);
      CountAtMost(Urgent(r, L - k), Urgent(s, L - k));
    }
  }

  /** One action's share of Bounded. */
  ghost predicate WithinBounds<T>(s: State<T>, a: Action<T>, L: int, N: nat) {
    && L <= DEFAULT_PRIORITY && N >= 1
    && (a.Prio? ==> a.prio >= L)
    && (a.Schedule? && Shape(s) ==> |WakeTasks(s).rings[READY_RING]| <= N)
  }

  lemma OtherStepKeepsFair<T>(s: State<T>, a: Action<T>, L: int, N: nat)
    requires Fair(s, L, N) && Legal(s, a) && !a.Init? && !a.Prio? && !a.Schedule?
    ensures Fair(Next(s, a), L, N)
  {
    StepKeepsInv(s, a);
    StepIsRestful(s, a);
    RestfulKeepsFair(s, Next(s, a), L, N);
  }

  lemma StepKeepsFair<T>(s: State<T>, a: Action<T>, L: int, N: nat)
    requires Fair(s, L, N) && Legal(s, a) && WithinBounds(s, a, L, N)
    ensures Fair(Next(s, a), L, N)
  {
    match a
    case Init(t) => InitKeepsFair(s, t, L, N);
    case Prio(t, prio) => PrioKeepsFair(s, t, prio, L, N);
    case Schedule => ScheduleKeepsFair(s, L, N);
    case _ => OtherStepKeepsFair(s, a, L, N);
  }

  lemma RunStepIsFair<T>(states: seq<State<T>>, actions: seq<Action<T>>, L: int, N: nat, i: nat)
    requires IsRun(states, actions) && Bounded(states, actions, L, N) && i < |actions| && Fair(states[i], L, N)
    ensures Fair(states[i + 1], L, N)
  {
    assert WithinBounds(states[i], actions[i], L, N);
    StepKeepsFair(states[i], actions[i], L, N);
  }

  lemma {:induction false} RunIsFair<T>(states: seq<State<T>>, actions: seq<Action<T>>, main: T, L: int, N: nat, i: nat)
    requires IsRun(states, actions) && Boots(states[0], main) && Bounded(states, actions, L, N) && i < |states|
    ensures Fair(states[i], L, N)
    decreases i
  {
    if i == 0 {
      BootIsFair(states[0], main, L, N);
    } else {
      RunIsFair(states, actions, main, L, N, i - 1);
      RunStepIsFair(states, actions, L, N, i - 1);
    }
  }

  /** In a fair state nobody ready has sunk below L - N + 1. */
  lemma FairFloor<T>(s: State<T>, L: int, N: nat, t: T)
    requires Fair(s, L, N) && N >= 1 && t in s.rings[READY_RING] && t in s.tcb
    ensures s.tcb[t].dynamicPriority >= L - N + 1
  {
    assert LevelHolds(s, L, N, N);
    assert Urgent(s, L - N) == {};
    assert t !in Urgent(s, L - N);
  }

  /** No dynamic priority ever sinks below L - N + 1. */
  lemma PriorityFloor<T>(states: seq<State<T>>, actions: seq<Action<T>>, main: T, L: int, N: nat, i: nat, t: T)
    requires IsRun(states, actions) && Boots(states[0], main) && Bounded(states, actions, L, N) && i < |states|
    requires InRing(states[i], READY_RING, t) && t in states[i].tcb
    ensures states[i].tcb[t].dynamicPriority >= L - N + 1
  {
    RunIsFair(states, actions, main, L, N, i);
    FairFloor(states[i], L, N, t);
  }

  function Calls<T>(actions: seq<Action<T>>, i: nat, j: nat): nat
    requires i <= j <= |actions|
  {
    if i == j then 0 else Calls(actions, i, j - 1) + (if actions[j - 1].Schedule? then 1 else 0)
  }

  /** From step i to step j task t is ready throughout, is not given a priority, and is never chosen. */
  ghost predicate PassedOver<T>(states: seq<State<T>>, actions: seq<Action<T>>, t: T, i: nat, j: nat) {
    && i <= j <= |actions| && |states| == |actions| + 1
    && (forall p :: i <= p <= j ==> InRing(states[p], READY_RING, t) && t in states[p].tcb)
    && (forall p :: i <= p < j ==> !(actions[p].Prio? && actions[p].t == t))
    && (forall p :: i <= p < j && actions[p].Schedule? ==> states[p + 1].curr != t)
  }

  lemma StepAges<T>(s: State<T>, a: Action<T>, t: T)
    requires Inv(s) && Legal(s, a) && t in s.rings[READY_RING] && t in s.tcb && t in Next(s, a).tcb
    requires !(a.Prio? && a.t == t) && (a.Schedule? ==> Next(s, a).curr != t)
    ensures Next(s, a).tcb[t].dynamicPriority == s.tcb[t].dynamicPriority + (if a.Schedule? then ALPHA else 0)
  {
    if a.Schedule? {
      WakingIsRestful(s);
      WakingMovesSleepers(s);
      assert t in WakeTasks(s).rings[READY_RING];
      ElectedPriority(WakeTasks(s), t);
    } else if !a.Init? && !a.Prio? {
      StepIsRestful(s, a);
    }
  }

  lemma {:induction false} PassedOverAges<T>(states: seq<State<T>>, actions: seq<Action<T>>, main: T, t: T, i: nat, j: nat)
    requires IsRun(states, actions) && Boots(states[0], main) && PassedOver(states, actions, t, i, j)
    ensures states[j].tcb[t].dynamicPriority == states[i].tcb[t].dynamicPriority - Calls(actions, i, j)
  {
    if i < j {
      var s, a := states[j - 1], actions[j - 1];
      assert PassedOver(states, actions, t, i, j - 1);
      PassedOverAges(states, actions, main, t, i, j - 1);
      RunKeepsInv(states, actions, main, j - 1);
      assert InRing(s, READY_RING, t) && t in s.tcb && t in states[j].tcb;
      assert Legal(s, a) && states[j] == Next(s, a);
      StepAges(s, a, t);
    }
  }

  /**
   * A ready task of priority d is chosen within d - L + N scheduler calls: it is passed over
   * at most d - L + N - 1 times, whoever else arrives, leaves or is given another priority.
   */
  lemma NoStarvation<T>(states: seq<State<T>>, actions: seq<Action<T>>, main: T, L: int, N: nat, t: T, i: nat, j: nat)
    requires IsRun(states, actions) && Boots(states[0], main) && Bounded(states, actions, L, N)
    requires PassedOver(states, actions, t, i, j)
    ensures Calls(actions, i, j) <= states[i].tcb[t].dynamicPriority - L + N - 1
  {
    PassedOverAges(states, actions, main, t, i, j);
    PriorityFloor(states, actions, main, L, N, j, t);
  }
}
