/** Main results about the kernel: the task census, joining and sleeping over whole runs. */
module KernelTheorems {
  import opened Sequences
  import opened KernelSpec
  import opened KernelRings
  import opened KernelRuns

  // ---------------------------------------------------------------- the census

  function LiveTasks<T(==)>(s: State<T>): set<T> {
    set t | t in s.tcb && t != s.dispatcher && s.tcb[t].status != Terminated
  }

  function ToSet<T(==)>(s: seq<T>): set<T> {
    set t | t in s
  }

  ghost function Members<T>(rings: seq<seq<T>>): set<T> {
    if rings == [] then {}
    else Members(rings[..|rings| - 1]) + ToSet(rings[|rings| - 1])
  }

  lemma CountAtMost<T>(a: set<T>, b: set<T>)
    requires a <= b
    ensures |a| <= |b|
  {
    assert b == a + (b - a);
  }

  lemma {:induction false} SetOfDistinct<T>(s: seq<T>)
    requires NoDuplicates(s)
    ensures |ToSet(s)| == |s|
  {
    if s != [] {
      var n := |s| - 1;
      PairwiseDistinct(s);
      PairwiseDistinct(s[..n]);
      SetOfDistinct(s[..n]);
      assert s == s[..n] + [s[n]];
      assert ToSet(s) == ToSet(s[..n]) + {s[n]};
    }
  }

  lemma {:induction false} MembersCounted<T>(rings: seq<seq<T>>)
    requires Partition(rings)
    ensures |Members(rings)| == TotalSize(rings)
    ensures forall t :: t in Members(rings) <==> Linked(rings, t)
  {
    if rings != [] {
      var n := |rings| - 1;
      var front, last := rings[..n], rings[n];
      assert Partition(front);
      MembersCounted(front);
      SetOfDistinct(last);
      forall t
        ensures t in Members(rings) <==> Linked(rings, t)
      {
        if Linked(rings, t) {
          var r :| 0 <= r < |rings| && t in rings[r];
          assert r < n ==> t in front[r];
        }
      }
      assert Members(front) !! ToSet(last);
    }
  }

  /** user_tasks_num is the number of live tasks other than the disk driver. */
  lemma UserTasksExact<T>(s: State<T>)
    requires Inv(s)
    ensures s.userTasks == |LiveTasks(s) - {s.driver}|
  {
    MembersCounted(s.rings);
    assert Members(s.rings) == LiveTasks(s) by {
      forall t | t in Members(s.rings)
        ensures t in LiveTasks(s)
      {
        assert Linked(s.rings, t);
      }
    }
    if s.driver in s.tcb {
      assert s.driver in LiveTasks(s);
    }
  }

  /** The dispatcher loop goes on exactly as long as some user task has not terminated. */
  lemma LoopEndsWithLastTask<T>(states: seq<State<T>>, actions: seq<Action<T>>, main: T, i: nat)
    requires IsRun(states, actions) && Boots(states[0], main) && i < |states|
    ensures var s := states[i];
            s.userTasks > 0 <==> exists t :: t in s.tcb && Live(s, t) && t != s.driver
  {
    RunKeepsInv(states, actions, main, i);
    var s := states[i];
    UserTasksExact(s);
    if s.userTasks > 0 {
      var t :| t in LiveTasks(s) - {s.driver};
      assert t in s.tcb && Live(s, t) && t != s.driver;
    }
    forall t | t in s.tcb && Live(s, t) && t != s.driver
      ensures s.userTasks > 0
    {
      assert {t} <= LiveTasks(s) - {s.driver};
      CountAtMost({t}, LiveTasks(s) - {s.driver});
    }
  }

  /** Each live task is in exactly one ring; the dispatcher and the dead are in none. */
  lemma OneRingEach<T>(states: seq<State<T>>, actions: seq<Action<T>>, main: T, i: nat, t: T)
    requires IsRun(states, actions) && Boots(states[0], main) && i < |states| && t in states[i].tcb
    ensures var s := states[i];
            && (Live(s, t) <==> exists r :: 0 <= r < |s.rings| && t in s.rings[r])
            && (forall r, q, a, b ::
                  (0 <= r < |s.rings| && 0 <= a < |s.rings[r]| && s.rings[r][a] == t) ==>
                  (0 <= q < |s.rings| && 0 <= b < |s.rings[q]| && s.rings[q][b] == t) ==>
                  r == q && a == b)
  {
    RunKeepsInv(states, actions, main, i);
    var s := states[i];
    forall r, q, a, b | 0 <= r < |s.rings| && 0 <= q < |s.rings| &&
        0 <= a < |s.rings[r]| && 0 <= b < |s.rings[q]| && s.rings[r][a] == t && s.rings[q][b] == t
      ensures r == q && a == b
    {
      assert Position(s.rings[r], t) == a && Position(s.rings[q], t) == b;
    }
  }

  // ---------------------------------------------------------------- who touches which ring

  /** Nobody's record says that it waits for something else than before. */
  ghost predicate SameWaits<T>(s: State<T>, r: State<T>) {
    forall t :: t in s.tcb ==>
      && t in r.tcb
      && r.tcb[t].waitingTask == s.tcb[t].waitingTask && r.tcb[t].wakeUpTime == s.tcb[t].wakeUpTime
  }

  /** Joiners and sleepers keep their ring, in order, and what they wait for. */
  ghost predicate WaitersStay<T>(s: State<T>, r: State<T>) {
    && Shape(s) && Shape(r)
    && r.rings[SUSPENDED_RING] == s.rings[SUSPENDED_RING]
    && r.rings[SLEEPING_RING] == s.rings[SLEEPING_RING]
    && SameWaits(s, r)
  }

  lemma SuspendLeavesWaiters<T>(s: State<T>, ring: nat)
    requires Shape(s) && SLEEPING_RING < ring < |s.rings|
    ensures WaitersStay(s, TaskSuspend(s, ring))
  {}

  lemma ResumeLeavesWaiters<T>(s: State<T>, t: T, ring: nat)
    requires Shape(s) && SLEEPING_RING < ring < |s.rings| && t in s.tcb
    ensures WaitersStay(s, TaskResume(s, t, ring))
  {}

  lemma {:induction false} ReleaseLeavesWaiters<T>(s: State<T>, ring: nat)
    requires Shape(s) && SLEEPING_RING < ring < |s.rings|
    ensures WaitersStay(s, ReleaseAll(s, ring))
    decreases |s.rings[ring]|
  {
    if s.rings[ring] != [] {
      ReleaseShrinks(s, ring);
      ReleaseLeavesWaiters(TaskResume(s, s.rings[ring][0], ring), ring);
    }
  }

  lemma DownLeavesWaiters<T>(s: State<T>, k: nat)
    requires Shape(s) && k < |s.sems|
    ensures WaitersStay(s, SemDown(s, k))
  {
    var s1 := SetSem(s, k, Sem(s.sems[k].value - 1, true));
    assert WaitersStay(s, s1);
    SuspendLeavesWaiters(s1, FIRST_SEM_RING + k);
  }

  lemma UpLeavesWaiters<T>(s: State<T>, k: nat)
    requires Shape(s) && k < |s.sems|
    ensures WaitersStay(s, SemUp(s, k))
  {
    var s1 := SetSem(s, k, Sem(s.sems[k].value + 1, true));
    assert WaitersStay(s, s1);
    if s.rings[FIRST_SEM_RING + k] != [] {
      ResumeLeavesWaiters(s1, s.rings[FIRST_SEM_RING + k][0], FIRST_SEM_RING + k);
    }
  }

  lemma DestroyLeavesWaiters<T>(s: State<T>, k: nat)
    requires Shape(s) && k < |s.sems|
    ensures WaitersStay(s, SemDestroy(s, k))
  {
    var s1 := SetSem(s, k, s.sems[k].(active := false));
    assert WaitersStay(s, s1);
    ReleaseLeavesWaiters(s1, FIRST_SEM_RING + k);
  }

  lemma YieldLeavesWaiters<T>(s: State<T>)
    requires Shape(s)
    ensures WaitersStay(s, TaskYield(s))
  {}

  lemma TickLeavesWaiters<T>(s: State<T>)
    requires Shape(s)
    ensures WaitersStay(s, Tick(s))
  {
    assert WaitersStay(s, CountTick(s));
    YieldLeavesWaiters(CountTick(s));
  }

  /** Only task_wait, task_sleep, task_exit and the dispatcher move joiners or sleepers. */
  lemma OthersLeaveWaiters<T>(s: State<T>, a: Action<T>)
    requires Inv(s) && Legal(s, a) && !a.Wait? && !a.Sleep? && !a.Exit? && !a.Schedule?
    ensures WaitersStay(s, Next(s, a))
  {
    match a
    case Down(k) => DownLeavesWaiters(s, k);
    case Up(k) => UpLeavesWaiters(s, k);
    case Destroy(k) => DestroyLeavesWaiters(s, k);
    case Init(t) => assert !Linked(s.rings, t);
    case NewSem(_) =>
    case Prio(_, _) =>
    case Yield => YieldLeavesWaiters(s);
    case Timer => TickLeavesWaiters(s);
    case DiskSuspend => SuspendLeavesWaiters(s, DISK_RING);
    case DiskResume(t) => ResumeLeavesWaiters(s, t, DISK_RING);
  }

  lemma WakingMovesSleepers<T>(s: State<T>)
    requires Inv(s)
    ensures var r := WakeTasks(s);
            && r.rings == s.rings[SLEEPING_RING := Kept(s.rings[SLEEPING_RING], s.tcb, Alarm(s.clock))]
                                 [READY_RING := s.rings[READY_RING] + Taken(s.rings[SLEEPING_RING], s.tcb, Alarm(s.clock))]
            && r.clock == s.clock && SameWaits(s, r)
  {
    var walk := s.rings[SLEEPING_RING];
    LinkedIsLive(s, SLEEPING_RING);
    WalkIsCalm(s, SLEEPING_RING, Alarm(s.clock));
    assert walk[..|walk|] == walk;
    WakePrefix(s, SLEEPING_RING, Alarm(s.clock), |walk|);
  }

  lemma RunNextLeavesWaiters<T>(s: State<T>)
    requires Shape(s) && s.rings[READY_RING] != []
    ensures RunNext(s).rings == s.rings && RunNext(s).clock == s.clock && SameWaits(s, RunNext(s))
  {
    var next := Choose(s.rings[READY_RING], s.tcb);
    var s1 := s.(tcb := Scheduled(s.rings[READY_RING], s.tcb));
    assert SameWaits(s, s1);
    var s2 := Activated(s1, next);
    assert SameWaits(s1, s2);
    assert SameWaits(s2, TaskSwitch(s2, next));
  }

  /** The dispatcher readies exactly the sleepers that are due, in order, behind the tasks already ready. */
  lemma ScheduleMovesSleepers<T>(s: State<T>)
    requires Inv(s)
    ensures var r := Dispatch(s);
            && r.rings == s.rings[SLEEPING_RING := Kept(s.rings[SLEEPING_RING], s.tcb, Alarm(s.clock))]
                                 [READY_RING := s.rings[READY_RING] + Taken(s.rings[SLEEPING_RING], s.tcb, Alarm(s.clock))]
            && r.clock == s.clock && SameWaits(s, r)
  {
    WakingMovesSleepers(s);
    var s1 := WakeTasks(s);
    if s1.rings[READY_RING] != [] {
      RunNextLeavesWaiters(s1);
    }
  }

  // ---------------------------------------------------------------- joining

  /** While its target lives a joiner stays; the target's exit, and nothing else, readies it. */
  lemma JoinStep<T>(s: State<T>, a: Action<T>, t: T, u: T)
    requires Inv(s) && Legal(s, a)
    requires t in s.rings[SUSPENDED_RING] && u in s.tcb && Live(s, u) && s.tcb[t].waitingTask == s.tcb[u].id
    ensures var r := Next(s, a);
            if a.Exit? && s.curr == u then
              && t in r.rings[READY_RING] && t !in r.rings[SUSPENDED_RING]
              && r.tcb[u].status == Terminated && r.tcb[u].exitCode == a.code
            else
              t in r.rings[SUSPENDED_RING] && Live(r, u) && r.tcb[t].waitingTask == r.tcb[u].id
  {
    var r := Next(s, a);
    StepKeepsInv(s, a);
    assert Linked(s.rings, t);
    if a.Exit? {
      ExitJoins(s, a.code, t, u);
    } else {
      StepIsSteady(s, a, u);
      JoinersStay(s, a, t);
    }
  }

  lemma JoinersStay<T>(s: State<T>, a: Action<T>, t: T)
    requires Inv(s) && Legal(s, a) && !a.Exit? && t in s.rings[SUSPENDED_RING]
    ensures t in Next(s, a).rings[SUSPENDED_RING] && Next(s, a).tcb[t].waitingTask == s.tcb[t].waitingTask
  {
    assert t != s.curr by { assert Linked(s.rings, t); }
    if a.Schedule? {
      ScheduleMovesSleepers(s);
    } else if !a.Wait? && !a.Sleep? {
      OthersLeaveWaiters(s, a);
    }
  }

  lemma AnnounceMovesJoiner<T>(s: State<T>, code: int, t: T)
    requires Inv(s) && s.curr != s.dispatcher && t in s.rings[SUSPENDED_RING]
    ensures var r := Announced(s, code);
            if s.tcb[t].waitingTask == s.tcb[s.curr].id
            then t in r.rings[READY_RING] && t !in r.rings[SUSPENDED_RING]
            else t in r.rings[SUSPENDED_RING]
    ensures Partition(Announced(s, code).rings)
  {
    ExitWalk(s, code);
    assert s.curr !in s.rings[SUSPENDED_RING];
    StablePartition(s.rings[SUSPENDED_RING], Exiting(s, code).tcb, Exited(s.tcb[s.curr].id));
  }

  lemma ExitMovesJoiner<T>(s: State<T>, code: int, t: T)
    requires Inv(s) && Legal(s, Exit(code)) && t in s.rings[SUSPENDED_RING]
    ensures var r := TaskExit(s, code);
            if s.tcb[t].waitingTask == s.tcb[s.curr].id
            then t in r.rings[READY_RING] && t !in r.rings[SUSPENDED_RING]
            else t in r.rings[SUSPENDED_RING]
  {
    AnnounceMovesJoiner(s, code, t);
    ExitWalk(s, code);
    RemoveKeepsPartition(Announced(s, code).rings, READY_RING, s.curr);
    assert t != s.curr;
  }

  lemma ExitRecords<T>(s: State<T>, code: int)
    requires Inv(s) && Legal(s, Exit(code))
    ensures var r := TaskExit(s, code);
            && r.tcb.Keys == s.tcb.Keys && r.dispatcher == s.dispatcher
            && r.tcb[s.curr].status == Terminated && r.tcb[s.curr].exitCode == code
            && (forall u :: u in s.tcb ==> r.tcb[u].id == s.tcb[u].id)
            && (forall u :: u in s.tcb && u != s.curr ==> (r.tcb[u].status == Terminated <==> s.tcb[u].status == Terminated))
            && (forall t :: t in r.rings[SUSPENDED_RING] ==> r.tcb[t].waitingTask == s.tcb[t].waitingTask)
  {
    ExitWalk(s, code);
    assert s.curr !in s.rings[SUSPENDED_RING];
  }

  lemma ExitJoins<T>(s: State<T>, code: int, t: T, u: T)
    requires Inv(s) && Legal(s, Exit(code))
    requires t in s.rings[SUSPENDED_RING] && u in s.tcb && Live(s, u) && s.tcb[t].waitingTask == s.tcb[u].id
    ensures var r := TaskExit(s, code);
            if s.curr == u then
              && t in r.rings[READY_RING] && t !in r.rings[SUSPENDED_RING]
              && r.tcb[u].status == Terminated && r.tcb[u].exitCode == code
            else
              t in r.rings[SUSPENDED_RING] && Live(r, u) && r.tcb[t].waitingTask == r.tcb[u].id
  {
    assert t != s.curr;
    ExitMovesJoiner(s, code, t);
    ExitRecords(s, code);
  }

  /** A step of any kind other than its own exit leaves a live task alive. */
  lemma StepIsSteady<T>(s: State<T>, a: Action<T>, u: T)
    requires Inv(s) && Legal(s, a) && u in s.tcb
    ensures var r := Next(s, a);
            && u in r.tcb && r.tcb[u].id == s.tcb[u].id && r.dispatcher == s.dispatcher && r.driver == s.driver
            && (!(a.Exit? && s.curr == u) ==>
                  (r.tcb[u].status == Terminated <==> s.tcb[u].status == Terminated) &&
                  r.tcb[u].exitCode == s.tcb[u].exitCode)
  {
    match a
    case Init(_) =>
    case Yield => YieldKeepsInv(s);
    case Wait(target) => WaitKeepsInv(s, target);
    case Sleep(d) => SleepKeepsInv(s, d);
    case Exit(code) => ExitWalk(s, code);
    case NewSem(value) =>
    case Down(k) => DownKeepsInv(s, k);
    case Up(k) => UpKeepsInv(s, k);
    case Destroy(k) => DestroyKeepsInv(s, k);
    case Prio(_, _) =>
    case Timer => TickKeepsInv(s);
    case Schedule => ScheduleKeepsInv(s);
    case DiskSuspend => SuspendKeepsInv(s, DISK_RING);
    case DiskResume(t) =>
      assert t in s.rings[DISK_RING] ==> Linked(s.rings, t);
      ResumeKeepsInv(s, t, DISK_RING);
  }

  ghost predicate InRing<T>(s: State<T>, r: nat, t: T) {
    r < |s.rings| && t in s.rings[r]
  }

  ghost predicate Joining<T>(s: State<T>, t: T, u: T) {
    && Shape(s) && t in s.rings[SUSPENDED_RING] && u in s.tcb && Live(s, u)
    && s.tcb[t].waitingTask == s.tcb[u].id
  }

  /** Task u exited in step m, with the code its descriptor holds in state s. */
  ghost predicate ExitedAt<T>(states: seq<State<T>>, actions: seq<Action<T>>, m: nat, u: T, s: State<T>) {
    && m < |actions| && m < |states| && actions[m].Exit? && states[m].curr == u
    && u in s.tcb && s.tcb[u].status == Terminated && s.tcb[u].exitCode == actions[m].code
  }

  lemma WaitBlocks<T>(s: State<T>, u: T)
    requires Inv(s) && Legal(s, Wait(u)) && s.tcb[u].status != Terminated
    ensures Joining(TaskWait(s, u), s.curr, u) && TaskWait(s, u).curr == s.dispatcher
  {
    WaitKeepsInv(s, u);
    var s1 := SetWaiting(s, s.tcb[u].id);
    assert Linked(s.rings, s.curr);
    MovedMember(s1.rings, READY_RING, SUSPENDED_RING, s.curr, SUSPENDED_RING, s.curr);
  }

  /** t still joins u in state j, or u has exited since step i. */
  ghost predicate JoinsOrSawExit<T>(states: seq<State<T>>, actions: seq<Action<T>>, i: nat, j: nat, t: T, u: T) {
    j < |states| && (Joining(states[j], t, u) || exists m :: i < m < j && ExitedAt(states, actions, m, u, states[j]))
  }

  lemma RunStartsJoin<T>(states: seq<State<T>>, actions: seq<Action<T>>, main: T, i: nat, u: T)
    requires IsRun(states, actions) && Boots(states[0], main) && i < |actions|
    requires actions[i] == Wait(u) && states[i].tcb[u].status != Terminated
    ensures JoinsOrSawExit(states, actions, i, i + 1, states[i].curr, u)
  {
    RunKeepsInv(states, actions, main, i);
    WaitBlocks(states[i], u);
  }

  lemma RunGoesOnJoining<T>(states: seq<State<T>>, actions: seq<Action<T>>, main: T, i: nat, j: nat, t: T, u: T)
    requires IsRun(states, actions) && Boots(states[0], main) && i < j < |actions|
    requires JoinsOrSawExit(states, actions, i, j, t, u)
    ensures JoinsOrSawExit(states, actions, i, j + 1, t, u)
  {
    RunKeepsInv(states, actions, main, j);
    var s, a := states[j], actions[j];
    if Joining(s, t, u) {
      JoinStep(s, a, t, u);
      if a.Exit? && s.curr == u {
        assert ExitedAt(states, actions, j, u, states[j + 1]);
      }
    } else {
      var m :| i < m < j && ExitedAt(states, actions, m, u, s);
      CurrIsLive(s);
      StepIsSteady(s, a, u);
      assert ExitedAt(states, actions, m, u, states[j + 1]);
    }
  }

  lemma {:induction false} JoinRun<T>(states: seq<State<T>>, actions: seq<Action<T>>, main: T, i: nat, j: nat, u: T)
    requires IsRun(states, actions) && Boots(states[0], main) && i < j < |states|
    requires actions[i] == Wait(u) && states[i].tcb[u].status != Terminated
    ensures JoinsOrSawExit(states, actions, i, j, states[i].curr, u)
    decreases j
  {
    if j == i + 1 {
      RunStartsJoin(states, actions, main, i, u);
    } else {
      JoinRun(states, actions, main, i, j - 1, u);
      RunGoesOnJoining(states, actions, main, i, j - 1, states[i].curr, u);
    }
  }

  /**
   * A task_wait that blocked: when the caller is out of the suspended ring again its target
   * has exited meanwhile, and the code task_wait goes on to return is the one given to task_exit.
   */
  lemma JoinNeverMissed<T>(states: seq<State<T>>, actions: seq<Action<T>>, main: T, i: nat, j: nat, u: T)
    requires IsRun(states, actions) && Boots(states[0], main) && i < j < |states|
    requires actions[i] == Wait(u) && states[i].tcb[u].status != Terminated
    ensures !InRing(states[j], SUSPENDED_RING, states[i].curr) ==>
              exists m :: i < m < j && ExitedAt(states, actions, m, u, states[j])
  {
    JoinRun(states, actions, main, i, j, u);
  }

  /** And nobody waits for the dead: in every reachable state a joiner's target is one live task. */
  lemma JoinersWaitForLiving<T>(states: seq<State<T>>, actions: seq<Action<T>>, main: T, i: nat, t: T)
    requires IsRun(states, actions) && Boots(states[0], main) && i < |states|
    requires InRing(states[i], SUSPENDED_RING, t)
    ensures exists u :: u in states[i].tcb && Joining(states[i], t, u)
    ensures forall u, v | u in states[i].tcb && v in states[i].tcb ::
              Joining(states[i], t, u) && Joining(states[i], t, v) ==> u == v
  {
    RunKeepsInv(states, actions, main, i);
    var s := states[i];
    var u :| u in s.tcb && Live(s, u) && s.tcb[u].id == s.tcb[t].waitingTask;
    assert Joining(s, t, u);
  }

  // ---------------------------------------------------------------- sleeping

  lemma SleepStep<T>(s: State<T>, a: Action<T>, t: T)
    requires Inv(s) && Legal(s, a) && t in s.rings[SLEEPING_RING]
    ensures var r := Next(s, a);
            || (t in r.rings[SLEEPING_RING] && r.tcb[t].wakeUpTime == s.tcb[t].wakeUpTime)
            || (a.Schedule? && s.tcb[t].wakeUpTime <= s.clock && t in r.rings[READY_RING])
  {
    assert Linked(s.rings, t);
    if a.Schedule? {
      ScheduleMovesSleepers(s);
      StablePartition(s.rings[SLEEPING_RING], s.tcb, Alarm(s.clock));
    } else if a.Exit? {
      ExitWalk(s, a.code);
      ExitLeavesSleepers(s, a.code, t);
    } else if !a.Wait? && !a.Sleep? {
      OthersLeaveWaiters(s, a);
    }
  }

  lemma ExitLeavesSleepers<T>(s: State<T>, code: int, t: T)
    requires Inv(s) && s.curr != s.dispatcher && t in s.rings[SLEEPING_RING]
    ensures TaskExit(s, code).rings[SLEEPING_RING] == s.rings[SLEEPING_RING]
    ensures TaskExit(s, code).tcb[t].wakeUpTime == s.tcb[t].wakeUpTime
  {
    var s1 := Exiting(s, code);
    var walk := s.rings[SUSPENDED_RING];
    ExitWalk(s, code);
    assert walk[..|walk|] == walk;
    WakePrefix(s1, SUSPENDED_RING, Exited(s.tcb[s.curr].id), |walk|);
  }

  lemma ClockStep<T>(s: State<T>, a: Action<T>)
    requires Inv(s) && Legal(s, a)
    ensures Next(s, a).clock == s.clock + (if a.Timer? then 1 else 0)
  {
    if a.Destroy? {
      ReleaseKeepsClock(SetSem(s, a.k, s.sems[a.k].(active := false)), FIRST_SEM_RING + a.k);
    }
  }

  lemma {:induction false} ReleaseKeepsClock<T>(s: State<T>, ring: nat)
    requires Shape(s) && READY_RING < ring < |s.rings|
    ensures ReleaseAll(s, ring).clock == s.clock
    decreases |s.rings[ring]|
  {
    if s.rings[ring] != [] {
      ReleaseShrinks(s, ring);
      ReleaseKeepsClock(TaskResume(s, s.rings[ring][0], ring), ring);
    }
  }

  /** Task t sleeps for that alarm, or the alarm's time has come. */
  ghost predicate SleepsUntil<T>(s: State<T>, t: T, alarm: int) {
    || (Shape(s) && t in s.rings[SLEEPING_RING] && s.tcb[t].wakeUpTime == alarm)
    || alarm <= s.clock
  }

  lemma SleepStarts<T>(s: State<T>, d: int)
    requires Inv(s) && s.curr != s.dispatcher
    ensures SleepsUntil(TaskSleep(s, d), s.curr, s.clock + d)
  {
    assert Linked(s.rings, s.curr);
    MovedMember(s.rings, READY_RING, SLEEPING_RING, s.curr, SLEEPING_RING, s.curr);
  }

  lemma SleepGoesOn<T>(s: State<T>, a: Action<T>, t: T, alarm: int)
    requires Inv(s) && Legal(s, a) && SleepsUntil(s, t, alarm)
    ensures SleepsUntil(Next(s, a), t, alarm)
  {
    ClockStep(s, a);
    if t in s.rings[SLEEPING_RING] {
      SleepStep(s, a, t);
    }
  }

  lemma RunSleeps<T>(states: seq<State<T>>, actions: seq<Action<T>>, main: T, j: nat, t: T, alarm: int)
    requires IsRun(states, actions) && Boots(states[0], main) && 0 < j < |states|
    ensures actions[j - 1].Sleep? ==> SleepsUntil(states[j], states[j - 1].curr, states[j - 1].clock + actions[j - 1].d)
    ensures SleepsUntil(states[j - 1], t, alarm) ==> SleepsUntil(states[j], t, alarm)
  {
    RunKeepsInv(states, actions, main, j - 1);
    var s, a := states[j - 1], actions[j - 1];
    if a.Sleep? {
      SleepStarts(s, a.d);
    }
    if SleepsUntil(s, t, alarm) {
      SleepGoesOn(s, a, t, alarm);
    }
  }

  lemma {:induction false} SleepRun<T>(states: seq<State<T>>, actions: seq<Action<T>>, main: T, i: nat, j: nat)
    requires IsRun(states, actions) && Boots(states[0], main) && i < j < |states| && actions[i].Sleep?
    ensures SleepsUntil(states[j], states[i].curr, states[i].clock + actions[i].d)
    decreases j
  {
    RunSleeps(states, actions, main, j, states[i].curr, states[i].clock + actions[i].d);
    if i + 1 < j {
      SleepRun(states, actions, main, i, j - 1);
    }
  }

  /** A sleeper is not made ready before its time is over. */
  lemma NobodyWakesEarly<T>(states: seq<State<T>>, actions: seq<Action<T>>, main: T, i: nat, j: nat)
    requires IsRun(states, actions) && Boots(states[0], main) && i < j < |states| && actions[i].Sleep?
    requires !InRing(states[j], SLEEPING_RING, states[i].curr)
    ensures states[j].clock >= states[i].clock + actions[i].d
  {
    SleepRun(states, actions, main, i, j);
  }

  /** Nor later than the next round of the dispatcher. */
  lemma NobodyOversleeps<T>(s: State<T>, t: T)
    requires Inv(s) && t in Dispatch(s).rings[SLEEPING_RING]
    ensures Dispatch(s).tcb[t].wakeUpTime > Dispatch(s).clock
  {
    ScheduleMovesSleepers(s);
  }

  // ---------------------------------------------------------------- time slices

  lemma {:induction false} ReleaseKeepsQuantum<T>(s: State<T>, ring: nat, t: T)
    requires Shape(s) && READY_RING < ring < |s.rings| && t in s.tcb
    ensures t in ReleaseAll(s, ring).tcb && ReleaseAll(s, ring).tcb[t].quantum == s.tcb[t].quantum
    ensures ReleaseAll(s, ring).curr == s.curr && ReleaseAll(s, ring).dispatcher == s.dispatcher
    decreases |s.rings[ring]|
  {
    if s.rings[ring] != [] {
      ReleaseShrinks(s, ring);
      ReleaseKeepsQuantum(TaskResume(s, s.rings[ring][0], ring), ring, t);
    }
  }

  /** The running task, if it is not the dispatcher, has used up less than a quantum. */
  ghost predicate InSlice<T>(s: State<T>) {
    Shape(s) && (s.curr != s.dispatcher ==> 0 <= s.tcb[s.curr].quantum < QUANTUM_LIMIT)
  }

  /** A step that leaves the processor with its holder, or takes it to the dispatcher, or gives it to somebody afresh. */
  ghost predicate Slice<T>(s: State<T>, ticks: nat, r: State<T>) {
    && Shape(s) && InSlice(r) && r.dispatcher == s.dispatcher
    && (s.curr != s.dispatcher && r.curr != s.dispatcher ==>
          r.curr == s.curr && r.tcb[r.curr].quantum == s.tcb[s.curr].quantum + ticks)
    && (s.curr == s.dispatcher && r.curr != s.dispatcher ==> r.tcb[r.curr].quantum == 0)
  }

  lemma ElectedStartsFresh<T>(s: State<T>)
    requires Shape(s) && s.curr == s.dispatcher
    ensures Slice(s, 0, Dispatch(s))
  {
    var s1 := WakeTasks(s);
    if s1.rings[READY_RING] != [] {
      var ready := s1.rings[READY_RING];
      var next := Choose(ready, s1.tcb);
      var s2 := Activated(s1.(tcb := Scheduled(ready, s1.tcb)), next);
      assert next != s.dispatcher ==> TaskSwitch(s2, next).tcb[next].quantum == 0;
    }
  }

  lemma DestroySlice<T>(s: State<T>, k: nat)
    requires InSlice(s) && k < |s.sems|
    ensures Slice(s, 0, SemDestroy(s, k))
  {
    ReleaseKeepsQuantum(SetSem(s, k, s.sems[k].(active := false)), FIRST_SEM_RING + k, s.curr);
  }

  lemma SemSlice<T>(s: State<T>, k: nat)
    requires InSlice(s) && s.curr != s.dispatcher && k < |s.sems|
    ensures Slice(s, 0, SemDown(s, k)) && Slice(s, 0, SemUp(s, k))
  {}

  lemma TickSlice<T>(s: State<T>)
    requires InSlice(s)
    ensures Slice(s, 1, Tick(s))
  {}

  lemma ExitSlice<T>(s: State<T>, code: int)
    requires Inv(s) && s.curr != s.dispatcher
    ensures Slice(s, 0, TaskExit(s, code))
  {
    ExitWalk(s, code);
    assert TaskExit(s, code).dispatcher == Announced(s, code).dispatcher == s.dispatcher;
  }

  /** While a task keeps the processor its quantum counts the ticks; whoever gets the processor starts at zero. */
  lemma SliceStep<T>(s: State<T>, a: Action<T>)
    requires Inv(s) && Legal(s, a) && InSlice(s)
    ensures Slice(s, if a.Timer? then 1 else 0, Next(s, a))
  {
    match a
    case Schedule => ElectedStartsFresh(s);
    case Destroy(k) => DestroySlice(s, k);
    case Init(_) =>
    case Yield =>
    case Wait(_) =>
    case Sleep(_) =>
    case Exit(code) => ExitSlice(s, code);
    case NewSem(_) =>
    case Down(k) => SemSlice(s, k);
    case Up(k) => SemSlice(s, k);
    case Prio(_, _) =>
    case Timer => TickSlice(s);
    case DiskSuspend =>
    case DiskResume(_) =>
  }

  function TicksBetween<T>(actions: seq<Action<T>>, i: nat, j: nat): nat
    requires i <= j <= |actions|
  {
    if i == j then 0 else TicksBetween(actions, i, j - 1) + (if actions[j - 1].Timer? then 1 else 0)
  }

  lemma RunSlice<T>(states: seq<State<T>>, actions: seq<Action<T>>, main: T, j: nat)
    requires IsRun(states, actions) && Boots(states[0], main) && 0 < j < |states| && InSlice(states[j - 1])
    ensures Slice(states[j - 1], if actions[j - 1].Timer? then 1 else 0, states[j])
  {
    RunKeepsInv(states, actions, main, j - 1);
    SliceStep(states[j - 1], actions[j - 1]);
  }

  lemma BootInSlice<T>(s: State<T>, main: T)
    requires Boots(s, main)
    ensures InSlice(s)
  {}

  lemma {:induction false} RunInSlice<T>(states: seq<State<T>>, actions: seq<Action<T>>, main: T, j: nat)
    requires IsRun(states, actions) && Boots(states[0], main) && j < |states|
    ensures InSlice(states[j])
    decreases j
  {
    if j == 0 {
      BootInSlice(states[0], main);
    } else {
      RunInSlice(states, actions, main, j - 1);
      RunSlice(states, actions, main, j);
    }
  }

  /** Task t has the processor from state i to state j. */
  ghost predicate Holds<T>(states: seq<State<T>>, t: T, i: nat, j: nat) {
    i <= j < |states| && forall p :: i <= p <= j ==> states[p].curr == t && t != states[p].dispatcher
  }

  ghost function QuantumOf<T>(s: State<T>, t: T): int {
    if t in s.tcb then s.tcb[t].quantum else 0
  }

  lemma HolderStep<T>(states: seq<State<T>>, actions: seq<Action<T>>, main: T, t: T, i: nat, j: nat, p: nat)
    requires IsRun(states, actions) && Boots(states[0], main) && Holds(states, t, i, j) && i <= p < j
    ensures QuantumOf(states[p + 1], t) == QuantumOf(states[p], t) + (if actions[p].Timer? then 1 else 0)
  {
    RunInSlice(states, actions, main, p);
    RunSlice(states, actions, main, p + 1);
    assert states[p].curr == t && states[p + 1].curr == t;
  }

  /** Task t's quantum counts the ticks of steps i, ..., j - 1. */
  ghost predicate CountsTicks<T>(states: seq<State<T>>, actions: seq<Action<T>>, t: T, i: nat, j: nat) {
    && i <= j <= |actions| < |states|
    && forall p :: i <= p < j ==> QuantumOf(states[p + 1], t) == QuantumOf(states[p], t) + (if actions[p].Timer? then 1 else 0)
  }

  lemma {:induction false} TicksAddUp<T>(states: seq<State<T>>, actions: seq<Action<T>>, t: T, i: nat, j: nat)
    requires CountsTicks(states, actions, t, i, j)
    ensures QuantumOf(states[j], t) == QuantumOf(states[i], t) + TicksBetween(actions, i, j)
    decreases j
  {
    if i < j {
      TicksAddUp(states, actions, t, i, j - 1);
      var p := j - 1;
      assert QuantumOf(states[p + 1], t) == QuantumOf(states[p], t) + (if actions[p].Timer? then 1 else 0);
    }
  }

  lemma HolderCountsTicks<T>(states: seq<State<T>>, actions: seq<Action<T>>, main: T, t: T, i: nat, j: nat)
    requires IsRun(states, actions) && Boots(states[0], main) && Holds(states, t, i, j)
    ensures QuantumOf(states[j], t) == QuantumOf(states[i], t) + TicksBetween(actions, i, j)
  {
    forall p | i <= p < j
      ensures QuantumOf(states[p + 1], t) == QuantumOf(states[p], t) + (if actions[p].Timer? then 1 else 0)
    {
      HolderStep(states, actions, main, t, i, j, p);
    }
    TicksAddUp(states, actions, t, i, j);
  }

  /** Nobody keeps the processor for a whole quantum of ticks: the tick that would complete it preempts. */
  lemma TimeSlice<T>(states: seq<State<T>>, actions: seq<Action<T>>, main: T, t: T, i: nat, j: nat)
    requires IsRun(states, actions) && Boots(states[0], main) && Holds(states, t, i, j)
    ensures TicksBetween(actions, i, j) < QUANTUM_LIMIT
  {
    HolderCountsTicks(states, actions, main, t, i, j);
    RunInSlice(states, actions, main, i);
    RunInSlice(states, actions, main, j);
    assert states[i].curr == t && states[j].curr == t;
  }
}
