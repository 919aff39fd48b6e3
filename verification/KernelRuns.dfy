/** What every step of the kernel keeps, and what follows for whole runs. */
module KernelRuns {
  import opened KernelSpec
  import opened KernelRings

  datatype Action<T> =
    | Init(t: T)
    | Yield
    | Wait(target: T)
    | Sleep(d: int)
    | Exit(code: int)
    | NewSem(value: int)
    | Down(k: nat)
    | Up(k: nat)
    | Destroy(k: nat)
    | Prio(t: T, prio: int)
    | Timer
    | Schedule
    | DiskSuspend
    | DiskResume(t: T)

  ghost predicate Live<T>(s: State<T>, t: T) {
    t in s.tcb && t != s.dispatcher && s.tcb[t].status != Terminated
  }

  /** What the kernel may assume of whoever calls it. */
  ghost predicate Legal<T>(s: State<T>, a: Action<T>) {
    && Shape(s)
    && match a
       case Timer => true
       case Schedule => s.curr == s.dispatcher && s.userTasks > 0
       case DiskResume(t) => t in s.tcb && (t == s.driver || t in s.rings[DISK_RING])
       case Init(t) => s.curr != s.dispatcher && t !in s.tcb
       case Wait(target) => s.curr != s.dispatcher && target in s.tcb && target != s.dispatcher
       case Exit(_) => s.curr != s.dispatcher && s.curr != s.driver
       case Down(k) => s.curr != s.dispatcher && k < |s.sems|
       case Up(k) => s.curr != s.dispatcher && k < |s.sems|
       case Destroy(k) => s.curr != s.dispatcher && k < |s.sems|
       case Prio(t, _) => s.curr != s.dispatcher && t in s.tcb && t != s.dispatcher
       case _ => s.curr != s.dispatcher
  }

  function Next<T(==)>(s: State<T>, a: Action<T>): (r: State<T>)
    requires Legal(s, a)
    ensures Shape(r)
  {
    match a
    case Init(t) => TaskInit(s, t)
    case Yield => TaskYield(s)
    case Wait(target) => TaskWait(s, target)
    case Sleep(d) => TaskSleep(s, d)
    case Exit(code) => TaskExit(s, code)
    case NewSem(value) => SemInit(s, value)
    case Down(k) => SemDown(s, k)
    case Up(k) => SemUp(s, k)
    case Destroy(k) => SemDestroy(s, k)
    case Prio(t, prio) => SetPrio(s, t, prio)
    case Timer => Tick(s)
    case Schedule => Dispatch(s)
    case DiskSuspend => TaskSuspend(s, DISK_RING)
    case DiskResume(t) => TaskResume(s, t, DISK_RING)
  }

  // ---------------------------------------------------------------- the invariant

  function DriverCount<T(==)>(s: State<T>): nat {
    if s.driver in s.tcb then 1 else 0
  }

  /** Exactly the live tasks are linked, in one ring each, and the counter counts them. */
  ghost predicate Census<T>(s: State<T>) {
    && Partition(s.rings)
    && (forall t :: t in s.tcb ==> (Linked(s.rings, t) <==> Live(s, t)))
    && (s.driver in s.tcb ==> Live(s, s.driver))
    && TotalSize(s.rings) == s.userTasks + DriverCount(s)
  }

  ghost predicate Ids<T>(s: State<T>)
    requires Shape(s)
  {
    && s.lastId >= 0
    && s.tcb[s.dispatcher].id == DISPATCHER_PID
    && (forall t :: t in s.tcb && t != s.dispatcher ==> 0 <= s.tcb[t].id <= s.lastId)
    && (forall t, u :: t in s.tcb && u in s.tcb && s.tcb[t].id == s.tcb[u].id ==> t == u)
  }

  /** The running task is the dispatcher or a live task of the ready ring. */
  ghost predicate Running<T>(s: State<T>)
    requires Shape(s)
  {
    && s.tcb[s.dispatcher].status != Terminated
    && (s.curr != s.dispatcher ==> s.curr in s.rings[READY_RING])
  }

  ghost predicate IdIsLive<T>(s: State<T>, id: int) {
    exists u :: u in s.tcb && Live(s, u) && s.tcb[u].id == id
  }

  /** Every joiner waits for the id of a live task. */
  ghost predicate Joins<T>(s: State<T>)
    requires Shape(s)
  {
    forall t :: t in s.rings[SUSPENDED_RING] ==> IdIsLive(s, s.tcb[t].waitingTask)
  }

  ghost predicate Inv<T>(s: State<T>) {
    Shape(s) && Census(s) && Ids(s) && Running(s) && Joins(s)
  }

  // ---------------------------------------------------------------- steady and calm steps

  /** Nobody is born, dies or is renamed; at most tasks move between rings and records change. */
  ghost predicate Steady<T>(s: State<T>, r: State<T>) {
    && Shape(s) && Shape(r)
    && r.tcb.Keys == s.tcb.Keys && r.dispatcher == s.dispatcher && r.driver == s.driver
    && r.userTasks == s.userTasks && r.lastId == s.lastId
    && (forall t :: t in s.tcb ==>
          && r.tcb[t].id == s.tcb[t].id && r.tcb[t].exitCode == s.tcb[t].exitCode
          && (r.tcb[t].status == Terminated <==> s.tcb[t].status == Terminated))
    && Partition(r.rings) && TotalSize(r.rings) == TotalSize(s.rings)
    && (forall t :: t in s.tcb ==> (Linked(r.rings, t) <==> Linked(s.rings, t)))
  }

  /** Moreover nobody starts to join. */
  ghost predicate Calm<T>(s: State<T>, r: State<T>) {
    && Steady(s, r)
    && forall t :: t in r.rings[SUSPENDED_RING] ==>
         t in s.rings[SUSPENDED_RING] && r.tcb[t].waitingTask == s.tcb[t].waitingTask
  }

  lemma SteadyKeepsCensus<T>(s: State<T>, r: State<T>)
    requires Inv(s) && Steady(s, r)
    ensures Census(r) && Ids(r) && r.tcb[r.dispatcher].status != Terminated
  {}

  lemma CalmKeepsJoins<T>(s: State<T>, r: State<T>)
    requires Inv(s) && Calm(s, r)
    ensures Joins(r)
  {
    forall t | t in r.rings[SUSPENDED_RING]
      ensures IdIsLive(r, r.tcb[t].waitingTask)
    {
      var u :| u in s.tcb && Live(s, u) && s.tcb[u].id == s.tcb[t].waitingTask;
      assert Live(r, u);
    }
  }

  /** Records of unterminated tasks may change as long as ids and exit codes stay. */
  lemma RecordIsSteady<T>(s: State<T>, t: T, p: Tcb)
    requires Shape(s) && Partition(s.rings) && t in s.tcb
    requires p.id == s.tcb[t].id && p.exitCode == s.tcb[t].exitCode
    requires p.status != Terminated && s.tcb[t].status != Terminated
    ensures Steady(s, s.(tcb := s.tcb[t := p]))
  {}

  lemma MoveIsSteady<T>(s: State<T>, from: nat, to: nat, t: T)
    requires Shape(s) && Partition(s.rings) && from < |s.rings| && to < |s.rings| && from != to
    requires t in s.tcb && Linked(s.rings, t)
    ensures Steady(s, s.(rings := Move(s.rings, from, to, t)))
    ensures forall r, x :: 0 <= r < |s.rings| && x in Move(s.rings, from, to, t)[r] ==>
              x in s.rings[r] || (x == t && r == to)
    ensures forall r, x :: 0 <= r < |s.rings| && x in s.rings[r] && x != t ==> x in Move(s.rings, from, to, t)[r]
    ensures t in s.rings[from] ==> t in Move(s.rings, from, to, t)[to]
  {
    var after := Move(s.rings, from, to, t);
    MoveKeepsShape(s, from, to, t);
    MoveKeepsPartition(s.rings, from, to, t);
    MoveOut(s.rings, from, to, t);
    forall x | x in s.tcb
      ensures Linked(after, x) <==> Linked(s.rings, x)
    {
      MoveKeepsLinked(s.rings, from, to, t, x);
    }
    if t in s.rings[from] {
      forall r, x | 0 <= r < |s.rings|
        ensures x in after[r] <==> (if x == t then r == to else x in s.rings[r])
      {
        MovedMember(s.rings, from, to, t, r, x);
      }
    }
  }

  lemma SwitchIsCalm<T>(s: State<T>, t: T)
    requires Shape(s) && Partition(s.rings) && t in s.tcb
    requires s.tcb[s.curr].status != Terminated && s.tcb[t].status != Terminated
    ensures Calm(s, TaskSwitch(s, t)) && TaskSwitch(s, t).rings == s.rings
  {}

  lemma ResumeIsCalm<T>(s: State<T>, t: T, ring: nat)
    requires Shape(s) && Partition(s.rings) && READY_RING < ring < |s.rings|
    requires t in s.tcb && Linked(s.rings, t) && s.tcb[t].status != Terminated
    ensures Calm(s, TaskResume(s, t, ring))
    ensures forall x :: x in s.rings[READY_RING] ==> x in TaskResume(s, t, ring).rings[READY_RING]
  {
    MoveIsSteady(s, ring, READY_RING, t);
    MoveOut(s.rings, ring, READY_RING, t);
  }

  /** Suspending the running task: only the target ring gains a member, the running task. */
  lemma SuspendIsSteady<T>(s: State<T>, ring: nat)
    requires Shape(s) && Partition(s.rings) && READY_RING < ring < |s.rings|
    requires s.curr in s.rings[READY_RING] && s.tcb[s.curr].status != Terminated
    requires s.tcb[s.dispatcher].status != Terminated
    ensures Steady(s, TaskSuspend(s, ring))
    ensures TaskSuspend(s, ring).curr == s.dispatcher
    ensures forall x :: x in TaskSuspend(s, ring).rings[SUSPENDED_RING] ==>
              x in s.rings[SUSPENDED_RING] || (x == s.curr && ring == SUSPENDED_RING)
    ensures forall x :: x in s.tcb ==> TaskSuspend(s, ring).tcb[x].waitingTask == s.tcb[x].waitingTask
  {
    MoveIsSteady(s, READY_RING, ring, s.curr);
  }

  lemma SteadyChain<T>(s: State<T>, m: State<T>, r: State<T>)
    requires Steady(s, m) && Steady(m, r)
    ensures Steady(s, r)
  {}

  lemma CalmChain<T>(s: State<T>, m: State<T>, r: State<T>)
    requires Calm(s, m) && Calm(m, r)
    ensures Calm(s, r)
  {}

  lemma {:induction false} WakeAllIsCalm<T>(s: State<T>, ring: nat, why: Reason, k: nat)
    requires Shape(s) && Partition(s.rings) && READY_RING < ring < |s.rings| && k <= |s.rings[ring]|
    requires why.Exited? ==> ring == SUSPENDED_RING
    requires forall t :: t in s.rings[ring] ==> s.tcb[t].status != Terminated
    ensures Calm(s, WakeAll(s, ring, why, s.rings[ring][..k]))
  {
    if k > 0 {
      var t := s.rings[ring][k - 1];
      var mid := WakeAll(s, ring, why, s.rings[ring][..k - 1]);
      WakeAllIsCalm(s, ring, why, k - 1);
      assert t in mid.rings[ring] by { RingDuringWalk(s, ring, why, k - 1); }
      WakeOneIsCalm(mid, ring, why, t);
      CalmChain(s, mid, WakeOne(mid, ring, why, t));
      WakeNext(s, ring, why, k - 1);
    }
  }

  lemma WakeOneIsCalm<T>(s: State<T>, ring: nat, why: Reason, t: T)
    requires Shape(s) && Partition(s.rings) && READY_RING < ring < |s.rings| && t in s.rings[ring]
    requires why.Exited? ==> ring == SUSPENDED_RING
    requires t in s.tcb && s.tcb[t].status != Terminated
    ensures Calm(s, WakeOne(s, ring, why, t))
  {
    assert Linked(s.rings, t);
    if Due(s.tcb[t], why) {
      ResumeIsCalm(s, t, ring);
      var awake := TaskResume(s, t, ring);
      if why.Exited? {
        MovedMember(s.rings, ring, READY_RING, t, SUSPENDED_RING, t);
        RecordIsSteady(awake, t, awake.tcb[t].(waitingTask := NOBODY));
      }
    }
  }

  lemma {:induction false} ReleaseAllIsCalm<T>(s: State<T>, ring: nat)
    requires Shape(s) && Partition(s.rings) && READY_RING < ring < |s.rings|
    requires forall t :: t in s.rings[ring] ==> s.tcb[t].status != Terminated
    ensures Calm(s, ReleaseAll(s, ring))
    ensures forall x :: x in s.rings[READY_RING] ==> x in ReleaseAll(s, ring).rings[READY_RING]
    ensures ReleaseAll(s, ring).curr == s.curr
    decreases |s.rings[ring]|
  {
    if s.rings[ring] != [] {
      var t := s.rings[ring][0];
      var mid := TaskResume(s, t, ring);
      assert Linked(s.rings, t);
      ResumeIsCalm(s, t, ring);
      MoveIsSteady(s, ring, READY_RING, t);
      ReleaseAllIsCalm(mid, ring);
      CalmChain(s, mid, ReleaseAll(mid, ring));
    }
  }

  // ---------------------------------------------------------------- each step keeps the invariant

  lemma CurrIsLive<T>(s: State<T>)
    requires Inv(s)
    ensures s.tcb[s.curr].status != Terminated
    ensures s.curr != s.dispatcher ==> Linked(s.rings, s.curr)
  {}

  lemma WaitKeepsInv<T>(s: State<T>, target: T)
    requires Inv(s) && Legal(s, Wait(target))
    ensures Inv(TaskWait(s, target)) && Steady(s, TaskWait(s, target))
  {
    CurrIsLive(s);
    if s.tcb[target].status != Terminated {
      var s1 := SetWaiting(s, s.tcb[target].id);
      RecordIsSteady(s, s.curr, s1.tcb[s.curr]);
      SuspendIsSteady(s1, SUSPENDED_RING);
      var r := TaskWait(s, target);
      SteadyKeepsCensus(s, r);
      forall t | t in r.rings[SUSPENDED_RING]
        ensures IdIsLive(r, r.tcb[t].waitingTask)
      {
        if t == s.curr {
          assert Live(r, target);
        } else {
          var u :| u in s.tcb && Live(s, u) && s.tcb[u].id == s.tcb[t].waitingTask;
          assert Live(r, u);
        }
      }
    }
  }

  lemma SleepKeepsInv<T>(s: State<T>, d: int)
    requires Inv(s) && Legal(s, Sleep(d))
    ensures Inv(TaskSleep(s, d)) && Steady(s, TaskSleep(s, d))
  {
    CurrIsLive(s);
    RecordIsSteady(s, s.curr, SetAlarm(s, d).tcb[s.curr]);
    SuspendIsSteady(SetAlarm(s, d), SLEEPING_RING);
    SteadyKeepsCensus(s, TaskSleep(s, d));
    CalmKeepsJoins(s, TaskSleep(s, d));
  }

  lemma SuspendKeepsInv<T>(s: State<T>, ring: nat)
    requires Inv(s) && s.curr != s.dispatcher && SUSPENDED_RING < ring < |s.rings|
    ensures Inv(TaskSuspend(s, ring)) && Steady(s, TaskSuspend(s, ring))
  {
    CurrIsLive(s);
    SuspendIsSteady(s, ring);
    SteadyKeepsCensus(s, TaskSuspend(s, ring));
    CalmKeepsJoins(s, TaskSuspend(s, ring));
  }

  lemma ResumeKeepsInv<T>(s: State<T>, t: T, ring: nat)
    requires Inv(s) && t in s.tcb && Linked(s.rings, t) && READY_RING < ring < |s.rings|
    ensures Inv(TaskResume(s, t, ring)) && Steady(s, TaskResume(s, t, ring))
  {
    ResumeIsCalm(s, t, ring);
    SteadyKeepsCensus(s, TaskResume(s, t, ring));
    CalmKeepsJoins(s, TaskResume(s, t, ring));
  }

  lemma YieldKeepsInv<T>(s: State<T>)
    requires Inv(s)
    ensures Inv(TaskYield(s)) && Steady(s, TaskYield(s))
  {
    CurrIsLive(s);
    SwitchIsCalm(s, s.dispatcher);
    SteadyKeepsCensus(s, TaskYield(s));
    CalmKeepsJoins(s, TaskYield(s));
  }

  lemma InitKeepsInv<T>(s: State<T>, t: T)
    requires Inv(s) && t !in s.tcb
    ensures Inv(TaskInit(s, t))
  {
    var s1 := Register(s, t);
    var r := TaskInit(s, t);
    assert !Linked(s.rings, t);
    AppendKeepsPartition(s.rings, READY_RING, t);
    forall x | x in r.tcb
      ensures Linked(r.rings, x) <==> Live(r, x)
    {
      AppendKeepsLinked(s.rings, READY_RING, t, x);
    }
    forall x | x in r.rings[SUSPENDED_RING]
      ensures IdIsLive(r, r.tcb[x].waitingTask)
    {
      var u :| u in s.tcb && Live(s, u) && s.tcb[u].id == s.tcb[x].waitingTask;
      assert Live(r, u);
    }
  }

  lemma NewSemKeepsInv<T>(s: State<T>, value: int)
    requires Inv(s)
    ensures Inv(SemInit(s, value)) && Steady(s, SemInit(s, value))
  {
    var r := SemInit(s, value);
    AddRing(s.rings);
    forall x | x in r.rings[SUSPENDED_RING]
      ensures IdIsLive(r, r.tcb[x].waitingTask)
    {
      var u :| u in s.tcb && Live(s, u) && s.tcb[u].id == s.tcb[x].waitingTask;
      assert Live(r, u);
    }
  }

  lemma SetSemKeepsInv<T>(s: State<T>, k: nat, sem: Sem)
    requires Inv(s) && k < |s.sems|
    ensures Inv(SetSem(s, k, sem)) && Steady(s, SetSem(s, k, sem))
  {
    SteadyKeepsCensus(s, SetSem(s, k, sem));
    CalmKeepsJoins(s, SetSem(s, k, sem));
  }

  lemma ReleaseKeepsInv<T>(s: State<T>, ring: nat)
    requires Inv(s) && READY_RING < ring < |s.rings|
    ensures Inv(ReleaseAll(s, ring)) && Steady(s, ReleaseAll(s, ring))
  {
    forall t | t in s.rings[ring]
      ensures s.tcb[t].status != Terminated
    {
      assert Linked(s.rings, t);
    }
    ReleaseAllIsCalm(s, ring);
    SteadyKeepsCensus(s, ReleaseAll(s, ring));
    CalmKeepsJoins(s, ReleaseAll(s, ring));
  }

  lemma DownKeepsInv<T>(s: State<T>, k: nat)
    requires Inv(s) && s.curr != s.dispatcher && k < |s.sems|
    ensures Inv(SemDown(s, k)) && Steady(s, SemDown(s, k))
  {
    if s.sems[k].active {
      var down := SetSem(s, k, Sem(s.sems[k].value - 1, true));
      SetSemKeepsInv(s, k, down.sems[k]);
      SuspendKeepsInv(down, FIRST_SEM_RING + k);
    }
  }

  lemma UpKeepsInv<T>(s: State<T>, k: nat)
    requires Inv(s) && k < |s.sems|
    ensures Inv(SemUp(s, k)) && Steady(s, SemUp(s, k))
  {
    if s.sems[k].active {
      var up := SetSem(s, k, Sem(s.sems[k].value + 1, true));
      SetSemKeepsInv(s, k, up.sems[k]);
      var ring := FIRST_SEM_RING + k;
      if up.sems[k].value <= 0 && s.rings[ring] != [] {
        var r := TaskResume(up, s.rings[ring][0], ring);
        HeadResumeKeepsInv(up, ring);
        SteadyChain(s, up, r);
        assert SemUp(s, k) == r;
      } else {
        assert SemUp(s, k) == up;
      }
    }
  }

  lemma HeadResumeKeepsInv<T>(s: State<T>, ring: nat)
    requires Inv(s) && READY_RING < ring < |s.rings| && s.rings[ring] != []
    ensures var r := TaskResume(s, s.rings[ring][0], ring); Inv(r) && Steady(s, r)
  {
    assert Linked(s.rings, s.rings[ring][0]);
    ResumeKeepsInv(s, s.rings[ring][0], ring);
  }

  lemma DestroyKeepsInv<T>(s: State<T>, k: nat)
    requires Inv(s) && k < |s.sems|
    ensures Inv(SemDestroy(s, k)) && Steady(s, SemDestroy(s, k))
  {
    if s.sems[k].active {
      var gone := SetSem(s, k, s.sems[k].(active := false));
      SetSemKeepsInv(s, k, gone.sems[k]);
      ReleaseKeepsInv(gone, FIRST_SEM_RING + k);
    }
  }

  /** A whole traversal of a ring of living tasks. */
  lemma WalkIsCalm<T>(s: State<T>, ring: nat, why: Reason)
    requires Shape(s) && Partition(s.rings) && READY_RING < ring < |s.rings|
    requires why.Exited? ==> ring == SUSPENDED_RING
    requires forall t :: t in s.rings[ring] ==> s.tcb[t].status != Terminated
    ensures var r := WakeAll(s, ring, why, s.rings[ring]);
            && Calm(s, r)
            && r.rings == s.rings[ring := Kept(s.rings[ring], s.tcb, why)]
                                 [READY_RING := s.rings[READY_RING] + Taken(s.rings[ring], s.tcb, why)]
            && r.curr == s.curr && r.clock == s.clock
  {
    var walk := s.rings[ring];
    assert walk[..|walk|] == walk;
    WakeAllIsCalm(s, ring, why, |walk|);
    WakePrefix(s, ring, why, |walk|);
    assert Kept(walk, s.tcb, why) + walk[|walk|..] == Kept(walk, s.tcb, why);
  }

  /** Everybody's record may change as long as nobody dies, is renamed or starts to join. */
  lemma RecordsAreCalm<T>(s: State<T>, tcb: map<T, Tcb>)
    requires Shape(s) && Partition(s.rings) && tcb.Keys == s.tcb.Keys
    requires forall t :: t in s.tcb ==>
               && tcb[t].id == s.tcb[t].id && tcb[t].exitCode == s.tcb[t].exitCode
               && tcb[t].waitingTask == s.tcb[t].waitingTask
               && (tcb[t].status == Terminated <==> s.tcb[t].status == Terminated)
    ensures Calm(s, s.(tcb := tcb))
  {}

  lemma LinkedIsLive<T>(s: State<T>, r: nat)
    requires Inv(s) && r < |s.rings|
    ensures forall t :: t in s.rings[r] ==> t in s.tcb && Live(s, t)
  {
    forall t | t in s.rings[r]
      ensures t in s.tcb && Live(s, t)
    {
      assert Linked(s.rings, t);
    }
  }

  lemma WakingKeepsInv<T>(s: State<T>)
    requires Inv(s)
    ensures Inv(WakeTasks(s)) && Steady(s, WakeTasks(s))
  {
    LinkedIsLive(s, SLEEPING_RING);
    WalkIsCalm(s, SLEEPING_RING, Alarm(s.clock));
    SteadyKeepsCensus(s, WakeTasks(s));
    CalmKeepsJoins(s, WakeTasks(s));
  }

  lemma RunNextIsCalm<T>(s: State<T>)
    requires Inv(s) && s.rings[READY_RING] != []
    ensures Calm(s, RunNext(s)) && RunNext(s).rings == s.rings && RunNext(s).curr in s.rings[READY_RING]
  {
    var ready := s.rings[READY_RING];
    var next := Choose(ready, s.tcb);
    LinkedIsLive(s, READY_RING);
    CurrIsLive(s);
    var s1 := s.(tcb := Scheduled(ready, s.tcb));
    assert Calm(s, s1) by { RecordsAreCalm(s, s1.tcb); }
    var s2 := Activated(s1, next);
    assert Calm(s1, s2) by { RecordsAreCalm(s1, s2.tcb); }
    assert Calm(s2, RunNext(s)) by { SwitchIsCalm(s2, next); }
    CalmChain(s, s1, s2);
    CalmChain(s, s2, RunNext(s));
  }

  lemma ScheduleKeepsInv<T>(s: State<T>)
    requires Inv(s)
    ensures Inv(Dispatch(s)) && Steady(s, Dispatch(s))
  {
    var s1 := WakeTasks(s);
    WakingKeepsInv(s);
    if s1.rings[READY_RING] != [] {
      RunNextIsCalm(s1);
      SteadyKeepsCensus(s1, RunNext(s1));
      CalmKeepsJoins(s1, RunNext(s1));
    }
  }

  lemma TickKeepsInv<T>(s: State<T>)
    requires Inv(s)
    ensures Inv(Tick(s)) && Steady(s, Tick(s))
  {
    CurrIsLive(s);
    var s1 := CountTick(s);
    assert Calm(s, s1) by { RecordsAreCalm(s, s1.tcb); }
    SteadyKeepsCensus(s, s1);
    CalmKeepsJoins(s, s1);
    YieldKeepsInv(s1);
  }

  lemma ExitWalk<T>(s: State<T>, code: int)
    requires Inv(s) && s.curr != s.dispatcher
    ensures Calm(Exiting(s, code), Announced(s, code)) && TaskExit(s, code) == Retire(Announced(s, code))
    ensures Announced(s, code).curr == s.curr && s.curr in Announced(s, code).rings[READY_RING]
    ensures Announced(s, code).rings ==
            s.rings[SUSPENDED_RING := Kept(s.rings[SUSPENDED_RING], Exiting(s, code).tcb, Exited(s.tcb[s.curr].id))]
                   [READY_RING := s.rings[READY_RING] +
                                  Taken(s.rings[SUSPENDED_RING], Exiting(s, code).tcb, Exited(s.tcb[s.curr].id))]
  {
    LinkedIsLive(s, SUSPENDED_RING);
    assert s.curr !in s.rings[SUSPENDED_RING];
    WalkIsCalm(Exiting(s, code), SUSPENDED_RING, Exited(s.tcb[s.curr].id));
  }

  lemma ExitKeepsCensus<T>(s: State<T>, code: int)
    requires Inv(s) && s.curr != s.dispatcher && s.curr != s.driver
    ensures Census(TaskExit(s, code))
  {
    ExitWalk(s, code);
    var s2 := Announced(s, code);
    var r := TaskExit(s, code);
    RemoveKeepsPartition(s2.rings, READY_RING, s.curr);
    forall x | x in r.tcb
      ensures Linked(r.rings, x) <==> Live(r, x)
    {
      RemoveKeepsLinked(s2.rings, READY_RING, s.curr, x);
    }
  }

  lemma ExitKeepsInv<T>(s: State<T>, code: int)
    requires Inv(s) && s.curr != s.dispatcher && s.curr != s.driver
    ensures Inv(TaskExit(s, code))
  {
    ExitKeepsCensus(s, code);
    ExitWalk(s, code);
    assert TaskExit(s, code).rings[SUSPENDED_RING] == Announced(s, code).rings[SUSPENDED_RING];
    var id := s.tcb[s.curr].id;
    var r := TaskExit(s, code);
    forall x | x in r.rings[SUSPENDED_RING]
      ensures IdIsLive(r, r.tcb[x].waitingTask)
    {
      assert x in Kept(s.rings[SUSPENDED_RING], Exiting(s, code).tcb, Exited(id));
      var u :| u in s.tcb && Live(s, u) && s.tcb[u].id == s.tcb[x].waitingTask;
      assert Live(r, u);
    }
  }

  // ---------------------------------------------------------------- runs

  lemma StepKeepsInv<T>(s: State<T>, a: Action<T>)
    requires Inv(s) && Legal(s, a)
    ensures Inv(Next(s, a))
  {
    match a
    case Init(t) => InitKeepsInv(s, t);
    case Yield => YieldKeepsInv(s);
    case Wait(target) => WaitKeepsInv(s, target);
    case Sleep(d) => SleepKeepsInv(s, d);
    case Exit(code) => ExitKeepsInv(s, code);
    case NewSem(value) => NewSemKeepsInv(s, value);
    case Down(k) => DownKeepsInv(s, k);
    case Up(k) => UpKeepsInv(s, k);
    case Destroy(k) => DestroyKeepsInv(s, k);
    case Prio(t, prio) =>
      RecordsAreCalm(s, SetPrio(s, t, prio).tcb);
      SteadyKeepsCensus(s, SetPrio(s, t, prio));
      CalmKeepsJoins(s, SetPrio(s, t, prio));
    case Timer => TickKeepsInv(s);
    case Schedule => ScheduleKeepsInv(s);
    case DiskSuspend => SuspendKeepsInv(s, DISK_RING);
    case DiskResume(t) =>
      assert t in s.rings[DISK_RING] ==> Linked(s.rings, t);
      ResumeKeepsInv(s, t, DISK_RING);
  }

  /** A run: the states the kernel goes through, from boot on, under any legal actions. */
  ghost predicate IsRun<T>(states: seq<State<T>>, actions: seq<Action<T>>) {
    && |states| == |actions| + 1
    && forall i :: 0 <= i < |actions| ==> Legal(states[i], actions[i]) && states[i + 1] == Next(states[i], actions[i])
  }

  ghost predicate Boots<T>(s: State<T>, main: T) {
    main != s.dispatcher && main != s.driver && s.driver != s.dispatcher && s == Boot(main, s.dispatcher, s.driver)
  }

  lemma BootInv<T>(s: State<T>, main: T)
    requires Boots(s, main)
    ensures Inv(s)
  {
    assert main in s.rings[READY_RING];
    assert TotalSize(s.rings) == 1 by {
      var rings: seq<seq<T>> := [[], [], [], []];
      EmptyRings(rings);
      TotalSizeUpdate(rings, READY_RING, [main]);
      assert s.rings == rings[READY_RING := [main]];
    }
  }

  lemma {:induction false} RunKeepsInv<T>(states: seq<State<T>>, actions: seq<Action<T>>, main: T, i: nat)
    requires IsRun(states, actions) && Boots(states[0], main) && i < |states|
    ensures Inv(states[i])
  {
    if i == 0 {
      BootInv(states[0], main);
    } else {
      RunKeepsInv(states, actions, main, i - 1);
      StepKeepsInv(states[i - 1], actions[i - 1]);
    }
  }
}
