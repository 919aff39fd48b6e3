/**
 * What one step of the kernel does, told field by field instead of call by call: for every
 * ring, every field of a task's record and every global, who changes it, when, and to what.
 */
module KernelEffects {
  import opened Sequences
  import opened KernelSpec
  import opened KernelRings
  import opened KernelRuns
  import opened KernelSemaphores

  // ---------------------------------------------------------------- who gives up, gets, and is let go

  /** The running task goes to sleep: on a living task, on the clock, on a semaphore without units, or on the disk. */
  predicate Blocks<T>(s: State<T>, a: Action<T>) {
    match a
    case Wait(target) => target in s.tcb && s.tcb[target].status != Terminated
    case Sleep(_) => true
    case Down(k) => k < |s.sems| && s.sems[k].active && s.sems[k].value <= 0
    case DiskSuspend => true
    case _ => false
  }

  /** The running task loses the processor to the dispatcher; a tick takes it when it is the tenth. */
  predicate GivesUp<T>(s: State<T>, a: Action<T>) {
    Blocks(s, a) || a.Yield? || a.Exit? || (a.Timer? && s.curr in s.tcb && s.tcb[s.curr].quantum == 9)
  }

  /** The tasks a step makes ready, in this order. */
  function Readied<T(==)>(s: State<T>, a: Action<T>): seq<T>
    requires Legal(s, a)
  {
    match a
    case Init(t) => [t]
    case Exit(_) => Taken(s.rings[SUSPENDED_RING], s.tcb, Exited(s.tcb[s.curr].id))
    case Up(k) =>
      if s.sems[k].active && s.sems[k].value < 0 && s.rings[FIRST_SEM_RING + k] != []
      then [s.rings[FIRST_SEM_RING + k][0]] else []
    case Destroy(k) => if s.sems[k].active then s.rings[FIRST_SEM_RING + k] else []
    case Schedule => Taken(s.rings[SLEEPING_RING], s.tcb, Alarm(s.clock))
    case DiskResume(t) => if t in s.rings[DISK_RING] then [t] else []
    case _ => []
  }

  /** The dispatcher chooses among the ready tasks and, behind them, those whose alarm is due. */
  function Candidates<T(==)>(s: State<T>): (r: seq<T>)
    requires Shape(s)
    ensures forall t :: t in r ==> t in s.tcb
  {
    s.rings[READY_RING] + Taken(s.rings[SLEEPING_RING], s.tcb, Alarm(s.clock))
  }

  predicate Elects<T(==)>(s: State<T>, a: Action<T>)
    requires Shape(s)
  {
    a.Schedule? && Candidates(s) != []
  }

  // ---------------------------------------------------------------- the globals

  function CurrAfter<T(==)>(s: State<T>, a: Action<T>): T
    requires Legal(s, a)
  {
    if Elects(s, a) then Choose(Candidates(s), s.tcb)
    else if GivesUp(s, a) then s.dispatcher
    else s.curr
  }

  function UserTasksAfter<T(==)>(s: State<T>, a: Action<T>): int {
    if a.Init? && a.t != s.driver then s.userTasks + 1
    else if a.Exit? then s.userTasks - 1
    else s.userTasks
  }

  // ---------------------------------------------------------------- the rings

  /** The ring a blocking task goes to. */
  function Bed<T>(a: Action<T>): nat {
    match a
    case Wait(_) => SUSPENDED_RING
    case Sleep(_) => SLEEPING_RING
    case Down(k) => FIRST_SEM_RING + k
    case _ => DISK_RING
  }

  function WithoutReadied<T(==)>(s: State<T>, a: Action<T>, q: nat): seq<T>
    requires Legal(s, a) && q < |s.rings|
  {
    var ring := s.rings[q];
    match a
    case Exit(_) => if q == SUSPENDED_RING then Kept(ring, s.tcb, Exited(s.tcb[s.curr].id)) else ring
    case Schedule => if q == SLEEPING_RING then Kept(ring, s.tcb, Alarm(s.clock)) else ring
    case Up(k) => if q == FIRST_SEM_RING + k && Readied(s, a) != [] then ring[1..] else ring
    case Destroy(k) => if q == FIRST_SEM_RING + k && s.sems[k].active then [] else ring
    case DiskResume(t) => if q == DISK_RING then Without(ring, t) else ring
    case _ => ring
  }

  /** Tasks enter a ring at its tail, in order; only the running one leaves the ready ring. */
  function RingAfter<T(==)>(s: State<T>, a: Action<T>, q: nat): seq<T>
    requires Legal(s, a) && q < |s.rings|
  {
    if q == READY_RING then
      (if Blocks(s, a) || a.Exit? then Without(s.rings[q], s.curr) else s.rings[q]) + Readied(s, a)
    else if Blocks(s, a) && q == Bed(a) then s.rings[q] + [s.curr]
    else WithoutReadied(s, a, q)
  }

  // ---------------------------------------------------------------- the records

  function StatusAfter<T(==)>(s: State<T>, a: Action<T>, t: T): Status
    requires Legal(s, a) && t in s.tcb
  {
    if Elects(s, a) && t == CurrAfter(s, a) then Running
    else if Elects(s, a) && t == s.dispatcher then Suspended
    else if a.Exit? && t == s.curr then Terminated
    else if GivesUp(s, a) && !a.Exit? && t == s.dispatcher then Running
    else if GivesUp(s, a) && !a.Exit? && t == s.curr then Suspended
    else if t in Readied(s, a) || (a.DiskResume? && t == a.t) then Ready
    else s.tcb[t].status
  }

  function QuantumAfter<T(==)>(s: State<T>, a: Action<T>, t: T): int
    requires Legal(s, a) && t in s.tcb
  {
    var q := s.tcb[t].quantum;
    if Elects(s, a) && t == CurrAfter(s, a) then 0
    else if a.Timer? && t == s.curr then (if q == 9 then 0 else q + 1)
    else q
  }

  /** One step more urgent for every candidate, but the elected one starts over. */
  function DynamicAfter<T(==)>(s: State<T>, a: Action<T>, t: T): int
    requires Legal(s, a) && t in s.tcb
  {
    if a.Prio? && t == a.t then a.prio
    else if Elects(s, a) && t == CurrAfter(s, a) then s.tcb[t].staticPriority
    else if Elects(s, a) && t in Candidates(s) then s.tcb[t].dynamicPriority - 1
    else s.tcb[t].dynamicPriority
  }

  function StaticAfter<T(==)>(s: State<T>, a: Action<T>, t: T): int
    requires t in s.tcb
  {
    if a.Prio? && t == a.t then a.prio else s.tcb[t].staticPriority
  }

  function ActivationsAfter<T(==)>(s: State<T>, a: Action<T>, t: T): nat
    requires Legal(s, a) && t in s.tcb
  {
    if Elects(s, a) && (t == CurrAfter(s, a) || t == s.dispatcher) then s.tcb[t].activations + 1
    else s.tcb[t].activations
  }

  function WaitingAfter<T(==)>(s: State<T>, a: Action<T>, t: T): int
    requires Legal(s, a) && t in s.tcb
  {
    if a.Wait? && Blocks(s, a) && t == s.curr then s.tcb[a.target].id
    else if a.Exit? && t in Readied(s, a) then -1
    else s.tcb[t].waitingTask
  }

  function WakeUpAfter<T(==)>(s: State<T>, a: Action<T>, t: T): int
    requires t in s.tcb
  {
    if a.Sleep? && t == s.curr then s.clock + a.d else s.tcb[t].wakeUpTime
  }

  function ExitCodeAfter<T(==)>(s: State<T>, a: Action<T>, t: T): int
    requires t in s.tcb
  {
    if a.Exit? && t == s.curr then a.code else s.tcb[t].exitCode
  }

  function RecordAfter<T(==)>(s: State<T>, a: Action<T>, t: T): Tcb
    requires Legal(s, a) && t in s.tcb
  {
    Tcb(s.tcb[t].id, StatusAfter(s, a, t), QuantumAfter(s, a, t), ExitCodeAfter(s, a, t),
        DynamicAfter(s, a, t), StaticAfter(s, a, t), ActivationsAfter(s, a, t), WaitingAfter(s, a, t), WakeUpAfter(s, a, t))
  }

  /** The records are those told field by field, and a new task's are the initial ones, with the next id. */
  ghost predicate RecordsTold<T>(s: State<T>, a: Action<T>, r: State<T>)
    requires Legal(s, a)
  {
    && r.tcb.Keys == s.tcb.Keys + (if a.Init? then {a.t} else {})
    && (forall t :: t in s.tcb ==> r.tcb[t] == RecordAfter(s, a, t))
    && (a.Init? ==> r.tcb[a.t] == Tcb(s.lastId + 1, Ready, 0, 0, 0, 0, 0, -1, 0))
  }

  ghost predicate GlobalsTold<T>(s: State<T>, a: Action<T>, r: State<T>)
    requires Legal(s, a)
  {
    && r.curr == CurrAfter(s, a) && r.dispatcher == s.dispatcher && r.driver == s.driver
    && r.clock == s.clock + (if a.Timer? then 1 else 0)
    && r.lastId == s.lastId + (if a.Init? then 1 else 0)
    && r.userTasks == UserTasksAfter(s, a)
  }

  ghost predicate RingsTold<T>(s: State<T>, a: Action<T>, r: State<T>)
    requires Legal(s, a)
  {
    && |r.rings| == |s.rings| + (if a.NewSem? then 1 else 0)
    && (forall q :: 0 <= q < |s.rings| ==> r.rings[q] == RingAfter(s, a, q))
    && (a.NewSem? ==> r.rings[|s.rings|] == [])
  }

  /** A semaphore's value and flag; its queue is one of the rings. */
  function SemAfter<T>(s: State<T>, a: Action<T>, k: nat): Sem
    requires k < |s.sems|
  {
    var sem := s.sems[k];
    if !sem.active then sem
    else
      match a
      case Down(j) => if j == k then Sem(sem.value - 1, true) else sem
      case Up(j) => if j == k then Sem(sem.value + 1, true) else sem
      case Destroy(j) => if j == k then Sem(sem.value, false) else sem
      case _ => sem
  }

  ghost predicate SemsTold<T>(s: State<T>, a: Action<T>, r: State<T>) {
    && |r.sems| == |s.sems| + (if a.NewSem? then 1 else 0)
    && (forall k :: 0 <= k < |s.sems| ==> r.sems[k] == SemAfter(s, a, k))
    && (a.NewSem? ==> r.sems[|s.sems|] == Sem(a.value, true))
  }

  ghost predicate Told<T>(s: State<T>, a: Action<T>, r: State<T>)
    requires Legal(s, a)
  {
    RecordsTold(s, a, r) && GlobalsTold(s, a, r) && RingsTold(s, a, r)
  }

  // ---------------------------------------------------------------- the proof, call by call

  lemma NothingReadied<T>(s: State<T>, a: Action<T>)
    requires Legal(s, a) && Readied(s, a) == []
    ensures s.rings[READY_RING] + Readied(s, a) == s.rings[READY_RING]
  {}

  /** The caller's record with what it waits for filled in. */
  ghost predicate ReadyToSleep<T>(s: State<T>, a: Action<T>, s1: State<T>) {
    && Legal(s, a) && Blocks(s, a) && s.curr != s.dispatcher && Bed(a) < |s.rings|
    && s1 == s.(tcb := s1.tcb, sems := s1.sems) && |s1.sems| == |s.sems| && Shape(s1)
    && s1.tcb == s.tcb[s.curr := s.tcb[s.curr].(waitingTask := WaitingAfter(s, a, s.curr), wakeUpTime := WakeUpAfter(s, a, s.curr))]
  }

  lemma SleeperRecordIsTold<T>(s: State<T>, a: Action<T>, t: T)
    requires Legal(s, a) && Blocks(s, a) && t in s.tcb && s.curr != s.dispatcher
    ensures RecordAfter(s, a, t) ==
            if t == s.curr then s.tcb[t].(status := Suspended, waitingTask := WaitingAfter(s, a, t), wakeUpTime := WakeUpAfter(s, a, t))
            else if t == s.dispatcher then s.tcb[t].(status := Running)
            else s.tcb[t]
  {}

  lemma SuspendRecords<T>(s: State<T>, a: Action<T>, s1: State<T>)
    requires Inv(s) && ReadyToSleep(s, a, s1)
    ensures RecordsTold(s, a, TaskSuspend(s1, Bed(a)))
  {
    forall t | t in s.tcb
      ensures TaskSuspend(s1, Bed(a)).tcb[t] == RecordAfter(s, a, t)
    {
      SleeperRecordIsTold(s, a, t);
    }
  }

  lemma SuspendRings<T>(s: State<T>, a: Action<T>, s1: State<T>)
    requires Inv(s) && ReadyToSleep(s, a, s1)
    ensures RingsTold(s, a, TaskSuspend(s1, Bed(a)))
  {
    assert Linked(s.rings, s.curr);
    MoveOut(s.rings, READY_RING, Bed(a), s.curr);
    assert Readied(s, a) == [];
    assert Without(s.rings[READY_RING], s.curr) + [] == Without(s.rings[READY_RING], s.curr);
  }

  /** A task that goes to sleep. */
  lemma SuspendTold<T>(s: State<T>, a: Action<T>, s1: State<T>)
    requires Inv(s) && ReadyToSleep(s, a, s1)
    ensures Told(s, a, TaskSuspend(s1, Bed(a)))
  {
    SuspendRecords(s, a, s1);
    SuspendRings(s, a, s1);
  }

  lemma SleepersTold<T>(s: State<T>, a: Action<T>)
    requires Inv(s) && Legal(s, a) && (a.Wait? || a.Sleep? || a.DiskSuspend?)
    ensures Told(s, a, Next(s, a))
  {
    if !Blocks(s, a) {
      NothingReadied(s, a);
    } else {
      match a
      case Wait(target) => SuspendTold(s, a, SetWaiting(s, s.tcb[target].id));
      case Sleep(d) => SuspendTold(s, a, SetAlarm(s, d));
      case DiskSuspend => SuspendTold(s, a, s);
    }
  }

  lemma YieldTold<T>(s: State<T>)
    requires Inv(s) && s.curr != s.dispatcher
    ensures Told(s, Yield, TaskYield(s))
  {
    NothingReadied(s, Yield);
  }

  lemma TickTold<T>(s: State<T>)
    requires Inv(s)
    ensures Told(s, Timer, Tick(s))
  {
    NothingReadied(s, Timer);
  }

  lemma PrioTold<T>(s: State<T>, a: Action<T>)
    requires Inv(s) && Legal(s, a) && (a.Prio? || a.NewSem?)
    ensures Told(s, a, Next(s, a))
  {
    NothingReadied(s, a);
  }

  lemma InitTold<T>(s: State<T>, t: T)
    requires Inv(s) && Legal(s, Init(t))
    ensures Told(s, Init(t), TaskInit(s, t))
  {
    assert !Linked(s.rings, t);
  }

  lemma IdleDownTold<T>(s: State<T>, k: nat)
    requires Inv(s) && Legal(s, Down(k)) && !Blocks(s, Down(k))
    ensures Told(s, Down(k), SemDown(s, k))
  {
    NothingReadied(s, Down(k));
  }

  lemma BlockingDownTold<T>(s: State<T>, k: nat)
    requires Inv(s) && Legal(s, Down(k)) && Blocks(s, Down(k))
    ensures Told(s, Down(k), SemDown(s, k))
  {
    SuspendTold(s, Down(k), SetSem(s, k, Sem(s.sems[k].value - 1, true)));
  }

  lemma DownTold<T>(s: State<T>, k: nat)
    requires Inv(s) && Legal(s, Down(k))
    ensures Told(s, Down(k), SemDown(s, k))
  {
    if Blocks(s, Down(k)) {
      BlockingDownTold(s, k);
    } else {
      IdleDownTold(s, k);
    }
  }

  lemma UpMoves<T>(s: State<T>, k: nat)
    requires Inv(s) && Legal(s, Up(k)) && Readied(s, Up(k)) != []
    ensures var ring, r := FIRST_SEM_RING + k, SemUp(s, k);
            r.rings == s.rings[ring := s.rings[ring][1..]][READY_RING := s.rings[READY_RING] + Readied(s, Up(k))]
  {
    var queue := s.rings[FIRST_SEM_RING + k];
    HeadMoves(SetSem(s, k, Sem(s.sems[k].value + 1, true)), FIRST_SEM_RING + k);
    assert queue[..1] == [queue[0]];
  }

  lemma UpRings<T>(s: State<T>, k: nat)
    requires Inv(s) && Legal(s, Up(k)) && Readied(s, Up(k)) != []
    ensures RingsTold(s, Up(k), SemUp(s, k))
  {
    UpMoves(s, k);
  }

  lemma UpRecords<T>(s: State<T>, k: nat)
    requires Inv(s) && Legal(s, Up(k)) && Readied(s, Up(k)) != []
    ensures RecordsTold(s, Up(k), SemUp(s, k)) && GlobalsTold(s, Up(k), SemUp(s, k))
  {}

  lemma UpTold<T>(s: State<T>, k: nat)
    requires Inv(s) && Legal(s, Up(k))
    ensures Told(s, Up(k), SemUp(s, k))
  {
    if Readied(s, Up(k)) == [] {
      NothingReadied(s, Up(k));
    } else {
      UpRings(s, k);
      UpRecords(s, k);
    }
  }

  /** Releasing a whole queue readies its members and changes nothing else in any record. */
  lemma {:induction false} ReleaseRecords<T>(s: State<T>, ring: nat)
    requires Shape(s) && Partition(s.rings) && READY_RING < ring < |s.rings|
    ensures var r := ReleaseAll(s, ring);
            && r == s.(rings := r.rings, tcb := r.tcb) && r.tcb.Keys == s.tcb.Keys
            && forall t :: t in s.tcb ==>
                 r.tcb[t] == if t in s.rings[ring] then s.tcb[t].(status := Ready) else s.tcb[t]
    decreases |s.rings[ring]|
  {
    var queue := s.rings[ring];
    if queue != [] {
      HeadMoves(s, ring);
      ReleaseRecords(TaskResume(s, queue[0], ring), ring);
      assert queue == [queue[0]] + queue[1..];
    }
  }

  lemma DestroyRecordIsTold<T>(s: State<T>, k: nat, t: T)
    requires Inv(s) && Legal(s, Destroy(k)) && s.sems[k].active && t in s.tcb
    ensures RecordAfter(s, Destroy(k), t) ==
            if t in s.rings[FIRST_SEM_RING + k] then s.tcb[t].(status := Ready) else s.tcb[t]
  {}

  lemma DestroyRecords<T>(s: State<T>, k: nat)
    requires Inv(s) && Legal(s, Destroy(k)) && s.sems[k].active
    ensures RecordsTold(s, Destroy(k), SemDestroy(s, k)) && GlobalsTold(s, Destroy(k), SemDestroy(s, k))
  {
    ReleaseRecords(SetSem(s, k, s.sems[k].(active := false)), FIRST_SEM_RING + k);
    forall t | t in s.tcb
      ensures SemDestroy(s, k).tcb[t] == RecordAfter(s, Destroy(k), t)
    {
      DestroyRecordIsTold(s, k, t);
    }
  }

  lemma DestroyRings<T>(s: State<T>, k: nat)
    requires Inv(s) && Legal(s, Destroy(k)) && s.sems[k].active
    ensures RingsTold(s, Destroy(k), SemDestroy(s, k))
  {
    ReleaseAllRings(SetSem(s, k, s.sems[k].(active := false)), FIRST_SEM_RING + k);
  }

  lemma DestroyTold<T>(s: State<T>, k: nat)
    requires Inv(s) && Legal(s, Destroy(k))
    ensures Told(s, Destroy(k), SemDestroy(s, k))
  {
    if s.sems[k].active {
      DestroyRecords(s, k);
      DestroyRings(s, k);
    } else {
      NothingReadied(s, Destroy(k));
    }
  }

  lemma ResumeMoves<T>(s: State<T>, t: T)
    requires Inv(s) && Legal(s, DiskResume(t))
    ensures TaskResume(s, t, DISK_RING).rings ==
            if t in s.rings[DISK_RING]
            then s.rings[DISK_RING := Without(s.rings[DISK_RING], t)][READY_RING := s.rings[READY_RING] + [t]]
            else s.rings
  {
    assert t in s.rings[DISK_RING] ==> Linked(s.rings, t);
    MoveOut(s.rings, DISK_RING, READY_RING, t);
  }

  lemma ResumeRings<T>(s: State<T>, t: T)
    requires Inv(s) && Legal(s, DiskResume(t))
    ensures RingsTold(s, DiskResume(t), TaskResume(s, t, DISK_RING))
  {
    ResumeMoves(s, t);
    if t !in s.rings[DISK_RING] {
      NothingReadied(s, DiskResume(t));
    }
  }

  lemma ResumeTold<T>(s: State<T>, t: T)
    requires Inv(s) && Legal(s, DiskResume(t))
    ensures Told(s, DiskResume(t), TaskResume(s, t, DISK_RING))
  {
    ResumeRings(s, t);
  }

  /** Who is due depends on the alarms and joined ids alone. */
  lemma {:induction false} SameDue<T>(walk: seq<T>, a: map<T, Tcb>, b: map<T, Tcb>, why: Reason)
    requires forall i :: 0 <= i < |walk| ==> walk[i] in a && walk[i] in b && (Due(a[walk[i]], why) <==> Due(b[walk[i]], why))
    ensures Taken(walk, a, why) == Taken(walk, b, why) && Kept(walk, a, why) == Kept(walk, b, why)
  {
    if walk != [] {
      SameDue(walk[..|walk| - 1], a, b, why);
    }
  }

  /** A whole traversal, by its effect on rings and records. */
  lemma WalkTold<T>(s: State<T>, ring: nat, why: Reason)
    requires Shape(s) && Partition(s.rings) && READY_RING < ring < |s.rings|
    ensures var r, taken := WakeAll(s, ring, why, s.rings[ring]), Taken(s.rings[ring], s.tcb, why);
            && r == s.(rings := r.rings, tcb := r.tcb) && r.tcb.Keys == s.tcb.Keys
            && r.rings == s.rings[ring := Kept(s.rings[ring], s.tcb, why)][READY_RING := s.rings[READY_RING] + taken]
            && forall t :: t in s.tcb ==> r.tcb[t] == if t in taken then Roused(s.tcb[t], why) else s.tcb[t]
  {
    var walk := s.rings[ring];
    assert walk[..|walk|] == walk;
    WakePrefix(s, ring, why, |walk|);
    StablePartition(walk, s.tcb, why);
    assert Kept(walk, s.tcb, why) + walk[|walk|..] == Kept(walk, s.tcb, why);
  }

  lemma AnnounceTold<T>(s: State<T>, code: int)
    requires Inv(s) && s.curr != s.dispatcher
    ensures var r, taken := Announced(s, code), Taken(s.rings[SUSPENDED_RING], s.tcb, Exited(s.tcb[s.curr].id));
            && r == s.(rings := r.rings, tcb := r.tcb) && r.tcb.Keys == s.tcb.Keys && s.curr !in taken
            && r.rings == s.rings[SUSPENDED_RING := Kept(s.rings[SUSPENDED_RING], s.tcb, Exited(s.tcb[s.curr].id))]
                                 [READY_RING := s.rings[READY_RING] + taken]
            && forall t :: t in s.tcb ==>
                 r.tcb[t] == if t in taken then s.tcb[t].(status := Ready, waitingTask := -1)
                             else if t == s.curr then s.tcb[t].(status := Terminated, exitCode := code)
                             else s.tcb[t]
  {
    var s1 := Exiting(s, code);
    assert s.curr !in s.rings[SUSPENDED_RING];
    SameDue(s.rings[SUSPENDED_RING], s.tcb, s1.tcb, Exited(s.tcb[s.curr].id));
    WalkTold(s1, SUSPENDED_RING, Exited(s.tcb[s.curr].id));
  }

  lemma ExitRecordIsTold<T>(s: State<T>, code: int, t: T)
    requires Inv(s) && Legal(s, Exit(code)) && t in s.tcb
    requires s.curr !in Readied(s, Exit(code))
    ensures RecordAfter(s, Exit(code), t) ==
            if t in Readied(s, Exit(code)) then s.tcb[t].(status := Ready, waitingTask := -1)
            else if t == s.curr then s.tcb[t].(status := Terminated, exitCode := code)
            else s.tcb[t]
  {}

  lemma ExitRecords<T>(s: State<T>, code: int)
    requires Inv(s) && Legal(s, Exit(code))
    ensures RecordsTold(s, Exit(code), TaskExit(s, code))
  {
    AnnounceTold(s, code);
    forall t | t in s.tcb
      ensures TaskExit(s, code).tcb[t] == RecordAfter(s, Exit(code), t)
    {
      ExitRecordIsTold(s, code, t);
    }
  }

  lemma ExitGlobals<T>(s: State<T>, code: int)
    requires Inv(s) && Legal(s, Exit(code))
    ensures GlobalsTold(s, Exit(code), TaskExit(s, code))
  {
    AnnounceTold(s, code);
  }

  lemma ExitMoves<T>(s: State<T>, code: int)
    requires Inv(s) && Legal(s, Exit(code))
    ensures TaskExit(s, code).rings ==
            s.rings[SUSPENDED_RING := Kept(s.rings[SUSPENDED_RING], s.tcb, Exited(s.tcb[s.curr].id))]
                   [READY_RING := Without(s.rings[READY_RING], s.curr) + Readied(s, Exit(code))]
  {
    AnnounceTold(s, code);
    WithoutInFront(s.rings[READY_RING], s.curr, Readied(s, Exit(code)));
  }

  lemma ExitRings<T>(s: State<T>, code: int)
    requires Inv(s) && Legal(s, Exit(code))
    ensures RingsTold(s, Exit(code), TaskExit(s, code))
  {
    ExitMoves(s, code);
  }

  lemma ExitTold<T>(s: State<T>, code: int)
    requires Inv(s) && Legal(s, Exit(code))
    ensures Told(s, Exit(code), TaskExit(s, code))
  {
    ExitRecords(s, code);
    ExitGlobals(s, code);
    ExitRings(s, code);
  }

  /** The choice looks at dynamic priorities alone. */
  lemma {:induction false} SameChoice<T>(ready: seq<T>, a: map<T, Tcb>, b: map<T, Tcb>)
    requires ready != [] && forall i :: 0 <= i < |ready| ==>
               ready[i] in a && ready[i] in b && a[ready[i]].dynamicPriority == b[ready[i]].dynamicPriority
    ensures Choose(ready, a) == Choose(ready, b)
  {
    if |ready| > 1 {
      SameChoice(ready[..|ready| - 1], a, b);
    }
  }

  lemma RunNextTold<T>(s: State<T>)
    requires Inv(s) && s.curr == s.dispatcher && s.rings[READY_RING] != []
    ensures var r, next := RunNext(s), Choose(s.rings[READY_RING], s.tcb);
            && r == s.(curr := next, tcb := r.tcb) && r.tcb.Keys == s.tcb.Keys
            && forall t :: t in s.tcb ==>
                 var p := s.tcb[t];
                 r.tcb[t] == if t == next
                             then p.(status := Running, quantum := 0, dynamicPriority := p.staticPriority, activations := p.activations + 1)
                             else if t == s.dispatcher then p.(status := Suspended, activations := p.activations + 1)
                             else if t in s.rings[READY_RING] then p.(dynamicPriority := p.dynamicPriority - 1)
                             else p
  {
    assert !Linked(s.rings, s.dispatcher);
    assert s.dispatcher !in s.rings[READY_RING];
  }

  /** The two halves of a round together, when somebody can run. */
  lemma DispatchRings<T>(s: State<T>)
    requires Inv(s) && s.curr == s.dispatcher && Candidates(s) != []
    ensures var r, next := Dispatch(s), Choose(Candidates(s), s.tcb);
            && r == s.(curr := next, tcb := r.tcb, rings := r.rings) && r.tcb.Keys == s.tcb.Keys
            && r.rings == s.rings[SLEEPING_RING := Kept(s.rings[SLEEPING_RING], s.tcb, Alarm(s.clock))][READY_RING := Candidates(s)]
  {
    var s1 := WakeTasks(s);
    WalkTold(s, SLEEPING_RING, Alarm(s.clock));
    WakingKeepsInv(s);
    SameChoice(Candidates(s), s.tcb, s1.tcb);
    RunNextTold(s1);
  }

  lemma RunNextRecord<T>(s: State<T>, t: T)
    requires Inv(s) && s.curr == s.dispatcher && s.rings[READY_RING] != [] && t in s.tcb
    ensures t in RunNext(s).tcb
    ensures var next, p := Choose(s.rings[READY_RING], s.tcb), s.tcb[t];
            RunNext(s).tcb[t] ==
            if t == next
            then p.(status := Running, quantum := 0, dynamicPriority := p.staticPriority, activations := p.activations + 1)
            else if t == s.dispatcher then p.(status := Suspended, activations := p.activations + 1)
            else if t in s.rings[READY_RING] then p.(dynamicPriority := p.dynamicPriority - 1)
            else p
  {
    RunNextTold(s);
  }

  lemma WakeRecord<T>(s: State<T>, t: T)
    requires Inv(s) && t in s.tcb
    ensures var s1 := WakeTasks(s);
            && Inv(s1) && t in s1.tcb && s1.curr == s.curr && s1.dispatcher == s.dispatcher
            && s1.rings[READY_RING] == Candidates(s)
            && s1.tcb[t] == if t in Taken(s.rings[SLEEPING_RING], s.tcb, Alarm(s.clock)) then s.tcb[t].(status := Ready) else s.tcb[t]
    ensures Candidates(s) != [] ==> Choose(Candidates(s), WakeTasks(s).tcb) == Choose(Candidates(s), s.tcb)
  {
    WalkTold(s, SLEEPING_RING, Alarm(s.clock));
    WakingKeepsInv(s);
    if Candidates(s) != [] {
      SameChoice(Candidates(s), s.tcb, WakeTasks(s).tcb);
    }
  }

  /** First woken, then elected or aged. */
  lemma WokenThenElected<T>(s: State<T>, s1: State<T>, t: T, p: Tcb, q: Tcb)
    requires Shape(s) && t in s.tcb && Candidates(s) != [] && s.rings[READY_RING] <= Candidates(s)
    requires s1.dispatcher == s.dispatcher && s1.rings != [] && s1.rings[READY_RING] == Candidates(s)
    requires s.dispatcher !in Taken(s.rings[SLEEPING_RING], s.tcb, Alarm(s.clock))
    requires p == if t in Taken(s.rings[SLEEPING_RING], s.tcb, Alarm(s.clock)) then s.tcb[t].(status := Ready) else s.tcb[t]
    requires var next := Choose(Candidates(s), s.tcb);
             q == (if t == next
                   then p.(status := Running, quantum := 0, dynamicPriority := p.staticPriority, activations := p.activations + 1)
                   else if t == s.dispatcher then p.(status := Suspended, activations := p.activations + 1)
                   else if t in Candidates(s) then p.(dynamicPriority := p.dynamicPriority - 1)
                   else p)
    ensures q == ElectionRecord(s, t, Choose(Candidates(s), s.tcb), t in Taken(s.rings[SLEEPING_RING], s.tcb, Alarm(s.clock)))
  {
    assert t in Taken(s.rings[SLEEPING_RING], s.tcb, Alarm(s.clock)) ==> t in Candidates(s);
  }

  lemma DispatchRecord<T>(s: State<T>, t: T)
    requires Inv(s) && s.curr == s.dispatcher && Candidates(s) != [] && t in s.tcb
    ensures t in Dispatch(s).tcb
    ensures Dispatch(s).tcb[t] ==
            ElectionRecord(s, t, Choose(Candidates(s), s.tcb), t in Taken(s.rings[SLEEPING_RING], s.tcb, Alarm(s.clock)))
  {
    var s1 := WakeTasks(s);
    WakeRecord(s, t);
    RunNextRecord(s1, t);
    NotTaken(s);
    WokenThenElected(s, s1, t, s1.tcb[t], RunNext(s1).tcb[t]);
  }

  lemma NotTaken<T>(s: State<T>)
    requires Inv(s)
    ensures s.dispatcher !in Taken(s.rings[SLEEPING_RING], s.tcb, Alarm(s.clock)) && s.dispatcher !in s.rings[READY_RING]
  {
    assert !Linked(s.rings, s.dispatcher);
  }

  /** A task's record after a round in which `next` was elected. */
  function ElectionRecord<T(==)>(s: State<T>, t: T, next: T, woken: bool): Tcb
    requires Shape(s) && t in s.tcb
  {
    var p := s.tcb[t];
    if t == next then p.(status := Running, quantum := 0, dynamicPriority := p.staticPriority, activations := p.activations + 1)
    else if t == s.dispatcher then p.(status := Suspended, activations := p.activations + 1)
    else if t in Candidates(s) then p.(status := if woken then Ready else p.status, dynamicPriority := p.dynamicPriority - 1)
    else p
  }

  lemma ElectionRecordIsTold<T>(s: State<T>, t: T)
    requires Inv(s) && Legal(s, Schedule) && Candidates(s) != [] && t in s.tcb
    ensures ElectionRecord(s, t, Choose(Candidates(s), s.tcb), t in Taken(s.rings[SLEEPING_RING], s.tcb, Alarm(s.clock)))
            == RecordAfter(s, Schedule, t)
  {
    assert t in Readied(s, Schedule) ==> t in Candidates(s);
  }

  lemma ElectionRecords<T>(s: State<T>)
    requires Inv(s) && Legal(s, Schedule) && Candidates(s) != []
    ensures RecordsTold(s, Schedule, Dispatch(s))
  {
    DispatchRings(s);
    forall t | t in s.tcb
      ensures Dispatch(s).tcb[t] == RecordAfter(s, Schedule, t)
    {
      DispatchRecord(s, t);
      ElectionRecordIsTold(s, t);
    }
  }

  lemma ElectionMoves<T>(s: State<T>, r: State<T>)
    requires Shape(s) && Legal(s, Schedule)
    requires r.rings == s.rings[SLEEPING_RING := Kept(s.rings[SLEEPING_RING], s.tcb, Alarm(s.clock))][READY_RING := Candidates(s)]
    ensures RingsTold(s, Schedule, r)
  {}

  lemma ElectionSwitches<T>(s: State<T>, r: State<T>)
    requires Shape(s) && Legal(s, Schedule) && Candidates(s) != []
    requires r == s.(curr := Choose(Candidates(s), s.tcb), tcb := r.tcb, rings := r.rings)
    ensures GlobalsTold(s, Schedule, r)
  {}

  lemma ElectionTold<T>(s: State<T>)
    requires Inv(s) && Legal(s, Schedule) && Candidates(s) != []
    ensures Told(s, Schedule, Dispatch(s))
  {
    ElectionRecords(s);
    DispatchRings(s);
    ElectionMoves(s, Dispatch(s));
    ElectionSwitches(s, Dispatch(s));
  }

  lemma IdleRoundTold<T>(s: State<T>)
    requires Inv(s) && Legal(s, Schedule) && Candidates(s) == []
    ensures Told(s, Schedule, Dispatch(s))
  {
    WalkTold(s, SLEEPING_RING, Alarm(s.clock));
  }

  lemma ScheduleTold<T>(s: State<T>)
    requires Inv(s) && Legal(s, Schedule)
    ensures Told(s, Schedule, Dispatch(s))
  {
    if Candidates(s) != [] {
      ElectionTold(s);
    } else {
      IdleRoundTold(s);
    }
  }

  /** Every step of the kernel does exactly what is told, field by field. */
  lemma StepIsTold<T>(s: State<T>, a: Action<T>)
    requires Inv(s) && Legal(s, a)
    ensures Told(s, a, Next(s, a))
  {
    match a
    case Init(t) => InitTold(s, t);
    case Yield => YieldTold(s);
    case Wait(_) => SleepersTold(s, a);
    case Sleep(_) => SleepersTold(s, a);
    case Exit(code) => ExitTold(s, code);
    case NewSem(_) => PrioTold(s, a);
    case Down(k) => DownTold(s, k);
    case Up(k) => UpTold(s, k);
    case Destroy(k) => DestroyTold(s, k);
    case Prio(_, _) => PrioTold(s, a);
    case Timer => TickTold(s);
    case Schedule => ScheduleTold(s);
    case DiskSuspend => SleepersTold(s, a);
    case DiskResume(t) => ResumeTold(s, t);
  }

  lemma SemsAreTold<T>(s: State<T>, a: Action<T>)
    requires Inv(s) && Legal(s, a)
    ensures SemsTold(s, a, Next(s, a))
  {}

  // ---------------------------------------------------------------- one task, one ring

  lemma RecordIsTold<T>(s: State<T>, a: Action<T>, t: T)
    requires Inv(s) && Legal(s, a) && t in s.tcb
    ensures t in Next(s, a).tcb && Next(s, a).tcb[t] == RecordAfter(s, a, t)
  {
    StepIsTold(s, a);
  }

  lemma NewRecordIsTold<T>(s: State<T>, t: T)
    requires Inv(s) && Legal(s, Init(t))
    ensures t in Next(s, Init(t)).tcb && Next(s, Init(t)).tcb[t] == Tcb(s.lastId + 1, Ready, 0, 0, 0, 0, 0, -1, 0)
  {
    StepIsTold(s, Init(t));
  }

  lemma NobodyElseIsNew<T>(s: State<T>, a: Action<T>, t: T)
    requires Inv(s) && Legal(s, a) && t in Next(s, a).tcb
    ensures t in s.tcb || a == Init(t)
  {
    StepIsTold(s, a);
  }

  lemma RingIsTold<T>(s: State<T>, a: Action<T>, q: nat)
    requires Inv(s) && Legal(s, a) && q < |s.rings|
    ensures q < |Next(s, a).rings| && Next(s, a).rings[q] == RingAfter(s, a, q)
  {
    StepIsTold(s, a);
  }

  lemma GlobalsAreTold<T>(s: State<T>, a: Action<T>)
    requires Inv(s) && Legal(s, a)
    ensures GlobalsTold(s, a, Next(s, a))
  {
    StepIsTold(s, a);
  }
}
