/**
 * The disk manager inside the kernel: every step of the two together is a step of DiskSpec,
 * so what DiskRuns proves holds while the other tasks make any kernel calls they like.
 */
module KernelDisk {
  import opened Sequences
  import opened KernelSpec
  import opened KernelRings
  import opened KernelRuns
  import opened KernelSemaphores
  import opened DiskDevices
  import D = DiskSpec
  import R = DiskRuns
  import X = DiskRefusals

  datatype Machine<T, B> = Machine(kernel: State<T>, io: D.Io<T, B>)

  datatype Move<T, B> =
    | Call(a: Action<T>)
    | BlockOp(block: int, buffer: Address, op: D.Operation)
    | DriverTurn
    | Completion
    | Store(buffer: Address, data: B)

  /** The driver task stands in the ready ring. */
  predicate Awake<T(==)>(s: State<T>) {
    READY_RING < |s.rings| && s.driver in s.rings[READY_RING]
  }

  predicate Marked<T(==)>(s: State<T>) {
    s.driver in s.tcb && s.tcb[s.driver].status == Suspended
  }

  /** The machine as the disk manager sees it. */
  function View<T(==), B>(m: Machine<T, B>): D.State<T, B>
    requires DISK_RING < |m.kernel.rings|
  {
    D.State(m.io, m.kernel.rings[DISK_RING], m.kernel.driver, Awake(m.kernel), Marked(m.kernel))
  }

  ghost predicate Legal<T, B>(m: Machine<T, B>, a: Move<T, B>) {
    && Shape(m.kernel) && m.kernel.driver in m.kernel.tcb && !m.io.fault
    && match a
       case Call(c) =>
         KernelRuns.Legal(m.kernel, c) && !c.DiskSuspend? && !c.DiskResume? && (m.kernel.curr == m.kernel.driver ==> c.Timer?)
       case BlockOp(_, buffer, _) =>
         && m.kernel.curr != m.kernel.dispatcher && m.kernel.curr != m.kernel.driver
         && (buffer == NULL || buffer in m.io.memory)
       case DriverTurn => m.kernel.curr == m.kernel.driver
       case Completion => Sound(m.io.device) && Busy(m.io.device) && m.io.device.buffer in m.io.memory
       case Store(buffer, _) => buffer in m.io.memory
  }

  // ---------------------------------------------------------------- the moves, by kernel calls

  /** disk_block_op: wake the driver if its status says it sleeps, then sleep in disk_queue. */
  function ClientBlocks<T(==)>(s: State<T>): (r: State<T>)
    requires Shape(s) && s.driver in s.tcb
    ensures Shape(r)
  {
    TaskSuspend(if Marked(s) then TaskResume(s, s.driver, DISK_RING) else s, DISK_RING)
  }

  /** The driver readies the first task of disk_queue, if there is one. */
  function FirstResumed<T(==)>(s: State<T>, signal: bool): (r: State<T>)
    requires Shape(s)
    ensures Shape(r)
  {
    if signal && s.rings[DISK_RING] != [] then TaskResume(s, s.rings[DISK_RING][0], DISK_RING) else s
  }

  function Next<T(==), B>(m: Machine<T, B>, a: Move<T, B>): Machine<T, B>
    requires Legal(m, a)
  {
    match a
    case Call(c) => m.(kernel := KernelRuns.Next(m.kernel, c))
    case BlockOp(block, buffer, op) =>
      Machine(ClientBlocks(m.kernel), D.Requested(m.io, D.Request(m.kernel.curr, block, buffer, op)))
    case DriverTurn =>
      Machine(TaskSuspend(FirstResumed(m.kernel, m.io.signal), DISK_RING),
              D.Serve(D.SignalHandled(m.io, m.kernel.rings[DISK_RING])))
    case Completion => Machine(TaskResume(m.kernel, m.kernel.driver, DISK_RING), D.Completed(m.io))
    case Store(buffer, data) => m.(io := m.io.(memory := m.io.memory[buffer := data]))
  }

  /** The same move as a step of DiskSpec; a call that has nothing to do with the disk only reschedules the driver. */
  ghost function StepOf<T, B>(m: Machine<T, B>, a: Move<T, B>): D.Step<T, B>
    requires Legal(m, a)
  {
    match a
    case Call(_) => D.Scheduled(Marked(Next(m, a).kernel))
    case BlockOp(block, buffer, op) => D.BlockOp(m.kernel.curr, block, buffer, op)
    case DriverTurn => D.Iterate
    case Completion => D.Complete
    case Store(buffer, data) => D.Store(buffer, data)
  }

  ghost predicate Inv<T, B>(m: Machine<T, B>) {
    && KernelRuns.Inv(m.kernel) && m.kernel.driver in m.kernel.tcb
    && D.Inv(View(m))
  }

  // ---------------------------------------------------------------- calls that leave the disk alone

  /** disk_queue stays, a ready driver stays ready, and a sleeping driver keeps its status. */
  ghost predicate LeavesDisk<T>(s: State<T>, r: State<T>) {
    && Shape(s) && Shape(r) && s.driver in s.tcb && r.driver == s.driver && r.driver in r.tcb
    && r.rings[DISK_RING] == s.rings[DISK_RING]
    && (Awake(s) <==> Awake(r))
    && (!Awake(s) ==> r.tcb[s.driver].status == s.tcb[s.driver].status)
  }

  lemma SuspendLeavesDisk<T>(s: State<T>, ring: nat)
    requires Shape(s) && Partition(s.rings) && s.driver in s.tcb && s.driver != s.dispatcher && s.driver != s.curr
    requires s.curr in s.rings[READY_RING] && READY_RING < ring < |s.rings| && ring != DISK_RING
    ensures LeavesDisk(s, TaskSuspend(s, ring))
  {
    MovedMember(s.rings, READY_RING, ring, s.curr, READY_RING, s.driver);
    assert Linked(s.rings, s.curr);
    MoveOut(s.rings, READY_RING, ring, s.curr);
  }

  lemma {:induction false} ReleaseLeavesDisk<T>(s: State<T>, ring: nat)
    requires Shape(s) && Partition(s.rings) && s.driver in s.tcb && DISK_RING < ring < |s.rings|
    requires s.driver !in s.rings[ring]
    ensures LeavesDisk(s, ReleaseAll(s, ring))
    decreases |s.rings[ring]|
  {
    var queue := s.rings[ring];
    if queue != [] {
      HeadMoves(s, ring);
      assert LeavesDisk(s, TaskResume(s, queue[0], ring));
      ReleaseLeavesDisk(TaskResume(s, queue[0], ring), ring);
    }
  }

  /** The driver is ready, or sleeps in disk_queue. */
  ghost predicate DriverPlaced<T>(s: State<T>) {
    && KernelRuns.Inv(s) && s.driver in s.tcb
    && (Awake(s) || s.driver in s.rings[DISK_RING])
  }

  lemma SwitchLeavesDisk<T>(s: State<T>, t: T)
    requires Shape(s) && s.driver in s.tcb && t in s.tcb
    requires !Awake(s) ==> t != s.driver && s.curr != s.driver
    ensures LeavesDisk(s, TaskSwitch(s, t))
  {}

  lemma TickLeavesDisk<T>(s: State<T>)
    requires DriverPlaced(s)
    ensures LeavesDisk(s, Tick(s)) && LeavesDisk(s, TaskYield(s))
  {
    assert !Awake(s) ==> s.curr != s.driver && s.dispatcher != s.driver;
    assert LeavesDisk(s, CountTick(s));
    SwitchLeavesDisk(s, s.dispatcher);
    SwitchLeavesDisk(CountTick(s), s.dispatcher);
  }

  lemma DownLeavesDisk<T>(s: State<T>, k: nat)
    requires DriverPlaced(s) && s.curr != s.dispatcher && s.curr != s.driver && k < |s.sems|
    ensures LeavesDisk(s, SemDown(s, k))
  {
    var s1 := SetSem(s, k, Sem(s.sems[k].value - 1, true));
    SuspendLeavesDisk(s1, FIRST_SEM_RING + k);
  }

  lemma UpLeavesDisk<T>(s: State<T>, k: nat)
    requires DriverPlaced(s) && k < |s.sems|
    ensures LeavesDisk(s, SemUp(s, k))
  {
    var s1 := SetSem(s, k, Sem(s.sems[k].value + 1, true));
    if s1.rings[FIRST_SEM_RING + k] != [] {
      HeadMoves(s1, FIRST_SEM_RING + k);
    }
  }

  lemma DestroyLeavesDisk<T>(s: State<T>, k: nat)
    requires DriverPlaced(s) && k < |s.sems|
    ensures LeavesDisk(s, SemDestroy(s, k))
  {
    var s1 := SetSem(s, k, s.sems[k].(active := false));
    assert LeavesDisk(s, s1);
    ReleaseLeavesDisk(s1, FIRST_SEM_RING + k);
  }

  /** A waking traversal of another ring passes the driver by. */
  lemma WalkLeavesDisk<T>(s: State<T>, ring: nat, why: Reason)
    requires Shape(s) && Partition(s.rings) && READY_RING < ring < DISK_RING
    requires s.driver in s.tcb && s.driver !in s.rings[ring]
    ensures LeavesDisk(s, WakeAll(s, ring, why, s.rings[ring]))
  {
    var walk := s.rings[ring];
    assert walk[..|walk|] == walk;
    WakePrefix(s, ring, why, |walk|);
  }

  lemma RunNextLeavesDisk<T>(s: State<T>)
    requires DriverPlaced(s) && s.curr == s.dispatcher && s.rings[READY_RING] != []
    ensures LeavesDisk(s, RunNext(s))
  {
    var ready := s.rings[READY_RING];
    var next := Choose(ready, s.tcb);
    var s1 := Activated(s.(tcb := Scheduled(ready, s.tcb)), next);
    assert s1.tcb[s.driver].status == s.tcb[s.driver].status;
    SwitchLeavesDisk(s1, next);
  }

  lemma DispatchLeavesDisk<T>(s: State<T>)
    requires DriverPlaced(s) && s.curr == s.dispatcher
    ensures LeavesDisk(s, Dispatch(s))
  {
    WalkLeavesDisk(s, SLEEPING_RING, Alarm(s.clock));
    WakingKeepsInv(s);
    var s1 := WakeTasks(s);
    if s1.rings[READY_RING] != [] {
      RunNextLeavesDisk(s1);
    }
  }

  lemma RetireLeavesDisk<T>(s: State<T>)
    requires Shape(s) && Partition(s.rings) && s.driver in s.tcb && s.curr != s.driver
    ensures LeavesDisk(s, Retire(s))
  {
    WithoutMembers(s.rings[READY_RING], s.curr, s.driver);
  }

  lemma InitLeavesDisk<T>(s: State<T>, t: T)
    requires DriverPlaced(s) && t !in s.tcb
    ensures LeavesDisk(s, TaskInit(s, t))
  {
    assert !Linked(s.rings, t);
  }

  lemma ExitLeavesDisk<T>(s: State<T>, code: int)
    requires DriverPlaced(s) && s.curr != s.dispatcher && s.curr != s.driver
    ensures LeavesDisk(s, TaskExit(s, code))
  {
    var s1, s2 := Exiting(s, code), Announced(s, code);
    ExitWalk(s, code);
    WalkLeavesDisk(s1, SUSPENDED_RING, Exited(s.tcb[s.curr].id));
    RetireLeavesDisk(s2);
  }

  lemma CallLeavesDisk<T>(s: State<T>, a: Action<T>)
    requires DriverPlaced(s) && KernelRuns.Legal(s, a) && !a.DiskSuspend? && !a.DiskResume?
    requires s.curr == s.driver ==> a.Timer?
    ensures LeavesDisk(s, KernelRuns.Next(s, a))
  {
    match a
    case Init(t) => InitLeavesDisk(s, t);
    case Yield => TickLeavesDisk(s);
    case Wait(target) => SuspendLeavesDisk(SetWaiting(s, s.tcb[target].id), SUSPENDED_RING);
    case Sleep(d) => SuspendLeavesDisk(SetAlarm(s, d), SLEEPING_RING);
    case Exit(code) => ExitLeavesDisk(s, code);
    case NewSem(_) =>
    case Down(k) => DownLeavesDisk(s, k);
    case Up(k) => UpLeavesDisk(s, k);
    case Destroy(k) => DestroyLeavesDisk(s, k);
    case Prio(_, _) =>
    case Timer => TickLeavesDisk(s);
    case Schedule => DispatchLeavesDisk(s);
  }

  // ---------------------------------------------------------------- the manager's own kernel calls

  lemma DriverReadied<T>(s: State<T>)
    requires DriverPlaced(s)
    ensures var r := TaskResume(s, s.driver, DISK_RING);
            && DriverPlaced(r) && r.driver == s.driver && r.curr == s.curr && r.dispatcher == s.dispatcher
            && r.rings[DISK_RING] == Without(s.rings[DISK_RING], s.driver)
            && Awake(r) && !Marked(r)
  {
    KernelRuns.StepKeepsInv(s, DiskResume(s.driver));
    assert Linked(s.rings, s.driver);
    MoveOut(s.rings, DISK_RING, READY_RING, s.driver);
  }

  lemma DiskSuspended<T>(s: State<T>)
    requires DriverPlaced(s) && s.curr != s.dispatcher
    ensures var r := TaskSuspend(s, DISK_RING);
            && DriverPlaced(r) && r.driver == s.driver
            && r.rings[DISK_RING] == s.rings[DISK_RING] + [s.curr]
            && (Awake(r) <==> Awake(s) && s.curr != s.driver)
            && (Marked(r) <==> Marked(s) || s.curr == s.driver)
  {
    KernelRuns.StepKeepsInv(s, DiskSuspend);
    assert Linked(s.rings, s.curr);
    MoveOut(s.rings, READY_RING, DISK_RING, s.curr);
    MovedMember(s.rings, READY_RING, DISK_RING, s.curr, READY_RING, s.driver);
    MovedMember(s.rings, READY_RING, DISK_RING, s.curr, DISK_RING, s.driver);
  }

  lemma ClientBlocksView<T>(s: State<T>)
    requires DriverPlaced(s) && s.curr != s.dispatcher && s.curr != s.driver
    ensures var r := ClientBlocks(s);
            && DriverPlaced(r) && r.driver == s.driver
            && r.rings[DISK_RING] == (if Marked(s) then Without(s.rings[DISK_RING], s.driver) else s.rings[DISK_RING]) + [s.curr]
            && (Awake(r) <==> Awake(s) || Marked(s)) && !Marked(r)
  {
    if Marked(s) {
      DriverReadied(s);
      DiskSuspended(TaskResume(s, s.driver, DISK_RING));
    } else {
      DiskSuspended(s);
    }
  }

  lemma FirstResumedView<T>(s: State<T>, signal: bool)
    requires DriverPlaced(s) && s.curr == s.driver
    ensures var r := FirstResumed(s, signal);
            && DriverPlaced(r) && r.driver == s.driver && r.curr == s.curr && r.dispatcher == s.dispatcher
            && r.rings[DISK_RING] == (if signal && s.rings[DISK_RING] != [] then s.rings[DISK_RING][1..] else s.rings[DISK_RING])
  {
    if signal && s.rings[DISK_RING] != [] {
      KernelRuns.StepKeepsInv(s, DiskResume(s.rings[DISK_RING][0]));
      HeadMoves(s, DISK_RING);
    }
  }

  // ---------------------------------------------------------------- the simulation

  lemma CallIsStep<T, B>(m: Machine<T, B>, a: Move<T, B>)
    requires DriverPlaced(m.kernel) && Legal(m, a) && a.Call?
    ensures DriverPlaced(Next(m, a).kernel)
    ensures D.Enabled(View(m), StepOf(m, a)) && View(Next(m, a)) == D.Next(View(m), StepOf(m, a))
  {
    CallLeavesDisk(m.kernel, a.a);
    KernelRuns.StepKeepsInv(m.kernel, a.a);
  }

  lemma BlockOpIsStep<T, B>(m: Machine<T, B>, a: Move<T, B>)
    requires DriverPlaced(m.kernel) && Legal(m, a) && a.BlockOp?
    ensures DriverPlaced(Next(m, a).kernel)
    ensures D.Enabled(View(m), StepOf(m, a)) && View(Next(m, a)) == D.Next(View(m), StepOf(m, a))
  {
    ClientBlocksView(m.kernel);
  }

  lemma TurnIsStep<T, B>(m: Machine<T, B>)
    requires DriverPlaced(m.kernel) && Legal(m, DriverTurn)
    ensures DriverPlaced(Next(m, DriverTurn).kernel)
    ensures D.Enabled(View(m), D.Iterate) && View(Next(m, DriverTurn)) == D.Next(View(m), D.Iterate)
  {
    FirstResumedView(m.kernel, m.io.signal);
    DiskSuspended(FirstResumed(m.kernel, m.io.signal));
  }

  lemma CompletionIsStep<T, B>(m: Machine<T, B>)
    requires DriverPlaced(m.kernel) && Legal(m, Completion)
    ensures DriverPlaced(Next(m, Completion).kernel)
    ensures D.Enabled(View(m), D.Complete) && View(Next(m, Completion)) == D.Next(View(m), D.Complete)
  {
    DriverReadied(m.kernel);
  }

  /** Every move of kernel and manager is a step of DiskSpec, enabled there, whatever the requests. */
  lemma MoveIsStep<T, B>(m: Machine<T, B>, a: Move<T, B>)
    requires DriverPlaced(m.kernel) && Legal(m, a)
    ensures DriverPlaced(Next(m, a).kernel)
    ensures D.Enabled(View(m), StepOf(m, a)) && View(Next(m, a)) == D.Next(View(m), StepOf(m, a))
  {
    match a
    case Call(_) => CallIsStep(m, a);
    case BlockOp(_, _, _) => BlockOpIsStep(m, a);
    case DriverTurn => TurnIsStep(m);
    case Completion => CompletionIsStep(m);
    case Store(_, _) =>
  }

  ghost predicate IsMove<T, B>(m: Machine<T, B>, a: Move<T, B>, r: Machine<T, B>) {
    Legal(m, a) && D.Proper(View(m), StepOf(m, a)) && r == Next(m, a)
  }

  lemma MoveKeepsInv<T, B>(m: Machine<T, B>, a: Move<T, B>, r: Machine<T, B>)
    requires Inv(m) && IsMove(m, a, r)
    ensures Inv(r) && R.IsStep(View(m), StepOf(m, a), View(r))
  {
    MoveIsStep(m, a);
    R.StepKeepsInv(View(m), StepOf(m, a));
  }

  lemma SignalHasClient<T, B>(m: Machine<T, B>)
    requires Inv(m)
    ensures m.io.signal ==> m.kernel.rings[DISK_RING] != []
  {
    if m.io.signal {
      R.SignalFindsOwner(View(m));
    }
  }

  /** A run of the whole machine, with any requests. */
  ghost predicate IsLooseRun<T, B>(machines: seq<Machine<T, B>>, moves: seq<Move<T, B>>) {
    && |machines| == |moves| + 1
    && (forall i :: 0 <= i < |moves| ==> Legal(machines[i], moves[i]))
    && (forall i :: 0 <= i < |moves| ==> machines[i + 1] == Next(machines[i], moves[i]))
  }

  /** One in which requests are valid and nobody touches a buffer while it is in use. */
  ghost predicate IsRun<T, B>(machines: seq<Machine<T, B>>, moves: seq<Move<T, B>>) {
    && IsLooseRun(machines, moves)
    && (forall i :: 0 <= i < |moves| ==> IsMove(machines[i], moves[i], machines[i + 1]))
  }

  ghost predicate Starts<T, B>(m: Machine<T, B>) {
    && KernelRuns.Inv(m.kernel) && m.kernel.driver in m.kernel.tcb
    && R.Starts(View(m))
  }

  /** Such a run can start wherever disk_mgr_init is first called. */
  lemma MgrInitStarts<T, B>(s: State<T>, blocks: seq<B>, memory: map<Address, B>)
    requires KernelRuns.Inv(s) && s.curr != s.dispatcher && s.driver !in s.tcb && s.rings[DISK_RING] == []
    requires |blocks| >= 1 && NULL !in memory
    ensures Starts(Machine(TaskInit(s, s.driver), D.Start(blocks, memory)))
  {
    KernelRuns.StepKeepsInv(s, Init(s.driver));
    assert !Linked(s.rings, s.driver);
  }

  lemma StartInv<T, B>(m: Machine<T, B>)
    requires Starts(m)
    ensures Inv(m)
  {}

  lemma RunMove<T, B>(machines: seq<Machine<T, B>>, moves: seq<Move<T, B>>, i: nat)
    requires IsRun(machines, moves) && 0 < i < |machines| && Inv(machines[i - 1])
    ensures Inv(machines[i])
  {
    MoveKeepsInv(machines[i - 1], moves[i - 1], machines[i]);
  }

  lemma {:induction false} RunKeepsInv<T, B>(machines: seq<Machine<T, B>>, moves: seq<Move<T, B>>, i: nat)
    requires IsRun(machines, moves) && Inv(machines[0]) && i < |machines|
    ensures Inv(machines[i])
    decreases i
  {
    if i > 0 {
      RunKeepsInv(machines, moves, i - 1);
      RunMove(machines, moves, i);
    }
  }

  ghost function Views<T, B>(machines: seq<Machine<T, B>>): (r: seq<D.State<T, B>>)
    requires forall i :: 0 <= i < |machines| ==> DISK_RING < |machines[i].kernel.rings|
    ensures |r| == |machines| && forall i :: 0 <= i < |r| ==> r[i] == View(machines[i])
  {
    seq(|machines|, i requires 0 <= i < |machines| => View(machines[i]))
  }

  ghost function StepsOf<T, B>(machines: seq<Machine<T, B>>, moves: seq<Move<T, B>>): (r: seq<D.Step<T, B>>)
    requires IsLooseRun(machines, moves)
    ensures |r| == |moves| && forall i :: 0 <= i < |r| ==> r[i] == StepOf(machines[i], moves[i])
  {
    seq(|moves|, i requires 0 <= i < |moves| => StepOf(machines[i], moves[i]))
  }

  lemma InvRunIsDiskRun<T, B>(machines: seq<Machine<T, B>>, moves: seq<Move<T, B>>)
    requires IsRun(machines, moves) && Inv(machines[0])
    ensures forall i :: 0 <= i < |machines| ==> DISK_RING < |machines[i].kernel.rings|
    ensures R.IsRun(Views(machines), StepsOf(machines, moves)) && D.Inv(Views(machines)[0])
  {
    forall i | 0 <= i < |machines|
      ensures Inv(machines[i])
    {
      RunKeepsInv(machines, moves, i);
    }
    var views, steps := Views(machines), StepsOf(machines, moves);
    forall i | 0 <= i < |steps|
      ensures R.IsStep(views[i], steps[i], views[i + 1])
    {
      MoveKeepsInv(machines[i], moves[i], machines[i + 1]);
    }
  }

  /** Whatever the other tasks do, the manager's part of a run is a run of DiskSpec. */
  lemma RunIsDiskRun<T, B>(machines: seq<Machine<T, B>>, moves: seq<Move<T, B>>)
    requires IsRun(machines, moves) && Starts(machines[0])
    ensures forall i :: 0 <= i < |machines| ==> DISK_RING < |machines[i].kernel.rings|
    ensures R.IsRun(Views(machines), StepsOf(machines, moves)) && R.Starts(Views(machines)[0])
  {
    StartInv(machines[0]);
    InvRunIsDiskRun(machines, moves);
  }

  /** What the kernel's tasks have asked for in the first i moves: each time the running one, with the arguments of its call. */
  ghost function Asked<T, B>(machines: seq<Machine<T, B>>, moves: seq<Move<T, B>>, i: nat): seq<D.Submission<T, B>>
    requires i <= |moves| && i <= |machines|
  {
    if i == 0 then []
    else
      match moves[i - 1]
      case BlockOp(block, buffer, op) =>
        var m := machines[i - 1];
        if buffer in m.io.memory
        then Asked(machines, moves, i - 1) + [D.Submission(D.Request(m.kernel.curr, block, buffer, op), m.io.memory[buffer])]
        else Asked(machines, moves, i - 1)
      case _ => Asked(machines, moves, i - 1)
  }

  /** A move and the step it is ask for the same. */
  ghost predicate SameAsk<T, B>(m: Machine<T, B>, a: Move<T, B>, v: D.State<T, B>, step: D.Step<T, B>) {
    && v.io == m.io && DISK_RING < |m.kernel.rings| && v.queue == m.kernel.rings[DISK_RING]
    && (a.BlockOp? <==> step.BlockOp?)
    && (a.BlockOp? ==> step == D.BlockOp(m.kernel.curr, a.block, a.buffer, a.op))
    && (a.DriverTurn? <==> step.Iterate?) && (a.Completion? <==> step.Complete?)
  }

  ghost predicate AllSameAsk<T, B>(machines: seq<Machine<T, B>>, moves: seq<Move<T, B>>,
                                   views: seq<D.State<T, B>>, steps: seq<D.Step<T, B>>) {
    && |views| == |machines| == |moves| + 1 && |steps| == |moves|
    && forall k :: 0 <= k < |moves| ==> SameAsk(machines[k], moves[k], views[k], steps[k])
  }

  lemma RunAsksTheSame<T, B>(machines: seq<Machine<T, B>>, moves: seq<Move<T, B>>)
    requires IsLooseRun(machines, moves)
    requires forall j :: 0 <= j < |machines| ==> DISK_RING < |machines[j].kernel.rings|
    ensures AllSameAsk(machines, moves, Views(machines), StepsOf(machines, moves))
  {}

  lemma {:induction false} AskedOfTheDisk<T, B>(machines: seq<Machine<T, B>>, moves: seq<Move<T, B>>,
                                                views: seq<D.State<T, B>>, steps: seq<D.Step<T, B>>, i: nat)
    requires AllSameAsk(machines, moves, views, steps) && i <= |moves|
    ensures R.Asked(views, steps, i) == Asked(machines, moves, i)
    decreases i
  {
    if i > 0 {
      AskedOfTheDisk(machines, moves, views, steps, i - 1);
      var k := i - 1;
      assert SameAsk(machines[k], moves[k], views[k], steps[k]);
    }
  }

  function Completions<T, B>(moves: seq<Move<T, B>>, i: nat): nat
    requires i <= |moves|
  {
    if i == 0 then 0 else Completions(moves, i - 1) + (if moves[i - 1].Completion? then 1 else 0)
  }

  /** The tasks the driver's turns have readied on a signal, each with what the buffer of its own call held then. */
  ghost function Served<T, B>(machines: seq<Machine<T, B>>, moves: seq<Move<T, B>>, i: nat): seq<D.Outcome<T, B>>
    requires i <= |moves| && i <= |machines|
  {
    if i == 0 then []
    else
      var m, before, asked := machines[i - 1], Served(machines, moves, i - 1), Asked(machines, moves, i - 1);
      if moves[i - 1].DriverTurn? && m.io.signal && DISK_RING < |m.kernel.rings| && m.kernel.rings[DISK_RING] != []
         && |before| < |asked| && asked[|before|].request.buffer in m.io.memory
      then before + [D.Outcome(m.kernel.rings[DISK_RING][0], m.io.memory[asked[|before|].request.buffer])]
      else before
  }

  lemma {:induction false} ServedByTheDisk<T, B>(machines: seq<Machine<T, B>>, moves: seq<Move<T, B>>,
                                                 views: seq<D.State<T, B>>, steps: seq<D.Step<T, B>>, i: nat)
    requires AllSameAsk(machines, moves, views, steps) && i <= |moves|
    ensures R.Served(views, steps, i) == Served(machines, moves, i) && R.Completions(steps, i) == Completions(moves, i)
    decreases i
  {
    if i > 0 {
      ServedByTheDisk(machines, moves, views, steps, i - 1);
      AskedOfTheDisk(machines, moves, views, steps, i - 1);
      var k := i - 1;
      assert SameAsk(machines[k], moves[k], views[k], steps[k]);
    }
  }

  /**
   * So the kernel's clients get what the sequential disk would give them, each for the block,
   * buffer and operation of its own call, in the order of the calls.
   */
  lemma ClientsGetSequentialAnswers<T, B>(machines: seq<Machine<T, B>>, moves: seq<Move<T, B>>, i: nat)
    requires IsRun(machines, moves) && Starts(machines[0]) && i < |machines|
    ensures var blocks, asked, served := machines[0].io.device.blocks, Asked(machines, moves, i), Served(machines, moves, i);
            && |served| <= Completions(moves, i) <= |asked|
            && machines[i].io.device.blocks == D.Exec(blocks, asked[..Completions(moves, i)])
            && forall k :: 0 <= k < |served| ==>
                 && 0 <= asked[k].request.block < |blocks|
                 && served[k] == D.Outcome(asked[k].request.tid, D.Answer(blocks, asked, k))
  {
    RunIsDiskRun(machines, moves);
    RunAsksTheSame(machines, moves);
    AskedOfTheDisk(machines, moves, Views(machines), StepsOf(machines, moves), i);
    ServedByTheDisk(machines, moves, Views(machines), StepsOf(machines, moves), i);
    R.RefinesSequentialDisk(Views(machines), StepsOf(machines, moves), i);
  }

  /** And once nobody makes new requests they all return, as soon as driver and device have had their turns. */
  lemma ClientsAllReturn<T, B>(machines: seq<Machine<T, B>>, moves: seq<Move<T, B>>, i: nat)
    requires IsRun(machines, moves) && Inv(machines[0]) && i < |machines|
    requires forall j :: 0 <= j < |moves| ==> !moves[j].BlockOp?
    ensures DISK_RING < |machines[0].kernel.rings| && DISK_RING < |machines[i].kernel.rings|
    ensures Turns(moves, i) + R.Work(View(machines[i])) <= R.Work(View(machines[0]))
    ensures !Awake(machines[i].kernel) && !Busy(machines[i].io.device) ==> R.AllReturned(View(machines[i]))
  {
    InvRunIsDiskRun(machines, moves);
    R.EveryRequestReturns(Views(machines), StepsOf(machines, moves), i);
    RunAsksTheSame(machines, moves);
    TurnsAreInternal(machines, moves, Views(machines), StepsOf(machines, moves), i);
  }

  /** The turns of driver and device among the first i moves. */
  function Turns<T, B>(moves: seq<Move<T, B>>, i: nat): nat
    requires i <= |moves|
  {
    if i == 0 then 0 else Turns(moves, i - 1) + (if moves[i - 1].DriverTurn? || moves[i - 1].Completion? then 1 else 0)
  }

  lemma {:induction false} TurnsAreInternal<T, B>(machines: seq<Machine<T, B>>, moves: seq<Move<T, B>>,
                                                  views: seq<D.State<T, B>>, steps: seq<D.Step<T, B>>, i: nat)
    requires AllSameAsk(machines, moves, views, steps) && i <= |moves|
    ensures R.Internals(steps, i) == Turns(moves, i)
    decreases i
  {
    if i > 0 {
      TurnsAreInternal(machines, moves, views, steps, i - 1);
      var k := i - 1;
      assert SameAsk(machines[k], moves[k], views[k], steps[k]);
    }
  }

  // ---------------------------------------------------------------- any requests

  lemma StepIsPlaced<T, B>(machines: seq<Machine<T, B>>, moves: seq<Move<T, B>>, i: nat)
    requires IsLooseRun(machines, moves) && 0 < i < |machines| && DriverPlaced(machines[i - 1].kernel)
    ensures DriverPlaced(machines[i].kernel)
  {
    MoveIsStep(machines[i - 1], moves[i - 1]);
  }

  lemma {:induction false} LooseRunIsPlaced<T, B>(machines: seq<Machine<T, B>>, moves: seq<Move<T, B>>, i: nat)
    requires IsLooseRun(machines, moves) && Starts(machines[0]) && i < |machines|
    ensures DriverPlaced(machines[i].kernel)
    decreases i
  {
    if i > 0 {
      LooseRunIsPlaced(machines, moves, i - 1);
      StepIsPlaced(machines, moves, i);
    }
  }

  lemma LooseRunIsDiskRun<T, B>(machines: seq<Machine<T, B>>, moves: seq<Move<T, B>>)
    requires IsLooseRun(machines, moves) && Starts(machines[0])
    ensures forall i :: 0 <= i < |machines| ==> DISK_RING < |machines[i].kernel.rings|
    ensures X.IsLooseRun(Views(machines), StepsOf(machines, moves)) && R.Starts(Views(machines)[0])
  {
    forall i | 0 <= i < |machines|
      ensures DriverPlaced(machines[i].kernel)
    {
      LooseRunIsPlaced(machines, moves, i);
    }
    var views, steps := Views(machines), StepsOf(machines, moves);
    forall i | 0 <= i < |steps|
      ensures D.Enabled(views[i], steps[i]) && views[i + 1] == D.Next(views[i], steps[i])
    {
      MoveIsStep(machines[i], moves[i]);
    }
  }

  /** Every request so far was for a block of the disk and a real buffer. */
  ghost predicate AllFit<T, B>(n: nat, moves: seq<Move<T, B>>, i: nat)
    requires i <= |moves|
  {
    forall j :: 0 <= j < i && moves[j].BlockOp? ==> 0 <= moves[j].block < n && moves[j].buffer != NULL
  }

  /** In the kernel, when driver and device are at rest, all clients have been woken exactly if every request was fit. */
  lemma AllWokenIffAllFit<T, B>(machines: seq<Machine<T, B>>, moves: seq<Move<T, B>>, i: nat)
    requires IsLooseRun(machines, moves) && Starts(machines[0]) && i < |machines|
    requires !Awake(machines[i].kernel) && !Busy(machines[i].io.device)
    ensures DISK_RING < |machines[i].kernel.rings|
    ensures machines[i].kernel.rings[DISK_RING] == [machines[i].kernel.driver]
            <==> AllFit(|machines[0].io.initial|, moves, i)
  {
    LooseRunIsDiskRun(machines, moves);
    X.AllWokenIffAllFit(Views(machines), StepsOf(machines, moves), i);
    FitMoves(machines, moves, |machines[0].io.initial|, i);
  }

  lemma FitMoves<T, B>(machines: seq<Machine<T, B>>, moves: seq<Move<T, B>>, n: nat, i: nat)
    requires IsLooseRun(machines, moves) && i <= |moves|
    ensures X.AllFit(n, StepsOf(machines, moves), i) <==> AllFit(n, moves, i)
  {
    var steps := StepsOf(machines, moves);
    forall j | 0 <= j < i
      ensures steps[j].BlockOp? <==> moves[j].BlockOp?
      ensures moves[j].BlockOp? ==> steps[j].block == moves[j].block && steps[j].buffer == moves[j].buffer
    {
      assert steps[j] == StepOf(machines[j], moves[j]);
    }
  }

  // ---------------------------------------------------------------- the kernel's part of a run

  /** The kernel actions that a move consists of. */
  function ActionsOf<T(==), B>(m: Machine<T, B>, a: Move<T, B>): seq<Action<T>>
    requires DISK_RING < |m.kernel.rings|
  {
    var queue := m.kernel.rings[DISK_RING];
    match a
    case Call(c) => [c]
    case BlockOp(_, _, _) => (if Marked(m.kernel) then [DiskResume(m.kernel.driver)] else []) + [DiskSuspend]
    case DriverTurn => (if m.io.signal && queue != [] then [DiskResume(queue[0])] else []) + [DiskSuspend]
    case Completion => [DiskResume(m.kernel.driver)]
    case Store(_, _) => []
  }

  ghost predicate Leads<T>(states: seq<State<T>>, actions: seq<Action<T>>, first: State<T>, last: State<T>) {
    KernelRuns.IsRun(states, actions) && states[0] == first && states[|actions|] == last
  }

  lemma LeadOn<T>(states: seq<State<T>>, actions: seq<Action<T>>, first: State<T>, s: State<T>, a: Action<T>)
    requires Leads(states, actions, first, s) && KernelRuns.Legal(s, a)
    ensures Leads(states + [KernelRuns.Next(s, a)], actions + [a], first, KernelRuns.Next(s, a))
  {}

  /** One action, after a task of disk_queue has been readied or not. */
  lemma LeadOnTwice<T>(states: seq<State<T>>, actions: seq<Action<T>>, first: State<T>, s: State<T>,
                       readied: seq<Action<T>>, a: Action<T>) returns (more: seq<State<T>>)
    requires Leads(states, actions, first, s) && |readied| <= 1 && (readied != [] ==> KernelRuns.Legal(s, readied[0]))
    requires KernelRuns.Legal(if readied == [] then s else KernelRuns.Next(s, readied[0]), a)
    ensures Leads(more, actions + (readied + [a]), first,
                  KernelRuns.Next(if readied == [] then s else KernelRuns.Next(s, readied[0]), a))
  {
    if readied == [] {
      LeadOn(states, actions, first, s, a);
      more := states + [KernelRuns.Next(s, a)];
      assert actions + ([] + [a]) == actions + [a];
    } else {
      var r := KernelRuns.Next(s, readied[0]);
      LeadOn(states, actions, first, s, readied[0]);
      LeadOn(states + [r], actions + [readied[0]], first, r, a);
      more := states + [r] + [KernelRuns.Next(r, a)];
      assert actions + (readied + [a]) == actions + [readied[0]] + [a];
    }
  }

  lemma MoveIsKernelRun<T, B>(states: seq<State<T>>, actions: seq<Action<T>>, first: State<T>, m: Machine<T, B>, a: Move<T, B>)
    returns (more: seq<State<T>>)
    requires Leads(states, actions, first, m.kernel) && Legal(m, a) && DriverPlaced(m.kernel)
    ensures Leads(more, actions + ActionsOf(m, a), first, Next(m, a).kernel)
  {
    var s, queue := m.kernel, m.kernel.rings[DISK_RING];
    match a
    case Call(c) =>
      LeadOn(states, actions, first, s, c);
      more := states + [KernelRuns.Next(s, c)];
    case BlockOp(_, _, _) =>
      more := LeadOnTwice(states, actions, first, s, if Marked(s) then [DiskResume(s.driver)] else [], DiskSuspend);
    case DriverTurn =>
      more := LeadOnTwice(states, actions, first, s, if m.io.signal && queue != [] then [DiskResume(queue[0])] else [], DiskSuspend);
    case Completion =>
      LeadOn(states, actions, first, s, DiskResume(s.driver));
      more := states + [KernelRuns.Next(s, DiskResume(s.driver))];
    case Store(_, _) =>
      more := states;
      assert actions + [] == actions;
  }

  /** The kernel actions of the first i moves. */
  ghost function KernelActions<T, B>(machines: seq<Machine<T, B>>, moves: seq<Move<T, B>>, i: nat): seq<Action<T>>
    requires i <= |moves| && i <= |machines| && forall j :: 0 <= j < |machines| ==> DISK_RING < |machines[j].kernel.rings|
  {
    if i == 0 then [] else KernelActions(machines, moves, i - 1) + ActionsOf(machines[i - 1], moves[i - 1])
  }

  lemma MoveAt<T, B>(machines: seq<Machine<T, B>>, moves: seq<Move<T, B>>, i: nat)
    requires IsLooseRun(machines, moves) && i < |moves|
    ensures Legal(machines[i], moves[i]) && machines[i + 1] == Next(machines[i], moves[i])
  {}

  /** With the disk at work too, what the kernel goes through is a run of the kernel: all that is proved of those holds. */
  lemma {:induction false} RunIsKernelRun<T, B>(machines: seq<Machine<T, B>>, moves: seq<Move<T, B>>, i: nat)
    returns (states: seq<State<T>>)
    requires IsLooseRun(machines, moves) && Starts(machines[0]) && i < |machines|
    ensures forall j :: 0 <= j < |machines| ==> DISK_RING < |machines[j].kernel.rings|
    ensures Leads(states, KernelActions(machines, moves, i), machines[0].kernel, machines[i].kernel)
    decreases i
  {
    LooseRunIsDiskRun(machines, moves);
    if i == 0 {
      states := [machines[0].kernel];
    } else {
      var k := i - 1;
      states := RunIsKernelRun(machines, moves, k);
      MoveAt(machines, moves, k);
      LooseRunIsPlaced(machines, moves, k);
      states := MoveIsKernelRun(states, KernelActions(machines, moves, k), machines[0].kernel, machines[k], moves[k]);
    }
  }
}
