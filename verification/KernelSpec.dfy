/**
 * The kernel as a transition function on plain values.  T is the type of task
 * descriptors: the pointer kernel of module Kernel is proved against these
 * functions with T the type of queue nodes.
 */
module KernelSpec {
  import opened Sequences

  const READY_RING: nat := 0
  const SUSPENDED_RING: nat := 1
  const SLEEPING_RING: nat := 2
  const DISK_RING: nat := 3
  const FIRST_SEM_RING: nat := 4

  const MAIN_PID := 0
  const DISPATCHER_PID := -1
  const UNSET_DRIVER_PID := -2
  const DEFAULT_PRIORITY := 0
  const MAX_PRIORITY := -20
  const ALPHA := -1
  const QUANTUM_LIMIT := 10
  const INT_MAX := 0x7FFF_FFFF
  const NOBODY := -1

  datatype Status = Ready | Running | Suspended | Terminated

  datatype Tcb = Tcb(
    id: int,
    status: Status,
    quantum: int,
    exitCode: int,
    dynamicPriority: int,
    staticPriority: int,
    activations: nat,
    waitingTask: int,
    wakeUpTime: int)

  datatype Sem = Sem(value: int, active: bool)

  /** rings[READY_RING], ..., rings[FIRST_SEM_RING + k] is the queue of semaphore k. */
  datatype State<T> = State(
    rings: seq<seq<T>>,
    tcb: map<T, Tcb>,
    sems: seq<Sem>,
    curr: T,
    dispatcher: T,
    driver: T,
    userTasks: int,
    clock: int,
    lastId: int)

  // ---------------------------------------------------------------- rings

  predicate Linked<T(==)>(rings: seq<seq<T>>, t: T) {
    exists r :: 0 <= r < |rings| && t in rings[r]
  }

  /** queue_remove, whose error codes the kernel ignores. */
  function RemoveFrom<T(==)>(rings: seq<seq<T>>, r: nat, t: T): seq<seq<T>>
    requires r < |rings|
  {
    rings[r := Without(rings[r], t)]
  }

  /** queue_append, which rejects a task that some ring still holds. */
  function AppendTo<T(==)>(rings: seq<seq<T>>, r: nat, t: T): seq<seq<T>>
    requires r < |rings|
  {
    if Linked(rings, t) then rings else rings[r := rings[r] + [t]]
  }

  function Move<T(==)>(rings: seq<seq<T>>, from: nat, to: nat, t: T): seq<seq<T>>
    requires from < |rings| && to < |rings|
  {
    AppendTo(RemoveFrom(rings, from, t), to, t)
  }

  // ---------------------------------------------------------------- shape

  /** Everything the kernel dereferences is an initialised descriptor. */
  ghost predicate Shape<T>(s: State<T>) {
    && |s.rings| == FIRST_SEM_RING + |s.sems|
    && s.curr in s.tcb
    && s.dispatcher in s.tcb
    && (forall r, i :: 0 <= r < |s.rings| && 0 <= i < |s.rings[r]| ==> s.rings[r][i] in s.tcb)
  }

  lemma MoveMembers<T>(rings: seq<seq<T>>, from: nat, to: nat, t: T, r: nat, x: T)
    requires from < |rings| && to < |rings| && r < |rings|
    requires x in Move(rings, from, to, t)[r]
    ensures x in rings[r] || x == t
  {
    var mid := RemoveFrom(rings, from, t);
    assert x in mid[r] || x == t;
    if x in mid[r] && r == from {
      if t in rings[r] {
        var i := IndexOf(rings[r], t);
        assert mid[r] == rings[r][..i] + rings[r][i + 1..];
      }
    }
  }

  /** One task record changes and one task moves: the shape stays. */
  lemma MoveKeepsShape<T>(s: State<T>, from: nat, to: nat, t: T)
    requires Shape(s) && t in s.tcb && from < |s.rings| && to < |s.rings|
    ensures Shape(s.(rings := Move(s.rings, from, to, t)))
  {
    var rings := Move(s.rings, from, to, t);
    forall r, i | 0 <= r < |rings| && 0 <= i < |rings[r]|
      ensures rings[r][i] in s.tcb
    {
      MoveMembers(s.rings, from, to, t, r, rings[r][i]);
    }
  }

  // ---------------------------------------------------------------- switching

  function SetStatus<T(==)>(s: State<T>, t: T, status: Status): State<T>
    requires t in s.tcb
  {
    s.(tcb := s.tcb[t := s.tcb[t].(status := status)])
  }

  function TaskSwitch<T(==)>(s: State<T>, t: T): (r: State<T>)
    requires Shape(s) && t in s.tcb
    ensures Shape(r)
  {
    SetStatus(SetStatus(s, s.curr, Suspended), t, Running).(curr := t)
  }

  function TaskYield<T(==)>(s: State<T>): (r: State<T>)
    requires Shape(s)
    ensures Shape(r)
  {
    TaskSwitch(s, s.dispatcher)
  }

  function TaskSuspend<T(==)>(s: State<T>, ring: nat): (r: State<T>)
    requires Shape(s) && ring < |s.rings|
    ensures Shape(r)
  {
    MoveKeepsShape(s, READY_RING, ring, s.curr);
    TaskYield(SetStatus(s.(rings := Move(s.rings, READY_RING, ring, s.curr)), s.curr, Suspended))
  }

  function TaskResume<T(==)>(s: State<T>, t: T, ring: nat): (r: State<T>)
    requires Shape(s) && t in s.tcb && ring < |s.rings|
    ensures Shape(r)
  {
    MoveKeepsShape(s, ring, READY_RING, t);
    SetStatus(s.(rings := Move(s.rings, ring, READY_RING, t)), t, Ready)
  }

  // ---------------------------------------------------------------- waking while walking

  /** Why a traversal takes tasks out: their alarm is due, or the task they join has exited. */
  datatype Reason = Alarm(now: int) | Exited(id: int)

  predicate Due(p: Tcb, why: Reason) {
    match why
    case Alarm(now) => p.wakeUpTime <= now
    case Exited(id) => p.waitingTask == id
  }

  function WakeOne<T(==)>(s: State<T>, ring: nat, why: Reason, t: T): (r: State<T>)
    requires Shape(s) && t in s.tcb && ring < |s.rings|
    ensures Shape(r) && r.tcb.Keys == s.tcb.Keys && |r.rings| == |s.rings|
    ensures r == s.(rings := r.rings, tcb := r.tcb)
  {
    if !Due(s.tcb[t], why) then
      s
    else
      var awake := TaskResume(s, t, ring);
      if why.Alarm? then awake else awake.(tcb := awake.tcb[t := awake.tcb[t].(waitingTask := NOBODY)])
  }

  /** The traversal of `walk`, in order, taking every due task from `ring`. */
  function WakeAll<T(==)>(s: State<T>, ring: nat, why: Reason, walk: seq<T>): (r: State<T>)
    requires Shape(s) && ring < |s.rings|
    requires forall i :: 0 <= i < |walk| ==> walk[i] in s.tcb
    ensures Shape(r) && r.tcb.Keys == s.tcb.Keys && |r.rings| == |s.rings|
    ensures r == s.(rings := r.rings, tcb := r.tcb)
  {
    if walk == [] then s
    else WakeOne(WakeAll(s, ring, why, walk[..|walk| - 1]), ring, why, walk[|walk| - 1])
  }

  // ---------------------------------------------------------------- scheduling

  /** The first task of least dynamic priority, as the scheduler's scan finds it. */
  function Choose<T(==)>(ready: seq<T>, tcb: map<T, Tcb>): (t: T)
    requires ready != [] && forall i :: 0 <= i < |ready| ==> ready[i] in tcb
    ensures t in ready
  {
    var last := |ready| - 1;
    if last == 0 then ready[0]
    else
      var best := Choose(ready[..last], tcb);
      if tcb[ready[last]].dynamicPriority < tcb[best].dynamicPriority then ready[last] else best
  }

  function Aged<T(==)>(ready: seq<T>, tcb: map<T, Tcb>): (r: map<T, Tcb>)
    ensures r.Keys == tcb.Keys
  {
    map t | t in tcb :: if t in ready then tcb[t].(dynamicPriority := tcb[t].dynamicPriority + ALPHA) else tcb[t]
  }

  function ResetPriority<T(==)>(tcb: map<T, Tcb>, t: T): map<T, Tcb>
    requires t in tcb
  {
    tcb[t := tcb[t].(dynamicPriority := tcb[t].staticPriority)]
  }

  /** The records after one scheduler call that found somebody to run. */
  function Scheduled<T(==)>(ready: seq<T>, tcb: map<T, Tcb>): (r: map<T, Tcb>)
    requires ready != [] && forall i :: 0 <= i < |ready| ==> ready[i] in tcb
    ensures r.Keys == tcb.Keys
  {
    ResetPriority(Aged(ready, tcb), Choose(ready, tcb))
  }

  /** Bookkeeping of the dispatcher just before it hands over the processor. */
  function Activated<T(==)>(s: State<T>, next: T): (r: State<T>)
    requires Shape(s) && next in s.tcb
    ensures Shape(r) && next in r.tcb
  {
    var counted := s.tcb[s.dispatcher := s.tcb[s.dispatcher].(activations := s.tcb[s.dispatcher].activations + 1)];
    var p := counted[next];
    s.(tcb := counted[next := p.(activations := p.activations + 1, quantum := 0)])
  }

  // ---------------------------------------------------------------- the calls

  function DriverId<T(==)>(s: State<T>): int {
    if s.driver in s.tcb then s.tcb[s.driver].id else UNSET_DRIVER_PID
  }

  function NewTcb(id: int): Tcb {
    Tcb(id, Ready, 0, 0, DEFAULT_PRIORITY, DEFAULT_PRIORITY, 0, NOBODY, 0)
  }

  /** A fresh descriptor is filled in and given the next id. */
  function Register<T(==)>(s: State<T>, t: T): (r: State<T>)
    requires Shape(s) && t !in s.tcb
    ensures Shape(r) && t in r.tcb
  {
    s.(tcb := s.tcb[t := NewTcb(s.lastId + 1)], lastId := s.lastId + 1)
  }

  /** The new task is counted, unless it is the disk driver. */
  function Count<T(==)>(s: State<T>, t: T): (r: State<T>)
    requires t in s.tcb
  {
    s.(userTasks := if s.tcb[t].id == DriverId(s) then s.userTasks else s.userTasks + 1)
  }

  function TaskInit<T(==)>(s: State<T>, t: T): (r: State<T>)
    requires Shape(s) && t !in s.tcb
    ensures Shape(r)
  {
    var s1 := Register(s, t);
    Count(s1.(rings := AppendTo(s1.rings, READY_RING, t)), t)
  }

  function SetWaiting<T(==)>(s: State<T>, id: int): (r: State<T>)
    requires Shape(s)
    ensures Shape(r)
  {
    s.(tcb := s.tcb[s.curr := s.tcb[s.curr].(waitingTask := id)])
  }

  function TaskWait<T(==)>(s: State<T>, target: T): (r: State<T>)
    requires Shape(s) && target in s.tcb
    ensures Shape(r)
  {
    if s.tcb[target].status == Terminated then s
    else TaskSuspend(SetWaiting(s, s.tcb[target].id), SUSPENDED_RING)
  }

  function SetAlarm<T(==)>(s: State<T>, d: int): (r: State<T>)
    requires Shape(s)
    ensures Shape(r)
  {
    s.(tcb := s.tcb[s.curr := s.tcb[s.curr].(wakeUpTime := s.clock + d)])
  }

  function TaskSleep<T(==)>(s: State<T>, d: int): (r: State<T>)
    requires Shape(s)
    ensures Shape(r)
  {
    TaskSuspend(SetAlarm(s, d), SLEEPING_RING)
  }

  function Exiting<T(==)>(s: State<T>, code: int): (r: State<T>)
    requires Shape(s)
    ensures Shape(r)
  {
    s.(tcb := s.tcb[s.curr := s.tcb[s.curr].(status := Terminated, exitCode := code)])
  }

  /** The running task leaves the ready ring for good. */
  function Retire<T(==)>(s: State<T>): (r: State<T>)
    requires Shape(s)
    ensures Shape(r)
  {
    RemoveKeepsShape(s, READY_RING, s.curr);
    s.(rings := RemoveFrom(s.rings, READY_RING, s.curr), userTasks := s.userTasks - 1, curr := s.dispatcher)
  }

  /** The running task is marked, and whoever waits for its id is woken. */
  function Announced<T(==)>(s: State<T>, code: int): (r: State<T>)
    requires Shape(s)
    ensures Shape(r)
  {
    var s1 := Exiting(s, code);
    WakeAll(s1, SUSPENDED_RING, Exited(s1.tcb[s1.curr].id), s1.rings[SUSPENDED_RING])
  }

  function TaskExit<T(==)>(s: State<T>, code: int): (r: State<T>)
    requires Shape(s)
    ensures Shape(r)
  {
    Retire(Announced(s, code))
  }

  lemma RemoveKeepsShape<T>(s: State<T>, ring: nat, t: T)
    requires Shape(s) && ring < |s.rings|
    ensures Shape(s.(rings := RemoveFrom(s.rings, ring, t)))
  {
    var rings := RemoveFrom(s.rings, ring, t);
    forall r, i | 0 <= r < |rings| && 0 <= i < |rings[r]|
      ensures rings[r][i] in s.tcb
    {
      if r == ring && t in s.rings[r] {
        var j := IndexOf(s.rings[r], t);
        assert rings[r][i] == s.rings[r][if i < j then i else i + 1];
      }
    }
  }

  function SemInit<T(==)>(s: State<T>, value: int): (r: State<T>)
    requires Shape(s)
    ensures Shape(r)
  {
    s.(sems := s.sems + [Sem(value, true)], rings := s.rings + [[]])
  }

  function SetSem<T(==)>(s: State<T>, k: nat, sem: Sem): (r: State<T>)
    requires k < |s.sems|
  {
    s.(sems := s.sems[k := sem])
  }

  function SemDown<T(==)>(s: State<T>, k: nat): (r: State<T>)
    requires Shape(s) && k < |s.sems|
    ensures Shape(r)
  {
    if !s.sems[k].active then s
    else
      var v := s.sems[k].value - 1;
      var s1 := SetSem(s, k, Sem(v, true));
      if v < 0 then TaskSuspend(s1, FIRST_SEM_RING + k) else s1
  }

  function SemUp<T(==)>(s: State<T>, k: nat): (r: State<T>)
    requires Shape(s) && k < |s.sems|
    ensures Shape(r)
  {
    if !s.sems[k].active then s
    else
      var v := s.sems[k].value + 1;
      var s1 := SetSem(s, k, Sem(v, true));
      var queue := s.rings[FIRST_SEM_RING + k];
      if v <= 0 && queue != [] then TaskResume(s1, queue[0], FIRST_SEM_RING + k) else s1
  }

  /** Resume the head of the ring until the ring is empty. */
  function ReleaseAll<T(==)>(s: State<T>, ring: nat): (r: State<T>)
    requires Shape(s) && READY_RING < ring < |s.rings|
    ensures Shape(r) && r.sems == s.sems
    decreases |s.rings[ring]|
  {
    if s.rings[ring] == [] then s
    else ReleaseAll(TaskResume(s, s.rings[ring][0], ring), ring)
  }

  function SemDestroy<T(==)>(s: State<T>, k: nat): (r: State<T>)
    requires Shape(s) && k < |s.sems|
    ensures Shape(r) && |r.sems| == |s.sems|
  {
    if !s.sems[k].active then s
    else ReleaseAll(SetSem(s, k, s.sems[k].(active := false)), FIRST_SEM_RING + k)
  }

  function SetPrio<T(==)>(s: State<T>, t: T, prio: int): (r: State<T>)
    requires Shape(s) && t in s.tcb
    ensures Shape(r)
  {
    s.(tcb := s.tcb[t := s.tcb[t].(staticPriority := prio, dynamicPriority := prio)])
  }

  function CountTick<T(==)>(s: State<T>): (r: State<T>)
    requires Shape(s)
    ensures Shape(r)
  {
    var p := s.tcb[s.curr];
    var quantum := if p.quantum + 1 == QUANTUM_LIMIT then 0 else p.quantum + 1;
    s.(clock := s.clock + 1, tcb := s.tcb[s.curr := p.(quantum := quantum)])
  }

  /** The timer interrupt: the running task's quantum grows, and it yields when the quantum is used up. */
  function Tick<T(==)>(s: State<T>): (r: State<T>)
    requires Shape(s)
    ensures Shape(r)
  {
    if s.tcb[s.curr].quantum + 1 == QUANTUM_LIMIT then TaskYield(CountTick(s)) else CountTick(s)
  }

  function WakeTasks<T(==)>(s: State<T>): (r: State<T>)
    requires Shape(s)
    ensures Shape(r) && r == s.(rings := r.rings, tcb := r.tcb) && |r.rings| == |s.rings| && r.tcb.Keys == s.tcb.Keys
  {
    WakeAll(s, SLEEPING_RING, Alarm(s.clock), s.rings[SLEEPING_RING])
  }

  /** The scheduler's choice gets the processor. */
  function RunNext<T(==)>(s: State<T>): (r: State<T>)
    requires Shape(s) && s.rings[READY_RING] != []
    ensures Shape(r)
  {
    var ready := s.rings[READY_RING];
    var next := Choose(ready, s.tcb);
    TaskSwitch(Activated(s.(tcb := Scheduled(ready, s.tcb)), next), next)
  }

  /** One round of the dispatcher loop, up to the switch. */
  function Dispatch<T(==)>(s: State<T>): (r: State<T>)
    requires Shape(s)
    ensures Shape(r)
  {
    var s1 := WakeTasks(s);
    if s1.rings[READY_RING] == [] then s1 else RunNext(s1)
  }

  // ---------------------------------------------------------------- boot

  function DispatcherTcb(): Tcb {
    Tcb(DISPATCHER_PID, Running, -INT_MAX, 0, 0, MAX_PRIORITY, 0, NOBODY, 0)
  }

  function MainTcb(): Tcb {
    Tcb(MAIN_PID, Ready, 0, 0, DEFAULT_PRIORITY, DEFAULT_PRIORITY, 1, NOBODY, 0)
  }

  /** The state ppos_init leaves: the main task alone in the ready ring, and running. */
  function Boot<T(==)>(main: T, dispatcher: T, driver: T): (r: State<T>)
    ensures Shape(r)
  {
    State([[main], [], [], []], map[dispatcher := DispatcherTcb(), main := MainTcb()], [],
          main, dispatcher, driver, 1, 0, 0)
  }
}
