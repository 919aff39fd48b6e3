/**
 * The message queue inside the kernel: its three semaphores are kernel semaphores, and its
 * sleepers are tasks in their rings.  Every run of the two together is a run of MessageQueues.
 */
module KernelMessages {
  import opened Sequences
  import opened KernelSpec
  import opened KernelRuns
  import opened KernelSemaphores
  import opened KernelTheorems
  import opened Fairness
  import Q = MessageQueues
  import QT = MessageQueueTheorems
  import H = MessageQueueHistory

  /** s_buffer, s_item and s_vaga are the kernel's semaphores base, base + 1 and base + 2; users names the callers. */
  datatype Machine<U, M> = Machine(kernel: State<U>, users: seq<U>, base: nat, queue: Q.State<M>)

  datatype Move<U, M> = Call(a: Action<U>) | Queue(step: Q.Step<M>)

  /** A kernel call on one of the three semaphores. */
  predicate Touches<U>(a: Action<U>, base: nat) {
    (a.Down? || a.Up? || a.Destroy?) && base <= a.k <= base + 2
  }

  ghost predicate Legal<U, M>(m: Machine<U, M>, a: Move<U, M>) {
    && Shape(m.kernel) && m.base + 2 < |m.kernel.sems|
    && |m.users| == |m.queue.pcs| && Q.Shape(m.queue) && !m.queue.fault
    && match a
       case Call(c) =>
         && KernelRuns.Legal(m.kernel, c) && !Touches(c, m.base)
         && (forall t :: 0 <= t < |m.users| && m.users[t] == m.kernel.curr && m.queue.pcs[t] != Q.Idle ==> c.Timer?)
       case Queue(step) =>
         && m.kernel.curr != m.kernel.dispatcher
         && match step
            case CallSend(t, _) => t < |m.users| && m.users[t] == m.kernel.curr && m.queue.pcs[t] == Q.Idle
            case CallRecv(t) => t < |m.users| && m.users[t] == m.kernel.curr && m.queue.pcs[t] == Q.Idle
            case Go(t) => t < |m.users| && m.users[t] == m.kernel.curr && m.queue.pcs[t] != Q.Idle
            case DestroyQueue => true
  }

  /** The kernel call that the next step of a caller is, if it is one. */
  function CallAt<U>(pc: Q.Pc, base: nat): seq<Action<U>> {
    match pc
    case SendVaga => [Down(base + 2)]
    case SendBuffer | RecvBuffer => [Down(base)]
    case SendUnlock | RecvUnlock => [Up(base)]
    case SendItem => [Up(base + 1)]
    case RecvItem => [Down(base + 1)]
    case RecvVaga => [Up(base + 2)]
    case _ => []
  }

  /** One kernel call or none. */
  ghost function AfterCalls<U>(s: State<U>, calls: seq<Action<U>>): State<U>
    requires |calls| <= 1 && (calls != [] ==> KernelRuns.Legal(s, calls[0]))
  {
    if calls == [] then s else KernelRuns.Next(s, calls[0])
  }

  function Destroyed<U(==)>(s: State<U>, base: nat): (r: State<U>)
    requires Shape(s) && base + 2 < |s.sems|
  {
    SemDestroy(SemDestroy(SemDestroy(s, base), base + 1), base + 2)
  }

  ghost function KernelAfter<U, M>(m: Machine<U, M>, step: Q.Step<M>): State<U>
    requires Legal(m, Queue(step))
  {
    match step
    case Go(t) => AfterCalls(m.kernel, CallAt(m.queue.pcs[t], m.base))
    case DestroyQueue => Destroyed(m.kernel, m.base)
    case _ => m.kernel
  }

  // ---------------------------------------------------------------- the two sides agree

  /** Semaphore b of the kernel is a of the queue, with the callers called by their tasks. */
  ghost predicate Named<U>(users: seq<U>, a: S.Semaphore<Q.Tid>, b: S.Semaphore<U>) {
    && b.value == a.value && b.active == a.active && |b.queue| == |a.queue|
    && forall i :: 0 <= i < |a.queue| ==> a.queue[i] < |users| && b.queue[i] == users[a.queue[i]]
  }

  lemma NamedDown<U>(users: seq<U>, a: S.Semaphore<Q.Tid>, b: S.Semaphore<U>, t: Q.Tid)
    requires Named(users, a, b) && t < |users|
    ensures Named(users, S.Apply(a, S.Down(t)), S.Apply(b, S.Down(users[t])))
  {}

  lemma NamedUp<U>(users: seq<U>, a: S.Semaphore<Q.Tid>, b: S.Semaphore<U>)
    requires Named(users, a, b)
    ensures Named(users, S.Apply(a, S.Up), S.Apply(b, S.Up))
  {}

  /** The queue's semaphores by their place among the kernel's. */
  function SemAt<M>(q: Q.State<M>, off: nat): S.Semaphore<Q.Tid> {
    if off == 0 then q.lock else if off == 1 then q.item else q.vaga
  }

  ghost predicate Ties<U, M>(s: State<U>, users: seq<U>, base: nat, q: Q.State<M>, off: nat) {
    && Shape(s) && base + off < |s.sems|
    && Named(users, SemAt(q, off), SemOf(s, base + off))
  }

  ghost predicate Tied<U, M>(m: Machine<U, M>) {
    forall off: nat :: off <= 2 ==> Ties(m.kernel, m.users, m.base, m.queue, off)
  }

  ghost predicate Inv<U, M>(m: Machine<U, M>) {
    && KernelRuns.Inv(m.kernel) && NoDuplicates(m.users) && |m.users| == |m.queue.pcs|
    && Tied(m) && QT.Inv(m.queue) && m.queue.capacity >= 0
  }

  /** A task that runs is asleep in none of the three semaphores. */
  lemma RunningIsAwake<U, M>(m: Machine<U, M>, t: Q.Tid)
    requires Inv(m) && m.kernel.curr != m.kernel.dispatcher && t < |m.users| && m.users[t] == m.kernel.curr
    ensures Q.Awake(m.queue, t)
  {
    forall off: nat | off <= 2
      ensures t !in SemAt(m.queue, off).queue
    {
      assert Ties(m.kernel, m.users, m.base, m.queue, off);
      NotAsleep(m.kernel, m.users, SemAt(m.queue, off), m.base + off, t);
    }
    assert t !in SemAt(m.queue, 0).queue && t !in SemAt(m.queue, 1).queue && t !in SemAt(m.queue, 2).queue;
  }

  lemma NotAsleep<U>(s: State<U>, users: seq<U>, a: S.Semaphore<Q.Tid>, k: nat, t: Q.Tid)
    requires KernelRuns.Inv(s) && s.curr != s.dispatcher && k < |s.sems| && Named(users, a, SemOf(s, k))
    requires t < |users| && users[t] == s.curr
    ensures t !in a.queue
  {}

  // ---------------------------------------------------------------- every move keeps them in agreement

  /** What one kernel call does to semaphore j: one call on it, or nothing. */
  lemma CallOn<U>(s: State<U>, a: Action<U>, j: nat)
    requires KernelRuns.Inv(s) && KernelRuns.Legal(s, a) && j < |s.sems|
    ensures j < |KernelRuns.Next(s, a).sems|
    ensures SemOf(KernelRuns.Next(s, a), j) ==
            if a.Down? && a.k == j then S.Apply(SemOf(s, j), S.Down(s.curr))
            else if a.Up? && a.k == j then S.Apply(SemOf(s, j), S.Up)
            else if a.Destroy? && a.k == j then S.Apply(SemOf(s, j), S.Destroy)
            else SemOf(s, j)
  {
    SemStep(s, a, j);
    if CallsOn(s, a, j) != [] {
      OneCall(SemOf(s, j), CallsOn(s, a, j)[0]);
    }
  }

  lemma CallTies<U, M>(m: Machine<U, M>, a: Action<U>, off: nat)
    requires KernelRuns.Inv(m.kernel) && Legal(m, Call(a)) && off <= 2
    requires Ties(m.kernel, m.users, m.base, m.queue, off)
    ensures Ties(KernelRuns.Next(m.kernel, a), m.users, m.base, m.queue, off)
  {
    CallOn(m.kernel, a, m.base + off);
  }

  lemma CallKeepsTied<U, M>(m: Machine<U, M>, a: Action<U>)
    requires Inv(m) && Legal(m, Call(a))
    ensures Tied(m.(kernel := KernelRuns.Next(m.kernel, a)))
  {
    forall off: nat | off <= 2
      ensures Ties(KernelRuns.Next(m.kernel, a), m.users, m.base, m.queue, off)
    {
      assert Ties(m.kernel, m.users, m.base, m.queue, off);
      CallTies(m, a, off);
    }
  }

  /** What a caller's kernel call does to semaphore k. */
  function Applied<U, X>(calls: seq<Action<U>>, k: nat, sem: S.Semaphore<X>, who: X): S.Semaphore<X> {
    if calls == [] then sem
    else if calls[0].Down? && calls[0].k == k then S.Apply(sem, S.Down(who))
    else if calls[0].Up? && calls[0].k == k then S.Apply(sem, S.Up)
    else sem
  }

  lemma QueueSide<U, M>(q: Q.State<M>, t: Q.Tid, base: nat, off: nat, calls: seq<Action<U>>)
    requires Q.Legal(q, Q.Go(t)) && off <= 2 && calls == CallAt(q.pcs[t], base)
    ensures SemAt(Q.Next(q, Q.Go(t)), off) == Applied(calls, base + off, SemAt(q, off), t)
  {}

  lemma KernelSide<U>(s: State<U>, pc: Q.Pc, base: nat, k: nat)
    requires KernelRuns.Inv(s) && s.curr != s.dispatcher && base + 2 < |s.sems| && k < |s.sems|
    ensures var calls: seq<Action<U>> := CallAt(pc, base);
            && Shape(AfterCalls(s, calls)) && k < |AfterCalls(s, calls).sems|
            && SemOf(AfterCalls(s, calls), k) == Applied(calls, k, SemOf(s, k), s.curr)
  {
    var calls: seq<Action<U>> := CallAt(pc, base);
    if calls != [] {
      CallOn(s, calls[0], k);
    }
  }

  lemma NamedApplied<U>(users: seq<U>, calls: seq<Action<U>>, k: nat, a: S.Semaphore<Q.Tid>, b: S.Semaphore<U>, t: Q.Tid)
    requires Named(users, a, b) && t < |users|
    ensures Named(users, Applied(calls, k, a, t), Applied(calls, k, b, users[t]))
  {
    NamedDown(users, a, b, t);
    NamedUp(users, a, b);
  }

  lemma AppliedTies<U, M>(s: State<U>, r: State<U>, users: seq<U>, base: nat, q: Q.State<M>, p: Q.State<M>,
                          off: nat, t: Q.Tid, calls: seq<Action<U>>)
    requires Ties(s, users, base, q, off) && t < |users| && Shape(r) && base + off < |r.sems|
    requires SemAt(p, off) == Applied(calls, base + off, SemAt(q, off), t)
    requires SemOf(r, base + off) == Applied(calls, base + off, SemOf(s, base + off), users[t])
    ensures Ties(r, users, base, p, off)
  {
    NamedApplied(users, calls, base + off, SemAt(q, off), SemOf(s, base + off), t);
  }

  lemma GoTies<U, M>(s: State<U>, users: seq<U>, base: nat, q: Q.State<M>, t: Q.Tid, off: nat)
    requires KernelRuns.Inv(s) && s.curr != s.dispatcher && base + 2 < |s.sems| && off <= 2
    requires t < |users| && users[t] == s.curr && Q.Legal(q, Q.Go(t)) && Ties(s, users, base, q, off)
    ensures Ties(AfterCalls(s, CallAt(q.pcs[t], base)), users, base, Q.Next(q, Q.Go(t)), off)
  {
    var calls: seq<Action<U>> := CallAt(q.pcs[t], base);
    QueueSide(q, t, base, off, calls);
    KernelSide(s, q.pcs[t], base, base + off);
    AppliedTies(s, AfterCalls(s, calls), users, base, q, Q.Next(q, Q.Go(t)), off, t, calls);
  }

  lemma GoKeepsTied<U, M>(m: Machine<U, M>, t: Q.Tid)
    requires Inv(m) && Legal(m, Queue(Q.Go(t))) && Q.Legal(m.queue, Q.Go(t))
    ensures Tied(m.(kernel := KernelAfter(m, Q.Go(t)), queue := Q.Next(m.queue, Q.Go(t))))
  {
    forall off: nat | off <= 2
      ensures Ties(KernelAfter(m, Q.Go(t)), m.users, m.base, Q.Next(m.queue, Q.Go(t)), off)
    {
      assert Ties(m.kernel, m.users, m.base, m.queue, off);
      GoTies(m.kernel, m.users, m.base, m.queue, t, off);
    }
  }

  lemma DestroyKeepsCurr<U>(s: State<U>, k: nat)
    requires Shape(s) && k < |s.sems|
    ensures SemDestroy(s, k).curr == s.curr && SemDestroy(s, k).dispatcher == s.dispatcher
    ensures |SemDestroy(s, k).sems| == |s.sems|
  {
    ReleaseKeepsQuantum(SetSem(s, k, s.sems[k].(active := false)), FIRST_SEM_RING + k, s.curr);
  }

  lemma DestroyOne<U>(s: State<U>, k: nat, j: nat)
    requires KernelRuns.Inv(s) && s.curr != s.dispatcher && k < |s.sems| && j < |s.sems|
    ensures var r := SemDestroy(s, k);
            && KernelRuns.Inv(r) && r.curr == s.curr && r.dispatcher == s.dispatcher && |r.sems| == |s.sems|
            && SemOf(r, j) == if j == k then S.Apply(SemOf(s, j), S.Destroy) else SemOf(s, j)
  {
    KernelRuns.StepKeepsInv(s, Destroy(k));
    DestroyKeepsCurr(s, k);
    CallOn(s, Destroy(k), j);
  }

  lemma DestroyAll<U>(s: State<U>, base: nat, j: nat)
    requires KernelRuns.Inv(s) && s.curr != s.dispatcher && base + 2 < |s.sems| && base <= j <= base + 2
    ensures var r := Destroyed(s, base);
            && KernelRuns.Inv(r) && |r.sems| == |s.sems| && SemOf(r, j) == S.Apply(SemOf(s, j), S.Destroy)
  {
    DestroyOne(s, base, j);
    var s1 := SemDestroy(s, base);
    DestroyOne(s1, base + 1, j);
    DestroyOne(SemDestroy(s1, base + 1), base + 2, j);
  }

  lemma DestroyTies<U, M>(m: Machine<U, M>, off: nat)
    requires KernelRuns.Inv(m.kernel) && Legal(m, Queue(Q.DestroyQueue)) && off <= 2
    requires Ties(m.kernel, m.users, m.base, m.queue, off)
    ensures Ties(Destroyed(m.kernel, m.base), m.users, m.base, Q.Next(m.queue, Q.DestroyQueue), off)
  {
    DestroyAll(m.kernel, m.base, m.base + off);
  }

  lemma DestroyKeepsTied<U, M>(m: Machine<U, M>)
    requires Inv(m) && Legal(m, Queue(Q.DestroyQueue))
    ensures Tied(m.(kernel := Destroyed(m.kernel, m.base), queue := Q.Next(m.queue, Q.DestroyQueue)))
  {
    forall off: nat | off <= 2
      ensures Ties(Destroyed(m.kernel, m.base), m.users, m.base, Q.Next(m.queue, Q.DestroyQueue), off)
    {
      assert Ties(m.kernel, m.users, m.base, m.queue, off);
      DestroyTies(m, off);
    }
  }

  ghost function Next<U, M>(m: Machine<U, M>, a: Move<U, M>): Machine<U, M>
    requires Legal(m, a) && (a.Queue? ==> Q.Legal(m.queue, a.step))
  {
    match a
    case Call(c) => m.(kernel := KernelRuns.Next(m.kernel, c))
    case Queue(step) => m.(kernel := KernelAfter(m, step), queue := Q.Next(m.queue, step))
  }

  /** Whenever the kernel runs a caller, the queue's next step for it can happen: it is asleep nowhere. */
  lemma CallerCanStep<U, M>(m: Machine<U, M>, step: Q.Step<M>)
    requires Inv(m) && Legal(m, Queue(step))
    ensures Q.Legal(m.queue, step)
  {
    if step.Go? {
      RunningIsAwake(m, step.t);
    }
  }

  lemma QueueMoveKeepsKernel<U, M>(m: Machine<U, M>, step: Q.Step<M>)
    requires KernelRuns.Inv(m.kernel) && Legal(m, Queue(step))
    ensures KernelRuns.Inv(KernelAfter(m, step))
  {
    match step
    case Go(t) =>
      var calls: seq<Action<U>> := CallAt(m.queue.pcs[t], m.base);
      if calls != [] {
        KernelRuns.StepKeepsInv(m.kernel, calls[0]);
      }
    case DestroyQueue => DestroyAll(m.kernel, m.base, m.base);
    case CallSend(_, _) =>
    case CallRecv(_) =>
  }

  lemma QueueMoveKeepsTied<U, M>(m: Machine<U, M>, step: Q.Step<M>)
    requires Inv(m) && Legal(m, Queue(step)) && Q.Legal(m.queue, step)
    ensures Tied(Next(m, Queue(step)))
  {
    match step
    case Go(t) => GoKeepsTied(m, t);
    case DestroyQueue => DestroyKeepsTied(m);
    case CallSend(_, _) => SameSemsTied(m, Q.Next(m.queue, step));
    case CallRecv(_) => SameSemsTied(m, Q.Next(m.queue, step));
  }

  lemma SameSemsTied<U, M>(m: Machine<U, M>, q: Q.State<M>)
    requires Tied(m) && q.lock == m.queue.lock && q.item == m.queue.item && q.vaga == m.queue.vaga
    ensures Tied(m.(queue := q))
  {
    forall off: nat | off <= 2
      ensures Ties(m.kernel, m.users, m.base, q, off)
    {
      assert Ties(m.kernel, m.users, m.base, m.queue, off);
    }
  }

  lemma QueueStepKeepsSize<M>(q: Q.State<M>, step: Q.Step<M>)
    requires Q.Legal(q, step)
    ensures |Q.Next(q, step).pcs| == |q.pcs| && Q.Next(q, step).capacity == q.capacity
  {}

  lemma MoveKeepsInv<U, M>(m: Machine<U, M>, a: Move<U, M>)
    requires Inv(m) && Legal(m, a)
    ensures a.Queue? ==> Q.Legal(m.queue, a.step)
    ensures Inv(Next(m, a))
  {
    if a.Call? {
      KernelRuns.StepKeepsInv(m.kernel, a.a);
      CallKeepsTied(m, a.a);
    } else {
      CallerCanStep(m, a.step);
      QT.StepKeepsInv(m.queue, a.step);
      QueueMoveKeepsKernel(m, a.step);
      QueueMoveKeepsTied(m, a.step);
      QueueStepKeepsSize(m.queue, a.step);
    }
  }

  // ---------------------------------------------------------------- where callers are

  /** Task u is ready, or asleep in one of the three semaphores. */
  ghost predicate Placed<U>(s: State<U>, base: nat, u: U) {
    && Shape(s) && base + 2 < |s.sems|
    && (u in s.rings[READY_RING] || exists k: nat :: base <= k <= base + 2 && SleepsIn(s, k, u))
  }

  ghost predicate SleepsIn<U>(s: State<U>, k: nat, u: U) {
    FIRST_SEM_RING + k < |s.rings| && u in s.rings[FIRST_SEM_RING + k]
  }

  lemma ReadyStays<U>(s: State<U>, a: Action<U>, u: U)
    requires KernelRuns.Inv(s) && KernelRuns.Legal(s, a) && u in s.rings[READY_RING] && u != s.curr
    ensures u in KernelRuns.Next(s, a).rings[READY_RING]
  {
    if a.Schedule? {
      ScheduleMovesSleepers(s);
    } else {
      StepReady(s, a);
    }
  }

  lemma CallerStays<U>(s: State<U>, a: Action<U>)
    requires KernelRuns.Inv(s) && KernelRuns.Legal(s, a) && s.curr in s.rings[READY_RING] && (a.Timer? || a.Down? || a.Up?)
    ensures var r := KernelRuns.Next(s, a);
            s.curr in r.rings[READY_RING] || (a.Down? && SleepsIn(r, a.k, s.curr))
  {
    if a.Up? {
      UpOnSem(s, a.k);
    } else if a.Down? {
      DownOnSem(s, a.k);
    }
  }

  lemma SleeperStaysOrWakes<U>(s: State<U>, a: Action<U>, k: nat, u: U)
    requires KernelRuns.Inv(s) && KernelRuns.Legal(s, a) && k < |s.sems| && SleepsIn(s, k, u)
    ensures SleepsIn(KernelRuns.Next(s, a), k, u) || u in KernelRuns.Next(s, a).rings[READY_RING]
  {
    CallOn(s, a, k);
    var queue := s.rings[FIRST_SEM_RING + k];
    if a.Up? && a.k == k {
      UpOnSem(s, k);
      assert queue != [] ==> queue == queue[..1] + queue[1..];
    } else if a.Destroy? && a.k == k {
      DestroyOnSem(s, k);
    }
  }

  /** No kernel call takes a caller out of its place, but its own call on one of the semaphores. */
  lemma CallKeepsPlace<U>(s: State<U>, a: Action<U>, base: nat, u: U)
    requires KernelRuns.Inv(s) && KernelRuns.Legal(s, a) && Placed(s, base, u)
    requires u == s.curr ==> a.Timer? || ((a.Down? || a.Up?) && Touches(a, base)) || a.Destroy?
    ensures Placed(KernelRuns.Next(s, a), base, u)
  {
    CallOn(s, a, base + 2);
    if u in s.rings[READY_RING] {
      if u != s.curr {
        ReadyStays(s, a, u);
      } else if a.Destroy? {
        DestroyOnSem(s, a.k);
      } else {
        CallerStays(s, a);
      }
    } else {
      var k: nat :| base <= k <= base + 2 && SleepsIn(s, k, u);
      SleeperStaysOrWakes(s, a, k, u);
    }
  }

  /** Every task in the middle of a call is ready or asleep in the queue. */
  ghost predicate CallersPlaced<U, M>(m: Machine<U, M>) {
    |m.users| == |m.queue.pcs| &&
    forall t :: 0 <= t < |m.users| && m.queue.pcs[t] != Q.Idle ==> Placed(m.kernel, m.base, m.users[t])
  }

  lemma DestroyOnePlace<U>(s: State<U>, k: nat, base: nat, u: U)
    requires KernelRuns.Inv(s) && s.curr != s.dispatcher && k < |s.sems| && Placed(s, base, u)
    ensures var r := SemDestroy(s, k);
            && KernelRuns.Inv(r) && r.curr != r.dispatcher && |r.sems| == |s.sems| && Placed(r, base, u)
  {
    DestroyOne(s, k, k);
    CallKeepsPlace(s, Destroy(k), base, u);
  }

  lemma DestroyKeepsPlace<U>(s: State<U>, base: nat, u: U)
    requires KernelRuns.Inv(s) && s.curr != s.dispatcher && Placed(s, base, u)
    ensures Placed(Destroyed(s, base), base, u)
  {
    DestroyOnePlace(s, base, base, u);
    var s1 := SemDestroy(s, base);
    DestroyOnePlace(s1, base + 1, base, u);
    DestroyOnePlace(SemDestroy(s1, base + 1), base + 2, base, u);
  }

  lemma StepKeepsPlace<U, M>(m: Machine<U, M>, step: Q.Step<M>, u: U)
    requires Inv(m) && Legal(m, Queue(step)) && Placed(m.kernel, m.base, u)
    ensures Placed(KernelAfter(m, step), m.base, u)
  {
    match step
    case Go(t) =>
      var calls: seq<Action<U>> := CallAt(m.queue.pcs[t], m.base);
      if calls != [] {
        CallKeepsPlace(m.kernel, calls[0], m.base, u);
      }
    case DestroyQueue => DestroyKeepsPlace(m.kernel, m.base, u);
    case CallSend(_, _) =>
    case CallRecv(_) =>
  }

  lemma CallMovePlaces<U, M>(m: Machine<U, M>, a: Action<U>)
    requires Inv(m) && CallersPlaced(m) && Legal(m, Call(a))
    ensures CallersPlaced(Next(m, Call(a)))
  {
    forall t | 0 <= t < |m.users| && m.queue.pcs[t] != Q.Idle
      ensures Placed(KernelRuns.Next(m.kernel, a), m.base, m.users[t])
    {
      CallKeepsPlace(m.kernel, a, m.base, m.users[t]);
    }
  }

  lemma RunningIsPlaced<U, M>(m: Machine<U, M>)
    requires Inv(m) && m.kernel.curr != m.kernel.dispatcher
    ensures Placed(m.kernel, m.base, m.kernel.curr)
  {
    assert Ties(m.kernel, m.users, m.base, m.queue, 2);
  }

  lemma QueueMovePlaces<U, M>(m: Machine<U, M>, step: Q.Step<M>)
    requires Inv(m) && CallersPlaced(m) && Legal(m, Queue(step)) && Q.Legal(m.queue, step)
    ensures CallersPlaced(Next(m, Queue(step)))
  {
    RunningIsPlaced(m);
    QueueStepKeepsSize(m.queue, step);
    forall t | 0 <= t < |m.users| && Q.Next(m.queue, step).pcs[t] != Q.Idle
      ensures Placed(KernelAfter(m, step), m.base, m.users[t])
    {
      OnlyCallerStarts(m.queue, step, t);
      StepKeepsPlace(m, step, m.users[t]);
    }
  }

  lemma OnlyCallerStarts<M>(q: Q.State<M>, step: Q.Step<M>, t: Q.Tid)
    requires Q.Legal(q, step) && t < |q.pcs| && t < |Q.Next(q, step).pcs| && Q.Next(q, step).pcs[t] != Q.Idle
    ensures q.pcs[t] != Q.Idle || (step.CallSend? && step.t == t) || (step.CallRecv? && step.t == t)
  {}

  // ---------------------------------------------------------------- runs

  ghost predicate IsMove<U, M>(m: Machine<U, M>, a: Move<U, M>, r: Machine<U, M>) {
    Legal(m, a) && (a.Queue? ==> Q.Legal(m.queue, a.step)) && r == Next(m, a)
  }

  /** A run of kernel and queue; by CallerCanStep the second clause of IsMove asks for nothing. */
  ghost predicate IsRun<U, M>(machines: seq<Machine<U, M>>, moves: seq<Move<U, M>>) {
    && |machines| == |moves| + 1
    && forall i :: 0 <= i < |moves| ==> IsMove(machines[i], moves[i], machines[i + 1])
  }

  ghost predicate Good<U, M>(m: Machine<U, M>) {
    Inv(m) && CallersPlaced(m)
  }

  lemma MoveKeepsGood<U, M>(m: Machine<U, M>, a: Move<U, M>, r: Machine<U, M>)
    requires Good(m) && IsMove(m, a, r)
    ensures Good(r)
  {
    MoveKeepsInv(m, a);
    if a.Call? {
      CallMovePlaces(m, a.a);
    } else {
      QueueMovePlaces(m, a.step);
    }
  }

  lemma {:induction false} RunKeepsGood<U, M>(machines: seq<Machine<U, M>>, moves: seq<Move<U, M>>, i: nat)
    requires IsRun(machines, moves) && Good(machines[0]) && i < |machines|
    ensures Good(machines[i])
    decreases i
  {
    if i > 0 {
      RunKeepsGood(machines, moves, i - 1);
      RunMoveGood(machines, moves, i - 1);
    }
  }

  lemma RunMoveGood<U, M>(machines: seq<Machine<U, M>>, moves: seq<Move<U, M>>, i: nat)
    requires IsRun(machines, moves) && i < |moves| && Good(machines[i])
    ensures Good(machines[i + 1])
  {
    MoveKeepsGood(machines[i], moves[i], machines[i + 1]);
  }

  /** mqueue_init on a running kernel, for distinct callers of which none is in a call, starts such a run. */
  lemma InitIsGood<U, M>(s: State<U>, users: seq<U>, capacity: nat, arg: seq<M>)
    requires KernelRuns.Inv(s) && NoDuplicates(users) && |users| == |arg|
    ensures var r := SemInit(SemInit(SemInit(s, 1), 0), capacity);
            Good(Machine(r, users, |s.sems|, Q.Init(capacity, arg)))
  {
    var s1 := SemInit(s, 1);
    var s2 := SemInit(s1, 0);
    var r := SemInit(s2, capacity);
    NewSemKeepsInv(s, 1);
    NewSemKeepsInv(s1, 0);
    NewSemKeepsInv(s2, capacity);
    Q.InitIsLive(capacity, arg);
    var q := Q.Init(capacity, arg);
    assert SemOf(r, |s.sems|) == S.Init(1) && SemOf(r, |s.sems| + 1) == S.Init(0) && SemOf(r, |s.sems| + 2) == S.Init(capacity);
    forall off: nat | off <= 2
      ensures Ties(r, users, |s.sems|, q, off)
    {
      assert off == 0 || off == 1 || off == 2;
    }
  }

  /** In the kernel, whatever else its tasks do: FIFO delivery, bounded buffer, one task in the section, no null buffer. */
  lemma KernelDelivers<U, M>(machines: seq<Machine<U, M>>, moves: seq<Move<U, M>>, i: nat)
    requires IsRun(machines, moves) && Good(machines[0]) && i < |machines|
    ensures QT.Delivering(machines[i].queue)
  {
    RunKeepsGood(machines, moves, i);
    QT.InvDelivers(machines[i].queue);
  }

  /** The queue's sleepers are the tasks in the semaphores' rings, and a caller that does not sleep there is ready. */
  lemma SleepersAreTasks<U, M>(machines: seq<Machine<U, M>>, moves: seq<Move<U, M>>, i: nat, t: Q.Tid)
    requires IsRun(machines, moves) && Good(machines[0]) && i < |machines|
    requires t < |machines[i].users| && t < |machines[i].queue.pcs| && machines[i].queue.pcs[t] != Q.Idle
    ensures Shape(machines[i].kernel)
    ensures Q.Awake(machines[i].queue, t) <==> machines[i].users[t] in machines[i].kernel.rings[READY_RING]
  {
    RunKeepsGood(machines, moves, i);
    AwakeIsReady(machines[i], t);
  }

  lemma AsleepIn<U, M>(m: Machine<U, M>, t: Q.Tid, off: nat)
    requires Inv(m) && t < |m.users| && off <= 2
    ensures t in SemAt(m.queue, off).queue <==> SleepsIn(m.kernel, m.base + off, m.users[t])
  {
    assert Ties(m.kernel, m.users, m.base, m.queue, off);
    var a, ring := SemAt(m.queue, off).queue, m.kernel.rings[FIRST_SEM_RING + m.base + off];
    if SleepsIn(m.kernel, m.base + off, m.users[t]) {
      var i :| 0 <= i < |ring| && ring[i] == m.users[t];
      assert m.users[a[i]] == m.users[t];
      assert Position(m.users, m.users[t]) == t && Position(m.users, m.users[a[i]]) == a[i];
    }
  }

  lemma AwakeIsReady<U, M>(m: Machine<U, M>, t: Q.Tid)
    requires Good(m) && t < |m.users| && m.queue.pcs[t] != Q.Idle
    ensures Q.Awake(m.queue, t) <==> m.users[t] in m.kernel.rings[READY_RING]
  {
    AsleepIn(m, t, 0);
    AsleepIn(m, t, 1);
    AsleepIn(m, t, 2);
    var u := m.users[t];
    if u !in m.kernel.rings[READY_RING] {
      var k: nat :| m.base <= k <= m.base + 2 && SleepsIn(m.kernel, k, u);
      assert k == m.base || k == m.base + 1 || k == m.base + 2;
    } else {
      NotBoth(m.kernel, m.base, u);
      NotBoth(m.kernel, m.base + 1, u);
      NotBoth(m.kernel, m.base + 2, u);
    }
  }

  lemma NotBoth<U>(s: State<U>, k: nat, u: U)
    requires KernelRuns.Inv(s) && u in s.rings[READY_RING]
    ensures !SleepsIn(s, k, u)
  {}

  /** Whoever waits for s_buffer waits for a task that is ready to run: by Fairness.NoStarvation it soon does. */
  lemma HolderIsReady<U, M>(machines: seq<Machine<U, M>>, moves: seq<Move<U, M>>, i: nat, t: Q.Tid) returns (h: Q.Tid)
    requires IsRun(machines, moves) && Good(machines[0]) && i < |machines|
    requires machines[i].queue.active && t in machines[i].queue.lock.queue
    ensures h < |machines[i].users| && Q.Holds(machines[i].queue, h) && Shape(machines[i].kernel)
    ensures machines[i].users[h] in machines[i].kernel.rings[READY_RING]
  {
    RunKeepsGood(machines, moves, i);
    h := QT.LockHasAwakeHolder(machines[i].queue, t);
    AwakeIsReady(machines[i], h);
  }

  // ---------------------------------------------------------------- the queue's part of a run

  /** The queue's steps among the first j moves. */
  function QueueSteps<U, M>(moves: seq<Move<U, M>>, j: nat): seq<Q.Step<M>>
    requires j <= |moves|
  {
    if j == 0 then []
    else QueueSteps(moves, j - 1) + (if moves[j - 1].Queue? then [moves[j - 1].step] else [])
  }

  ghost predicate Leads<U, M>(states: seq<Q.State<M>>, steps: seq<Q.Step<M>>, first: Machine<U, M>, last: Machine<U, M>) {
    QT.IsRun(states, steps) && states[0] == first.queue && states[|steps|] == last.queue
  }

  lemma ExtendRun<M>(states: seq<Q.State<M>>, steps: seq<Q.Step<M>>, step: Q.Step<M>)
    requires QT.IsRun(states, steps) && Q.Legal(states[|steps|], step)
    ensures QT.IsRun(states + [Q.Next(states[|steps|], step)], steps + [step])
  {}

  /** One more move of the kernel is one more step of the queue, or none. */
  lemma LeadOn<U, M>(states: seq<Q.State<M>>, steps: seq<Q.Step<M>>, first: Machine<U, M>, m: Machine<U, M>, a: Move<U, M>,
                     r: Machine<U, M>)
    requires Leads(states, steps, first, m) && IsMove(m, a, r)
    ensures if a.Queue? then Leads(states + [r.queue], steps + [a.step], first, r) else Leads(states, steps, first, r)
  {
    if a.Queue? {
      ExtendRun(states, steps, a.step);
    }
  }

  /** Whatever else the kernel does, the queue's part of a run is a run of MessageQueues. */
  lemma {:induction false} RunIsQueueRun<U, M>(machines: seq<Machine<U, M>>, moves: seq<Move<U, M>>, i: nat)
    returns (states: seq<Q.State<M>>)
    requires IsRun(machines, moves) && i < |machines|
    ensures Leads(states, QueueSteps(moves, i), machines[0], machines[i])
    decreases i
  {
    if i == 0 {
      states := [machines[0].queue];
    } else {
      var k := i - 1;
      states := RunIsQueueRun(machines, moves, k);
      assert IsMove(machines[k], moves[k], machines[k + 1]);
      LeadOn(states, QueueSteps(moves, k), machines[0], machines[k], moves[k], machines[k + 1]);
      if moves[k].Queue? {
        states := states + [machines[i].queue];
      } else {
        assert QueueSteps(moves, i) == QueueSteps(moves, k);
      }
    }
  }

  /** In the kernel, a call caught by mqueue_destroy returns -1 after the few steps it has left. */
  lemma CaughtCallsFail<U, M>(machines: seq<Machine<U, M>>, moves: seq<Move<U, M>>, t: Q.Tid, i: nat)
    requires IsRun(machines, moves) && QT.DeadInv(machines[0].queue) && i < |machines|
    requires t < |machines[0].queue.pcs| && QT.Pending(machines[0].queue.pcs[t])
    ensures QT.Caught(machines[i].queue, t, QT.Left(machines[0].queue.pcs[t]) - QT.Turns(QueueSteps(moves, i), t))
  {
    var states := RunIsQueueRun(machines, moves, i);
    var steps := QueueSteps(moves, i);
    QT.PendingCallsFail(states, steps, t, |steps|);
    assert steps[..|steps|] == steps;
  }

  // ---------------------------------------------------------------- the callers' history, in the kernel

  /** What the callers' moves record, of the first i moves of a kernel run. */
  ghost function HistoryOf<U, M>(machines: seq<Machine<U, M>>, moves: seq<Move<U, M>>, i: nat): H.History<M>
    requires i <= |moves| < |machines|
  {
    if i == 0 then H.NoHistory(|machines[0].queue.pcs|)
    else AfterMove(HistoryOf(machines, moves, i - 1), machines[i - 1], moves[i - 1])
  }

  ghost function AfterMove<U, M>(h: H.History<M>, m: Machine<U, M>, a: Move<U, M>): H.History<M> {
    if a.Queue? then H.Recorded(h, m.queue, a.step) else h
  }

  ghost predicate KeepsAgreement<U, M>(m: Machine<U, M>, a: Move<U, M>, r: Machine<U, M>, h: H.History<M>) {
    H.Agrees(m.queue, h) ==> H.Agrees(r.queue, AfterMove(h, m, a))
  }

  lemma MoveAgrees<U, M>(m: Machine<U, M>, a: Move<U, M>, r: Machine<U, M>, h: H.History<M>)
    requires Good(m) && IsMove(m, a, r) && H.Agrees(m.queue, h)
    ensures H.Agrees(r.queue, AfterMove(h, m, a))
  {
    if a.Queue? {
      H.StepAgrees(m.queue, h, a.step);
    }
  }

  lemma RunMoveAgrees<U, M>(machines: seq<Machine<U, M>>, moves: seq<Move<U, M>>, i: nat)
    requires IsRun(machines, moves) && Good(machines[0]) && i < |moves|
    ensures KeepsAgreement(machines[i], moves[i], machines[i + 1], HistoryOf(machines, moves, i))
  {
    RunKeepsGood(machines, moves, i);
    var h := HistoryOf(machines, moves, i);
    if H.Agrees(machines[i].queue, h) {
      MoveAgrees(machines[i], moves[i], machines[i + 1], h);
    }
  }

  lemma {:induction false} AgreementLasts<U, M>(machines: seq<Machine<U, M>>, moves: seq<Move<U, M>>, i: nat)
    requires i <= |moves| < |machines| && H.Agrees(machines[0].queue, HistoryOf(machines, moves, 0))
    requires forall k :: 0 <= k < |moves| ==>
               KeepsAgreement(machines[k], moves[k], machines[k + 1], HistoryOf(machines, moves, k))
    ensures H.Agrees(machines[i].queue, HistoryOf(machines, moves, i))
    decreases i
  {
    if i > 0 {
      var k := i - 1;
      AgreementLasts(machines, moves, k);
      assert KeepsAgreement(machines[k], moves[k], machines[k + 1], HistoryOf(machines, moves, k));
    }
  }

  lemma RunAgrees<U, M>(machines: seq<Machine<U, M>>, moves: seq<Move<U, M>>, capacity: nat, i: nat)
    requires IsRun(machines, moves) && Good(machines[0]) && QT.Starts(machines[0].queue, capacity) && i < |machines|
    ensures H.Agrees(machines[i].queue, HistoryOf(machines, moves, i))
  {
    H.StartAgrees(machines[0].queue, capacity);
    forall k | 0 <= k < |moves|
      ensures KeepsAgreement(machines[k], moves[k], machines[k + 1], HistoryOf(machines, moves, k))
    {
      RunMoveAgrees(machines, moves, k);
    }
    AgreementLasts(machines, moves, i);
  }

  /**
   * In the kernel too, whatever its other tasks do: what is delivered is what was given to
   * mqueue_send, in the order of the puts; a finished call returned 0 exactly if it put or
   * took a message, else -1; and a served receiver has its message.
   */
  lemma KernelCallersAreServed<U, M>(machines: seq<Machine<U, M>>, moves: seq<Move<U, M>>, capacity: nat, i: nat, t: Q.Tid)
    requires IsRun(machines, moves) && Good(machines[0]) && QT.Starts(machines[0].queue, capacity) && i < |machines|
    requires t < |machines[i].queue.pcs|
    ensures var q, h := machines[i].queue, HistoryOf(machines, moves, i);
            && t < |h.tasks| && t < |q.ret| && t < |q.arg|
            && h.takes <= |h.puts| && q.sent == h.puts && q.taken == h.puts[..h.takes]
            && (q.pcs[t] == Q.Idle && h.tasks[t].called ==> q.ret[t] == if h.tasks[t].served then 0 else -1)
            && (h.tasks[t].got.Some? ==> q.arg[t] == h.tasks[t].got.value)
            && (H.Sending(q.pcs[t]) ==> h.tasks[t].given == H.Some(q.arg[t]))
  {
    RunAgrees(machines, moves, capacity, i);
    assert H.Fits(machines[i].queue, t, HistoryOf(machines, moves, i).tasks[t]);
  }
}
